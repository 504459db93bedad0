/** Probability of backtest overfitting (`backtest/pbo.py`): the fast block-additive form against the
    plain one that gathers the rows of every partition and measures them directly. */
module Pbo {
  import opened Prelude

  type Matrix = seq<seq<real>>

  const MIN_COMBOS := 10

  ghost predicate Rectangular(m: Matrix, n: nat) {
    forall i :: 0 <= i < |m| ==> |m[i]| == n
  }

  function Column(m: Matrix, c: nat): (col: seq<real>)
    requires forall i :: 0 <= i < |m| ==> c < |m[i]|
    ensures |col| == |m| && forall i :: 0 <= i < |m| ==> col[i] == m[i][c]
  {
    seq(|m|, i requires 0 <= i < |m| => m[i][c])
  }

  function Square(x: real): real {
    x * x
  }

  function Squares(xs: seq<real>): (ys: seq<real>)
    ensures |ys| == |xs|
  {
    if xs == [] then [] else Squares(xs[..|xs| - 1]) + [Square(xs[|xs| - 1])]
  }

  // ----- scores -----

  /** `x` times its absolute value: it orders numbers as `x` does. */
  function SignedSquare(x: real): real {
    if x >= 0.0 then Square(x) else -Square(-x)
  }

  /** A Sharpe ratio up to order: `mean / std` is represented by its signed square, which is the signed
      square of the mean over the variance, so no square root is needed. */
  datatype Score = NegInf | Ratio(signedSquare: real)

  predicate Below(a: Score, b: Score) {
    b.Ratio? && (a.NegInf? || a.signedSquare < b.signedSquare)
  }

  function ScoreOf(mean: real, variance: real): Score {
    if variance > 0.0 then Ratio(SignedSquare(mean) / variance) else NegInf
  }

  lemma {:induction false} SquareOrder(x: real, y: real)
    requires 0.0 <= x < y
    ensures Square(x) < Square(y)
  {
    var d := y - x;
    MulPositive(d, y);
    MulNonNeg(d, x);
    assert y * y == x * x + d * x + d * y;
  }

  lemma {:induction false} SignedSquareOrder(x: real, y: real)
    requires x < y
    ensures SignedSquare(x) < SignedSquare(y)
  {
    hide Square;
    if x >= 0.0 {
      SquareOrder(x, y);
    } else if y < 0.0 {
      SquareOrder(-y, -x);
    } else {
      SquarePositive(-x);
      SquareNonNeg(y);
    }
  }

  function Times(x: real, y: real): real {
    x * y
  }

  lemma {:induction false} TimesPositive(x: real, y: real)
    requires x > 0.0 && y > 0.0
    ensures Times(x, y) > 0.0
  {}

  lemma {:induction false} SquareIsTimes(x: real)
    ensures Square(x) == Times(x, x)
  {}

  lemma {:induction false} SquarePositive(x: real)
    requires x > 0.0
    ensures Square(x) > 0.0
  {
    hide Square, Times;
    SquareIsTimes(x);
    TimesPositive(x, x);
  }

  lemma {:induction false} SquareNonNeg(x: real)
    ensures Square(x) >= 0.0
  {}

  lemma {:induction false} QuotientSquare(a: real, k: real)
    requires k > 0.0 && Square(k) > 0.0
    ensures Square(a) / Square(k) == Square(a / k)
  {
    var p := a / k;
    assert p * k == a;
    assert Square(p) * Square(k) == Square(a) by { assert (p * p) * (k * k) == (p * k) * (p * k); }
    hide Square;
    DivCancel(Square(a), Square(k));
    MulCancelEq(Square(a) / Square(k), Square(p), Square(k));
  }

  lemma {:induction false} NegQuotient(a: real, k: real)
    requires k > 0.0
    ensures (-a) / k == -(a / k)
  {
    DivCancel(a, k);
    DivCancel(-a, k);
    assert -(a / k) * k == -a;
    MulCancelEq((-a) / k, -(a / k), k);
  }

  lemma {:induction false} QuotientSign(a: real, k: real)
    requires k > 0.0
    ensures a >= 0.0 <==> a / k >= 0.0
  {
    DivCancel(a, k);
    if a / k >= 0.0 {
      MulMono(0.0, a / k, k);
    } else {
      MulStrict(a / k, 0.0, k);
    }
  }

  lemma {:induction false} SignedSquareQuotient(mean: real, std: real)
    requires std > 0.0 && Square(std) > 0.0
    ensures SignedSquare(mean) / Square(std) == SignedSquare(mean / std)
  {
    hide Square;
    NegQuotient(mean, std);
    QuotientSign(mean, std);
    QuotientSquare(mean, std);
    QuotientSquare(-mean, std);
    NegQuotient(Square(-mean), Square(std));
  }

  /** Whatever the square roots of two positive variances are, comparing the scores is comparing the
      ratios of mean to standard deviation. */
  lemma {:induction false} ScoreOrdersSharpe(mean: real, std: real, mean': real, std': real)
    requires std > 0.0 && std' > 0.0
    ensures Below(ScoreOf(mean, Square(std)), ScoreOf(mean', Square(std'))) <==> mean / std < mean' / std'
  {
    hide Square, SignedSquare;
    SquarePositive(std);
    SquarePositive(std');
    SignedSquareQuotient(mean, std);
    SignedSquareQuotient(mean', std');
    SignedOrderIff(mean / std, mean' / std');
  }

  lemma {:induction false} SignedOrderIff(x: real, y: real)
    ensures x < y <==> SignedSquare(x) < SignedSquare(y)
  {
    hide SignedSquare;
    if x < y {
      SignedSquareOrder(x, y);
    } else if y < x {
      SignedSquareOrder(y, x);
    }
  }

  /** The fast score: mean and variance from a sum, a sum of squares and a count; the clip at zero is
      the source's. */
  function FastScore(sum: real, sumSq: real, count: nat): Score
    requires count > 0
  {
    var mean := sum / count as real;
    ScoreOf(mean, Max(Moment(sum, sumSq, count), 0.0))
  }

  function Deviations(xs: seq<real>, mean: real): (ds: seq<real>)
    ensures |ds| == |xs|
  {
    if xs == [] then [] else Deviations(xs[..|xs| - 1], mean) + [Square(xs[|xs| - 1] - mean)]
  }

  function MeanOf(xs: seq<real>): real
    requires xs != []
  {
    Sum(xs) / |xs| as real
  }

  function Variance(xs: seq<real>): real
    requires xs != []
  {
    Sum(Deviations(xs, MeanOf(xs))) / |xs| as real
  }

  /** The plain score: the population variance as the mean squared deviation. */
  function PlainScore(xs: seq<real>): Score {
    if xs == [] then NegInf else ScoreOf(MeanOf(xs), Variance(xs))
  }

  function Expanded(sumSq: real, sum: real, m: real, n: nat): real {
    sumSq - 2.0 * m * sum + n as real * (m * m)
  }

  lemma {:induction false} ExpandedStep(sumSq: real, sum: real, m: real, n: nat, x: real)
    ensures Expanded(sumSq + Square(x), sum + x, m, n + 1) == Expanded(sumSq, sum, m, n) + Square(x - m)
  {
    assert (x - m) * (x - m) == x * x - 2.0 * m * x + m * m;
    assert 2.0 * m * (sum + x) == 2.0 * m * sum + 2.0 * m * x;
    assert (n + 1) as real * (m * m) == n as real * (m * m) + m * m;
  }

  lemma {:induction false} DeviationsExpand(xs: seq<real>, m: real)
    ensures Sum(Deviations(xs, m)) == Expanded(Sum(Squares(xs)), Sum(xs), m, |xs|)
  {
    if xs == [] {
      assert Expanded(0.0, 0.0, m, 0) == 0.0;
    } else {
      var front, last := xs[..|xs| - 1], xs[|xs| - 1];
      hide Square, Expanded;
      DeviationsExpand(front, m);
      SumSnoc(Deviations(front, m), Square(last - m));
      SumSnoc(Squares(front), Square(last));
      ExpandedStep(Sum(Squares(front)), Sum(front), m, |front|, last);
    }
  }

  lemma {:induction false} DeviationsNonNeg(xs: seq<real>, m: real)
    ensures Sum(Deviations(xs, m)) >= 0.0
  {
    if xs != [] {
      var front, last := xs[..|xs| - 1], xs[|xs| - 1];
      assert Square(last - m) >= 0.0;
      hide Square;
      DeviationsNonNeg(front, m);
      SumSnoc(Deviations(front, m), Square(last - m));
    }
  }

  lemma {:induction false} MeanOfSquares(sumSq: real, sum: real, n: nat, mean: real)
    requires n > 0 && mean == sum / n as real
    ensures Expanded(sumSq, sum, mean, n) / n as real == Moment(sum, sumSq, n)
  {
    assert mean * n as real == sum;
    assert n as real * (mean * mean) == sum * mean;
    assert 2.0 * mean * sum == 2.0 * (sum * mean);
    assert Expanded(sumSq, sum, mean, n) == sumSq - sum * mean;
    DivideDifference(sumSq, sum, mean, n as real);
  }

  lemma {:induction false} DivideDifference(a: real, b: real, c: real, n: real)
    requires n > 0.0
    ensures (a - b * c) / n == a / n - (b / n) * c
  {
    var p, q := a / n, b / n;
    assert p * n == a && q * n == b;
    assert (p - q * c) * n == a - b * c;
    DivCancel(a - b * c, n);
    MulCancelEq((a - b * c) / n, p - q * c, n);
  }

  function Moment(sum: real, sumSq: real, count: nat): real
    requires count > 0
  {
    sumSq / count as real - Square(sum / count as real)
  }

  lemma {:induction false} MomentIsVariance(xs: seq<real>)
    requires xs != []
    ensures Moment(Sum(xs), Sum(Squares(xs)), |xs|) == Variance(xs) >= 0.0
  {
    DeviationsExpand(xs, MeanOf(xs));
    DeviationsNonNeg(xs, MeanOf(xs));
    MeanOfSquares(Sum(Squares(xs)), Sum(xs), |xs|, MeanOf(xs));
    DivMono(0.0, Sum(Deviations(xs, MeanOf(xs))), |xs| as real);
    assert Variance(xs) == Expanded(Sum(Squares(xs)), Sum(xs), MeanOf(xs), |xs|) / |xs| as real;
    hide *;
  }

  /** The fast score of a sample's own sums is its plain score; in particular the variance formula is
      never negative and the clip changes nothing. */
  lemma {:induction false} FastIsPlain(xs: seq<real>)
    requires xs != []
    ensures FastScore(Sum(xs), Sum(Squares(xs)), |xs|) == PlainScore(xs)
    ensures Moment(Sum(xs), Sum(Squares(xs)), |xs|) >= 0.0
  {
    MomentIsVariance(xs);
    hide Moment, Variance, ScoreOf, Sum, Squares;
  }

  // ----- rows of a split, and their sums from block sums -----

  function BlockIndex(i: nat, r: nat): nat
    requires r > 0
  {
    i / r
  }

  /** The entries of a column whose row lies in one of the blocks `blocks`, `r` rows to a block. */
  function Keep(xs: seq<real>, r: nat, blocks: set<nat>): seq<real>
    requires r > 0
  {
    if xs == [] then []
    else
      var k := |xs| - 1;
      Keep(xs[..k], r, blocks) + if BlockIndex(k, r) in blocks then [xs[k]] else []
  }

  /** Per-block sums: one number for each of the `s` blocks of `r` rows. */
  function BlockSums(xs: seq<real>, r: nat, s: nat): (sums: seq<real>)
    requires |xs| == s * r
    ensures |sums| == s
  {
    if s == 0 then []
    else
      assert s * r == (s - 1) * r + r;
      BlockSums(xs[..(s - 1) * r], r, s - 1) + [Sum(xs[(s - 1) * r..])]
  }

  /** One row of a matrix product. */
  function Dot(weights: seq<real>, xs: seq<real>): real
    requires |weights| == |xs|
  {
    if xs == [] then 0.0
    else
      var k := |xs| - 1;
      Dot(weights[..k], xs[..k]) + weights[k] * xs[k]
  }

  function Membership(blocks: set<nat>, s: nat): (ws: seq<real>)
    ensures |ws| == s
  {
    seq(s, j => if j in blocks then 1.0 else 0.0)
  }

  function Blocks(s: nat): (blocks: set<nat>)
    ensures forall j: nat :: j in blocks <==> j < s
    ensures |blocks| == s
  {
    if s == 0 then {} else Blocks(s - 1) + {s - 1}
  }

  lemma {:induction false} MulMonoInt(a: nat, b: nat, r: nat)
    requires a < b
    ensures a * r + r <= b * r
  {
    assert (b - a - 1) * r >= 0;
  }

  lemma {:induction false} BlockOf(i: nat, r: nat, s: nat)
    requires r > 0 && s * r <= i < s * r + r
    ensures BlockIndex(i, r) == s
  {
    var q := i / r;
    assert i == q * r + i % r;
    if q < s {
      MulMonoInt(q, s, r);
    } else if q > s {
      MulMonoInt(s, q, r);
    }
  }

  lemma {:induction false} KeepBlock(xs: seq<real>, block: seq<real>, r: nat, s: nat, blocks: set<nat>)
    requires r > 0 && |xs| == s * r && |block| <= r
    ensures Keep(xs + block, r, blocks) == Keep(xs, r, blocks) + if s in blocks then block else []
  {
    if block == [] {
      assert xs + block == xs;
    } else {
      var k := |block| - 1;
      KeepBlock(xs, block[..k], r, s, blocks);
      assert (xs + block)[..|xs| + k] == xs + block[..k];
      BlockOf(|xs| + k, r, s);
      assert block == block[..k] + [block[k]];
    }
  }

  lemma {:induction false} LastBlock(xs: seq<real>, r: nat, s: nat, blocks: set<nat>) returns (front: seq<real>, block: seq<real>)
    requires r > 0 && s > 0 && |xs| == s * r
    ensures |front| == (s - 1) * r && |block| == r && xs == front + block
    ensures front == xs[..(s - 1) * r] && block == xs[(s - 1) * r..]
    ensures Keep(xs, r, blocks) == Keep(front, r, blocks) + if s - 1 in blocks then block else []
  {
    assert s * r == (s - 1) * r + r;
    front, block := xs[..(s - 1) * r], xs[(s - 1) * r..];
    assert xs == front + block;
    KeepBlock(front, block, r, s - 1, blocks);
  }

  /** A membership row times the block sums is the sum over the rows the split keeps. */
  lemma {:induction false} DotIsKept(xs: seq<real>, r: nat, s: nat, blocks: set<nat>)
    requires r > 0 && |xs| == s * r
    ensures Dot(Membership(blocks, s), BlockSums(xs, r, s)) == Sum(Keep(xs, r, blocks))
  {
    if s > 0 {
      var front, block := LastBlock(xs, r, s, blocks);
      DotIsKept(front, r, s - 1, blocks);
      assert Membership(blocks, s)[..s - 1] == Membership(blocks, s - 1);
      assert BlockSums(xs, r, s)[..s - 1] == BlockSums(front, r, s - 1);
      SumConcat(Keep(front, r, blocks), if s - 1 in blocks then block else []);
    }
  }

  /** The whole column is what the train blocks keep plus what the test blocks keep. */
  lemma {:induction false} TotalSplits(xs: seq<real>, r: nat, s: nat, train: set<nat>, test: set<nat>)
    requires r > 0 && |xs| == s * r
    requires forall j: nat :: j < s ==> (j in test <==> j !in train)
    ensures Sum(BlockSums(xs, r, s)) == Sum(Keep(xs, r, train)) + Sum(Keep(xs, r, test))
  {
    if s > 0 {
      var front, block := LastBlock(xs, r, s, train);
      var _, _ := LastBlock(xs, r, s, test);
      TotalSplits(front, r, s - 1, train, test);
      SumSnoc(BlockSums(front, r, s - 1), Sum(block));
      SumConcat(Keep(front, r, train), if s - 1 in train then block else []);
      SumConcat(Keep(front, r, test), if s - 1 in test then block else []);
    }
  }

  lemma {:induction false} SquaresSnoc(xs: seq<real>, x: real)
    ensures Squares(xs + [x]) == Squares(xs) + [Square(x)]
  {
    assert (xs + [x])[..|xs|] == xs;
  }

  lemma {:induction false} KeptSquares(xs: seq<real>, r: nat, blocks: set<nat>)
    requires r > 0
    ensures Squares(Keep(xs, r, blocks)) == Keep(Squares(xs), r, blocks)
  {
    if xs != [] {
      hide Square, BlockIndex;
      var k := |xs| - 1;
      var kept := Keep(xs[..k], r, blocks);
      KeptSquares(xs[..k], r, blocks);
      assert Squares(xs)[..k] == Squares(xs[..k]);
      if BlockIndex(k, r) in blocks {
        SquaresSnoc(kept, xs[k]);
      } else {
        assert Keep(xs, r, blocks) == kept;
      }
    }
  }

  lemma {:induction false} ChosenStep(s: nat, blocks: set<nat>)
    requires s > 0
    ensures |Blocks(s) * blocks| == |Blocks(s - 1) * blocks| + if s - 1 in blocks then 1 else 0
  {
    if s - 1 in blocks {
      assert Blocks(s) * blocks == Blocks(s - 1) * blocks + {s - 1};
    } else {
      assert Blocks(s) * blocks == Blocks(s - 1) * blocks;
    }
  }

  lemma {:induction false} OneMoreBlock(k: nat, r: nat)
    ensures (k + 1) * r == k * r + r
  {}

  /** Every block contributes all of its `r` rows. */
  lemma {:induction false} KeptCount(xs: seq<real>, r: nat, s: nat, blocks: set<nat>)
    requires r > 0 && |xs| == s * r
    ensures |Keep(xs, r, blocks)| == |Blocks(s) * blocks| * r
  {
    if s == 0 {
      assert Blocks(s) * blocks == {};
    } else {
      var front, block := LastBlock(xs, r, s, blocks);
      KeptCount(front, r, s - 1, blocks);
      ChosenStep(s, blocks);
      OneMoreBlock(|Blocks(s - 1) * blocks|, r);
    }
  }

  // ----- the splits -----

  function WithEach(x: nat, cs: seq<set<nat>>): (ds: seq<set<nat>>)
    ensures |ds| == |cs|
    ensures forall i :: 0 <= i < |cs| ==> ds[i] == cs[i] + {x}
  {
    seq(|cs|, i requires 0 <= i < |cs| => cs[i] + {x})
  }

  /** The `k`-element choices from `lo`, ..., `s - 1`, those with the smallest elements first. */
  function Combos(lo: nat, s: nat, k: nat): seq<set<nat>>
    decreases s - lo
  {
    if k == 0 then [{}]
    else if lo >= s then []
    else WithEach(lo, Combos(lo + 1, s, k - 1)) + Combos(lo + 1, s, k)
  }

  ghost predicate Choice(a: set<nat>, lo: nat, s: nat, k: nat) {
    |a| == k && forall j :: j in a ==> lo <= j < s
  }

  lemma {:induction false} CombosSound(lo: nat, s: nat, k: nat, i: nat)
    requires i < |Combos(lo, s, k)|
    ensures Choice(Combos(lo, s, k)[i], lo, s, k)
    decreases s - lo
  {
    if k > 0 {
      var first := Combos(lo + 1, s, k - 1);
      if i < |first| {
        CombosSound(lo + 1, s, k - 1, i);
      } else {
        CombosSound(lo + 1, s, k, i - |first|);
      }
    }
  }

  lemma {:induction false} CombosComplete(lo: nat, s: nat, k: nat, a: set<nat>) returns (i: nat)
    requires Choice(a, lo, s, k)
    ensures i < |Combos(lo, s, k)| && Combos(lo, s, k)[i] == a
    decreases s - lo
  {
    if k == 0 {
      i := 0;
    } else {
      ChoiceNeedsRoom(a, lo, s, k);
      if lo in a {
        i := CombosComplete(lo + 1, s, k - 1, a - {lo});
        assert a == (a - {lo}) + {lo};
      } else {
        i := CombosComplete(lo + 1, s, k, a);
        i := i + |Combos(lo + 1, s, k - 1)|;
      }
    }
  }

  lemma {:induction false} ChoiceNeedsRoom(a: set<nat>, lo: nat, s: nat, k: nat)
    requires Choice(a, lo, s, k) && k > 0
    ensures lo < s
  {
    var x :| x in a;
  }

  lemma {:induction false} WithEachInjective(x: nat, a: set<nat>, b: set<nat>)
    requires x !in a && x !in b && a != b
    ensures a + {x} != b + {x}
  {
    assert a == a + {x} - {x} && b == b + {x} - {x};
  }

  lemma {:induction false} CombosParts(lo: nat, s: nat, k: nat, i: nat) returns (first: seq<set<nat>>, rest: seq<set<nat>>)
    requires i < |Combos(lo, s, k)| && k > 0
    ensures lo < s && first == Combos(lo + 1, s, k - 1) && rest == Combos(lo + 1, s, k)
    ensures |Combos(lo, s, k)| == |first| + |rest|
    ensures Combos(lo, s, k)[i] == if i < |first| then first[i] + {lo} else rest[i - |first|]
    ensures if i < |first| then lo !in first[i] else lo !in rest[i - |first|]
  {
    first, rest := Combos(lo + 1, s, k - 1), Combos(lo + 1, s, k);
    if i < |first| {
      CombosSound(lo + 1, s, k - 1, i);
    } else {
      CombosSound(lo + 1, s, k, i - |first|);
    }
  }

  lemma {:induction false} CombosDistinct(lo: nat, s: nat, k: nat, i: nat, j: nat)
    requires i < j < |Combos(lo, s, k)|
    ensures Combos(lo, s, k)[i] != Combos(lo, s, k)[j]
    decreases s - lo
  {
    if k > 0 {
      var first, rest := CombosParts(lo, s, k, i);
      var _, _ := CombosParts(lo, s, k, j);
      hide Combos;
      if j < |first| {
        CombosDistinct(lo + 1, s, k - 1, i, j);
        WithEachInjective(lo, first[i], first[j]);
        assert Combos(lo, s, k)[i] != Combos(lo, s, k)[j];
      } else if i >= |first| {
        CombosDistinct(lo + 1, s, k, i - |first|, j - |first|);
        assert Combos(lo, s, k)[i] != Combos(lo, s, k)[j];
      } else {
        assert lo in Combos(lo, s, k)[i] && lo !in Combos(lo, s, k)[j];
      }
    }
  }

  function TrainSets(s: nat): seq<set<nat>> {
    Combos(0, s, s / 2)
  }

  /** Every way to train on half of the blocks. */
  ghost function Splits(s: nat): set<set<nat>> {
    set a | a <= Blocks(s) && |a| == s / 2
  }

  /** The enumerated splits are exactly the half-size choices of blocks, each once, and swapping train
      and test blocks of a split gives another one. */
  lemma {:induction false} TrainSetsAreSplits(s: nat)
    ensures forall a :: a in TrainSets(s) <==> a in Splits(s)
    ensures forall i, j :: 0 <= i < j < |TrainSets(s)| ==> TrainSets(s)[i] != TrainSets(s)[j]
    ensures s % 2 == 0 ==> forall a :: a in Splits(s) ==> Blocks(s) - a in Splits(s)
  {
    var all := TrainSets(s);
    forall a ensures a in all <==> a in Splits(s) {
      if a in all {
        var i :| 0 <= i < |all| && all[i] == a;
        CombosSound(0, s, s / 2, i);
      }
      if a in Splits(s) {
        var i := CombosComplete(0, s, s / 2, a);
        assert all[i] in all;
      }
    }
    forall i, j | 0 <= i < j < |all| ensures all[i] != all[j] {
      CombosDistinct(0, s, s / 2, i, j);
    }
    forall a | a in Splits(s) && s % 2 == 0 ensures Blocks(s) - a in Splits(s) {
      assert Blocks(s) == a + (Blocks(s) - a);
    }
  }

  // ----- ranks -----

  /** The first position whose score no other score exceeds. */
  function ArgMax(scores: seq<Score>): (best: nat)
    requires scores != []
    ensures best < |scores|
    ensures forall c :: 0 <= c < |scores| ==> !Below(scores[best], scores[c])
    ensures forall c :: 0 <= c < best ==> Below(scores[c], scores[best])
  {
    if |scores| == 1 then 0
    else
      var k := |scores| - 1;
      var best := ArgMax(scores[..k]);
      if Below(scores[best], scores[k]) then k else best
  }

  function CountBelow(scores: seq<Score>, x: Score): (n: nat)
    ensures n <= |scores|
  {
    if scores == [] then 0
    else
      var k := |scores| - 1;
      CountBelow(scores[..k], x) + if Below(scores[k], x) then 1 else 0
  }

  /** Share of the other combos that the IS-best strictly beats out of sample. */
  function RelativeRank(oos: seq<Score>, best: nat): real
    requires |oos| >= 2 && best < |oos|
  {
    CountBelow(oos, oos[best]) as real / (|oos| - 1) as real
  }

  predicate Overfit(inSample: seq<Score>, oos: seq<Score>)
    requires |inSample| == |oos| >= 2
  {
    RelativeRank(oos, ArgMax(inSample)) <= 0.5
  }

  /** The combos that score strictly worse than `x`. */
  ghost function WorseThan(scores: seq<Score>, x: Score): set<nat> {
    set c: nat | c < |scores| && Below(scores[c], x)
  }

  lemma {:induction false} CountBelowIs(scores: seq<Score>, x: Score)
    ensures CountBelow(scores, x) == |WorseThan(scores, x)|
  {
    if scores == [] {
      assert WorseThan(scores, x) == {};
    } else {
      var k := |scores| - 1;
      CountBelowIs(scores[..k], x);
      assert WorseThan(scores, x) == WorseThan(scores[..k], x) + if Below(scores[k], x) then {k} else {};
    }
  }

  /** What overfit means: the first of the combos that are in-sample best beats, out of sample, no more than
      half of the others. */
  lemma {:induction false} OverfitMeans(inSample: seq<Score>, oos: seq<Score>, best: nat)
    requires |inSample| == |oos| >= 2 && best < |oos|
    requires (forall c :: 0 <= c < |oos| ==> !Below(inSample[best], inSample[c])) && forall c :: 0 <= c < best ==> Below(inSample[c], inSample[best])
    ensures Overfit(inSample, oos) <==> 2 * |WorseThan(oos, oos[best])| <= |oos| - 1
  {
    assert ArgMax(inSample) == best by { hide Below; }
    CountBelowIs(oos, oos[best]);
    HalfMeans(CountBelow(oos, oos[best]), |oos| - 1);
    hide ArgMax, CountBelow, WorseThan;
  }

  lemma {:induction false} HalfMeans(n: nat, m: nat)
    requires m > 0
    ensures n as real / m as real <= 0.5 <==> 2 * n <= m
  {
    DivCancel(n as real, m as real);
    if n as real / m as real <= 0.5 {
      MulMono(n as real / m as real, 0.5, m as real);
    }
    if 2 * n <= m {
      DivMono(n as real, 0.5 * m as real, m as real);
      assert (0.5 * m as real) / m as real == 0.5;
    }
  }

  lemma {:induction false} RankInUnitInterval(oos: seq<Score>, best: nat)
    requires |oos| >= 2 && best < |oos|
    ensures 0.0 <= RelativeRank(oos, best) <= 1.0
    ensures oos[best].NegInf? ==> RelativeRank(oos, best) == 0.0
  {
    CountBelowOthers(oos, best);
    var others := (|oos| - 1) as real;
    DivMono(0.0, CountBelow(oos, oos[best]) as real, others);
    DivMono(CountBelow(oos, oos[best]) as real, others, others);
  }

  /** A score is not below itself, so at most the others are; nothing is below minus infinity. */
  lemma {:induction false} CountBelowOthers(scores: seq<Score>, best: nat)
    requires best < |scores|
    ensures CountBelow(scores, scores[best]) <= |scores| - 1
    ensures scores[best].NegInf? ==> CountBelow(scores, scores[best]) == 0
  {
    var k := |scores| - 1;
    if best < k {
      CountBelowOthers(scores[..k], best);
    } else {
      NothingBelowNegInf(scores[..k], scores[best]);
    }
  }

  lemma {:induction false} NothingBelowNegInf(scores: seq<Score>, x: Score)
    ensures x.NegInf? ==> CountBelow(scores, x) == 0
  {
    if scores != [] {
      NothingBelowNegInf(scores[..|scores| - 1], x);
    }
  }

  /** Combos without variance rank last: one is picked as IS-best only if every combo is like that, and
      out of sample it beats nobody, which counts as overfit. */
  lemma {:induction false} NoVarianceRanksLast(inSample: seq<Score>, oos: seq<Score>)
    requires |inSample| == |oos| >= 2
    ensures inSample[ArgMax(inSample)].NegInf? <==> forall c :: 0 <= c < |inSample| ==> inSample[c].NegInf?
    ensures oos[ArgMax(inSample)].NegInf? ==> Overfit(inSample, oos)
  {
    var best := ArgMax(inSample);
    RankInUnitInterval(oos, best);
    forall c | 0 <= c < |inSample| && inSample[best].NegInf? ensures inSample[c].NegInf? {
      assert !Below(inSample[best], inSample[c]);
    }
  }

  // ----- the plain statistic -----

  datatype PboError = OddBlockCount | NoBlocks

  function Columns(m: Matrix, n: nat): (cols: seq<seq<real>>)
    requires Rectangular(m, n)
    ensures |cols| == n && forall c :: 0 <= c < n ==> |cols[c]| == |m|
    ensures forall c, i :: 0 <= c < n && 0 <= i < |m| ==> cols[c][i] == m[i][c]
  {
    seq(n, c requires 0 <= c < n => Column(m, c))
  }

  /** The scores of all combos over the rows of the given blocks. */
  function PlainScores(cols: seq<seq<real>>, r: nat, blocks: set<nat>): (scores: seq<Score>)
    requires r > 0
    ensures |scores| == |cols|
    ensures forall c :: 0 <= c < |cols| ==> scores[c] == PlainScore(Keep(cols[c], r, blocks))
  {
    seq(|cols|, c requires 0 <= c < |cols| => PlainScore(Keep(cols[c], r, blocks)))
  }

  predicate PlainOverfit(cols: seq<seq<real>>, r: nat, s: nat, train: set<nat>)
    requires r > 0 && |cols| >= 2
  {
    Overfit(PlainScores(cols, r, train), PlainScores(cols, r, Blocks(s) - train))
  }

  ghost function OverfitSplits(cols: seq<seq<real>>, r: nat, s: nat): set<set<nat>>
    requires r > 0 && |cols| >= 2
  {
    set a | a in Splits(s) && PlainOverfit(cols, r, s, a)
  }

  lemma {:induction false} SomeSplit(s: nat)
    ensures |Splits(s)| > 0
  {
    assert Blocks(s / 2) in Splits(s);
  }

  /** The definition of the statistic: among all ways to train on half of the blocks, the share whose
      best combo in sample lands in the bottom half out of sample. */
  ghost function PlainPbo(cols: seq<seq<real>>, r: nat, s: nat): real
    requires r > 0 && |cols| >= 2
  {
    SomeSplit(s);
    |OverfitSplits(cols, r, s)| as real / |Splits(s)| as real
  }

  ghost function PlainResult(m: Matrix, n: nat, s: nat): Result<Option<real>, PboError>
    requires Rectangular(m, n)
  {
    if n < MIN_COMBOS || |m| < 2 * s then Ok(None)
    else if s % 2 != 0 then Err(OddBlockCount)
    else if s == 0 then Err(NoBlocks)
    else Ok(Some(PlainPbo(Columns(m[..RowsPerBlock(m, s) * s], n), RowsPerBlock(m, s), s)))
  }

  lemma {:induction false} NonPositiveProduct(r: int, s: int)
    requires r <= 0 && s > 0
    ensures r * s <= 0
  {}

  lemma {:induction false} WholeBlocks(t: nat, s: nat)
    requires 0 < s && 2 * s <= t
    ensures t / s > 0 && (t / s) * s <= t
  {
    var r := t / s;
    assert t == r * s + t % s;
    if r <= 0 {
      NonPositiveProduct(r, s);
    }
  }

  /** When there is a result: with ten combos and two rows a block at least; an odd or zero number of blocks is
      an error only then. */
  lemma {:induction false} DefinedWhen(m: Matrix, n: nat, s: nat)
    requires Rectangular(m, n)
    ensures PlainResult(m, n, s) == Ok(None) <==> n < 10 || |m| < 2 * s
    ensures PlainResult(m, n, s).Err? <==> n >= 10 && |m| >= 2 * s && (s % 2 == 1 || s == 0)
  {
    hide PlainPbo;
  }

  function RowsPerBlock(m: Matrix, s: nat): (r: nat)
    requires 0 < s && 2 * s <= |m|
    ensures r > 0 && r * s <= |m| < (r + 1) * s
  {
    WholeBlocks(|m|, s);
    |m| / s
  }

  lemma {:induction false} ShareInUnitInterval(k: nat, n: nat)
    requires k <= n && n > 0
    ensures 0.0 <= k as real / n as real <= 1.0
  {
    DivMono(0.0, k as real, n as real);
    DivMono(k as real, n as real, n as real);
  }

  lemma {:induction false} PboInUnitInterval(m: Matrix, n: nat, s: nat)
    requires Rectangular(m, n)
    ensures match PlainResult(m, n, s) case Ok(Some(pbo)) => 0.0 <= pbo <= 1.0 case _ => true
  {
    if !(n < MIN_COMBOS || |m| < 2 * s) && s % 2 == 0 && s > 0 {
      var r := RowsPerBlock(m, s);
      var over := OverfitSplits(Columns(m[..r * s], n), r, s);
      SomeSplit(s);
      SubsetCount(over, Splits(s));
      hide Splits;
      ShareInUnitInterval(|over|, |Splits(s)|);
      hide OverfitSplits, Columns, RowsPerBlock;
    }
  }

  lemma {:induction false} SubsetCount<T>(a: set<T>, b: set<T>)
    requires a <= b
    ensures |a| <= |b|
  {
    assert b == a + (b - a);
  }

  // ----- the fast form -----

  function FastIn(w: seq<real>, sums: seq<real>, sumSqs: seq<real>, count: nat): Score
    requires |w| == |sums| == |sumSqs| && count > 0
  {
    FastScore(Dot(w, sums), Dot(w, sumSqs), count)
  }

  function FastOut(w: seq<real>, sums: seq<real>, sumSqs: seq<real>, count: nat): Score
    requires |w| == |sums| == |sumSqs| && count > 0
  {
    FastScore(Sum(sums) - Dot(w, sums), Sum(sumSqs) - Dot(w, sumSqs), count)
  }

  lemma {:induction false} SplitCounts(s: nat, train: set<nat>)
    requires s % 2 == 0 && train in Splits(s)
    ensures |Blocks(s) * train| == s / 2 == |Blocks(s) * (Blocks(s) - train)|
  {
    assert Blocks(s) * train == train && Blocks(s) * (Blocks(s) - train) == Blocks(s) - train;
    assert Blocks(s) == train + (Blocks(s) - train);
  }

  lemma {:induction false} FastKept(xs: seq<real>, r: nat, s: nat, blocks: set<nat>, count: nat)
    requires r > 0 && |xs| == s * r && count == |Blocks(s) * blocks| * r > 0
    ensures FastScore(Sum(Keep(xs, r, blocks)), Sum(Keep(Squares(xs), r, blocks)), count)
         == PlainScore(Keep(xs, r, blocks))
  {
    KeptCount(xs, r, s, blocks);
    KeptSquares(xs, r, blocks);
    hide *;
    FastIsPlain(Keep(xs, r, blocks));
  }

  /** One combo, one split: both block-additive scores are the plain scores of the rows themselves. */
  lemma {:induction false} FastColumn(xs: seq<real>, r: nat, s: nat, train: set<nat>, test: set<nat>, count: nat)
    requires r > 0 && |xs| == s * r && count > 0
    requires count == |Blocks(s) * train| * r == |Blocks(s) * test| * r
    requires forall j: nat :: j < s ==> (j in test <==> j !in train)
    ensures FastIn(Membership(train, s), BlockSums(xs, r, s), BlockSums(Squares(xs), r, s), count)
         == PlainScore(Keep(xs, r, train))
    ensures FastOut(Membership(train, s), BlockSums(xs, r, s), BlockSums(Squares(xs), r, s), count)
         == PlainScore(Keep(xs, r, test))
  {
    hide Square, FastScore, PlainScore, BlockIndex, Membership, Dot, BlockSums, Keep, Sum, Squares, Blocks;
    FastKept(xs, r, s, train, count);
    FastKept(xs, r, s, test, count);
    DotIsKept(xs, r, s, train);
    DotIsKept(Squares(xs), r, s, train);
    TotalSplits(xs, r, s, train, test);
    TotalSplits(Squares(xs), r, s, train, test);
  }

  predicate FastOverfit(w: seq<real>, sums: seq<seq<real>>, sumSqs: seq<seq<real>>, count: nat)
    requires |sums| == |sumSqs| >= 2 && count > 0
    requires forall c :: 0 <= c < |sums| ==> |sums[c]| == |sumSqs[c]| == |w|
  {
    var n := |sums|;
    Overfit(seq(n, c requires 0 <= c < n => FastIn(w, sums[c], sumSqs[c], count)),
            seq(n, c requires 0 <= c < n => FastOut(w, sums[c], sumSqs[c], count)))
  }

  function ColumnSums(cols: seq<seq<real>>, r: nat, s: nat): (sums: seq<seq<real>>)
    requires forall c :: 0 <= c < |cols| ==> |cols[c]| == s * r
    ensures |sums| == |cols| && forall c :: 0 <= c < |cols| ==> sums[c] == BlockSums(cols[c], r, s)
  {
    seq(|cols|, c requires 0 <= c < |cols| => BlockSums(cols[c], r, s))
  }

  function ColumnSquares(cols: seq<seq<real>>): (sqs: seq<seq<real>>)
    ensures |sqs| == |cols| && forall c :: 0 <= c < |cols| ==> sqs[c] == Squares(cols[c])
  {
    seq(|cols|, c requires 0 <= c < |cols| => Squares(cols[c]))
  }

  lemma {:induction false} FastSplit(cols: seq<seq<real>>, r: nat, s: nat, train: set<nat>)
    requires r > 0 && s > 0 && s % 2 == 0 && train in Splits(s) && s / 2 * r > 0
    requires |cols| >= 2 && forall c :: 0 <= c < |cols| ==> |cols[c]| == s * r
    ensures FastOverfit(Membership(train, s), ColumnSums(cols, r, s), ColumnSums(ColumnSquares(cols), r, s), s / 2 * r)
        <==> PlainOverfit(cols, r, s, train)
  {
    var n, w, k := |cols|, Membership(train, s), s / 2 * r;
    var sums, sumSqs := ColumnSums(cols, r, s), ColumnSums(ColumnSquares(cols), r, s);
    SplitCounts(s, train);
    forall c | 0 <= c < n
      ensures FastIn(w, sums[c], sumSqs[c], k) == PlainScore(Keep(cols[c], r, train))
      ensures FastOut(w, sums[c], sumSqs[c], k) == PlainScore(Keep(cols[c], r, Blocks(s) - train))
    {
      FastColumn(cols[c], r, s, train, Blocks(s) - train, k);
    }
    hide FastIn, FastOut, PlainScore, Keep, Splits;
    assert seq(n, c requires 0 <= c < n => FastIn(w, sums[c], sumSqs[c], k)) == PlainScores(cols, r, train);
    assert seq(n, c requires 0 <= c < n => FastOut(w, sums[c], sumSqs[c], k)) == PlainScores(cols, r, Blocks(s) - train);
  }

  function CountTrue(flags: seq<bool>): nat {
    if flags == [] then 0 else CountTrue(flags[..|flags| - 1]) + if flags[|flags| - 1] then 1 else 0
  }

  /** Counting the flagged entries of a list without repetitions counts the set of flagged elements. */
  lemma {:induction false} CountIsCardinality<T>(xs: seq<T>, flags: seq<bool>, good: set<T>)
    requires |xs| == |flags|
    requires forall i, j :: 0 <= i < j < |xs| ==> xs[i] != xs[j]
    requires forall i :: 0 <= i < |xs| ==> (flags[i] <==> xs[i] in good)
    requires forall x :: x in good ==> x in xs
    ensures CountTrue(flags) == |good|
  {
    if xs == [] {
      assert good == {};
    } else {
      var k := |xs| - 1;
      CountIsCardinality(xs[..k], flags[..k], good - {xs[k]});
    }
  }

  lemma {:induction false} CountOverfit(cols: seq<seq<real>>, r: nat, s: nat, flags: seq<bool>)
    requires r > 0 && |cols| >= 2
    requires |flags| == |TrainSets(s)|
    requires forall i :: 0 <= i < |flags| ==> (flags[i] <==> PlainOverfit(cols, r, s, TrainSets(s)[i]))
    ensures CountTrue(flags) == |OverfitSplits(cols, r, s)|
    ensures |flags| == |Splits(s)| > 0
  {
    var train := TrainSets(s);
    TrainSetsAreSplits(s);
    SomeSplit(s);
    hide TrainSets, Splits, PlainOverfit, Blocks;
    forall i | 0 <= i < |train| ensures train[i] in Splits(s) {
      assert train[i] in train;
    }
    CountIsCardinality(train, flags, OverfitSplits(cols, r, s));
    CountIsCardinality(train, seq(|train|, _ => true), Splits(s));
    CountAllTrue(|train|);
  }

  lemma {:induction false} CountAllTrue(n: nat)
    ensures CountTrue(seq(n, _ => true)) == n
  {
    if n > 0 {
      CountAllTrue(n - 1);
      assert seq(n, _ => true)[..n - 1] == seq(n - 1, _ => true);
    }
  }

  method FillMembership(train: seq<set<nat>>, s: nat) returns (p: array2<real>)
    requires forall i, j :: 0 <= i < |train| && j in train[i] ==> j < s
    ensures p.Length0 == |train| && p.Length1 == s
    ensures forall i, j :: 0 <= i < |train| && 0 <= j < s ==> p[i, j] == if j in train[i] then 1.0 else 0.0
  {
    p := new real[|train|, s]((_, _) => 0.0);
    var i := 0;
    while i < |train|
      invariant 0 <= i <= |train|
      invariant forall k, j :: 0 <= k < |train| && 0 <= j < s ==>
        p[k, j] == if k < i && j in train[k] then 1.0 else 0.0
    {
      forall j | j in train[i] {
        p[i, j] := 1.0;
      }
      i := i + 1;
    }
  }

  function Row(p: array2<real>, i: nat): (row: seq<real>)
    requires i < p.Length0
    reads p
    ensures |row| == p.Length1
  {
    seq(p.Length1, j requires 0 <= j < p.Length1 reads p => p[i, j])
  }

  method ProbabilityOfOverfitting(m: Matrix, n: nat, s: nat) returns (result: Result<Option<real>, PboError>)
    requires Rectangular(m, n)
    ensures result == PlainResult(m, n, s)
  {
    if n < MIN_COMBOS || |m| < 2 * s {
      return Ok(None);
    }
    if s % 2 != 0 {
      return Err(OddBlockCount);
    }
    if s == 0 {
      return Err(NoBlocks);
    }
    var r := RowsPerBlock(m, s);
    var cols := Columns(m[..r * s], n);
    assert s * r == r * s && s / 2 * r > 0;
    var sums, sumSqs := ColumnSums(cols, r, s), ColumnSums(ColumnSquares(cols), r, s);
    var train := TrainSets(s);
    TrainSetsAreSplits(s);
    forall i | 0 <= i < |train| ensures train[i] <= Blocks(s) {
      assert train[i] in train;
    }
    var p := FillMembership(train, s);
    var overfit := seq(|train|, i requires 0 <= i < |train| reads p => FastOverfit(Row(p, i), sums, sumSqs, s / 2 * r));
    forall i | 0 <= i < |train| ensures overfit[i] <==> PlainOverfit(cols, r, s, train[i]) {
      assert train[i] in train;
      assert Row(p, i) == Membership(train[i], s);
      FastSplit(cols, r, s, train[i]);
    }
    CountOverfit(cols, r, s, overfit);
    result := Ok(Some(CountTrue(overfit) as real / |train| as real));
  }
}
