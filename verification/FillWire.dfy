/** The wire form of broker events (`orders/fills.py`): text fields of a stream entry, how an event is written
    to them and read back, what a reader makes of fields that are missing or misspelled, and of an entry that it
    cannot trust. */
module FillWire {
  import opened Prelude
  import opened Ledger

  /** A value of the wire dictionary. Decimals travel as their texts and come back as the same numbers, so
      a text that denotes a number is kept as the number; any other text is a `Text`. */
  datatype Field = Text(text: string) | Decimal(value: real) | Execution(id: ExecId)

  type Wire = map<string, Field>

  /** The payload of an entry: a dictionary, or something that is not the JSON text of one. */
  datatype Raw = Garbage | Json(fields: Wire)

  function SideText(side: Side): string {
    match side
    case BUY => "BUY"
    case SELL => "SELL"
    case BUY_TO_OPEN => "BUY_TO_OPEN"
    case SELL_TO_OPEN => "SELL_TO_OPEN"
    case BUY_TO_CLOSE => "BUY_TO_CLOSE"
    case SELL_TO_CLOSE => "SELL_TO_CLOSE"
  }

  function UpperChar(c: char): char {
    if 'a' <= c <= 'z' then c - 'a' + 'A' else c
  }

  function Upper(s: string): (u: string)
    ensures |u| == |s| && forall k :: 0 <= k < |s| ==> u[k] == UpperChar(s[k])
  {
    seq(|s|, k requires 0 <= k < |s| => UpperChar(s[k]))
  }

  function ParseSide(text: string): Side {
    if Upper(text) == "SELL" then SELL else BUY
  }

  function KindText(kind: Kind): string {
    match kind
    case New => "new"
    case PartialFill => "partial_fill"
    case Fill => "fill"
    case Canceled => "canceled"
    case Rejected => "rejected"
    case OtherEvent(name) => name
  }

  function ParseKind(text: string): Kind {
    if text == "new" then New
    else if text == "partial_fill" then PartialFill
    else if text == "fill" then Fill
    else if text == "canceled" then Canceled
    else if text == "rejected" then Rejected
    else OtherEvent(text)
  }

  /** A kind under its own name: `OtherEvent` is for names that are none of the five. */
  predicate ProperKind(kind: Kind) {
    ParseKind(KindText(kind)) == kind
  }

  function Encode(e: FillEvent): Wire {
    map["broker_exec_id" := Execution(e.execId),
        "client_order_id" := Text(e.clientOrderId),
        "broker_order_id" := Text(e.brokerOrderId),
        "symbol" := Text(e.symbol),
        "side" := Text(SideText(e.side)),
        "event_type" := Text(KindText(e.kind)),
        "qty" := Decimal(e.qty),
        "price" := Decimal(e.price),
        "filled_qty" := Decimal(e.filledQty)]
  }

  function TextAt(d: Wire, key: string, missing: string): Option<string> {
    if key !in d then Some(missing) else if d[key].Text? then Some(d[key].text) else None
  }

  /** A missing or empty number is zero; any other text is not a number. */
  function DecimalAt(d: Wire, key: string): Option<real> {
    if key !in d then Some(0.0)
    else
      match d[key]
      case Decimal(value) => Some(value)
      case Text(text) => if text == "" then Some(0.0) else None
      case Execution(_) => None
  }

  function ExecIdAt(d: Wire): Option<ExecId> {
    if "broker_exec_id" !in d then Some(Named(""))
    else
      match d["broker_exec_id"]
      case Execution(id) => Some(id)
      case Text(text) => Some(Named(text))
      case Decimal(_) => None
  }

  /** The event of a wire dictionary, or nothing when a field cannot be read. */
  function Parse(d: Wire): Option<FillEvent> {
    var execId, clientId, brokerId := ExecIdAt(d), TextAt(d, "client_order_id", ""), TextAt(d, "broker_order_id", "");
    var symbol, side, kind := TextAt(d, "symbol", ""), TextAt(d, "side", ""), TextAt(d, "event_type", "new");
    var qty, price, filledQty := DecimalAt(d, "qty"), DecimalAt(d, "price"), DecimalAt(d, "filled_qty");
    if execId.None? || clientId.None? || brokerId.None? || symbol.None? || side.None? || kind.None?
       || qty.None? || price.None? || filledQty.None? then None
    else Some(FillEvent(execId.value, clientId.value, brokerId.value, symbol.value, ParseSide(side.value),
                        ParseKind(kind.value), qty.value, price.value, filledQty.value))
  }

  function Decode(raw: Raw): Option<FillEvent> {
    match raw
    case Garbage => None
    case Json(fields) => Parse(fields)
  }

  lemma {:induction false} SideSurvives(side: Side)
    ensures ParseSide(SideText(side)) == if side == SELL then SELL else BUY
  {
    if side == SELL {
      assert Upper("SELL") == "SELL";
    } else {
      assert |Upper(SideText(side))| != 4;
    }
  }

  /** The trip over the wire gives the event back; only an option side is coarsened, to SELL for SELL and
      to BUY for everything else. */
  lemma {:induction false} WireRoundTrip(e: FillEvent)
    requires ProperKind(e.kind)
    ensures Decode(Json(Encode(e))) == Some(e.(side := if e.side == SELL then SELL else BUY))
  {
    SideSurvives(e.side);
    hide SideText, ParseSide, KindText, ParseKind;
    WireFields(e);
    hide Encode, TextAt, DecimalAt, ExecIdAt;
  }

  lemma {:induction false} WireFields(e: FillEvent)
    ensures var d := Encode(e);
      && ExecIdAt(d) == Some(e.execId)
      && TextAt(d, "client_order_id", "") == Some(e.clientOrderId) && TextAt(d, "broker_order_id", "") == Some(e.brokerOrderId)
      && TextAt(d, "symbol", "") == Some(e.symbol) && TextAt(d, "side", "") == Some(SideText(e.side))
      && TextAt(d, "event_type", "new") == Some(KindText(e.kind))
      && DecimalAt(d, "qty") == Some(e.qty) && DecimalAt(d, "price") == Some(e.price) && DecimalAt(d, "filled_qty") == Some(e.filledQty)
  {}

  /** Nothing the publisher writes is poison to the reader. */
  lemma {:induction false} PublishedIsNeverPoison(e: FillEvent)
    ensures Decode(Json(Encode(e))).Some?
  {
    WireFields(e);
    hide Encode, TextAt, DecimalAt, ExecIdAt, SideText, KindText;
  }

  lemma {:induction false} SideIsIgnored(t: Tables, e: FillEvent, side: Side)
    ensures Ingest(t, e.(side := side)) == Ingest(t, e)
  {
    hide FindByClient, FindByBroker, Seen, Apply, NextStatus;
  }

  /** Ingest takes the side from the order row, so an event that went over the wire does to the ledger
      exactly what the event itself would have done. */
  lemma {:induction false} WireKeepsMeaning(t: Tables, e: FillEvent)
    requires ProperKind(e.kind)
    ensures Decode(Json(Encode(e))).Some? && Ingest(t, Decode(Json(Encode(e))).value) == Ingest(t, e)
  {
    WireRoundTrip(e);
    SideIsIgnored(t, e, if e.side == SELL then SELL else BUY);
    hide Decode, Encode, Ingest;
  }

  // ----- the names on the wire -----

  /** The five kinds travel under their own names, and no other name is one of them. */
  lemma {:induction false} KindNames(text: string)
    ensures ParseKind("new") == New && ParseKind("partial_fill") == PartialFill && ParseKind("fill") == Fill
    ensures ParseKind("canceled") == Canceled && ParseKind("rejected") == Rejected
    ensures text !in {"new", "partial_fill", "fill", "canceled", "rejected"} ==> ParseKind(text) == OtherEvent(text)
    ensures ProperKind(New) && ProperKind(PartialFill) && ProperKind(Fill) && ProperKind(Canceled) && ProperKind(Rejected)
    ensures ProperKind(OtherEvent(text)) <==> text !in {"new", "partial_fill", "fill", "canceled", "rejected"}
  {}

  /** A side is SELL if it is spelled so, in any mixture of capitals, and BUY otherwise. */
  lemma {:induction false} SideNames(text: string)
    ensures ParseSide(text) == SELL <==>
      |text| == 4 && text[0] in {'s', 'S'} && text[1] in {'e', 'E'} && text[2] in {'l', 'L'} && text[3] in {'l', 'L'}
    ensures ParseSide(text) == SELL || ParseSide(text) == BUY
  {
    var u := Upper(text);
    if |text| == 4 {
      assert u == [u[0], u[1], u[2], u[3]];
      assert u == "SELL" <==> u[0] == 'S' && u[1] == 'E' && u[2] == 'L' && u[3] == 'L';
    }
  }

  /** Fields that are missing read as empty, as a purchase, as `new` and as zero. */
  lemma {:induction false} NothingReadsAsNothing()
    ensures Decode(Json(map[])) == Some(FillEvent(Named(""), "", "", "", BUY, New, 0.0, 0.0, 0.0))
  {
    SideNames("");
    KindNames("new");
    hide ParseSide, ParseKind;
  }

  predicate ReadsAsText(d: Wire, key: string) {
    key in d ==> d[key].Text?
  }

  /** A number, or an empty text. */
  predicate ReadsAsNumber(d: Wire, key: string) {
    key in d ==> d[key].Decimal? || d[key] == Text("")
  }

  /** Every field that is there has a value of its kind. */
  predicate Legible(d: Wire) {
    && ("broker_exec_id" in d ==> !d["broker_exec_id"].Decimal?)
    && ReadsAsText(d, "client_order_id") && ReadsAsText(d, "broker_order_id") && ReadsAsText(d, "symbol")
    && ReadsAsText(d, "side") && ReadsAsText(d, "event_type")
    && ReadsAsNumber(d, "qty") && ReadsAsNumber(d, "price") && ReadsAsNumber(d, "filled_qty")
  }

  /** What is poison: no dictionary, or one with a field of the wrong kind. */
  lemma {:induction false} PoisonIff(raw: Raw)
    ensures Decode(raw).None? <==> raw.Garbage? || !Legible(raw.fields)
  {
    hide ParseSide, ParseKind;
  }
}
