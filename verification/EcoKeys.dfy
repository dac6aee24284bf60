/**
 * The field grammar of the economy hash: five parts joined by the unit separator, the last
 * of which may itself contain the separator.
 */
module EcoKeys {
  import opened Basics

  const SEP: char := '\U{1F}'
  const MEASURE_AMOUNT := "a"
  const MEASURE_COUNT := "n"

  /** A base flow cell of one game day. */
  datatype FlowId = FlowId(provenance: string, flow: string, currency: string, reason: string)

  datatype Cell = Cell(measure: string, id: FlowId)

  function EcoField(measure: string, id: FlowId): string {
    measure + [SEP] + id.provenance + [SEP] + id.flow + [SEP] + id.currency + [SEP] + id.reason
  }

  /** The part before the first separator and everything after it. */
  function Cut(s: string): (r: Option<(string, string)>)
    ensures r.Some? ==> |r.value.1| < |s|
  {
    if s == "" then None
    else if s[0] == SEP then Some(("", s[1..]))
    else
      match Cut(s[1..])
      case None => None
      case Some((head, rest)) => Some(([s[0]] + head, rest))
  }

  /** Split on the separator; the first four parts and the rest verbatim. */
  function ParseEcoField(field: string): Option<Cell> {
    match Cut(field)
    case None => None
    case Some((measure, rest1)) =>
      match Cut(rest1)
      case None => None
      case Some((provenance, rest2)) =>
        match Cut(rest2)
        case None => None
        case Some((flow, rest3)) =>
          match Cut(rest3)
          case None => None
          case Some((currency, reason)) => Some(Cell(measure, FlowId(provenance, flow, currency, reason)))
  }

  lemma {:induction false} CutInverts(s: string)
    ensures Cut(s).Some? ==> SEP !in Cut(s).value.0 && s == Cut(s).value.0 + [SEP] + Cut(s).value.1
    ensures Cut(s).None? ==> SEP !in s
  {
    if s != "" && s[0] != SEP {
      CutInverts(s[1..]);
      assert s == [s[0]] + s[1..];
    } else if s != "" {
      assert s == "" + [SEP] + s[1..];
    }
  }

  lemma {:induction false} CutFirst(head: string, rest: string)
    requires SEP !in head
    ensures Cut(head + [SEP] + rest) == Some((head, rest))
  {
    var s := head + [SEP] + rest;
    if head == "" {
      assert s[1..] == rest;
    } else {
      assert s[1..] == head[1..] + [SEP] + rest;
      CutFirst(head[1..], rest);
      assert head == [head[0]] + head[1..];
    }
  }

  predicate CleanCell(c: Cell) {
    SEP !in c.measure && CleanId(c.id)
  }

  predicate CleanId(id: FlowId) {
    SEP !in id.provenance && SEP !in id.flow && SEP !in id.currency
  }

  /** One part more: what follows the first separator, cut again. */
  lemma {:induction false} CutChain(s: string, head: string, rest: string, tail: string)
    requires Cut(s) == Some((head, rest)) && rest == tail
    ensures SEP !in head && s == head + [SEP] + tail
  {
    CutInverts(s);
  }

  /** What a field parses to builds the field back, so no two fields parse to one cell. */
  lemma {:induction false} ParseInverts(field: string)
    ensures var p := ParseEcoField(field); p.Some? ==> CleanCell(p.value) && EcoField(p.value.measure, p.value.id) == field
  {
    hide Cut;
    if ParseEcoField(field).Some? {
      var c := ParseEcoField(field).value;
      var r1 := Cut(field).value.1;
      var r2 := Cut(r1).value.1;
      var r3 := Cut(r2).value.1;
      CutChain(r3, c.id.currency, c.id.reason, c.id.reason);
      CutChain(r2, c.id.flow, r3, r3);
      CutChain(r1, c.id.provenance, r2, r2);
      CutChain(field, c.measure, r1, r1);
      FieldParts(c.measure, c.id);
    }
  }

  lemma FieldParts(measure: string, id: FlowId)
    ensures EcoField(measure, id)
         == measure + [SEP] + (id.provenance + [SEP] + (id.flow + [SEP] + (id.currency + [SEP] + id.reason)))
  {
  }

  /** Parsing a built field gives its parts back exactly when no part but the reason holds the separator. */
  lemma {:induction false} EcoFieldRoundTripIff(measure: string, id: FlowId)
    ensures ParseEcoField(EcoField(measure, id)) == Some(Cell(measure, id)) <==> CleanCell(Cell(measure, id))
  {
    ParseInverts(EcoField(measure, id));
    if CleanCell(Cell(measure, id)) {
      var r3 := id.currency + [SEP] + id.reason;
      var r2 := id.flow + [SEP] + r3;
      var r1 := id.provenance + [SEP] + r2;
      FieldParts(measure, id);
      CutFirst(measure, r1);
      CutFirst(id.provenance, r2);
      CutFirst(id.flow, r3);
      CutFirst(id.currency, id.reason);
    }
  }

  /** The written form: five parts joined by the unit separator, `a` for amounts and `n` for counts. */
  lemma FieldFormat()
    ensures EcoField(MEASURE_AMOUNT, FlowId("server", "sink", "gem", "shop")) == "a\U{1F}server\U{1F}sink\U{1F}gem\U{1F}shop"
    ensures EcoField(MEASURE_COUNT, FlowId("client", "source", "gem", "")) == "n\U{1F}client\U{1F}source\U{1F}gem\U{1F}"
  {
  }
}
