/**
 * The economy day view: durable flow cells with the live hash merged over them, cell by
 * cell, at the larger value; and the flush and the seeding that must not change what it shows.
 */
module EconomyRead {
  import opened Basics
  import opened EcoKeys
  import opened Sums

  /** Amounts are validated positive and truncated, so cells hold natural numbers. */
  datatype Value = Value(amount: nat, count: nat)

  /** ECONOMY_FLOW_RESULT of one game day. */
  type Table = map<FlowId, Value>

  /** The hash `eco:{day}` without its seeded marker. */
  type Live = map<string, nat>

  /** What the reader asks for: one currency, and perhaps one provenance. */
  datatype Query = Query(currency: string, provenance: Option<string>)

  const SOURCE := "source"
  const SINK := "sink"

  // ---- Cells of the live hash and their merge ------------------------------------

  /** The cells some field of the hash names. */
  function LiveIds(live: Live): set<FlowId> {
    set f | f in live && ParseEcoField(f).Some? :: ParseEcoField(f).value.id
  }

  /** The value of one measure of a cell; 0 when the hash has no field for it. */
  function LiveValue(live: Live, measure: string, id: FlowId): nat {
    var f := EcoField(measure, id);
    if f in live && ParseEcoField(f) == Some(Cell(measure, id)) then live[f] else 0
  }

  function ValueOf(table: Table, id: FlowId): Value {
    if id in table then table[id] else Value(0, 0)
  }

  function Greatest(a: nat, b: nat): nat {
    Max(a, b)
  }

  /** `GREATEST` per cell and per measure. */
  function MergedValue(durable: Table, live: Live, id: FlowId): Value {
    Value(Greatest(ValueOf(durable, id).amount, LiveValue(live, MEASURE_AMOUNT, id)),
          Greatest(ValueOf(durable, id).count, LiveValue(live, MEASURE_COUNT, id)))
  }

  function Merged(durable: Table, live: Live): Table {
    map id | id in durable.Keys + LiveIds(live) :: MergedValue(durable, live, id)
  }

  // ---- What a view means -----------------------------------------------------------

  predicate Selects(q: Query, id: FlowId) {
    id.currency == q.currency && (q.provenance.Some? ==> id.provenance == q.provenance.value)
  }

  function Amounts(cells: Table, q: Query, flow: string): map<FlowId, int> {
    map id | id in cells && Selects(q, id) && id.flow == flow :: cells[id].amount
  }

  function Counts(cells: Table, q: Query, flow: string): map<FlowId, int> {
    map id | id in cells && Selects(q, id) && id.flow == flow :: cells[id].count
  }

  function ReasonAmounts(cells: Table, q: Query, flow: string, reason: string): map<FlowId, int> {
    map id | id in cells && Selects(q, id) && id.flow == flow && id.reason == reason :: cells[id].amount
  }

  /** One side of the view: totals and the per-reason map. */
  datatype Leg = Leg(amount: int, count: int, byReason: map<string, int>)

  ghost predicate ReasonsAre(byReason: map<string, int>, cells: Table, q: Query, flow: string) {
    forall r :: && Get(byReason, r) == Total(ReasonAmounts(cells, q, flow, r))
                && (r in byReason <==> ReasonAmounts(cells, q, flow, r) != map[])
  }

  /** The totals are sums over the selected cells, in all and reason by reason. */
  ghost predicate LegIs(leg: Leg, cells: Table, q: Query, flow: string) {
    && leg.amount == Total(Amounts(cells, q, flow))
    && leg.count == Total(Counts(cells, q, flow))
    && ReasonsAre(leg.byReason, cells, q, flow)
  }

  datatype View = View(source: Leg, sink: Leg)

  ghost predicate ViewIs(v: View, cells: Table, q: Query) {
    LegIs(v.source, cells, q, SOURCE) && LegIs(v.sink, cells, q, SINK)
  }

  const EMPTY_LEG := Leg(0, 0, map[])

  function Folded(leg: Leg, reason: string, value: Value): Leg {
    Leg(leg.amount + value.amount, leg.count + value.count, Incr(leg.byReason, reason, value.amount))
  }

  /** `foldCell`: a flow type other than the two is ignored. */
  function FoldCell(v: View, flow: string, reason: string, value: Value): View {
    if flow == SOURCE then v.(source := Folded(v.source, reason, value))
    else if flow == SINK then v.(sink := Folded(v.sink, reason, value))
    else v
  }

  // ---- Folding one more cell ---------------------------------------------------------

  /** One cell more changes only its own reason's cells, and only if it is selected. */
  lemma {:induction false} FoldReason(cells: Table, q: Query, flow: string, id: FlowId, value: Value, r: string)
    requires id !in cells
    ensures ReasonAmounts(cells[id := value], q, flow, r) ==
      if Selects(q, id) && id.flow == flow && id.reason == r then ReasonAmounts(cells, q, flow, r)[id := value.amount]
      else ReasonAmounts(cells, q, flow, r)
    ensures id !in ReasonAmounts(cells, q, flow, r)
  {
    hide Selects;
  }

  lemma {:induction false} FoldReasons(leg: Leg, cells: Table, q: Query, flow: string, id: FlowId, value: Value)
    requires ReasonsAre(leg.byReason, cells, q, flow) && id !in cells
    ensures ReasonsAre(if Selects(q, id) && id.flow == flow then Incr(leg.byReason, id.reason, value.amount) else leg.byReason,
                       cells[id := value], q, flow)
  {
    hide Total, Selects, ReasonAmounts;
    var picked := Selects(q, id) && id.flow == flow;
    var after := if picked then Incr(leg.byReason, id.reason, value.amount) else leg.byReason;
    forall r ensures Get(after, r) == Total(ReasonAmounts(cells[id := value], q, flow, r))
      && (r in after <==> ReasonAmounts(cells[id := value], q, flow, r) != map[])
    {
      var before := ReasonAmounts(cells, q, flow, r);
      assert Get(leg.byReason, r) == Total(before);
      FoldReason(cells, q, flow, id, value, r);
      TotalUpdate(before, id, value.amount);
      assert id in before[id := value.amount];
    }
  }

  lemma {:induction false} FoldLeg(leg: Leg, cells: Table, q: Query, flow: string, id: FlowId, value: Value)
    requires LegIs(leg, cells, q, flow) && id !in cells
    ensures LegIs(if Selects(q, id) && id.flow == flow then Folded(leg, id.reason, value) else leg, cells[id := value], q, flow)
  {
    hide Total, Selects, ReasonsAre;
    FoldReasons(leg, cells, q, flow, id, value);
    TotalUpdate(Amounts(cells, q, flow), id, value.amount);
    TotalUpdate(Counts(cells, q, flow), id, value.count);
    if Selects(q, id) && id.flow == flow {
      assert Amounts(cells[id := value], q, flow) == Amounts(cells, q, flow)[id := value.amount];
      assert Counts(cells[id := value], q, flow) == Counts(cells, q, flow)[id := value.count];
    } else {
      assert Amounts(cells[id := value], q, flow) == Amounts(cells, q, flow);
      assert Counts(cells[id := value], q, flow) == Counts(cells, q, flow);
    }
  }

  lemma {:induction false} FoldOne(v: View, cells: Table, q: Query, id: FlowId, value: Value)
    requires ViewIs(v, cells, q) && id !in cells
    ensures ViewIs(if Selects(q, id) then FoldCell(v, id.flow, id.reason, value) else v, cells[id := value], q)
  {
    hide LegIs, Folded;
    FoldLeg(v.source, cells, q, SOURCE, id, value);
    FoldLeg(v.sink, cells, q, SINK, id, value);
  }

  lemma {:induction false} EmptyView(q: Query)
    ensures ViewIs(View(EMPTY_LEG, EMPTY_LEG), map[], q)
  {
    forall flow ensures LegIs(EMPTY_LEG, map[], q, flow) {
      TotalNone(Amounts(map[], q, flow));
      TotalNone(Counts(map[], q, flow));
      forall r ensures ReasonAmounts(map[], q, flow, r) == map[] {
        TotalNone(ReasonAmounts(map[], q, flow, r));
      }
    }
  }

  // ---- Visiting the live hash field by field -----------------------------------------

  /** The accumulators after part of the hash: ids seen, and the running maxima. */
  ghost predicate Maxima(amt: map<FlowId, nat>, cnt: map<FlowId, nat>, meta: set<FlowId>, durable: Table, seen: Live) {
    && meta == durable.Keys + LiveIds(seen)
    && (forall id :: (if id in amt then amt[id] else 0) == MergedValue(durable, seen, id).amount)
    && (forall id :: (if id in cnt then cnt[id] else 0) == MergedValue(durable, seen, id).count)
  }

  lemma {:induction false} LiveValueAdd(seen: Live, f: string, v: nat, measure: string, id: FlowId)
    requires f !in seen
    ensures LiveValue(seen[f := v], measure, id)
         == if ParseEcoField(f) == Some(Cell(measure, id)) then v else LiveValue(seen, measure, id)
  {
    hide ParseEcoField, EcoField;
    ParseInverts(f);
  }

  lemma {:induction false} LiveIdsAdd(seen: Live, f: string, v: nat)
    ensures LiveIds(seen[f := v])
         == LiveIds(seen) + if ParseEcoField(f).Some? then {ParseEcoField(f).value.id} else {}
  {
    hide ParseEcoField;
    var after := seen[f := v];
    forall id ensures id in LiveIds(after) <==>
      id in LiveIds(seen) || (ParseEcoField(f).Some? && id == ParseEcoField(f).value.id)
    {
      if id in LiveIds(seen) {
        var g :| g in seen && ParseEcoField(g).Some? && ParseEcoField(g).value.id == id;
        assert g in after;
      }
      if ParseEcoField(f).Some? && id == ParseEcoField(f).value.id {
        assert f in after;
      }
    }
  }

  // ---- The read service ---------------------------------------------------------------

  class EconomyReadService {
    var durable: Table
    var live: Live

    /** The rows of one currency. */
    function RowsOf(currency: string): Table
      reads this
    {
      map id | id in durable && id.currency == currency :: durable[id]
    }

    method FoldAll(cells: Table, q: Query) returns (v: View)
      requires forall id :: id in cells ==> id.currency == q.currency
      ensures ViewIs(v, cells, q)
    {
      hide ViewIs, FoldCell;
      v := View(EMPTY_LEG, EMPTY_LEG);
      EmptyView(q);
      var todo := cells.Keys;
      ghost var folded: Table := map[];
      while todo != {}
        invariant todo <= cells.Keys
        invariant folded == cells - todo
        invariant ViewIs(v, folded, q)
        decreases |todo|
      {
        var id :| id in todo;
        FoldOne(v, folded, q, id, cells[id]);
        if q.provenance.None? || id.provenance == q.provenance.value {
          v := FoldCell(v, id.flow, id.reason, cells[id]);
        }
        folded := folded[id := cells[id]];
        todo := todo - {id};
      }
      assert folded == cells;
    }

    /** Per-cell maxima of the rows and of the live fields of the currency. */
    method MergeLiveOverDurable(rows: Table, q: Query) returns (v: View, touched: bool)
      requires forall id :: id in rows ==> id.currency == q.currency
      ensures ViewIs(v, Merged(rows, OfCurrency(live, q.currency)), q)
      ensures touched <==> LiveIds(OfCurrency(live, q.currency)) != {}
    {
      hide ViewIs, ParseEcoField, EcoField, Maxima;
      var amt: map<FlowId, nat> := map id | id in rows :: rows[id].amount;
      var cnt: map<FlowId, nat> := map id | id in rows :: rows[id].count;
      var meta := rows.Keys;
      StartMaxima(amt, cnt, rows);
      touched := false;
      var todo := live.Keys;
      ghost var seen: Live := map[];
      while todo != {}
        invariant todo <= live.Keys
        invariant seen == OfCurrency(live - todo, q.currency)
        invariant Maxima(amt, cnt, meta, rows, seen)
        invariant touched <==> LiveIds(seen) != {}
        decreases |todo|
      {
        var f :| f in todo;
        var cell := ParseEcoField(f);
        if cell.Some? && cell.value.id.currency == q.currency {
          touched := true;
          var id := cell.value.id;
          OneFieldMore(amt, cnt, meta, rows, seen, f, live[f]);
          meta := meta + {id};
          if cell.value.measure == MEASURE_AMOUNT {
            amt := amt[id := Greatest(if id in amt then amt[id] else 0, live[f])];
          } else if cell.value.measure == MEASURE_COUNT {
            cnt := cnt[id := Greatest(if id in cnt then cnt[id] else 0, live[f])];
          }
          LiveIdsAdd(seen, f, live[f]);
          seen := seen[f := live[f]];
        }
        OfCurrencyStep(live, todo, q.currency, f);
        todo := todo - {f};
      }
      assert live - {} == live;
      var cells: Table := map id | id in meta :: Value(if id in amt then amt[id] else 0, if id in cnt then cnt[id] else 0);
      MaximaAreMerged(amt, cnt, meta, rows, seen, q.currency, cells);
      v := FoldAll(cells, q);
    }

    /** The headline of a day; an open day is shown with the live hash merged over it. */
    method EconomyDay(q: Query, open: bool) returns (v: View, provisional: bool)
      ensures ViewIs(v, if open then Merged(durable, live) else durable, q)
      ensures provisional <==> open && LiveIds(OfCurrency(live, q.currency)) != {}
    {
      hide ViewIs, ParseEcoField;
      var rows := RowsOf(q.currency);
      v := FoldAll(rows, q);
      provisional := false;
      UntouchedView(v, durable, live, rows, q);
      if open {
        if live != map[] {
          var merged, touched := MergeLiveOverDurable(rows, q);
          if touched {
            provisional := true;
            v := merged;
            WidenView(v, durable, live, rows, q);
          }
        } else {
          StartMaxima(map[], map[], map[]);
          assert OfCurrency(live, q.currency) == map[];
        }
      }
    }

    /** `projectEcoBase`: pair the amount and count fields of each cell. */
    method ProjectEcoBase() returns (rows: Table)
      ensures rows == Merged(map[], live)
    {
      hide ParseEcoField, EcoField, Merged;
      rows := map[];
      NothingLive(rows);
      var todo := live.Keys;
      ghost var seen: Live := map[];
      while todo != {}
        invariant todo <= live.Keys
        invariant seen == live - todo
        invariant rows == Merged(map[], seen)
        decreases |todo|
      {
        var f :| f in todo;
        var cell := ParseEcoField(f);
        if cell.Some? {
          var id := cell.value.id;
          var acc := ValueOf(rows, id);
          if cell.value.measure == MEASURE_AMOUNT {
            acc := acc.(amount := live[f]);
          } else if cell.value.measure == MEASURE_COUNT {
            acc := acc.(count := live[f]);
          }
          ProjectStep(rows, seen, f, live[f], acc);
          rows := rows[id := acc];
        } else {
          ProjectSkip(seen, f, live[f]);
        }
        seen := seen[f := live[f]];
        todo := todo - {f};
      }
      assert seen == live;
    }

    /** Upsert every projected row with `GREATEST`. */
    method FlushBucket()
      modifies this`durable
      ensures durable == Merged(old(durable), live)
    {
      hide Merged, UpsertedSoFar;
      var rows := ProjectEcoBase();
      var todo := rows.Keys;
      UpsertNone(durable, rows);
      while todo != {}
        invariant todo <= rows.Keys
        invariant durable == UpsertedSoFar(old(durable), rows, todo)
        decreases |todo|
      {
        var id :| id in todo;
        UpsertStep(old(durable), rows, todo, id);
        durable := durable[id := if id in durable
                                 then Value(Greatest(durable[id].amount, rows[id].amount),
                                            Greatest(durable[id].count, rows[id].count))
                                 else rows[id]];
        todo := todo - {id};
      }
      UpsertedAll(old(durable), rows, live);
    }

    /** Seed the hash from the durable cells: every measure of every row, where absent. */
    method SeedBucket()
      requires CleanTable(durable)
      modifies this`live
      ensures live == SeededLive(durable, old(live))
    {
      hide EcoField;
      live := FloorOf(durable) + live;
    }
  }

  // ---- Specification of the flush and the seed -------------------------------------------

  function OfCurrency(live: Live, currency: string): Live {
    map f | f in live && ParseEcoField(f).Some? && ParseEcoField(f).value.id.currency == currency :: live[f]
  }

  /** Ids a field can carry; every id a flush writes is one, having been parsed from a field. */
  ghost predicate CleanTable(durable: Table) {
    forall id :: id in durable ==> CleanId(id)
  }

  lemma {:induction false} EcoFieldsDistinct(m1: string, id1: FlowId, m2: string, id2: FlowId)
    requires CleanCell(Cell(m1, id1)) && CleanCell(Cell(m2, id2))
    ensures EcoField(m1, id1) == EcoField(m2, id2) ==> m1 == m2 && id1 == id2
  {
    hide ParseEcoField, EcoField;
    EcoFieldRoundTripIff(m1, id1);
    EcoFieldRoundTripIff(m2, id2);
  }

  lemma {:induction false} FloorFieldsDistinct(durable: Table, measure: string)
    requires CleanTable(durable) && SEP !in measure
    ensures forall id1, id2 :: id1 in durable && id2 in durable && EcoField(measure, id1) == EcoField(measure, id2) ==> id1 == id2
  {
    hide EcoField;
    forall id1, id2 | id1 in durable && id2 in durable && EcoField(measure, id1) == EcoField(measure, id2) ensures id1 == id2 {
      EcoFieldsDistinct(measure, id1, measure, id2);
    }
  }

  function MeasureOf(value: Value, measure: string): nat {
    if measure == MEASURE_AMOUNT then value.amount else value.count
  }

  function FloorMeasure(durable: Table, measure: string): Live
    requires CleanTable(durable) && SEP !in measure
  {
    FloorFieldsDistinct(durable, measure);
    map id | id in durable :: EcoField(measure, id) := MeasureOf(durable[id], measure)
  }

  /** `ecoFloor`: an amount field and a count field per row. */
  function FloorOf(durable: Table): Live
    requires CleanTable(durable)
  {
    FloorMeasure(durable, MEASURE_AMOUNT) + FloorMeasure(durable, MEASURE_COUNT)
  }

  /** A floored field stands for a durable cell and holds its value. */
  lemma {:induction false} FloorMeasureParses(durable: Table, measure: string, f: string)
    requires CleanTable(durable) && SEP !in measure && f in FloorMeasure(durable, measure)
    ensures var p := ParseEcoField(f);
      p.Some? && p.value.measure == measure && p.value.id in durable
      && FloorMeasure(durable, measure)[f] == MeasureOf(durable[p.value.id], measure)
  {
    hide EcoField, ParseEcoField;
    FloorFieldsDistinct(durable, measure);
    var id :| id in durable && f == EcoField(measure, id);
    EcoFieldRoundTripIff(measure, id);
  }

  lemma {:induction false} FloorParses(durable: Table, f: string)
    requires CleanTable(durable) && f in FloorOf(durable)
    ensures var p := ParseEcoField(f);
      && p.Some? && p.value.id in durable && (p.value.measure == MEASURE_AMOUNT || p.value.measure == MEASURE_COUNT)
      && FloorOf(durable)[f] == MeasureOf(durable[p.value.id], p.value.measure)
  {
    hide EcoField, ParseEcoField, FloorMeasure;
    if f in FloorMeasure(durable, MEASURE_COUNT) {
      FloorMeasureParses(durable, MEASURE_COUNT, f);
    } else {
      FloorMeasureParses(durable, MEASURE_AMOUNT, f);
    }
  }

  /** `HSETNX`: a live value is never overwritten by its floor. */
  function SeededLive(durable: Table, live: Live): Live
    requires CleanTable(durable)
  {
    FloorOf(durable) + live
  }

  ghost function UpsertedSoFar(durable: Table, rows: Table, left: set<FlowId>): Table {
    map id | id in durable.Keys + (rows.Keys - left) ::
      if id in rows && id !in left
      then Value(Greatest(ValueOf(durable, id).amount, rows[id].amount), Greatest(ValueOf(durable, id).count, rows[id].count))
      else ValueOf(durable, id)
  }

  lemma {:induction false} UpsertStep(durable: Table, rows: Table, left: set<FlowId>, id: FlowId)
    requires id in left && left <= rows.Keys
    ensures var before := UpsertedSoFar(durable, rows, left);
      UpsertedSoFar(durable, rows, left - {id})
      == before[id := if id in before
                      then Value(Greatest(before[id].amount, rows[id].amount), Greatest(before[id].count, rows[id].count))
                      else rows[id]]
  {
  }

  lemma {:induction false} UpsertedAll(durable: Table, rows: Table, live: Live)
    requires rows == Merged(map[], live)
    ensures UpsertedSoFar(durable, rows, {}) == Merged(durable, live)
  {
    hide LiveValue, LiveIds;
    forall id ensures id !in rows ==> MergedValue(durable, live, id) == ValueOf(durable, id) {
      LiveIdsHold(live, id);
    }
  }

  lemma {:induction false} UpsertNone(durable: Table, rows: Table)
    ensures UpsertedSoFar(durable, rows, rows.Keys) == durable
  {
  }

  /** Pairing one more field leaves the projected rows those of the fields seen. */
  lemma {:induction false} ProjectStep(rows: Table, seen: Live, f: string, v: nat, acc: Value)
    requires rows == Merged(map[], seen) && f !in seen && ParseEcoField(f).Some?
    requires var cell := ParseEcoField(f).value;
      acc == Value(if cell.measure == MEASURE_AMOUNT then v else ValueOf(rows, cell.id).amount,
                   if cell.measure == MEASURE_COUNT then v else ValueOf(rows, cell.id).count)
    ensures rows[ParseEcoField(f).value.id := acc] == Merged(map[], seen[f := v])
  {
    hide ParseEcoField, EcoField, LiveValue, LiveIds;
    var cell := ParseEcoField(f).value;
    LiveIdsAdd(seen, f, v);
    forall id ensures
      MergedValue(map[], seen[f := v], id) == if id == cell.id then acc else MergedValue(map[], seen, id)
    {
      LiveValueAdd(seen, f, v, MEASURE_AMOUNT, id);
      LiveValueAdd(seen, f, v, MEASURE_COUNT, id);
      LiveIdsHold(seen, id);
    }
  }

  /** A cell the hash does not name has no value in it. */
  lemma {:induction false} LiveIdsHold(live: Live, id: FlowId)
    ensures id !in LiveIds(live) ==> LiveValue(live, MEASURE_AMOUNT, id) == 0 && LiveValue(live, MEASURE_COUNT, id) == 0
  {
  }

  lemma {:induction false} ProjectSkip(seen: Live, f: string, v: nat)
    requires f !in seen && ParseEcoField(f).None?
    ensures Merged(map[], seen[f := v]) == Merged(map[], seen)
  {
    hide ParseEcoField, EcoField, LiveValue, LiveIds;
    LiveIdsAdd(seen, f, v);
    forall id ensures MergedValue(map[], seen[f := v], id) == MergedValue(map[], seen, id) {
      LiveValueAdd(seen, f, v, MEASURE_AMOUNT, id);
      LiveValueAdd(seen, f, v, MEASURE_COUNT, id);
    }
  }

  // ---- Loop lemmas of the merge --------------------------------------------------------------

  lemma {:induction false} StartMaxima(amt: map<FlowId, nat>, cnt: map<FlowId, nat>, rows: Table)
    requires amt == map id | id in rows :: rows[id].amount
    requires cnt == map id | id in rows :: rows[id].count
    ensures Maxima(amt, cnt, rows.Keys, rows, map[])
    ensures LiveIds(map[]) == {}
  {
    hide ParseEcoField, EcoField;
    assert LiveIds(map[]) == {};
  }

  lemma {:induction false} OneFieldMore(amt: map<FlowId, nat>, cnt: map<FlowId, nat>, meta: set<FlowId>,
                                        rows: Table, seen: Live, f: string, v: nat)
    requires Maxima(amt, cnt, meta, rows, seen) && f !in seen && ParseEcoField(f).Some?
    ensures var cell := ParseEcoField(f).value; var id := cell.id;
      var amt' := if cell.measure == MEASURE_AMOUNT then amt[id := Greatest(if id in amt then amt[id] else 0, v)] else amt;
      var cnt' := if cell.measure == MEASURE_COUNT then cnt[id := Greatest(if id in cnt then cnt[id] else 0, v)] else cnt;
      Maxima(amt', cnt', meta + {id}, rows, seen[f := v])
  {
    hide ParseEcoField, EcoField, LiveIds, LiveValue;
    var cell := ParseEcoField(f).value;
    LiveIdsAdd(seen, f, v);
    forall id ensures
      && LiveValue(seen[f := v], MEASURE_AMOUNT, id)
         == (if cell == Cell(MEASURE_AMOUNT, id) then v else LiveValue(seen, MEASURE_AMOUNT, id))
      && LiveValue(seen[f := v], MEASURE_COUNT, id)
         == (if cell == Cell(MEASURE_COUNT, id) then v else LiveValue(seen, MEASURE_COUNT, id))
      && (cell == Cell(MEASURE_AMOUNT, id) ==> LiveValue(seen, MEASURE_AMOUNT, id) == 0)
      && (cell == Cell(MEASURE_COUNT, id) ==> LiveValue(seen, MEASURE_COUNT, id) == 0)
    {
      LiveValueAdd(seen, f, v, MEASURE_AMOUNT, id);
      LiveValueAdd(seen, f, v, MEASURE_COUNT, id);
      FieldNotSeen(seen, f, MEASURE_AMOUNT, id);
      FieldNotSeen(seen, f, MEASURE_COUNT, id);
    }
  }

  lemma {:induction false} FieldNotSeen(seen: Live, f: string, measure: string, id: FlowId)
    requires f !in seen
    ensures ParseEcoField(f) == Some(Cell(measure, id)) ==> LiveValue(seen, measure, id) == 0
  {
    hide ParseEcoField, EcoField;
    ParseInverts(f);
  }

  lemma {:induction false} OfCurrencyStep(live: Live, todo: set<string>, currency: string, f: string)
    requires f in todo && f in live
    ensures var seen := OfCurrency(live - todo, currency); var p := ParseEcoField(f);
      && f !in seen
      && OfCurrency(live - (todo - {f}), currency)
         == if p.Some? && p.value.id.currency == currency then seen[f := live[f]] else seen
  {
    hide ParseEcoField;
    var after := OfCurrency(live - (todo - {f}), currency);
    forall g ensures (g in after) == (g in OfCurrency(live - todo, currency)
      || (g == f && ParseEcoField(f).Some? && ParseEcoField(f).value.id.currency == currency))
    {
    }
  }

  lemma {:induction false} MaximaAreMerged(amt: map<FlowId, nat>, cnt: map<FlowId, nat>, meta: set<FlowId>,
                                           rows: Table, seen: Live, currency: string, cells: Table)
    requires Maxima(amt, cnt, meta, rows, seen)
    requires cells == map id | id in meta :: Value(if id in amt then amt[id] else 0, if id in cnt then cnt[id] else 0)
    requires forall id :: id in rows ==> id.currency == currency
    requires forall f :: f in seen ==> ParseEcoField(f).Some? && ParseEcoField(f).value.id.currency == currency
    ensures cells == Merged(rows, seen)
    ensures forall id :: id in cells ==> id.currency == currency
  {
    hide ParseEcoField, LiveValue;
    var merged := Merged(rows, seen);
    forall id | id in cells ensures cells[id] == merged[id] {
      assert cells[id].amount == MergedValue(rows, seen, id).amount;
      assert cells[id].count == MergedValue(rows, seen, id).count;
    }
  }

  // ---- A view only sees its currency -----------------------------------------------------------

  lemma {:induction false} ViewSame(v: View, cells1: Table, cells2: Table, q: Query)
    requires ViewIs(v, cells1, q)
    requires forall id :: Selects(q, id) ==> (id in cells1 <==> id in cells2)
    requires forall id :: Selects(q, id) && id in cells1 ==> cells1[id] == cells2[id]
    ensures ViewIs(v, cells2, q)
  {
    hide Total, Selects;
    forall flow
      ensures Amounts(cells1, q, flow) == Amounts(cells2, q, flow) && Counts(cells1, q, flow) == Counts(cells2, q, flow)
    {
    }
    forall flow, r ensures ReasonAmounts(cells1, q, flow, r) == ReasonAmounts(cells2, q, flow, r) {
    }
    SameReasons(v.source.byReason, cells1, cells2, q, SOURCE);
    SameReasons(v.sink.byReason, cells1, cells2, q, SINK);
  }

  lemma {:induction false} SameReasons(byReason: map<string, int>, cells1: Table, cells2: Table, q: Query, flow: string)
    requires ReasonsAre(byReason, cells1, q, flow)
    requires forall r :: ReasonAmounts(cells1, q, flow, r) == ReasonAmounts(cells2, q, flow, r)
    ensures ReasonsAre(byReason, cells2, q, flow)
  {
    hide Total, ReasonAmounts;
    forall r ensures Get(byReason, r) == Total(ReasonAmounts(cells2, q, flow, r))
      && (r in byReason <==> ReasonAmounts(cells2, q, flow, r) != map[])
    {
      assert Get(byReason, r) == Total(ReasonAmounts(cells1, q, flow, r));
    }
  }

  /** Merging a currency's rows with its fields is merging everything, as far as the currency goes. */
  lemma {:induction false} MergedOfCurrency(durable: Table, live: Live, rows: Table, id: FlowId, currency: string)
    requires rows == map i | i in durable && i.currency == currency :: durable[i]
    requires id.currency == currency
    ensures id in Merged(durable, live) <==> id in Merged(rows, OfCurrency(live, currency))
    ensures id in Merged(durable, live) ==> Merged(durable, live)[id] == Merged(rows, OfCurrency(live, currency))[id]
    ensures id in LiveIds(live) <==> id in LiveIds(OfCurrency(live, currency))
  {
    hide ParseEcoField, EcoField;
    var mine := OfCurrency(live, currency);
    if id in LiveIds(live) {
      var f :| f in live && ParseEcoField(f).Some? && ParseEcoField(f).value.id == id;
      assert f in mine;
    }
    if id in LiveIds(mine) {
      var f :| f in mine && ParseEcoField(f).Some? && ParseEcoField(f).value.id == id;
      assert f in live;
    }
    forall measure ensures LiveValue(live, measure, id) == LiveValue(mine, measure, id) {
    }
  }

  /** The view over a currency's cells is the view over all cells. */
  lemma {:induction false} WidenView(v: View, durable: Table, live: Live, rows: Table, q: Query)
    requires rows == map i | i in durable && i.currency == q.currency :: durable[i]
    requires ViewIs(v, Merged(rows, OfCurrency(live, q.currency)), q)
    ensures ViewIs(v, Merged(durable, live), q)
  {
    hide ViewIs, Merged, OfCurrency;
    forall id | Selects(q, id)
      ensures id in Merged(rows, OfCurrency(live, q.currency)) <==> id in Merged(durable, live)
      ensures id in Merged(rows, OfCurrency(live, q.currency)) ==>
        Merged(rows, OfCurrency(live, q.currency))[id] == Merged(durable, live)[id]
    {
      MergedOfCurrency(durable, live, rows, id, q.currency);
    }
    ViewSame(v, Merged(rows, OfCurrency(live, q.currency)), Merged(durable, live), q);
  }

  /** With no field of the currency, the rows alone are the merge. */
  lemma {:induction false} UntouchedView(v: View, durable: Table, live: Live, rows: Table, q: Query)
    requires rows == map i | i in durable && i.currency == q.currency :: durable[i]
    requires ViewIs(v, rows, q)
    ensures ViewIs(v, durable, q)
    ensures LiveIds(OfCurrency(live, q.currency)) == {} ==> ViewIs(v, Merged(durable, live), q)
  {
    hide ViewIs, OfCurrency, LiveIds, LiveValue;
    ViewSame(v, rows, durable, q);
    if LiveIds(OfCurrency(live, q.currency)) == {} {
      var mine := OfCurrency(live, q.currency);
      forall id | id in rows ensures MergedValue(rows, mine, id) == rows[id] {
        LiveIdsHold(mine, id);
      }
      assert Merged(rows, mine) == rows;
      WidenView(v, durable, live, rows, q);
    }
  }

  /** Is a cell among those a query asks for? */
  predicate AskedFor(q: Query, id: FlowId) {
    id.currency == q.currency && (q.provenance == None || q.provenance == Some(id.provenance))
  }

  /**
   * What one new cell adds to a view, which with the empty view says what every view is:
   * its amount and count to the side it flows, and its amount to its reason there, if it
   * has the currency and the provenance asked for.
   */
  lemma {:induction false} CellAddsToView(cells: Table, q: Query, id: FlowId, value: Value, before: View, after: View,
                                          reason: string)
    requires id !in cells && ViewIs(before, cells, q) && ViewIs(after, cells[id := value], q)
    ensures var asked := AskedFor(q, id);
      && after.source.amount == before.source.amount + (if asked && id.flow == "source" then value.amount else 0)
      && after.source.count == before.source.count + (if asked && id.flow == "source" then value.count else 0)
      && after.sink.amount == before.sink.amount + (if asked && id.flow == "sink" then value.amount else 0)
      && after.sink.count == before.sink.count + (if asked && id.flow == "sink" then value.count else 0)
      && Get(after.source.byReason, reason) == Get(before.source.byReason, reason)
           + (if asked && id.flow == "source" && id.reason == reason then value.amount else 0)
      && Get(after.sink.byReason, reason) == Get(before.sink.byReason, reason)
           + (if asked && id.flow == "sink" && id.reason == reason then value.amount else 0)
  {
    hide Total, Amounts, Counts, ReasonAmounts;
    LegAdds(cells, q, SOURCE, id, value, reason);
    LegAdds(cells, q, SINK, id, value, reason);
  }

  lemma {:induction false} LegAdds(cells: Table, q: Query, flow: string, id: FlowId, value: Value, reason: string)
    requires id !in cells
    ensures var more := cells[id := value]; var asked := AskedFor(q, id) && id.flow == flow;
      && Total(Amounts(more, q, flow)) == Total(Amounts(cells, q, flow)) + (if asked then value.amount else 0)
      && Total(Counts(more, q, flow)) == Total(Counts(cells, q, flow)) + (if asked then value.count else 0)
      && Total(ReasonAmounts(more, q, flow, reason)) == Total(ReasonAmounts(cells, q, flow, reason))
           + (if asked && id.reason == reason then value.amount else 0)
  {
    hide Total, Amounts, Counts, ReasonAmounts;
    AmountsAdd(cells, q, flow, id, value);
    CountsAdd(cells, q, flow, id, value);
    ReasonsAdd(cells, q, flow, id, value, reason);
    TotalUpdate(Amounts(cells, q, flow), id, value.amount);
    TotalUpdate(Counts(cells, q, flow), id, value.count);
    TotalUpdate(ReasonAmounts(cells, q, flow, reason), id, value.amount);
  }

  lemma {:induction false} AmountsAdd(cells: Table, q: Query, flow: string, id: FlowId, value: Value)
    requires id !in cells
    ensures id !in Amounts(cells, q, flow)
    ensures Amounts(cells[id := value], q, flow)
         == if AskedFor(q, id) && id.flow == flow then Amounts(cells, q, flow)[id := value.amount] else Amounts(cells, q, flow)
  {
  }

  lemma {:induction false} CountsAdd(cells: Table, q: Query, flow: string, id: FlowId, value: Value)
    requires id !in cells
    ensures id !in Counts(cells, q, flow)
    ensures Counts(cells[id := value], q, flow)
         == if AskedFor(q, id) && id.flow == flow then Counts(cells, q, flow)[id := value.count] else Counts(cells, q, flow)
  {
  }

  lemma {:induction false} ReasonsAdd(cells: Table, q: Query, flow: string, id: FlowId, value: Value, reason: string)
    requires id !in cells
    ensures id !in ReasonAmounts(cells, q, flow, reason)
    ensures ReasonAmounts(cells[id := value], q, flow, reason)
         == if AskedFor(q, id) && id.flow == flow && id.reason == reason
            then ReasonAmounts(cells, q, flow, reason)[id := value.amount]
            else ReasonAmounts(cells, q, flow, reason)
  {
  }

  lemma EmptyViewIsZero(v: View, q: Query, reason: string)
    requires ViewIs(v, map[], q)
    ensures v.source.amount == v.source.count == v.sink.amount == v.sink.count == 0
    ensures Get(v.source.byReason, reason) == Get(v.sink.byReason, reason) == 0
  {
    forall flow {:trigger Amounts(map[], q, flow)}
      ensures Amounts(map[], q, flow) == map[] && Counts(map[], q, flow) == map[] && ReasonAmounts(map[], q, flow, reason) == map[]
    {
    }
  }

  /** A merged cell is shown when it is durable or live, with the larger amount and the larger count. */
  lemma {:induction false} MergedIsMaxima(durable: Table, live: Live, id: FlowId)
    ensures id in Merged(durable, live) <==> id in durable || id in LiveIds(live)
    ensures id in Merged(durable, live) ==>
      var cell := Merged(durable, live)[id];
      var amount, count := LiveValue(live, MEASURE_AMOUNT, id), LiveValue(live, MEASURE_COUNT, id);
      && cell.amount >= amount && cell.count >= count
      && (id in durable ==> cell.amount >= durable[id].amount && cell.count >= durable[id].count)
      && (cell.amount == amount || (id in durable && cell.amount == durable[id].amount))
      && (cell.count == count || (id in durable && cell.count == durable[id].count))
  {
    hide LiveValue, LiveIds;
  }

  // ---- Flushes and seeds do not change what is shown ----------------------------------------------

  /** A hash as it was read before further increments, in whole or in part. */
  ghost predicate Earlier(part: Live, live: Live) {
    forall f :: f in part ==> f in live && part[f] <= live[f]
  }

  lemma {:induction false} EarlierValues(part: Live, live: Live, measure: string, id: FlowId)
    requires Earlier(part, live)
    ensures LiveValue(part, measure, id) <= LiveValue(live, measure, id)
    ensures LiveIds(part) <= LiveIds(live)
  {
    hide ParseEcoField, EcoField;
  }

  /**
   * Flushing what was read at any earlier moment, completely or partly, leaves the merged
   * cells as they were.
   */
  lemma {:induction false} FlushIsTransparent(durable: Table, part: Live, live: Live)
    requires Earlier(part, live)
    ensures Merged(Merged(durable, part), live) == Merged(durable, live)
  {
    hide LiveValue, LiveIds;
    var left, right := Merged(Merged(durable, part), live), Merged(durable, live);
    forall id ensures MergedValue(Merged(durable, part), live, id) == MergedValue(durable, live, id)
      && LiveIds(part) <= LiveIds(live)
    {
      EarlierValues(part, live, MEASURE_AMOUNT, id);
      EarlierValues(part, live, MEASURE_COUNT, id);
      LiveIdsHold(part, id);
    }
    var some := FlowId("", "", "", "");
    EarlierValues(part, live, MEASURE_AMOUNT, some);
    assert left.Keys == right.Keys;
  }

  /** Once flushed, dropping the live hash loses nothing, and flushing again changes nothing. */
  lemma {:induction false} FlushedHashMayGo(durable: Table, live: Live)
    ensures Merged(Merged(durable, live), map[]) == Merged(durable, live)
    ensures Merged(Merged(durable, live), live) == Merged(durable, live)
  {
    FlushIsTransparent(durable, live, live);
    NothingLive(Merged(durable, live));
  }

  lemma {:induction false} NothingLive(durable: Table)
    ensures Merged(durable, map[]) == durable
  {
    assert LiveIds(map[]) == {};
  }

  /** A flush only writes ids a field can carry. */
  lemma {:induction false} FlushKeepsClean(durable: Table, live: Live)
    requires CleanTable(durable)
    ensures CleanTable(Merged(durable, live))
  {
    hide ParseEcoField, EcoField;
    forall id | id in LiveIds(live) ensures CleanId(id) {
      var f :| f in live && ParseEcoField(f).Some? && ParseEcoField(f).value.id == id;
      ParseInverts(f);
    }
  }

  lemma {:induction false} SeededValue(durable: Table, live: Live, id: FlowId)
    requires CleanTable(durable)
    ensures MergedValue(durable, SeededLive(durable, live), id) == MergedValue(durable, live, id)
  {
    hide EcoField, ParseEcoField, FloorOf;
    forall measure | measure in {MEASURE_AMOUNT, MEASURE_COUNT}
      ensures LiveValue(SeededLive(durable, live), measure, id) == LiveValue(live, measure, id)
        || LiveValue(SeededLive(durable, live), measure, id)
           == MeasureOf(ValueOf(durable, id), measure)
      ensures LiveValue(SeededLive(durable, live), measure, id) >= LiveValue(live, measure, id)
    {
      var f := EcoField(measure, id);
      if f !in live && f in FloorOf(durable) {
        FloorParses(durable, f);
      }
    }
  }

  /** Seeding the hash from the durable cells changes no merged cell. */
  lemma {:induction false} SeedIsTransparent(durable: Table, live: Live)
    requires CleanTable(durable)
    ensures Merged(durable, SeededLive(durable, live)) == Merged(durable, live)
  {
    hide EcoField, ParseEcoField, FloorOf, MergedValue;
    var seeded := SeededLive(durable, live);
    forall id ensures id in LiveIds(seeded) ==> id in durable || id in LiveIds(live) {
      if id in LiveIds(seeded) {
        var f :| f in seeded && ParseEcoField(f).Some? && ParseEcoField(f).value.id == id;
        if f !in live {
          FloorParses(durable, f);
        }
      }
    }
    forall id ensures id in LiveIds(live) ==> id in LiveIds(seeded) {
      if id in LiveIds(live) {
        var f :| f in live && ParseEcoField(f).Some? && ParseEcoField(f).value.id == id;
        assert f in seeded;
      }
    }
    forall id ensures MergedValue(durable, seeded, id) == MergedValue(durable, live, id) {
      SeededValue(durable, live, id);
    }
  }

  /** The floor has a field for each measure of each durable cell, with its value. */
  lemma {:induction false} FloorHolds(durable: Table, measure: string, id: FlowId)
    requires CleanTable(durable) && id in durable && (measure == MEASURE_AMOUNT || measure == MEASURE_COUNT)
    ensures EcoField(measure, id) in FloorOf(durable)
    ensures LiveValue(FloorOf(durable), measure, id) == MeasureOf(durable[id], measure)
    ensures id in LiveIds(FloorOf(durable))
  {
    hide EcoField, ParseEcoField, FloorMeasure;
    var f := EcoField(measure, id);
    FloorHasField(durable, measure, id);
    FloorParses(durable, f);
    EcoFieldRoundTripIff(measure, id);
  }

  lemma {:induction false} FloorHasField(durable: Table, measure: string, id: FlowId)
    requires CleanTable(durable) && SEP !in measure && id in durable
    ensures EcoField(measure, id) in FloorMeasure(durable, measure)
  {
    hide EcoField;
    FloorFieldsDistinct(durable, measure);
  }

  lemma {:induction false} SeededEmpty(durable: Table)
    requires CleanTable(durable)
    ensures SeededLive(durable, map[]) == FloorOf(durable)
  {
    hide FloorOf;
    assert FloorOf(durable) + map[] == FloorOf(durable);
  }

  lemma {:induction false} MergedFromNothing(live: Live, table: Table)
    requires forall id :: id in LiveIds(live) <==> id in table
    requires forall id :: id in table ==> MergedValue(map[], live, id) == table[id]
    ensures Merged(map[], live) == table
  {
    hide LiveIds, MergedValue;
  }

  /** Seeding an empty hash and flushing it into an empty table rebuilds every durable cell, and no other. */
  lemma {:induction false} SeedThenFlushIsIdentity(durable: Table)
    requires CleanTable(durable)
    ensures Merged(map[], SeededLive(durable, map[])) == durable
  {
    hide FloorOf, LiveValue, LiveIds, SeededLive, MergedValue, EcoField, ParseEcoField, Merged, CleanTable;
    SeededEmpty(durable);
    forall id ensures id in LiveIds(FloorOf(durable)) <==> id in durable {
      if id in durable {
        FloorHolds(durable, MEASURE_AMOUNT, id);
      }
      if id in LiveIds(FloorOf(durable)) {
        FloorOnlyDurable(durable, id);
      }
    }
    forall id | id in durable ensures MergedValue(map[], FloorOf(durable), id) == durable[id] {
      FlooredValue(durable, id);
    }
    MergedFromNothing(FloorOf(durable), durable);
  }

  lemma {:induction false} FlooredValue(durable: Table, id: FlowId)
    requires CleanTable(durable) && id in durable
    ensures MergedValue(map[], FloorOf(durable), id) == durable[id]
  {
    hide FloorOf, LiveValue, LiveIds, EcoField, ParseEcoField;
    FloorHolds(durable, MEASURE_AMOUNT, id);
    FloorHolds(durable, MEASURE_COUNT, id);
  }

  lemma {:induction false} FloorOnlyDurable(durable: Table, id: FlowId)
    requires CleanTable(durable) && id in LiveIds(FloorOf(durable))
    ensures id in durable
  {
    hide EcoField, ParseEcoField, FloorOf;
    var f :| f in FloorOf(durable) && ParseEcoField(f).Some? && ParseEcoField(f).value.id == id;
    FloorParses(durable, f);
  }

  // ---- Runs ------------------------------------------------------------------------------------------

  /** One day's counters; `read` holds hashes a flusher has read and may write, whole or in part. */
  datatype State = State(durable: Table, live: Live, read: set<Live>)

  datatype Action =
    | Bump(field: string, delta: nat)
    | Seed
    | FlushRead(fields: set<string>)
    | FlushWrite(part: Live)

  function Bumped(live: Live, field: string, delta: nat): Live {
    live[field := (if field in live then live[field] else 0) + delta]
  }

  function Step(s: State, a: Action): State
    requires CleanTable(s.durable)
  {
    match a
    case Bump(f, delta) => s.(live := Bumped(s.live, f, delta))
    case Seed => s.(live := SeededLive(s.durable, s.live))
    case FlushRead(fields) => s.(read := s.read + {map f | f in s.live && f in fields :: s.live[f]})
    case FlushWrite(part) => if part in s.read then s.(durable := Merged(s.durable, part)) else s
  }

  ghost predicate ReadsAreEarlier(s: State) {
    CleanTable(s.durable) && forall part :: part in s.read ==> Earlier(part, s.live)
  }

  /** A flush step keeps the merged cells; the reads stay behind the live hash. */
  lemma {:induction false} StepKeepsView(s: State, a: Action)
    requires ReadsAreEarlier(s)
    ensures ReadsAreEarlier(Step(s, a))
    ensures !a.Bump? ==> Merged(Step(s, a).durable, Step(s, a).live) == Merged(s.durable, s.live)
  {
    hide Merged, FloorOf;
    match a {
      case Bump(f, delta) =>
      case Seed => SeedIsTransparent(s.durable, s.live);
      case FlushRead(fields) =>
      case FlushWrite(part) =>
        if part in s.read {
          FlushKeepsClean(s.durable, part);
          FlushIsTransparent(s.durable, part, s.live);
        }
    }
  }

  function Run(s: State, actions: seq<Action>): State
    requires ReadsAreEarlier(s)
    decreases |actions|
  {
    if actions == [] then s
    else
      StepKeepsView(s, actions[0]);
      Run(Step(s, actions[0]), actions[1..])
  }

  /** Between increments, no interleaving of seeds, flush reads and delayed or repeated writes changes any view. */
  lemma {:induction false} RunKeepsView(s: State, actions: seq<Action>, v: View, q: Query)
    requires ReadsAreEarlier(s) && forall a :: a in actions ==> !a.Bump?
    requires ViewIs(v, Merged(s.durable, s.live), q)
    ensures ViewIs(v, Merged(Run(s, actions).durable, Run(s, actions).live), q)
    decreases |actions|
  {
    hide ViewIs, Merged, Earlier, FloorOf, SeededLive;
    if actions != [] {
      assert actions[0] in actions;
      StepKeepsView(s, actions[0]);
      RunKeepsView(Step(s, actions[0]), actions[1..], v, q);
    }
  }
}
