/**
 * Money conservation. A ledger of accepted purchases, each attributed to one cell, is kept
 * beside the rollup; over every run, with days lost and rehydrated, the hashes are exactly
 * the ledger's aggregates.
 */
module PurchaseLedger {
  import opened Basics
  import opened DimCombo
  import opened LogicalDay
  import opened MonKeys
  import opened PurchaseRollup
  import opened Sums

  datatype Entry = Entry(attempt: Option<string>, day: int, productId: string, dimCombo: string,
                         normalized: int, local: int, currency: string)

  datatype Event =
    | Rolled(cfg: Config, row: ServerRow, floor: Day)
    | Joined(cfg: Config, companion: Companion, floor: Day)
    | StageExpired(attempt: string)
    | DayLost(day: int)

  function Step(w: World, e: Event): World {
    match e
    case Rolled(cfg, row, floor) => AfterServerRow(w, cfg, row, floor)
    case Joined(cfg, c, floor) => AfterCompanion(w, cfg, c, floor)
    case StageExpired(a) => w.(stage := w.stage - {a})
    case DayLost(day) => w.(days := w.days - {day})
  }

  function Run(w: World, events: seq<Event>): World
    decreases |events|
  {
    if events == [] then w else Run(Step(w, events[0]), events[1..])
  }

  // ---- Ledger ----------------------------------------------------------------

  /** The latest purchase of an attempt: the one its staging describes. */
  function LastOf(ledger: seq<Entry>, attempt: string): (r: int)
    ensures -1 <= r < |ledger|
    ensures r >= 0 ==> ledger[r].attempt == Some(attempt)
  {
    if ledger == [] then -1
    else if ledger[|ledger| - 1].attempt == Some(attempt) then |ledger| - 1
    else LastOf(ledger[..|ledger| - 1], attempt)
  }

  function EntryOf(row: ServerRow, dimCombo: string): Entry {
    Entry(row.attempt, row.day, row.productId, dimCombo, row.normalized, row.local, row.currency)
  }

  /** Does this companion move a purchase, and to which combo? */
  function MoveTarget(w: World, cfg: Config, c: Companion): Option<string> {
    var srv := StageOf(w.stage, c.attempt).srv;
    if c.attempt == "" || srv.None? || PurchaseDayIsSealed(srv.value.day, c.now, cfg.reportingOffset) then None
    else
      var newDim := RecomputeDimCombo(w, cfg, srv.value.dimCombo, c.dims).0;
      if newDim == srv.value.dimCombo then None else Some(newDim)
  }

  /** A server row appends; a move re-attributes the attempt's latest purchase. */
  function LedgerStep(w: World, ledger: seq<Entry>, e: Event): seq<Entry> {
    match e
    case Rolled(cfg, row, _) => ledger + [EntryOf(row, ResolveDimCombo(w, cfg, row).0)]
    case Joined(cfg, c, _) =>
      var target := MoveTarget(w, cfg, c);
      var i := LastOf(ledger, c.attempt);
      if target.Some? && i >= 0 then ledger[i := ledger[i].(dimCombo := target.value)] else ledger
    case _ => ledger
  }

  function LedgerRun(w: World, ledger: seq<Entry>, events: seq<Event>): seq<Entry>
    decreases |events|
  {
    if events == [] then ledger
    else LedgerRun(Step(w, events[0]), LedgerStep(w, ledger, events[0]), events[1..])
  }

  // ---- Measures --------------------------------------------------------------

  /** The three things a cell adds up: rows, normalized revenue, local money per currency. */
  datatype Measure = Rows | Revenue | Local(currency: string)

  function Amount(e: Entry, m: Measure): int {
    match m
    case Rows => 1
    case Revenue => e.normalized
    case Local(currency) => if e.currency == currency then e.local else 0
  }

  function InCell(e: Entry, day: int, productId: string, dimCombo: string, m: Measure): int {
    if e.day == day && e.productId == productId && e.dimCombo == dimCombo then Amount(e, m) else 0
  }

  function InDay(e: Entry, day: int, m: Measure): int {
    if e.day == day then Amount(e, m) else 0
  }

  function CellSum(ledger: seq<Entry>, day: int, productId: string, dimCombo: string, m: Measure): int {
    if ledger == [] then 0
    else CellSum(ledger[..|ledger| - 1], day, productId, dimCombo, m)
         + InCell(ledger[|ledger| - 1], day, productId, dimCombo, m)
  }

  function DaySum(ledger: seq<Entry>, day: int, m: Measure): int {
    if ledger == [] then 0
    else DaySum(ledger[..|ledger| - 1], day, m) + InDay(ledger[|ledger| - 1], day, m)
  }

  /** What the hashes hold for one cell. */
  function CellValue(d: Day, productId: string, dimCombo: string, m: Measure): int {
    var cell := CellKey(productId, dimCombo);
    match m
    case Rows => Get(d.cnt, cell)
    case Revenue => Get(d.rev, cell)
    case Local(currency) => Get(d.loc, LocField(cell, currency))
  }

  /** The fields of the `loc` hash that parse to `currency`. */
  function LocOf(loc: map<string, int>, currency: string): map<string, int> {
    map f | f in loc && ParseLocField(f).Some? && ParseLocField(f).value.1 == currency :: loc[f]
  }

  /** The sum over all cells of one day. */
  ghost function CellsTotal(d: Day, m: Measure): int {
    match m
    case Rows => Total(d.cnt)
    case Revenue => Total(d.rev)
    case Local(currency) => Total(LocOf(d.loc, currency))
  }

  predicate CleanMeasure(m: Measure) {
    m.Local? ==> CleanCurrency(m.currency)
  }

  predicate CleanRow(row: ServerRow) {
    CleanCurrency(row.currency) && row.normalized >= 0 && row.local >= 0
  }

  // ---- Agreement of hashes and ledger ----------------------------------------

  ghost predicate CellsAgree(d: Day, ledger: seq<Entry>, day: int) {
    forall p, c, m :: CleanMeasure(m) ==> CellValue(d, p, c, m) == CellSum(ledger, day, p, c, m)
  }

  ghost predicate TotalsAgree(d: Day, ledger: seq<Entry>, day: int) {
    forall m :: CleanMeasure(m) ==> CellsTotal(d, m) == DaySum(ledger, day, m)
  }

  /** The `rev:{day}` hash: the total and the per-currency sums. */
  ghost predicate DayHashAgrees(d: Day, ledger: seq<Entry>, day: int) {
    forall currency :: DayFieldsAgree(d, ledger, day, currency)
  }

  predicate DayFieldsAgree(d: Day, ledger: seq<Entry>, day: int, currency: string) {
    && Get(d.revDay, REV_TOTAL_FIELD) == DaySum(ledger, day, Revenue)
    && Get(d.revDay, RevLocField(currency)) == DaySum(ledger, day, Local(currency))
  }

  predicate Describes(srv: Srv, e: Entry) {
    && srv.productId == e.productId && srv.dimCombo == e.dimCombo && srv.day == e.day
    && srv.normalized == e.normalized && srv.local == e.local && srv.currency == e.currency
  }

  ghost predicate StagesAgree(w: World, ledger: seq<Entry>) {
    forall a :: a in w.stage && w.stage[a].srv.Some? ==>
      var i := LastOf(ledger, a); i >= 0 && Describes(w.stage[a].srv.value, ledger[i])
  }

  ghost predicate LedgerClean(ledger: seq<Entry>) {
    forall i :: 0 <= i < |ledger| ==>
      CleanCurrency(ledger[i].currency) && ledger[i].normalized >= 0 && ledger[i].local >= 0
  }

  ghost predicate IsCell(field: string) {
    exists p, c :: field == CellKey(p, c)
  }

  ghost predicate IsLocal(field: string) {
    exists p, c, currency :: CleanCurrency(currency) && field == LocField(CellKey(p, c), currency)
  }

  /** Every field of the day's hashes is one the rollup writes. */
  ghost predicate Shaped(d: Day) {
    && (forall f :: f in d.cnt || f in d.rev || f in d.cat ==> IsCell(f))
    && (forall f :: f in d.loc ==> IsLocal(f))
  }

  ghost predicate DayAgrees(d: Day, ledger: seq<Entry>, day: int) {
    CellsAgree(d, ledger, day) && TotalsAgree(d, ledger, day) && DayHashAgrees(d, ledger, day) && Shaped(d)
  }

  /** A day whose hashes have been lost agrees with nothing until it is rehydrated. */
  ghost predicate DaysAgree(w: World, ledger: seq<Entry>) {
    forall day :: day in w.days ==> DayAgrees(w.days[day], ledger, day)
  }

  ghost predicate Agree(w: World, ledger: seq<Entry>) {
    DaysAgree(w, ledger) && StagesAgree(w, ledger) && LedgerClean(ledger)
  }

  // ---- Clean runs --------------------------------------------------------------

  /** A day that has to be rehydrated is rehydrated from durable cells as of its last purchase. */
  ghost predicate FloorFaithful(w: World, ledger: seq<Entry>, e: Event) {
    match e
    case Rolled(_, row, floor) => row.day !in w.days ==> DayAgrees(floor, ledger, row.day)
    case Joined(_, c, floor) =>
      var srv := StageOf(w.stage, c.attempt).srv;
      srv.Some? && srv.value.day !in w.days ==> DayAgrees(floor, ledger, srv.value.day)
    case _ => true
  }

  ghost predicate CleanEvent(e: Event) {
    e.Rolled? ==> CleanRow(e.row)
  }

  ghost predicate CleanRun(w: World, ledger: seq<Entry>, events: seq<Event>)
    decreases |events|
  {
    events == []
    || (CleanEvent(events[0]) && FloorFaithful(w, ledger, events[0])
        && CleanRun(Step(w, events[0]), LedgerStep(w, ledger, events[0]), events[1..]))
  }

  // ---- Ledger arithmetic -----------------------------------------------------

  lemma {:induction false} SumAppend(ledger: seq<Entry>, e: Entry, day: int, p: string, c: string, m: Measure)
    ensures CellSum(ledger + [e], day, p, c, m) == CellSum(ledger, day, p, c, m) + InCell(e, day, p, c, m)
    ensures DaySum(ledger + [e], day, m) == DaySum(ledger, day, m) + InDay(e, day, m)
  {
    assert (ledger + [e])[..|ledger|] == ledger;
  }

  lemma {:induction false} SumReplace(ledger: seq<Entry>, i: nat, e: Entry, day: int, p: string, c: string, m: Measure)
    requires i < |ledger|
    ensures CellSum(ledger[i := e], day, p, c, m)
         == CellSum(ledger, day, p, c, m) - InCell(ledger[i], day, p, c, m) + InCell(e, day, p, c, m)
    ensures DaySum(ledger[i := e], day, m) == DaySum(ledger, day, m) - InDay(ledger[i], day, m) + InDay(e, day, m)
  {
    var n := |ledger| - 1;
    if i < n {
      SumReplace(ledger[..n], i, e, day, p, c, m);
      assert ledger[i := e][..n] == ledger[..n][i := e];
    } else {
      assert ledger[i := e][..n] == ledger[..n];
    }
  }

  lemma {:induction false} LastOfAppend(ledger: seq<Entry>, e: Entry, a: string)
    ensures LastOf(ledger + [e], a) == if e.attempt == Some(a) then |ledger| else LastOf(ledger, a)
  {
    assert (ledger + [e])[..|ledger|] == ledger;
  }

  lemma {:induction false} LastOfReplace(ledger: seq<Entry>, i: nat, e: Entry, a: string)
    requires i < |ledger| && e.attempt == ledger[i].attempt
    ensures LastOf(ledger[i := e], a) == LastOf(ledger, a)
  {
    var n := |ledger| - 1;
    if ledger[n].attempt != Some(a) {
      if i < n {
        LastOfReplace(ledger[..n], i, e, a);
        assert ledger[i := e][..n] == ledger[..n][i := e];
      } else {
        assert ledger[i := e][..n] == ledger[..n];
      }
    }
  }

  lemma {:induction false} SumsNonNegative(ledger: seq<Entry>, day: int, p: string, c: string, m: Measure)
    requires LedgerClean(ledger)
    ensures CellSum(ledger, day, p, c, m) >= 0
  {
    if ledger != [] {
      SumsNonNegative(ledger[..|ledger| - 1], day, p, c, m);
    }
  }

  // ---- Hash arithmetic -------------------------------------------------------

  lemma {:induction false} LocFieldsDistinct(cell1: string, currency1: string, cell2: string, currency2: string)
    requires CleanCurrency(currency1) && CleanCurrency(currency2) && cell1 != "" && cell2 != ""
    ensures LocField(cell1, currency1) == LocField(cell2, currency2) <==> cell1 == cell2 && currency1 == currency2
  {
    LocFieldRoundTripIff(cell1, currency1);
    LocFieldRoundTripIff(cell2, currency2);
  }

  lemma {:induction false} LocOfIncr(loc: map<string, int>, cell: string, currency: string, delta: int, other: string)
    requires CleanCurrency(currency) && cell != ""
    ensures Total(LocOf(Incr(loc, LocField(cell, currency), delta), other))
         == Total(LocOf(loc, other)) + (if currency == other then delta else 0)
  {
    var field := LocField(cell, currency);
    LocFieldRoundTripIff(cell, currency);
    hide ParseLocField, LastIndex, LocField;
    var after := LocOf(Incr(loc, field, delta), other);
    if currency == other {
      assert after == Incr(LocOf(loc, other), field, delta);
      TotalIncr(LocOf(loc, other), field, delta);
    } else {
      assert after == LocOf(loc, other);
    }
  }

  /** What one increment of the three hashes at one cell does to another cell's value. */
  lemma {:induction false} BumpValue(d: Day, e: Entry, sign: int, p: string, c: string, m: Measure)
    requires CleanMeasure(m) && CleanCurrency(e.currency)
    ensures var cell := CellKey(e.productId, e.dimCombo);
            var d' := d.(cnt := Incr(d.cnt, cell, sign), rev := Incr(d.rev, cell, sign * e.normalized),
                         loc := Incr(d.loc, LocField(cell, e.currency), sign * e.local));
      && CellValue(d', p, c, m) == CellValue(d, p, c, m) + sign * InCell(e, e.day, p, c, m)
      && CellsTotal(d', m) == CellsTotal(d, m) + sign * Amount(e, m)
  {
    var cell := CellKey(e.productId, e.dimCombo);
    CellKeyInjective(e.productId, e.dimCombo, p, c);
    match m
    case Rows => TotalIncr(d.cnt, cell, sign);
    case Revenue => TotalIncr(d.rev, cell, sign * e.normalized);
    case Local(currency) =>
      LocFieldsDistinct(cell, e.currency, CellKey(p, c), currency);
      LocOfIncr(d.loc, cell, e.currency, sign * e.local, currency);
  }

  lemma {:induction false} RevFieldsDistinct(currency1: string, currency2: string)
    ensures RevLocField(currency1) == RevLocField(currency2) <==> currency1 == currency2
    ensures RevLocField(currency1) != REV_TOTAL_FIELD
  {
    assert RevLocField(currency1)[4..] == currency1 && RevLocField(currency2)[4..] == currency2;
    assert RevLocField(currency1)[0] == 'l' && REV_TOTAL_FIELD[0] == 't';
  }

  // ---- Server rows -----------------------------------------------------------

  lemma {:induction false} RolledUpCells(d: Day, row: ServerRow, dimCombo: string, p: string, c: string, m: Measure)
    requires CleanMeasure(m) && CleanCurrency(row.currency)
    ensures var e := EntryOf(row, dimCombo);
            var d' := RolledUp(d, CellKey(row.productId, dimCombo), row);
      && CellValue(d', p, c, m) == CellValue(d, p, c, m) + InCell(e, row.day, p, c, m)
      && CellsTotal(d', m) == CellsTotal(d, m) + Amount(e, m)
  {
    var e := EntryOf(row, dimCombo);
    BumpValue(d, e, 1, p, c, m);
    assert 1 * e.normalized == e.normalized && 1 * e.local == e.local;
  }

  lemma {:induction false} RolledUpDayHash(d: Day, row: ServerRow, cell: string, currency: string)
    ensures var d' := RolledUp(d, cell, row);
      && Get(d'.revDay, REV_TOTAL_FIELD) == Get(d.revDay, REV_TOTAL_FIELD) + row.normalized
      && Get(d'.revDay, RevLocField(currency))
         == Get(d.revDay, RevLocField(currency)) + (if currency == row.currency then row.local else 0)
  {
    RevFieldsDistinct(currency, row.currency);
    RevFieldsDistinct(row.currency, row.currency);
    hide RevLocField;
  }

  /** The two ledgers say the same of this day. */
  ghost predicate SameSums(a: seq<Entry>, b: seq<Entry>, day: int) {
    && (forall p, c, m :: CellSum(a, day, p, c, m) == CellSum(b, day, p, c, m))
    && (forall m :: DaySum(a, day, m) == DaySum(b, day, m))
  }

  lemma {:induction false} SameSumsAgree(d: Day, a: seq<Entry>, b: seq<Entry>, day: int)
    requires DayAgrees(d, a, day) && SameSums(a, b, day)
    ensures DayAgrees(d, b, day)
  {
    hide CellValue, CellsTotal, Shaped, CellSum, DaySum, CleanMeasure;
    forall currency ensures DayFieldsAgree(d, b, day, currency) {
      assert DayFieldsAgree(d, a, day, currency);
    }
  }

  lemma {:induction false} OtherDayAppend(d: Day, ledger: seq<Entry>, e: Entry, day: int)
    requires DayAgrees(d, ledger, day) && e.day != day
    ensures DayAgrees(d, ledger + [e], day)
  {
    hide DayAgrees;
    forall p, c, m ensures CellSum(ledger, day, p, c, m) == CellSum(ledger + [e], day, p, c, m) {
      SumAppend(ledger, e, day, p, c, m);
    }
    forall m ensures DaySum(ledger, day, m) == DaySum(ledger + [e], day, m) {
      SumAppend(ledger, e, day, "", "", m);
    }
    SameSumsAgree(d, ledger, ledger + [e], day);
  }

  /** What agreement says of one cell, one measure and one currency. */
  lemma {:induction false} AgreesAt(d: Day, ledger: seq<Entry>, day: int, p: string, c: string, m: Measure,
                                    currency: string)
    requires DayAgrees(d, ledger, day)
    ensures CleanMeasure(m) ==> CellValue(d, p, c, m) == CellSum(ledger, day, p, c, m)
    ensures CleanMeasure(m) ==> CellsTotal(d, m) == DaySum(ledger, day, m)
    ensures DayFieldsAgree(d, ledger, day, currency)
  {
    hide CellValue, CellsTotal, DayFieldsAgree, CellSum, DaySum;
  }

  lemma {:induction false} RolledUpShaped(d: Day, row: ServerRow, dimCombo: string)
    requires Shaped(d) && CleanCurrency(row.currency)
    ensures Shaped(RolledUp(d, CellKey(row.productId, dimCombo), row))
  {
    hide CellKey, LocField, CleanCurrency, RevLocField;
    var cell := CellKey(row.productId, dimCombo);
    assert IsCell(cell) && IsLocal(LocField(cell, row.currency));
  }

  lemma {:induction false} RolledAgreesAt(d: Day, ledger: seq<Entry>, row: ServerRow, dimCombo: string,
                                          p: string, c: string, m: Measure, currency: string)
    requires DayAgrees(d, ledger, row.day) && CleanRow(row)
    ensures var d' := RolledUp(d, CellKey(row.productId, dimCombo), row);
            var ledger' := ledger + [EntryOf(row, dimCombo)];
      && (CleanMeasure(m) ==> CellValue(d', p, c, m) == CellSum(ledger', row.day, p, c, m))
      && (CleanMeasure(m) ==> CellsTotal(d', m) == DaySum(ledger', row.day, m))
      && DayFieldsAgree(d', ledger', row.day, currency)
  {
    var e := EntryOf(row, dimCombo);
    AgreesAt(d, ledger, row.day, p, c, m, currency);
    hide RolledUp, CellValue, CellsTotal, DayAgrees, CellSum, DaySum, CellKey;
    SumAppend(ledger, e, row.day, p, c, m);
    SumAppend(ledger, e, row.day, "", "", Revenue);
    SumAppend(ledger, e, row.day, "", "", Local(currency));
    if CleanMeasure(m) {
      RolledUpCells(d, row, dimCombo, p, c, m);
    }
    RolledUpDayHash(d, row, CellKey(row.productId, dimCombo), currency);
  }

  lemma {:induction false} RolledDayAgrees(d: Day, ledger: seq<Entry>, row: ServerRow, dimCombo: string)
    requires DayAgrees(d, ledger, row.day) && CleanRow(row)
    ensures DayAgrees(RolledUp(d, CellKey(row.productId, dimCombo), row), ledger + [EntryOf(row, dimCombo)], row.day)
  {
    RolledUpShaped(d, row, dimCombo);
    hide RolledUp, CellValue, CellsTotal, DayFieldsAgree, CellSum, DaySum, CellKey, Shaped;
    var d', ledger' := RolledUp(d, CellKey(row.productId, dimCombo), row), ledger + [EntryOf(row, dimCombo)];
    forall p, c, m | CleanMeasure(m) ensures CellValue(d', p, c, m) == CellSum(ledger', row.day, p, c, m) {
      RolledAgreesAt(d, ledger, row, dimCombo, p, c, m, "");
    }
    forall m | CleanMeasure(m) ensures CellsTotal(d', m) == DaySum(ledger', row.day, m) {
      RolledAgreesAt(d, ledger, row, dimCombo, "", "", m, "");
    }
    forall currency ensures DayFieldsAgree(d', ledger', row.day, currency) {
      RolledAgreesAt(d, ledger, row, dimCombo, "", "", Rows, currency);
    }
  }

  lemma {:induction false} ServerRowAgrees(w: World, ledger: seq<Entry>, cfg: Config, row: ServerRow, floor: Day)
    requires Agree(w, ledger) && CleanRow(row) && FloorFaithful(w, ledger, Rolled(cfg, row, floor))
    ensures Agree(Step(w, Rolled(cfg, row, floor)), LedgerStep(w, ledger, Rolled(cfg, row, floor)))
  {
    hide ResolveDimCombo, RolledUp, DayAgrees;
    var dimCombo := ResolveDimCombo(w, cfg, row).0;
    var e := EntryOf(row, dimCombo);
    var w', ledger' := AfterServerRow(w, cfg, row, floor), ledger + [e];
    forall day | day in w'.days ensures DayAgrees(w'.days[day], ledger', day) {
      if day == row.day {
        RolledDayAgrees(Seeded(w.days, day, floor), ledger, row, dimCombo);
      } else {
        OtherDayAppend(w.days[day], ledger, e, day);
      }
    }
    forall a | a in w'.stage && w'.stage[a].srv.Some?
      ensures LastOf(ledger', a) >= 0 && Describes(w'.stage[a].srv.value, ledger'[LastOf(ledger', a)])
    {
      LastOfAppend(ledger, e, a);
    }
  }

  // ---- Moves -----------------------------------------------------------------

  /** A move of a non-negative purchase is the old entry out and the new entry in. */
  lemma {:induction false} MovedCells(d: Day, srv: Srv, counted: Entry, newDim: string, p: string, c: string,
                                      m: Measure)
    requires Describes(srv, counted) && CleanCurrency(srv.currency) && srv.normalized >= 0 && srv.local >= 0
    requires CleanMeasure(m)
    ensures var result := Moved(d, CellKey(srv.productId, srv.dimCombo), CellKey(srv.productId, newDim), srv);
            var enriched := counted.(dimCombo := newDim);
      && result.Done? && result.day.revDay == d.revDay && result.day.gen == d.gen + 1
      && CellValue(result.day, p, c, m)
         == CellValue(d, p, c, m) - InCell(counted, srv.day, p, c, m) + InCell(enriched, srv.day, p, c, m)
      && CellsTotal(result.day, m) == CellsTotal(d, m)
  {
    hide CellKey, LocField, LocOf, ParseLocField, CleanCurrency, Incr;
    var enriched := counted.(dimCombo := newDim);
    BumpValue(d, counted, -1, p, c, m);
    var cell, target := CellKey(srv.productId, srv.dimCombo), CellKey(srv.productId, newDim);
    var d1 := d.(cnt := Incr(d.cnt, cell, -1), rev := Incr(d.rev, cell, -1 * srv.normalized),
                 loc := Incr(d.loc, LocField(cell, srv.currency), -1 * srv.local));
    BumpValue(d1, enriched, 1, p, c, m);
    var d2 := d1.(cnt := Incr(d1.cnt, target, 1), rev := Incr(d1.rev, target, 1 * srv.normalized),
                  loc := Incr(d1.loc, LocField(target, srv.currency), 1 * srv.local));
    assert -1 * srv.normalized == -srv.normalized && -1 * srv.local == -srv.local;
    assert 1 * srv.normalized == srv.normalized && 1 * srv.local == srv.local;
    assert Moved(d, cell, target, srv) == Done(d2.(cat := d.cat[target := srv.category], gen := d.gen + 1));
  }

  /** The script keeps the day's row count and revenue exactly when no amount is negative. */
  lemma {:induction false} MoveConservesIff(d: Day, oldCell: string, newCell: string, srv: Srv)
    ensures var result := Moved(d, oldCell, newCell, srv);
      && (result.Done? <==> srv.normalized >= 0 && srv.local >= 0)
      && (Total(result.day.cnt) == Total(d.cnt) <==> srv.normalized >= 0 && srv.local >= 0)
      && (result.Done? ==> Total(result.day.rev) == Total(d.rev))
  {
    hide Total, LocField;
    TotalIncr(d.cnt, oldCell, -1);
    TotalIncr(Incr(d.cnt, oldCell, -1), newCell, 1);
    TotalIncr(d.rev, oldCell, -srv.normalized);
    TotalIncr(Incr(d.rev, oldCell, -srv.normalized), newCell, srv.normalized);
  }

  lemma {:induction false} OtherDayReplace(d: Day, ledger: seq<Entry>, i: nat, dimCombo: string, day: int)
    requires DayAgrees(d, ledger, day) && i < |ledger| && ledger[i].day != day
    ensures DayAgrees(d, ledger[i := ledger[i].(dimCombo := dimCombo)], day)
  {
    hide DayAgrees;
    var e := ledger[i].(dimCombo := dimCombo);
    var ledger' := ledger[i := e];
    forall p, c, m ensures CellSum(ledger, day, p, c, m) == CellSum(ledger', day, p, c, m) {
      SumReplace(ledger, i, e, day, p, c, m);
    }
    forall m ensures DaySum(ledger, day, m) == DaySum(ledger', day, m) {
      SumReplace(ledger, i, e, day, "", "", m);
    }
    SameSumsAgree(d, ledger, ledger', day);
  }

  lemma {:induction false} MovedShaped(d: Day, srv: Srv, newDim: string)
    requires Shaped(d) && CleanCurrency(srv.currency)
    ensures Shaped(Moved(d, CellKey(srv.productId, srv.dimCombo), CellKey(srv.productId, newDim), srv).day)
  {
    hide CellKey, LocField, CleanCurrency, IsCell, IsLocal, Incr;
    var cell, target := CellKey(srv.productId, srv.dimCombo), CellKey(srv.productId, newDim);
    WritesCells(srv.productId, srv.dimCombo, srv.currency);
    WritesCells(srv.productId, newDim, srv.currency);
    MovedFields(d, cell, target, srv);
  }

  lemma WritesCells(p: string, c: string, currency: string)
    requires CleanCurrency(currency)
    ensures IsCell(CellKey(p, c)) && IsLocal(LocField(CellKey(p, c), currency))
  {
    hide CellKey, LocField, CleanCurrency;
  }

  /** The fields a move may add. */
  lemma MovedFields(d: Day, cell: string, target: string, srv: Srv)
    ensures var d' := Moved(d, cell, target, srv).day;
      var locals := {LocField(cell, srv.currency), LocField(target, srv.currency)};
      && d'.cnt.Keys <= d.cnt.Keys + {cell, target} && d'.rev.Keys <= d.rev.Keys + {cell, target}
      && d'.cat.Keys <= d.cat.Keys + {cell, target} && d'.loc.Keys <= d.loc.Keys + locals
  {
    hide LocField;
  }

  lemma {:induction false} MovedAgreesAt(d: Day, ledger: seq<Entry>, i: nat, srv: Srv, newDim: string,
                                         p: string, c: string, m: Measure, currency: string)
    requires i < |ledger| && Describes(srv, ledger[i]) && DayAgrees(d, ledger, srv.day)
    requires CleanCurrency(srv.currency) && srv.normalized >= 0 && srv.local >= 0
    ensures var result := Moved(d, CellKey(srv.productId, srv.dimCombo), CellKey(srv.productId, newDim), srv);
            var ledger' := ledger[i := ledger[i].(dimCombo := newDim)];
      && (CleanMeasure(m) ==> CellValue(result.day, p, c, m) == CellSum(ledger', srv.day, p, c, m))
      && (CleanMeasure(m) ==> CellsTotal(result.day, m) == DaySum(ledger', srv.day, m))
      && DayFieldsAgree(result.day, ledger', srv.day, currency)
  {
    var enriched := ledger[i].(dimCombo := newDim);
    AgreesAt(d, ledger, srv.day, p, c, m, currency);
    hide Moved, CellValue, CellsTotal, DayAgrees, CellSum, DaySum, CellKey;
    SumReplace(ledger, i, enriched, srv.day, p, c, m);
    SumReplace(ledger, i, enriched, srv.day, "", "", Revenue);
    SumReplace(ledger, i, enriched, srv.day, "", "", Local(currency));
    MovedCells(d, srv, ledger[i], newDim, p, c, if CleanMeasure(m) then m else Rows);
  }

  lemma {:induction false} MovedDayAgrees(d: Day, ledger: seq<Entry>, i: nat, srv: Srv, newDim: string)
    requires i < |ledger| && Describes(srv, ledger[i]) && DayAgrees(d, ledger, srv.day)
    requires CleanCurrency(srv.currency) && srv.normalized >= 0 && srv.local >= 0
    ensures var result := Moved(d, CellKey(srv.productId, srv.dimCombo), CellKey(srv.productId, newDim), srv);
      result.Done? && DayAgrees(result.day, ledger[i := ledger[i].(dimCombo := newDim)], srv.day)
  {
    MovedShaped(d, srv, newDim);
    MovedCells(d, srv, ledger[i], newDim, "", "", Rows);
    hide Moved, CellValue, CellsTotal, DayFieldsAgree, CellSum, DaySum, CellKey, Shaped;
    var ledger' := ledger[i := ledger[i].(dimCombo := newDim)];
    var result := Moved(d, CellKey(srv.productId, srv.dimCombo), CellKey(srv.productId, newDim), srv);
    forall p, c, m | CleanMeasure(m) ensures CellValue(result.day, p, c, m) == CellSum(ledger', srv.day, p, c, m) {
      MovedAgreesAt(d, ledger, i, srv, newDim, p, c, m, "");
    }
    forall m | CleanMeasure(m) ensures CellsTotal(result.day, m) == DaySum(ledger', srv.day, m) {
      MovedAgreesAt(d, ledger, i, srv, newDim, "", "", m, "");
    }
    forall currency ensures DayFieldsAgree(result.day, ledger', srv.day, currency) {
      MovedAgreesAt(d, ledger, i, srv, newDim, "", "", Rows, currency);
    }
  }

  lemma {:induction false} MoveAgrees(w: World, ledger: seq<Entry>, cfg: Config, c: Companion, floor: Day)
    requires Agree(w, ledger) && MoveTarget(w, cfg, c).Some? && FloorFaithful(w, ledger, Joined(cfg, c, floor))
    ensures Agree(Step(w, Joined(cfg, c, floor)), LedgerStep(w, ledger, Joined(cfg, c, floor)))
  {
    hide RecomputeDimCombo, PurchaseDayIsSealed, Moved, DayAgrees, CellKey;
    var srv := StageOf(w.stage, c.attempt).srv.value;
    var newDim := MoveTarget(w, cfg, c).value;
    var i := LastOf(ledger, c.attempt);
    assert c.attempt in w.stage && w.stage[c.attempt].srv == Some(srv);
    var enriched := ledger[i].(dimCombo := newDim);
    var w', ledger' := AfterCompanion(w, cfg, c, floor), ledger[i := enriched];
    MovedDayAgrees(Seeded(w.days, srv.day, floor), ledger, i, srv, newDim);
    forall day | day in w'.days ensures DayAgrees(w'.days[day], ledger', day) {
      if day != srv.day {
        OtherDayReplace(w.days[day], ledger, i, newDim, day);
      }
    }
    forall a | a in w'.stage && w'.stage[a].srv.Some?
      ensures LastOf(ledger', a) >= 0 && Describes(w'.stage[a].srv.value, ledger'[LastOf(ledger', a)])
    {
      LastOfReplace(ledger, i, enriched, a);
    }
  }

  lemma {:induction false} CompanionAgrees(w: World, ledger: seq<Entry>, cfg: Config, c: Companion, floor: Day)
    requires Agree(w, ledger) && FloorFaithful(w, ledger, Joined(cfg, c, floor))
    ensures Agree(Step(w, Joined(cfg, c, floor)), LedgerStep(w, ledger, Joined(cfg, c, floor)))
  {
    hide RecomputeDimCombo, PurchaseDayIsSealed, Moved, DayAgrees;
    if MoveTarget(w, cfg, c).Some? {
      MoveAgrees(w, ledger, cfg, c, floor);
    } else {
      var w' := AfterCompanion(w, cfg, c, floor);
      assert forall day :: day in w'.days ==> DayAgrees(w'.days[day], ledger, day);
      assert forall a :: a in w'.stage && w'.stage[a].srv.Some? ==> a in w.stage && w.stage[a].srv == w'.stage[a].srv;
    }
  }

  // ---- Main results ----------------------------------------------------------

  lemma {:induction false} RunAgrees(w: World, ledger: seq<Entry>, events: seq<Event>)
    requires Agree(w, ledger) && CleanRun(w, ledger, events)
    ensures Agree(Run(w, events), LedgerRun(w, ledger, events))
    decreases |events|
  {
    hide Agree, FloorFaithful, AfterServerRow, AfterCompanion, ResolveDimCombo, MoveTarget;
    if events != [] {
      var e := events[0];
      match e {
        case Rolled(cfg, row, floor) => ServerRowAgrees(w, ledger, cfg, row, floor);
        case Joined(cfg, c, floor) => CompanionAgrees(w, ledger, cfg, c, floor);
        case StageExpired(a) => ExpiryAgrees(w, ledger, a);
        case DayLost(day) => LossAgrees(w, ledger, day);
      }
      RunAgrees(Step(w, e), LedgerStep(w, ledger, e), events[1..]);
    }
  }

  lemma {:induction false} ExpiryAgrees(w: World, ledger: seq<Entry>, a: string)
    requires Agree(w, ledger)
    ensures Agree(Step(w, StageExpired(a)), ledger)
  {
    hide DayAgrees;
  }

  lemma {:induction false} LossAgrees(w: World, ledger: seq<Entry>, day: int)
    requires Agree(w, ledger)
    ensures Agree(Step(w, DayLost(day)), ledger)
  {
    hide DayAgrees;
  }

  lemma {:induction false} EmptyAgrees()
    ensures Agree(EMPTY_WORLD, [])
  {
  }

  lemma {:induction false} NothingOnDay(ledger: seq<Entry>, day: int, p: string, c: string, m: Measure)
    requires forall i :: 0 <= i < |ledger| ==> ledger[i].day != day
    ensures CellSum(ledger, day, p, c, m) == 0 && DaySum(ledger, day, m) == 0
  {
    if ledger != [] {
      NothingOnDay(ledger[..|ledger| - 1], day, p, c, m);
    }
  }

  /** The first purchase of a day finds no durable cell, and an empty floor is the faithful one. */
  lemma {:induction false} EmptyFloorIsFaithful(ledger: seq<Entry>, day: int)
    requires forall i :: 0 <= i < |ledger| ==> ledger[i].day != day
    ensures DayAgrees(EMPTY_DAY, ledger, day)
  {
    forall m ensures CellsTotal(EMPTY_DAY, m) == 0 && DaySum(ledger, day, m) == 0 {
      NothingOnDay(ledger, day, "", "", m);
      if m.Local? {
        assert LocOf(map[], m.currency) == map[];
      }
    }
    hide CellsTotal, CellKey, LocField;
    forall p, c, m ensures CellValue(EMPTY_DAY, p, c, m) == CellSum(ledger, day, p, c, m) {
      NothingOnDay(ledger, day, p, c, m);
    }
    hide DaySum, CellSum;
    forall currency ensures DayFieldsAgree(EMPTY_DAY, ledger, day, currency) {
      assert CellsTotal(EMPTY_DAY, Revenue) == 0 && CellsTotal(EMPTY_DAY, Local(currency)) == 0;
    }
  }

  /** What the run's accepted server rows of a day add up to. */
  function Accepted(events: seq<Event>, day: int, m: Measure): int {
    if events == [] then 0
    else (if events[0].Rolled? then InDay(EntryOf(events[0].row, ""), day, m) else 0) + Accepted(events[1..], day, m)
  }

  lemma {:induction false} LedgerSumsAccepted(w: World, ledger: seq<Entry>, events: seq<Event>, day: int, m: Measure)
    ensures DaySum(LedgerRun(w, ledger, events), day, m) == DaySum(ledger, day, m) + Accepted(events, day, m)
    decreases |events|
  {
    hide ResolveDimCombo, MoveTarget, AfterServerRow, AfterCompanion, Step;
    if events != [] {
      var e := events[0];
      LedgerSumsAccepted(Step(w, e), LedgerStep(w, ledger, e), events[1..], day, m);
      match e {
        case Rolled(cfg, row, _) => SumAppend(ledger, EntryOf(row, ResolveDimCombo(w, cfg, row).0), day, "", "", m);
        case Joined(cfg, c, _) =>
          var i := LastOf(ledger, c.attempt);
          var target := MoveTarget(w, cfg, c);
          if target.Some? && i >= 0 {
            SumReplace(ledger, i, ledger[i].(dimCombo := target.value), day, "", "", m);
          }
        case _ =>
      }
    }
  }

  /** A day with an accepted purchase is there unless it has been lost. */
  lemma {:induction false} PresentUnlessLost(w: World, events: seq<Event>, day: int)
    requires DayLost(day) !in events
    ensures day in w.days ==> day in Run(w, events).days
    ensures day !in Run(w, events).days ==> Accepted(events, day, Rows) == 0
    decreases |events|
  {
    hide ResolveDimCombo, RecomputeDimCombo, PurchaseDayIsSealed, Moved, RolledUp;
    if events != [] {
      assert events[0] in events;
      PresentUnlessLost(Step(w, events[0]), events[1..], day);
    }
  }

  /**
   * Over every run of server rows, companions, expiries and losses of whole days that are
   * rehydrated faithfully, per day: the cells hold one row per accepted purchase, and
   * exactly the accepted normalized and local money, as do the day's total and
   * per-currency fields. A day is missing only if nothing was accepted or it was lost.
   */
  lemma {:induction false} MoneyConserved(events: seq<Event>, day: int, currency: string)
    requires CleanRun(EMPTY_WORLD, [], events) && CleanCurrency(currency)
    ensures var days := Run(EMPTY_WORLD, events).days;
      if day in days then
        var d := days[day];
        && Total(d.cnt) == Accepted(events, day, Rows)
        && Total(d.rev) == Get(d.revDay, REV_TOTAL_FIELD) == Accepted(events, day, Revenue)
        && Total(LocOf(d.loc, currency)) == Get(d.revDay, RevLocField(currency)) == Accepted(events, day, Local(currency))
      else Accepted(events, day, Rows) == 0 || DayLost(day) in events
  {
    EmptyAgrees();
    RunAgrees(EMPTY_WORLD, [], events);
    var w, ledger := Run(EMPTY_WORLD, events), LedgerRun(EMPTY_WORLD, [], events);
    if DayLost(day) !in events {
      PresentUnlessLost(EMPTY_WORLD, events, day);
    }
    forall m: Measure ensures DaySum(ledger, day, m) == Accepted(events, day, m) {
      LedgerSumsAccepted(EMPTY_WORLD, [], events, day, m);
    }
    hide Run, LedgerRun, DaySum, CellSum, Accepted, CleanRun;
    if day in w.days {
      var d := w.days[day];
      assert DayFieldsAgree(d, ledger, day, currency);
      assert CellsTotal(d, Rows) == DaySum(ledger, day, Rows);
      assert CellsTotal(d, Revenue) == DaySum(ledger, day, Revenue);
      assert CellsTotal(d, Local(currency)) == DaySum(ledger, day, Local(currency));
    }
  }

  /** Each cell is the aggregate of the purchases now attributed to it, so none is negative. */
  lemma {:induction false} CellIsItsPurchases(events: seq<Event>, day: int, productId: string, dimCombo: string,
                                              m: Measure)
    requires CleanRun(EMPTY_WORLD, [], events) && CleanMeasure(m) && day in Run(EMPTY_WORLD, events).days
    ensures var value := CellValue(Run(EMPTY_WORLD, events).days[day], productId, dimCombo, m);
      value == CellSum(LedgerRun(EMPTY_WORLD, [], events), day, productId, dimCombo, m) && value >= 0
  {
    EmptyAgrees();
    RunAgrees(EMPTY_WORLD, [], events);
    SumsNonNegative(LedgerRun(EMPTY_WORLD, [], events), day, productId, dimCombo, m);
  }
}
