/**
 * From purchases to durable cells and back: a day's hashes are flushed to cells, the cells
 * are what reconciliation reads, and they are the floor a lost day is rehydrated from. What
 * holds of the hashes over every clean run therefore holds of the cells and of the floor.
 */
module MoneyPath {
  import opened Basics
  import opened MonKeys
  import opened PurchaseLedger
  import opened PurchaseRollup
  import opened Sums
  import Flush = MonetizationFlush
  import Reconciliation

  type CellId = Flush.CellId

  // ---- What a flush of the day's hashes leaves in the cells --------------------------

  function HashesOf(d: Day): Flush.Hashes {
    Flush.Hashes(d.cnt, d.rev, d.cat, d.loc)
  }

  function IdOf(row: Flush.Row): CellId {
    (row.productId, row.dimCombo)
  }

  lemma {:induction false} CellFieldIs(field: string)
    requires IsCell(field)
    ensures Flush.NamesCell(field) && ParsedCellKey(field).Some? && Flush.KeyOf(ParsedCellKey(field).value) == field
  {
    hide CellKey, ParsedCellKey, Flush.NamesCell;
    var p, c :| field == CellKey(p, c);
    Flush.KeyNamesCell((p, c));
  }

  lemma {:induction false} LocalFieldIs(field: string)
    requires IsLocal(field)
    ensures Flush.NamesLocal(field) && IsCell(Flush.LocalCell(field)) && CleanCurrency(Flush.LocalCurrency(field))
    ensures field == LocField(Flush.LocalCell(field), Flush.LocalCurrency(field))
  {
    hide CellKey, LocField, CleanCurrency, Flush.NamesLocal, Flush.LocalCell, Flush.LocalCurrency;
    var p, c, currency :| CleanCurrency(currency) && field == LocField(CellKey(p, c), currency);
    Flush.CleanFieldParses((p, c), currency);
  }

  /** Every row of the projection is written under its own id. */
  lemma {:induction false} RowsAreTheirCells(d: Day, k: string)
    requires Shaped(d) && k in Flush.Projected(HashesOf(d))
    ensures Flush.KeyOf(IdOf(Flush.Projected(HashesOf(d))[k])) == k
  {
    hide IsCell, IsLocal, Flush.NamesCell, Flush.NamesLocal, Flush.LocalCell, Flush.LocalOf, ParsedCellKey;
    var h := HashesOf(d);
    if k !in h.cnt && k !in h.rev && k !in h.cat {
      var f :| f in h.loc && Flush.NamesLocal(f) && Flush.LocalCell(f) == k;
      LocalFieldIs(f);
    }
    CellFieldIs(k);
  }

  ghost predicate IdsDistinct(rows: map<string, Flush.Row>) {
    forall j, k :: j in rows && k in rows && IdOf(rows[j]) == IdOf(rows[k]) ==> j == k
  }

  /** Each row is upserted under its id. */
  function Upserted(rows: map<string, Flush.Row>): map<CellId, Flush.Cell>
    requires IdsDistinct(rows)
  {
    map k | k in rows :: IdOf(rows[k]) := rows[k].cell
  }

  lemma {:induction false} UpsertedRow(rows: map<string, Flush.Row>, k: string)
    requires IdsDistinct(rows) && k in rows
    ensures IdOf(rows[k]) in Upserted(rows) && Upserted(rows)[IdOf(rows[k])] == rows[k].cell
  {
    hide IdOf;
  }

  lemma {:induction false} UpsertedFrom(rows: map<string, Flush.Row>, id: CellId) returns (k: string)
    requires IdsDistinct(rows) && id in Upserted(rows)
    ensures k in rows && IdOf(rows[k]) == id
  {
    hide IdOf;
    k :| k in rows && IdOf(rows[k]) == id;
  }

  lemma {:induction false} RowIdsDistinct(d: Day)
    requires Shaped(d)
    ensures IdsDistinct(Flush.Projected(HashesOf(d)))
  {
    hide Flush.Projected, Shaped, Flush.KeyOf;
    var rows := Flush.Projected(HashesOf(d));
    forall j, k | j in rows && k in rows && IdOf(rows[j]) == IdOf(rows[k]) ensures j == k {
      RowsAreTheirCells(d, j);
      RowsAreTheirCells(d, k);
    }
  }

  /** The cells a flush writes. */
  function FlushedCells(d: Day): map<CellId, Flush.Cell>
    requires Shaped(d)
  {
    RowIdsDistinct(d);
    Upserted(Flush.Projected(HashesOf(d)))
  }

  lemma {:induction false} FlushedAt(d: Day, id: CellId)
    requires Shaped(d)
    ensures ParsedCellKey(Flush.KeyOf(id)) == Some(id)
    ensures id in FlushedCells(d) <==> Flush.KeyOf(id) in Flush.CellFields(HashesOf(d))
    ensures id in FlushedCells(d) ==> FlushedCells(d)[id] == Flush.RowAt(HashesOf(d), Flush.KeyOf(id)).cell
  {
    hide Flush.CellFields, Flush.RowAt, ParsedCellKey, Flush.KeyOf, Shaped, Upserted, IdsDistinct;
    RowIdsDistinct(d);
    var rows := Flush.Projected(HashesOf(d));
    var key := Flush.KeyOf(id);
    Flush.KeyNamesCell(id);
    if key in rows {
      RowsAreTheirCells(d, key);
      Flush.KeyUnique(id, IdOf(rows[key]));
      UpsertedRow(rows, key);
    } else if id in FlushedCells(d) {
      var k := UpsertedFrom(rows, id);
      RowsAreTheirCells(d, k);
    }
  }

  // ---- The cells hold what the hashes hold -------------------------------------------

  /** The counts and revenues of the cells, by id; a cell that is not there counts as 0. */
  lemma {:induction false} CellMeasures(d: Day, id: CellId)
    requires Shaped(d)
    ensures var cells := FlushedCells(d); var key := Flush.KeyOf(id);
      && (if id in cells then cells[id].count else 0) == Get(d.cnt, key)
      && (if id in cells then cells[id].revenue else 0) == Get(d.rev, key)
  {
    hide ParsedCellKey, Flush.KeyOf, Flush.LocalOf, Flush.LocalNames, FlushedCells, Shaped;
    FlushedAt(d, id);
    Flush.KeyNamesCell(id);
  }

  function LocalAt(cells: map<CellId, Flush.Cell>, id: CellId, currency: string): int {
    if id in cells && currency in cells[id].local then cells[id].local[currency] else 0
  }

  lemma {:induction false} CellLocals(d: Day, id: CellId, currency: string)
    requires Shaped(d)
    ensures LocalAt(FlushedCells(d), id, currency)
         == if CleanCurrency(currency) then Get(d.loc, LocField(Flush.KeyOf(id), currency)) else 0
    ensures id in FlushedCells(d) && currency in FlushedCells(d)[id].local ==>
      CleanCurrency(currency) && LocField(Flush.KeyOf(id), currency) in d.loc
    ensures CleanCurrency(currency) && LocField(Flush.KeyOf(id), currency) in d.loc ==>
      id in FlushedCells(d) && currency in FlushedCells(d)[id].local
  {
    hide ParsedCellKey, Flush.KeyOf, Flush.LocalOf, FlushedCells, Shaped, CleanCurrency, LocField,
         Flush.NamesLocal, Flush.LocalCell, Flush.LocalCurrency, Flush.NamesCell;
    var key := Flush.KeyOf(id);
    FlushedAt(d, id);
    Flush.KeyNamesCell(id);
    if currency in Flush.LocalOf(d.loc, key) {
      var f := Flush.LocalOfFrom(d.loc, key, currency);
      Flush.LocalFieldShape(f);
      Flush.LocalOfAt(d.loc, f);
      Flush.ProjectedCurrenciesAreClean(d.loc, key, currency);
    }
    if CleanCurrency(currency) && LocField(key, currency) in d.loc {
      Flush.CleanFieldParses(id, currency);
      Flush.LocalOfAt(d.loc, LocField(key, currency));
    }
  }

  // ---- Totals under renamed keys -------------------------------------------------------

  /** Two tables hold the same values under an injective renaming of the keys. */
  ghost predicate Renamed<K(!new)>(m: map<K, int>, key: K -> string, n: map<string, int>) {
    && (forall a, b :: key(a) == key(b) ==> a == b)
    && (forall k :: Get(m, k) == Get(n, key(k)))
    && (forall j :: j in n ==> exists k :: key(k) == j)
  }

  lemma {:induction false} TotalRenamed<K(!new)>(m: map<K, int>, key: K -> string, n: map<string, int>)
    requires Renamed(m, key, n)
    ensures Total(m) == Total(n)
    decreases |n|
  {
    hide Total;
    if j :| j in n {
      var k :| key(k) == j;
      TotalWithout(m, k);
      TotalWithout(n, j);
      RenamedWithout(m, key, n, k);
      TotalRenamed(m - {k}, key, n - {j});
    } else {
      TotalNone(n);
      TotalExtensional(m, map[]);
      TotalNone<K>(map[]);
    }
  }

  lemma {:induction false} RenamedWithout<K(!new)>(m: map<K, int>, key: K -> string, n: map<string, int>, k: K)
    requires Renamed(m, key, n)
    ensures Renamed(m - {k}, key, n - {key(k)})
  {
    forall a ensures Get(m - {k}, a) == Get(n - {key(k)}, key(a)) {
      assert Get(m, a) == Get(n, key(a));
    }
  }

  function Counts(cells: map<CellId, Flush.Cell>): map<CellId, int> {
    map id | id in cells :: cells[id].count
  }

  function Revenues(cells: map<CellId, Flush.Cell>): map<CellId, int> {
    map id | id in cells :: cells[id].revenue
  }

  /** One currency's sums over the cells. */
  function CurrencySums(cells: map<CellId, Flush.Cell>, currency: string): map<CellId, int> {
    map id | id in cells && currency in cells[id].local :: cells[id].local[currency]
  }

  lemma {:induction false} CellTotals(d: Day)
    requires Shaped(d)
    ensures Total(Counts(FlushedCells(d))) == Total(d.cnt)
    ensures Total(Revenues(FlushedCells(d))) == Total(d.rev)
  {
    MeasuresAreRenamed(d);
    hide *;
    TotalRenamed(Counts(FlushedCells(d)), Flush.KeyOf, d.cnt);
    TotalRenamed(Revenues(FlushedCells(d)), Flush.KeyOf, d.rev);
  }

  lemma {:induction false} MeasuresAreRenamed(d: Day)
    requires Shaped(d)
    ensures Renamed(Counts(FlushedCells(d)), Flush.KeyOf, d.cnt)
    ensures Renamed(Revenues(FlushedCells(d)), Flush.KeyOf, d.rev)
  {
    var cells := FlushedCells(d);
    forall j | j in d.cnt || j in d.rev ensures exists id :: Flush.KeyOf(id) == j {
      CellFieldIs(j);
    }
    hide Shaped, FlushedCells, Flush.KeyOf;
    Flush.KeysUnique();
    forall id ensures Get(Counts(cells), id) == Get(d.cnt, Flush.KeyOf(id)) {
      CellMeasures(d, id);
    }
    forall id ensures Get(Revenues(cells), id) == Get(d.rev, Flush.KeyOf(id)) {
      CellMeasures(d, id);
    }
  }

  function LocalKeyOf(currency: string): CellId -> string {
    id => LocField(Flush.KeyOf(id), currency)
  }

  lemma {:induction false} LocalKeysUnique(currency: string)
    requires CleanCurrency(currency)
    ensures forall a, b :: LocalKeyOf(currency)(a) == LocalKeyOf(currency)(b) ==> a == b
  {
    forall a, b | LocalKeyOf(currency)(a) == LocalKeyOf(currency)(b) ensures a == b {
      Flush.CleanFieldParses(a, currency);
      Flush.CleanFieldParses(b, currency);
      Flush.KeyUnique(a, b);
    }
  }

  lemma {:induction false} LocOfAt(d: Day, currency: string, id: CellId)
    requires Shaped(d) && CleanCurrency(currency)
    ensures Get(LocOf(d.loc, currency), LocField(Flush.KeyOf(id), currency)) == LocalAt(FlushedCells(d), id, currency)
  {
    CellLocals(d, id, currency);
    hide Shaped, FlushedCells, ParseLocField, LocField, CleanCurrency;
    Flush.CleanFieldParses(id, currency);
  }

  lemma {:induction false} LocOfFields(d: Day, currency: string, field: string) returns (id: CellId)
    requires Shaped(d) && field in LocOf(d.loc, currency)
    ensures LocalKeyOf(currency)(id) == field
  {
    LocalFieldIs(field);
    CellFieldIs(Flush.LocalCell(field));
    id := ParsedCellKey(Flush.LocalCell(field)).value;
  }

  lemma {:induction false} CurrencyTotals(d: Day, currency: string)
    requires Shaped(d) && CleanCurrency(currency)
    ensures Total(CurrencySums(FlushedCells(d), currency)) == Total(LocOf(d.loc, currency))
  {
    var sums := CurrencySums(FlushedCells(d), currency);
    var key := LocalKeyOf(currency);
    LocalKeysUnique(currency);
    forall id ensures Get(sums, id) == Get(LocOf(d.loc, currency), key(id)) {
      LocOfAt(d, currency, id);
    }
    forall j | j in LocOf(d.loc, currency) ensures exists id :: key(id) == j {
      var id := LocOfFields(d, currency, j);
    }
    hide Shaped, FlushedCells, Flush.KeyOf, Total, LocOf, CurrencySums, LocField, LocalKeyOf, CleanCurrency;
    TotalRenamed(sums, key, LocOf(d.loc, currency));
  }

  // ---- The cells agree with the ledger ---------------------------------------------------

  function PurchasesOf(ledger: seq<Entry>, day: int): seq<Reconciliation.Purchase> {
    if ledger == [] then []
    else
      var e := ledger[|ledger| - 1];
      PurchasesOf(ledger[..|ledger| - 1], day)
      + if e.day == day then [Reconciliation.Purchase((e.productId, e.dimCombo), e.currency, e.local)] else []
  }

  /** Every purchase of the day was normalized at the rates `fx` still gives. */
  ghost predicate AtRates(fx: Reconciliation.Conversion, ledger: seq<Entry>, day: int) {
    forall i :: 0 <= i < |ledger| && ledger[i].day == day ==>
      ledger[i].normalized == Reconciliation.Converted(fx, ledger[i].currency, ledger[i].local)
  }

  /** Re-deriving at unchanged rates gives the accepted normalized money. */
  lemma {:induction false} DerivedIsRevenue(fx: Reconciliation.Conversion, ledger: seq<Entry>, day: int)
    requires AtRates(fx, ledger, day)
    ensures Reconciliation.Derived(fx, PurchasesOf(ledger, day)) == DaySum(ledger, day, Revenue)
  {
    hide Reconciliation.Converted;
    if ledger != [] {
      var n := |ledger| - 1;
      var rest := ledger[..n];
      assert forall i :: 0 <= i < |rest| ==> rest[i] == ledger[i];
      DerivedIsRevenue(fx, rest, day);
      var purchases := PurchasesOf(ledger, day);
      if ledger[n].day == day {
        assert purchases[..|purchases| - 1] == PurchasesOf(rest, day);
      } else {
        assert purchases == PurchasesOf(rest, day);
      }
    }
  }

  /** The cells' local sums are the sums of the purchases attributed to them. */
  lemma {:induction false} LocalSumsAreCells(ledger: seq<Entry>, day: int, p: string, c: string,
                                             currency: string)
    ensures Get(Reconciliation.LocalSums(PurchasesOf(ledger, day)), ((p, c), currency))
         == CellSum(ledger, day, p, c, Local(currency))
  {
    if ledger != [] {
      var n := |ledger| - 1;
      LocalSumsAreCells(ledger[..n], day, p, c, currency);
      var purchases := PurchasesOf(ledger, day);
      if ledger[n].day == day {
        assert purchases[..|purchases| - 1] == PurchasesOf(ledger[..n], day);
      } else {
        assert purchases == PurchasesOf(ledger[..n], day);
      }
    }
  }

  lemma {:induction false} RunAtRates(fx: Reconciliation.Conversion, w: World, ledger: seq<Entry>,
                                      events: seq<Event>, day: int)
    requires AtRates(fx, ledger, day)
    requires forall e :: e in events && e.Rolled? && e.row.day == day ==>
      e.row.normalized == Reconciliation.Converted(fx, e.row.currency, e.row.local)
    ensures AtRates(fx, LedgerRun(w, ledger, events), day)
    decreases |events|
  {
    hide Reconciliation.Converted, AfterServerRow, AfterCompanion, ResolveDimCombo,
         MoveTarget;
    if events != [] {
      assert events[0] in events;
      RunAtRates(fx, Step(w, events[0]), LedgerStep(w, ledger, events[0]), events[1..], day);
    }
  }

  /** No clean ledger has money in a currency the fields cannot carry. */
  lemma {:induction false} UncleanCurrencyIsAbsent(ledger: seq<Entry>, day: int, p: string, c: string, currency: string)
    requires LedgerClean(ledger) && !CleanCurrency(currency)
    ensures CellSum(ledger, day, p, c, Local(currency)) == 0 && DaySum(ledger, day, Local(currency)) == 0
  {
    hide CleanCurrency;
    if ledger != [] {
      var n := |ledger| - 1;
      assert forall i :: 0 <= i < n ==> ledger[..n][i] == ledger[i];
      UncleanCurrencyIsAbsent(ledger[..n], day, p, c, currency);
    }
  }

  /** The durable cells of the day, as reconciliation reads them. */
  function CellsOf(d: Day, gen: int): map<CellId, Reconciliation.Cell>
    requires Shaped(d)
  {
    var cells := FlushedCells(d);
    map id | id in cells ::
      Reconciliation.Cell(cells[id].count, cells[id].revenue, cells[id].category, cells[id].local, gen)
  }

  lemma {:induction false} LocalsAreLocalSums(d: Day, ledger: seq<Entry>, day: int, gen: int)
    requires DayAgrees(d, ledger, day) && LedgerClean(ledger) && Shaped(d)
    ensures SameValues(Reconciliation.AllLocal(CellsOf(d, gen)), Reconciliation.LocalSums(PurchasesOf(ledger, day)))
  {
    hide Reconciliation.AllLocal, Reconciliation.LocalSums, CellsOf, FlushedCells, DayAgrees, Shaped, CellSum, PurchasesOf;
    hide LedgerClean;
    var cells := CellsOf(d, gen);
    forall k: Reconciliation.LocalKey
      ensures Get(Reconciliation.AllLocal(cells), k) == Get(Reconciliation.LocalSums(PurchasesOf(ledger, day)), k)
    {
      LocalIsCellSum(d, ledger, day, k.0, k.1);
      LocalSumsAreCells(ledger, day, k.0.0, k.0.1, k.1);
      AllLocalIsLocal(d, gen, k);
      assert k == ((k.0.0, k.0.1), k.1);
    }
  }

  lemma {:induction false} AllLocalIsLocal(d: Day, gen: int, k: Reconciliation.LocalKey)
    requires Shaped(d)
    ensures Get(Reconciliation.AllLocal(CellsOf(d, gen)), k) == LocalAt(FlushedCells(d), k.0, k.1)
  {
    hide Reconciliation.AllLocal, FlushedCells, Shaped;
    Reconciliation.InAllLocal(CellsOf(d, gen), k);
  }

  lemma {:induction false} LocalIsCellSum(d: Day, ledger: seq<Entry>, day: int, id: CellId, currency: string)
    requires DayAgrees(d, ledger, day) && LedgerClean(ledger) && Shaped(d)
    ensures LocalAt(FlushedCells(d), id, currency) == CellSum(ledger, day, id.0, id.1, Local(currency))
  {
    hide Shaped, DayAgrees, FlushedCells, LocalAt, LedgerClean, CellSum, CleanCurrency, LocField;
    CellLocals(d, id, currency);
    if CleanCurrency(currency) {
      AgreesAt(d, ledger, day, id.0, id.1, Local(currency), currency);
    } else {
      UncleanCurrencyIsAbsent(ledger, day, id.0, id.1, currency);
    }
  }

  lemma {:induction false} RevenueOfCells(d: Day, gen: int)
    requires Shaped(d)
    ensures Reconciliation.CellRevenue(CellsOf(d, gen)) == Total(Revenues(FlushedCells(d)))
  {
    hide Shaped, FlushedCells, Total;
    assert Reconciliation.Revenues(CellsOf(d, gen)) == Revenues(FlushedCells(d));
  }

  /** The cells' revenue is the accepted money of the day, and their local sums are the purchases'. */
  lemma {:induction false} CellsAgreeWithLedger(d: Day, ledger: seq<Entry>, day: int, gen: int)
    requires DayAgrees(d, ledger, day) && LedgerClean(ledger) && Shaped(d)
    ensures Reconciliation.CellRevenue(CellsOf(d, gen)) == DaySum(ledger, day, Revenue)
    ensures SameValues(Reconciliation.AllLocal(CellsOf(d, gen)), Reconciliation.LocalSums(PurchasesOf(ledger, day)))
  {
    hide Shaped, DayAgrees, FlushedCells, Total, DaySum, PurchasesOf, CellsOf, SameValues, LedgerClean;
    hide Reconciliation.CellRevenue, Revenues, Counts;
    AgreesAt(d, ledger, day, "", "", Revenue, "");
    CellTotals(d);
    RevenueOfCells(d, gen);
    LocalsAreLocalSums(d, ledger, day, gen);
  }

  // ---- Main results ------------------------------------------------------------------------

  /**
   * Over every clean run, the cells a flush of the day leaves need no repair at rates that
   * have not changed since the purchases were accepted: their revenue is exactly the
   * revenue re-derived from the purchases.
   */
  lemma {:induction false} UnchangedRatesNeedNoRepair(fx: Reconciliation.Conversion, events: seq<Event>, day: int,
                                                      gen: int)
    requires CleanRun(EMPTY_WORLD, [], events) && day in Run(EMPTY_WORLD, events).days
    requires forall e :: e in events && e.Rolled? && e.row.day == day ==>
      e.row.normalized == Reconciliation.Converted(fx, e.row.currency, e.row.local)
    ensures Shaped(Run(EMPTY_WORLD, events).days[day])
    ensures var revenue := Reconciliation.CellRevenue(CellsOf(Run(EMPTY_WORLD, events).days[day], gen));
      var derived := Reconciliation.Derived(fx, PurchasesOf(LedgerRun(EMPTY_WORLD, [], events), day));
      revenue == derived && !Reconciliation.NeedsRepair(revenue - derived, derived)
  {
    hide *;
    RunAtDay(events, day);
    var d, ledger := Run(EMPTY_WORLD, events).days[day], LedgerRun(EMPTY_WORLD, [], events);
    CellsAgreeWithLedger(d, ledger, day, gen);
    NothingAtRates(fx, day);
    RunAtRates(fx, EMPTY_WORLD, [], events, day);
    DerivedIsRevenue(fx, ledger, day);
    NoDeltaNoRepair(Reconciliation.Derived(fx, PurchasesOf(ledger, day)));
  }

  lemma NothingAtRates(fx: Reconciliation.Conversion, day: int)
    ensures AtRates(fx, [], day)
  {
  }

  lemma NoDeltaNoRepair(derived: int)
    ensures !Reconciliation.NeedsRepair(0, derived)
  {
  }

  /** What every clean run guarantees of a day that is there. */
  lemma {:induction false} RunAtDay(events: seq<Event>, day: int)
    requires CleanRun(EMPTY_WORLD, [], events) && day in Run(EMPTY_WORLD, events).days
    ensures DayAgrees(Run(EMPTY_WORLD, events).days[day], LedgerRun(EMPTY_WORLD, [], events), day)
    ensures LedgerClean(LedgerRun(EMPTY_WORLD, [], events))
    ensures Shaped(Run(EMPTY_WORLD, events).days[day])
  {
    EmptyAgrees();
    RunAgrees(EMPTY_WORLD, [], events);
    hide Run, LedgerRun, CleanRun, StagesAgree, LedgerClean, CellsAgree, TotalsAgree, DayHashAgrees, Shaped;
  }

  /**
   * Whatever the rates have become, once those cells are recomputed a reconcile finds a
   * drift of at most half a unit of 10^-6 per purchase and per local sum.
   */
  lemma {:induction false} RecomputeThenReconcile(fx: Reconciliation.Conversion, events: seq<Event>, day: int, gen: int,
                                                  after: map<CellId, Reconciliation.Cell>, nextGen: int)
    requires CleanRun(EMPTY_WORLD, [], events) && day in Run(EMPTY_WORLD, events).days
    ensures Shaped(Run(EMPTY_WORLD, events).days[day])
    ensures var cells := CellsOf(Run(EMPTY_WORLD, events).days[day], gen);
      var purchases := PurchasesOf(LedgerRun(EMPTY_WORLD, [], events), day);
      var delta := Reconciliation.CellRevenue(after) - Reconciliation.Derived(fx, purchases);
      Reconciliation.RecomputedOutside(fx, cells, after, {}, nextGen) ==>
        2 * Abs(delta) <= |purchases| + |Reconciliation.LocalSums(purchases)| <= 2 * |purchases|
  {
    hide *;
    RunAtDay(events, day);
    var d, ledger := Run(EMPTY_WORLD, events).days[day], LedgerRun(EMPTY_WORLD, [], events);
    CellsAgreeWithLedger(d, ledger, day, gen);
    if Reconciliation.RecomputedOutside(fx, CellsOf(d, gen), after, {}, nextGen) {
      Reconciliation.AllRecomputed(fx, CellsOf(d, gen), after, nextGen);
      RevenueIs(after);
    }
    Reconciliation.RecomputedDayDrift(fx, CellsOf(d, gen), PurchasesOf(ledger, day));
    Reconciliation.FewerSumsThanPurchases(PurchasesOf(ledger, day));
  }

  lemma RevenueIs(cells: map<CellId, Reconciliation.Cell>)
    ensures Reconciliation.CellRevenue(cells) == Total(Reconciliation.Revenues(cells))
  {
  }

  // ---- The floor of a flushed day --------------------------------------------------------------

  /** What the durable tables give a day that is rehydrated: its cells and the payer-day total. */
  ghost predicate IsFloor(cells: map<CellId, Flush.Cell>, dayTotal: int, floor: Day) {
    && floor.cnt == Flush.CntFloor(cells) && floor.rev == Flush.RevFloor(cells) && floor.cat == Flush.CatFloor(cells)
    && Flush.IsLocFloor(cells, floor.loc)
    && Get(floor.revDay, REV_TOTAL_FIELD) == dayTotal
    && forall currency :: Get(floor.revDay, RevLocField(currency)) == Total(CurrencySums(cells, currency))
  }

  lemma FloorHashes(cells: map<CellId, Flush.Cell>, dayTotal: int, floor: Day)
    requires IsFloor(cells, dayTotal, floor)
    ensures floor.cnt == Flush.CntFloor(cells) && floor.rev == Flush.RevFloor(cells) && floor.cat == Flush.CatFloor(cells)
    ensures Flush.IsLocFloor(cells, floor.loc)
  {
    hide Flush.CntFloor, Flush.RevFloor, Flush.CatFloor, Flush.IsLocFloor;
  }

  /** What the floors hold for one cell, there or not. */
  lemma {:induction false} FloorAt(cells: map<CellId, Flush.Cell>, id: CellId)
    ensures var key := Flush.KeyOf(id);
      && Get(Flush.CntFloor(cells), key) == (if id in cells then cells[id].count else 0)
      && Get(Flush.RevFloor(cells), key) == (if id in cells then cells[id].revenue else 0)
  {
    hide Flush.KeyOf, Flush.CntFloor, Flush.RevFloor, Flush.CatFloor, Flush.RowsOf;
    var key := Flush.KeyOf(id);
    if id in cells {
      Flush.FloorsAt(cells, id);
    } else if key in Flush.CntFloor(cells) || key in Flush.RevFloor(cells) {
      var other := Flush.RowsOfFrom(cells, key);
      Flush.KeyUnique(id, other);
    }
  }

  lemma {:induction false} FloorCell(d: Day, id: CellId)
    requires Shaped(d)
    ensures var cells := FlushedCells(d); var key := Flush.KeyOf(id);
      && Get(Flush.CntFloor(cells), key) == Get(d.cnt, key) && Get(Flush.RevFloor(cells), key) == Get(d.rev, key)
  {
    hide *;
    FloorAt(FlushedCells(d), id);
    CellMeasures(d, id);
  }

  lemma {:induction false} FloorFieldIsCell(cells: map<CellId, Flush.Cell>, k: string)
    requires k in Flush.CntFloor(cells) || k in Flush.RevFloor(cells) || k in Flush.CatFloor(cells)
    ensures IsCell(k)
  {
    hide Flush.KeyOf, Flush.CntFloor, Flush.RevFloor, Flush.CatFloor, IsCell, Flush.RowsOf;
    var id := Flush.RowsOfFrom(cells, k);
    KeyIsCell(id);
  }

  lemma ShapedCell(d: Day, k: string)
    requires Shaped(d) && (k in d.cnt || k in d.rev)
    ensures IsCell(k)
  {
    hide IsCell, IsLocal;
  }

  lemma {:induction false} FloorMeasures(d: Day, k: string)
    requires Shaped(d)
    ensures Get(Flush.CntFloor(FlushedCells(d)), k) == Get(d.cnt, k)
    ensures Get(Flush.RevFloor(FlushedCells(d)), k) == Get(d.rev, k)
  {
    hide Flush.KeyOf, Flush.CntFloor, Flush.RevFloor, Flush.CatFloor, FlushedCells, Shaped, IsCell, ParsedCellKey;
    var cells := FlushedCells(d);
    if k in Flush.CntFloor(cells) || k in Flush.RevFloor(cells) {
      FloorFieldIsCell(cells, k);
    }
    if k in d.cnt || k in d.rev {
      ShapedCell(d, k);
    }
    if IsCell(k) {
      CellFieldIs(k);
      FloorCell(d, ParsedCellKey(k).value);
    }
  }

  lemma KeyIsCell(id: CellId)
    ensures IsCell(Flush.KeyOf(id))
  {
    hide CellKey;
    assert Flush.KeyOf(id) == CellKey(id.0, id.1);
  }

  lemma {:induction false} FloorLocals(d: Day, floor: Day, f: string)
    requires Shaped(d) && Flush.IsLocFloor(FlushedCells(d), floor.loc)
    ensures Get(floor.loc, f) == Get(d.loc, f)
    ensures f in floor.loc ==> IsLocal(f)
  {
    hide Flush.KeyOf, FlushedCells, LocField, CleanCurrency, ParsedCellKey, IsLocal, IsCell;
    hide Flush.NamesLocal, Flush.LocalCell, Flush.LocalCurrency, Flush.CleanCells, Shaped, Flush.IsLocFloor;
    var cells := FlushedCells(d);
    FlushedAreClean(d);
    if f in floor.loc {
      var id, c := Flush.SourceOf(cells, floor.loc, f);
      Flush.LocalFieldShape(f);
      CellLocals(d, id, c);
      CellIsLocal(id, c);
    } else if f in d.loc {
      ShapedLocal(d, f);
      LocalFieldIs(f);
      CellFieldIs(Flush.LocalCell(f));
      var id := ParsedCellKey(Flush.LocalCell(f)).value;
      CellLocals(d, id, Flush.LocalCurrency(f));
      FloorHasLocal(cells, floor.loc, id, Flush.LocalCurrency(f));
    }
  }

  lemma ShapedLocal(d: Day, f: string)
    requires Shaped(d) && f in d.loc
    ensures IsLocal(f)
  {
  }

  lemma CellIsLocal(id: CellId, currency: string)
    requires CleanCurrency(currency)
    ensures IsLocal(LocField(Flush.KeyOf(id), currency))
  {
    hide CellKey, LocField, CleanCurrency;
    assert Flush.KeyOf(id) == CellKey(id.0, id.1);
  }

  lemma FloorHasLocal(cells: map<CellId, Flush.Cell>, loc: map<string, int>, id: CellId, c: string)
    requires Flush.IsLocFloor(cells, loc) && id in cells && c in cells[id].local
    ensures LocField(Flush.KeyOf(id), c) in loc
  {
    hide LocField, Flush.KeyOf;
  }

  lemma {:induction false} FlushedAreClean(d: Day)
    requires Shaped(d)
    ensures Flush.CleanCells(FlushedCells(d))
  {
    hide FlushedCells, Shaped, CleanCurrency;
    forall id, c | id in FlushedCells(d) && c in FlushedCells(d)[id].local ensures CleanCurrency(c) {
      CellLocals(d, id, c);
    }
  }

  lemma {:induction false} FloorDayFields(d: Day, floor: Day, ledger: seq<Entry>, day: int, currency: string)
    requires DayAgrees(d, ledger, day) && LedgerClean(ledger) && Shaped(d)
    requires IsFloor(FlushedCells(d), Get(d.revDay, REV_TOTAL_FIELD), floor)
    ensures DayFieldsAgree(floor, ledger, day, currency)
  {
    hide Shaped, DayAgrees, FlushedCells, CurrencySums, Total, DaySum, LedgerClean, CleanCurrency, LocOf, RevLocField;
    hide Flush.CntFloor, Flush.RevFloor, Flush.CatFloor, Flush.IsLocFloor;
    AgreesAt(d, ledger, day, "", "", Local(currency), currency);
    if CleanCurrency(currency) {
      CurrencyTotals(d, currency);
    } else {
      UncleanCurrencyIsAbsent(ledger, day, "", "", currency);
      UncleanSums(d, currency);
    }
  }

  lemma {:induction false} UncleanSums(d: Day, currency: string)
    requires Shaped(d) && !CleanCurrency(currency)
    ensures Total(CurrencySums(FlushedCells(d), currency)) == 0
  {
    FlushedAreClean(d);
    hide Shaped, FlushedCells, CleanCurrency, Total;
    assert CurrencySums(FlushedCells(d), currency).Keys == {};
    TotalNone(CurrencySums(FlushedCells(d), currency));
  }

  /** The three hashes of a floor hold the values of the day it was flushed from. */
  lemma {:induction false} FloorValues(d: Day, floor: Day)
    requires Shaped(d) && IsFloor(FlushedCells(d), Get(d.revDay, REV_TOTAL_FIELD), floor)
    ensures SameValues(floor.cnt, d.cnt) && SameValues(floor.rev, d.rev) && SameValues(floor.loc, d.loc)
  {
    hide *;
    FloorHashes(FlushedCells(d), Get(d.revDay, REV_TOTAL_FIELD), floor);
    forall k ensures Get(floor.cnt, k) == Get(d.cnt, k) && Get(floor.rev, k) == Get(d.rev, k) {
      FloorMeasures(d, k);
    }
    forall f ensures Get(floor.loc, f) == Get(d.loc, f) {
      FloorLocals(d, floor, f);
    }
    SameValuesIntro(floor.cnt, d.cnt);
    SameValuesIntro(floor.rev, d.rev);
    SameValuesIntro(floor.loc, d.loc);
  }

  lemma SameValuesIntro(m: map<string, int>, n: map<string, int>)
    ensures (forall k :: Get(m, k) == Get(n, k)) ==> SameValues(m, n)
  {
  }

  lemma {:induction false} SameCells(a: Day, b: Day, p: string, c: string, m: Measure)
    requires SameValues(a.cnt, b.cnt) && SameValues(a.rev, b.rev) && SameValues(a.loc, b.loc)
    ensures CellValue(a, p, c, m) == CellValue(b, p, c, m) && CellsTotal(a, m) == CellsTotal(b, m)
  {
    hide Total, ParseLocField, LocOf, CellKey, LocField;
    TotalExtensional(a.cnt, b.cnt);
    TotalExtensional(a.rev, b.rev);
    if m.Local? {
      forall f ensures Get(LocOf(a.loc, m.currency), f) == Get(LocOf(b.loc, m.currency), f) {
        LocOfGet(a.loc, m.currency, f);
        LocOfGet(b.loc, m.currency, f);
        assert Get(a.loc, f) == Get(b.loc, f);
      }
      TotalExtensional(LocOf(a.loc, m.currency), LocOf(b.loc, m.currency));
    }
  }

  lemma LocOfGet(loc: map<string, int>, currency: string, f: string)
    ensures Get(LocOf(loc, currency), f)
         == if ParseLocField(f).Some? && ParseLocField(f).value.1 == currency then Get(loc, f) else 0
  {
    hide ParseLocField;
  }

  lemma {:induction false} FloorShaped(d: Day, floor: Day)
    requires Shaped(d) && IsFloor(FlushedCells(d), Get(d.revDay, REV_TOTAL_FIELD), floor)
    ensures Shaped(floor)
  {
    hide *;
    FloorHashes(FlushedCells(d), Get(d.revDay, REV_TOTAL_FIELD), floor);
    forall f | f in floor.cnt || f in floor.rev || f in floor.cat ensures IsCell(f) {
      FloorFieldIsCell(FlushedCells(d), f);
    }
    forall f | f in floor.loc ensures IsLocal(f) {
      FloorLocals(d, floor, f);
    }
    ShapedIntro(floor);
  }

  lemma ShapedIntro(d: Day)
    ensures (forall f :: f in d.cnt || f in d.rev || f in d.cat ==> IsCell(f)) && (forall f :: f in d.loc ==> IsLocal(f))
      ==> Shaped(d)
  {
    hide IsCell, IsLocal;
  }

  /** The floor of a day that was flushed after its last purchase is a faithful one. */
  lemma {:induction false} FlushedFloorIsFaithful(d: Day, ledger: seq<Entry>, day: int, floor: Day)
    requires DayAgrees(d, ledger, day) && LedgerClean(ledger) && Shaped(d)
    requires IsFloor(FlushedCells(d), Get(d.revDay, REV_TOTAL_FIELD), floor)
    ensures DayAgrees(floor, ledger, day)
  {
    hide *;
    FloorShaped(d, floor);
    FloorValues(d, floor);
    forall currency ensures DayFieldsAgree(floor, ledger, day, currency) {
      FloorDayFields(d, floor, ledger, day, currency);
    }
    SameDayAgrees(d, floor, ledger, day);
  }

  lemma {:induction false} SameDayAgrees(d: Day, floor: Day, ledger: seq<Entry>, day: int)
    requires DayAgrees(d, ledger, day) && Shaped(floor)
    requires SameValues(floor.cnt, d.cnt) && SameValues(floor.rev, d.rev) && SameValues(floor.loc, d.loc)
    requires forall currency :: DayFieldsAgree(floor, ledger, day, currency)
    ensures DayAgrees(floor, ledger, day)
  {
    hide CellValue, CellsTotal, CellSum, DaySum, DayFieldsAgree, Shaped, SameValues;
    forall p, c, m ensures CellValue(floor, p, c, m) == CellValue(d, p, c, m) {
      SameCells(floor, d, p, c, m);
    }
    forall m ensures CellsTotal(floor, m) == CellsTotal(d, m) {
      SameCells(floor, d, "", "", m);
    }
  }

  lemma {:induction false} CleanRunAppend(w: World, ledger: seq<Entry>, a: seq<Event>, b: seq<Event>)
    requires CleanRun(w, ledger, a) && CleanRun(Run(w, a), LedgerRun(w, ledger, a), b)
    ensures CleanRun(w, ledger, a + b)
    decreases |a|
  {
    hide Step, LedgerStep, FloorFaithful;
    if a == [] {
      assert a + b == b;
    } else {
      assert (a + b)[1..] == a[1..] + b;
      CleanRunAppend(Step(w, a[0]), LedgerStep(w, ledger, a[0]), a[1..], b);
    }
  }

  /**
   * Losing a day's hashes after they were flushed loses no money: the run goes on as a
   * clean one when the next purchase of the day rehydrates them from the cells.
   */
  lemma {:induction false} LossAfterFlushIsHarmless(events: seq<Event>, day: int, cfg: Config, row: ServerRow, floor: Day)
    requires CleanRun(EMPTY_WORLD, [], events) && day in Run(EMPTY_WORLD, events).days
    requires CleanRow(row) && row.day == day
    ensures Shaped(Run(EMPTY_WORLD, events).days[day])
    ensures var d := Run(EMPTY_WORLD, events).days[day];
      IsFloor(FlushedCells(d), Get(d.revDay, REV_TOTAL_FIELD), floor) ==>
        CleanRun(EMPTY_WORLD, [], events + [DayLost(day), Rolled(cfg, row, floor)])
  {
    hide *;
    var w, ledger := Run(EMPTY_WORLD, events), LedgerRun(EMPTY_WORLD, [], events);
    RunAtDay(events, day);
    var d := w.days[day];
    if IsFloor(FlushedCells(d), Get(d.revDay, REV_TOTAL_FIELD), floor) {
      FlushedFloorIsFaithful(d, ledger, day, floor);
      LossThenRow(w, ledger, cfg, row, floor);
      CleanRunAppend(EMPTY_WORLD, [], events, [DayLost(day), Rolled(cfg, row, floor)]);
    }
  }

  lemma {:induction false} LossThenRow(w: World, ledger: seq<Entry>, cfg: Config, row: ServerRow, floor: Day)
    requires CleanRow(row) && DayAgrees(floor, ledger, row.day)
    ensures CleanRun(w, ledger, [DayLost(row.day), Rolled(cfg, row, floor)])
  {
    hide DayAgrees, AfterServerRow, ResolveDimCombo, CleanRow;
    var tail := [DayLost(row.day), Rolled(cfg, row, floor)];
    var lost := Step(w, tail[0]);
    assert tail[1..] == [tail[1]] && tail[1..][1..] == [];
    assert CleanRun(Step(lost, tail[1]), LedgerStep(lost, ledger, tail[1]), []);
    assert CleanRun(lost, ledger, [tail[1]]);
  }
}
