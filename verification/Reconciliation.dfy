/**
 * The two repair jobs over the durable cells of one game day: recompute revenue from the
 * local sums after a rate change, and reconcile revenue against the accepted purchases.
 */
module Reconciliation {
  import opened Basics
  import opened Fx
  import opened Sums
  import DimCombo

  /** A PURCHASE_IDEMPOTENCY row of the day; `cell` is where the purchase is attributed. */
  datatype Purchase = Purchase(cell: CellId, currency: string, local: int)

  type CellId = (string, string)

  datatype Cell = Cell(count: int, revenue: int, category: string, local: map<string, int>, gen: int)

  datatype PayerDay = PayerDay(revenueDayTotal: int, gen: int)

  /** A PURCHASE_IDEMPOTENCY row of any day, as the clearing of parked payers reads it. */
  datatype UserPurchase = UserPurchase(user: string, day: int, currency: string, local: int)

  /** The spend columns of a PAYER_SPINE_EXT row. */
  datatype Payer = Payer(lifetime: int, unconverted: bool)

  /** FX_RATE and the staleness cap, at the day's date. */
  datatype Conversion = Conversion(rates: Rates, day: int, stalenessMax: int)

  function Converted(fx: Conversion, currency: string, amount: int): int {
    Normalize(fx.rates, currency, amount, fx.day, fx.stalenessMax).normalized
  }

  // ---- Derived and recomputed revenue ----------------------------------------

  function Revenues(cells: map<CellId, Cell>): map<CellId, int> {
    map id | id in cells :: cells[id].revenue
  }

  ghost function CellRevenue(cells: map<CellId, Cell>): int {
    Total(Revenues(cells))
  }

  /** Convert each purchase and add up. */
  function Derived(fx: Conversion, purchases: seq<Purchase>): int {
    if purchases == [] then 0
    else Derived(fx, purchases[..|purchases| - 1])
         + Converted(fx, purchases[|purchases| - 1].currency, purchases[|purchases| - 1].local)
  }

  /** Convert each local sum of a cell and add up. */
  function Conversions(fx: Conversion, local: map<string, int>): map<string, int> {
    map c | c in local :: Converted(fx, c, local[c])
  }

  ghost function Recomputed(fx: Conversion, cell: Cell): int {
    Total(Conversions(fx, cell.local))
  }

  ghost function RecomputedCell(fx: Conversion, cell: Cell, gen: int): Cell {
    var revenue := Recomputed(fx, cell);
    if revenue == cell.revenue then cell else cell.(revenue := revenue, gen := gen)
  }

  /** The largest generation among the cells, and at least 0. */
  ghost predicate IsMaxGen(cells: map<CellId, Cell>, gen: int) {
    && gen >= 0
    && (forall id :: id in cells ==> cells[id].gen <= gen)
    && (gen == 0 || exists id :: id in cells && cells[id].gen == gen)
  }

  function UnknownCell(activeDims: seq<string>): CellId {
    (DimCombo.UNKNOWN_VALUE, DimCombo.DimComboOf(activeDims, map d | d in activeDims :: DimCombo.UNKNOWN_VALUE))
  }

  function Booked(cells: map<CellId, Cell>, id: CellId, correction: int, gen: int): map<CellId, Cell> {
    cells[id := if id in cells then cells[id].(revenue := cells[id].revenue + correction, gen := gen)
                else Cell(0, correction, "reconciliation", map[], gen)]
  }

  /** More than one unit of 10^-6 apart, and by more than a billionth of the derived sum. */
  predicate NeedsRepair(delta: int, derived: int) {
    Abs(delta) > 1 && Abs(delta) * 1_000_000_000 > Abs(derived)
  }

  /** At most 10^-6 apart in either direction, or at most a billionth of the derived sum. */
  predicate WithinTolerance(revenue: int, derived: int) {
    || -1 <= revenue - derived <= 1
    || (if derived >= 0 then -derived <= (revenue - derived) * 1_000_000_000 <= derived
        else derived <= (revenue - derived) * 1_000_000_000 <= -derived)
  }

  lemma {:induction false} RepairIff(revenue: int, derived: int)
    ensures NeedsRepair(revenue - derived, derived) <==> !WithinTolerance(revenue, derived)
    ensures WithinTolerance(derived, derived)
  {
  }

  /** A booking is seen in the table: its generation is above every cell's. */
  lemma {:induction false} BookingShows(cells: map<CellId, Cell>, id: CellId, delta: int, gen: int)
    requires IsMaxGen(cells, gen - 1)
    ensures Booked(cells, id, -delta, gen) != cells
  {
    assert id in Booked(cells, id, -delta, gen) && Booked(cells, id, -delta, gen)[id].gen == gen;
  }

  // ---- Loop bookkeeping: the part of a map already visited ---------------------

  /** `m` without the keys still to visit. */
  function Visited<K, V>(m: map<K, V>, todo: set<K>): map<K, V> {
    m - todo
  }

  /** Visiting one more key adds its value to the running total. */
  lemma {:induction false} VisitOne<K>(m: map<K, int>, todo: set<K>, k: K)
    requires k in todo && k in m
    ensures Total(Visited(m, todo - {k})) == Total(Visited(m, todo)) + m[k]
  {
    assert Visited(m, todo - {k}) == Visited(m, todo)[k := m[k]];
    TotalUpdate(Visited(m, todo), k, m[k]);
  }

  lemma {:induction false} VisitNone<K>(m: map<K, int>)
    ensures Total(Visited(m, m.Keys)) == 0
    ensures Visited(m, {}) == m
  {
    assert Visited(m, m.Keys) == map[];
  }

  /** The cells after a recompute has passed those outside `todo`. */
  ghost predicate RecomputedOutside(fx: Conversion, before: map<CellId, Cell>, cells: map<CellId, Cell>,
                                    todo: set<CellId>, gen: int) {
    && cells.Keys == before.Keys
    && forall id :: id in before ==>
         cells[id] == if id in todo then before[id] else RecomputedCell(fx, before[id], gen)
  }

  lemma {:induction false} RecomputeOne(fx: Conversion, before: map<CellId, Cell>, cells: map<CellId, Cell>,
                                        todo: set<CellId>, gen: int, id: CellId)
    requires RecomputedOutside(fx, before, cells, todo, gen) && id in todo && id in before
    ensures cells[id] == before[id]
    ensures RecomputedOutside(fx, before, cells[id := RecomputedCell(fx, before[id], gen)], todo - {id}, gen)
  {
    hide RecomputedCell;
  }

  /** What each cell's revenue becomes. */
  ghost function NewRevenues(fx: Conversion, cells: map<CellId, Cell>): map<CellId, int> {
    map id | id in cells :: Recomputed(fx, cells[id])
  }

  lemma {:induction false} AllRecomputed(fx: Conversion, before: map<CellId, Cell>, cells: map<CellId, Cell>, gen: int)
    requires RecomputedOutside(fx, before, cells, {}, gen)
    ensures Revenues(cells) == NewRevenues(fx, before)
  {
    hide Recomputed;
    assert forall id :: id in before ==> cells[id].revenue == Recomputed(fx, before[id]);
  }

  /** The cells outside `todo` that a recompute changes. */
  ghost function ChangedOutside(fx: Conversion, cells: map<CellId, Cell>, todo: set<CellId>): set<CellId> {
    set id | id in cells && id !in todo && Recomputed(fx, cells[id]) != cells[id].revenue
  }

  lemma {:induction false} ChangedOne(fx: Conversion, cells: map<CellId, Cell>, todo: set<CellId>, id: CellId)
    requires id in todo && id in cells
    ensures |ChangedOutside(fx, cells, todo - {id})|
         == |ChangedOutside(fx, cells, todo)| + if Recomputed(fx, cells[id]) != cells[id].revenue then 1 else 0
  {
    hide Recomputed;
    var before := ChangedOutside(fx, cells, todo);
    assert ChangedOutside(fx, cells, todo - {id})
        == if Recomputed(fx, cells[id]) != cells[id].revenue then before + {id} else before;
  }

  // ---- Payers with parked spend ------------------------------------------------

  /** A purchase converted at its own day. */
  function OwnDay(fx: Conversion, p: UserPurchase): FxResult {
    Normalize(fx.rates, p.currency, p.local, p.day, fx.stalenessMax)
  }

  function OfUser(all: seq<UserPurchase>, user: string): seq<UserPurchase> {
    if all == [] then []
    else
      var n := |all| - 1;
      OfUser(all[..n], user) + if all[n].user == user then [all[n]] else []
  }

  predicate AllConvert(fx: Conversion, purchases: seq<UserPurchase>) {
    forall i :: 0 <= i < |purchases| ==> OwnDay(fx, purchases[i]).disposition != Parked
  }

  function Lifetime(fx: Conversion, purchases: seq<UserPurchase>): int {
    if purchases == [] then 0
    else
      var n := |purchases| - 1;
      Lifetime(fx, purchases[..n]) + OwnDay(fx, purchases[n]).normalized
  }

  /** Once every purchase of a flagged payer converts, the flag goes and the lifetime is rebuilt. */
  function ClearedPayer(fx: Conversion, payer: Payer, purchases: seq<UserPurchase>): Payer {
    if payer.unconverted && AllConvert(fx, purchases) then Payer(Lifetime(fx, purchases), false) else payer
  }

  function ClearedPayers(fx: Conversion, payers: map<string, Payer>, all: seq<UserPurchase>,
                         todo: set<string>): map<string, Payer> {
    map u | u in payers :: if u in todo then payers[u] else ClearedPayer(fx, payers[u], OfUser(all, u))
  }

  lemma {:induction false} ClearOne(fx: Conversion, payers: map<string, Payer>, all: seq<UserPurchase>,
                                    todo: set<string>, u: string)
    requires u in todo && u in payers
    ensures ClearedPayers(fx, payers, all, todo - {u})
         == ClearedPayers(fx, payers, all, todo)[u := ClearedPayer(fx, payers[u], OfUser(all, u))]
    ensures ClearedPayers(fx, payers, all, todo)[u] == payers[u]
  {
    hide ClearedPayer, OfUser;
  }

  /** What one user's purchases among all of them come to, each at its own day. */
  function UserTotal(fx: Conversion, all: seq<UserPurchase>, user: string): int {
    if all == [] then 0
    else
      var p := all[|all| - 1];
      UserTotal(fx, all[..|all| - 1], user)
      + if p.user == user then Normalize(fx.rates, p.currency, p.local, p.day, fx.stalenessMax).normalized else 0
  }

  ghost predicate UserConverts(fx: Conversion, all: seq<UserPurchase>, user: string) {
    forall i :: 0 <= i < |all| && all[i].user == user ==>
      Normalize(fx.rates, all[i].currency, all[i].local, all[i].day, fx.stalenessMax).disposition != Parked
  }

  lemma {:induction false} OneMorePurchase(fx: Conversion, earlier: seq<UserPurchase>, p: UserPurchase)
    ensures AllConvert(fx, earlier + [p]) <==> AllConvert(fx, earlier) && OwnDay(fx, p).disposition != Parked
    ensures Lifetime(fx, earlier + [p]) == Lifetime(fx, earlier) + OwnDay(fx, p).normalized
  {
    hide OwnDay;
    var all := earlier + [p];
    assert all[..|earlier|] == earlier && all[|earlier|] == p;
    assert forall i :: 0 <= i < |earlier| ==> all[i] == earlier[i];
  }

  lemma {:induction false} UserConvertsStep(fx: Conversion, all: seq<UserPurchase>, user: string)
    requires all != []
    ensures var n := |all| - 1;
      UserConverts(fx, all, user) <==>
        UserConverts(fx, all[..n], user) && (all[n].user == user ==> OwnDay(fx, all[n]).disposition != Parked)
  {
    hide Normalize;
    assert forall i :: 0 <= i < |all| - 1 ==> all[..|all| - 1][i] == all[i];
  }

  lemma {:induction false} OfUserIs(fx: Conversion, all: seq<UserPurchase>, user: string)
    ensures AllConvert(fx, OfUser(all, user)) <==> UserConverts(fx, all, user)
    ensures Lifetime(fx, OfUser(all, user)) == UserTotal(fx, all, user)
  {
    hide Normalize, AllConvert, UserConverts, Lifetime;
    if all != [] {
      var n := |all| - 1;
      OfUserIs(fx, all[..n], user);
      UserConvertsStep(fx, all, user);
      OneMorePurchase(fx, OfUser(all[..n], user), all[n]);
      assert OfUser(all[..n], user) + [] == OfUser(all[..n], user);
    } else {
      NoPurchases(fx, user);
    }
  }

  lemma NoPurchases(fx: Conversion, user: string)
    ensures AllConvert(fx, []) && UserConverts(fx, [], user) && Lifetime(fx, []) == 0
  {
  }

  /** A clear, user by user: who is flagged and has no parked purchase is rebuilt; nobody else changes. */
  lemma {:induction false} ClearByUser(fx: Conversion, payers: map<string, Payer>, all: seq<UserPurchase>, user: string)
    requires user in payers
    ensures ClearedPayers(fx, payers, all, {}).Keys == payers.Keys
    ensures ClearedPayers(fx, payers, all, {})[user]
         == if payers[user].unconverted && UserConverts(fx, all, user) then Payer(UserTotal(fx, all, user), false)
            else payers[user]
  {
    OfUserIs(fx, all, user);
    hide AllConvert, OfUser, Lifetime, UserConverts, UserTotal;
  }

  /** A purchase as it was converted when it was accepted, at the rates of that moment. */
  function Accepted(fx: Conversion, p: UserPurchase, earlier: Rates): FxResult {
    OwnDay(fx.(rates := earlier), p)
  }

  function SumAccepted(fx: Conversion, purchases: seq<UserPurchase>, earlier: seq<Rates>): int
    requires |earlier| == |purchases|
  {
    if purchases == [] then 0
    else
      var n := |purchases| - 1;
      SumAccepted(fx, purchases[..n], earlier[..n]) + Accepted(fx, purchases[n], earlier[n]).normalized
  }

  ghost predicate SomeParked(fx: Conversion, purchases: seq<UserPurchase>, earlier: seq<Rates>)
    requires |earlier| == |purchases|
  {
    exists i :: 0 <= i < |purchases| && Accepted(fx, purchases[i], earlier[i]).disposition == Parked
  }

  /** No rate was added that is dated after the one a purchase was accepted at, and not after its day. */
  ghost predicate NoneSuperseded(fx: Conversion, purchases: seq<UserPurchase>, earlier: seq<Rates>)
    requires |earlier| == |purchases|
  {
    forall i :: 0 <= i < |purchases| ==> Accepted(fx, purchases[i], earlier[i]) == OwnDay(fx, purchases[i])
  }

  /**
   * What a clear means for a payer whose lifetime and flag are what the purchases came to
   * when they were accepted, at rates that have only been added to since: the flag is then
   * right. So is the lifetime of a payer whose flag goes; a payer who was not flagged keeps
   * the lifetime, which is right as long as no conversion was superseded.
   */
  lemma {:induction false} ClearIsRight(fx: Conversion, payer: Payer, purchases: seq<UserPurchase>,
                                        earlier: seq<Rates>)
    requires |earlier| == |purchases| && forall i :: 0 <= i < |earlier| ==> AddedTo(earlier[i], fx.rates)
    requires payer == Payer(SumAccepted(fx, purchases, earlier), SomeParked(fx, purchases, earlier))
    ensures var after := ClearedPayer(fx, payer, purchases);
      && (after.unconverted <==> !AllConvert(fx, purchases))
      && (payer.unconverted && !after.unconverted ==> after.lifetime == Lifetime(fx, purchases))
      && (!payer.unconverted ==> after == payer)
      && (!payer.unconverted && NoneSuperseded(fx, purchases, earlier) ==> after.lifetime == Lifetime(fx, purchases))
  {
    hide Normalize;
    forall i | 0 <= i < |purchases| && Accepted(fx, purchases[i], earlier[i]).disposition != Parked
      ensures OwnDay(fx, purchases[i]).disposition != Parked
    {
      var p := purchases[i];
      AddedRates(earlier[i], fx.rates, p.currency, p.local, p.day, fx.stalenessMax);
    }
    if NoneSuperseded(fx, purchases, earlier) {
      SameLifetime(fx, purchases, earlier);
    }
  }

  lemma {:induction false} SameLifetime(fx: Conversion, purchases: seq<UserPurchase>, earlier: seq<Rates>)
    requires |earlier| == |purchases| && NoneSuperseded(fx, purchases, earlier)
    ensures SumAccepted(fx, purchases, earlier) == Lifetime(fx, purchases)
  {
    hide Normalize, OwnDay, Accepted;
    if purchases != [] {
      var n := |purchases| - 1;
      assert forall i :: 0 <= i < n ==> purchases[..n][i] == purchases[i] && earlier[..n][i] == earlier[i];
      SameLifetime(fx, purchases[..n], earlier[..n]);
    }
  }

  /** Exactly when one purchase is superseded: a rate was added between the one it used and its day. */
  lemma {:induction false} SupersededIff(fx: Conversion, p: UserPurchase, earlier: Rates)
    requires AddedTo(earlier, fx.rates) && Accepted(fx, p, earlier).disposition != Parked
    ensures Accepted(fx, p, earlier) == OwnDay(fx, p) <==>
      forall date :: Accepted(fx, p, earlier).rateDate.value < date <= p.day ==> (p.currency, date) !in fx.rates
  {
    hide Normalize;
    AddedRates(earlier, fx.rates, p.currency, p.local, p.day, fx.stalenessMax);
  }

  /** A payer who was never flagged keeps a lifetime that a later, nearer rate has made wrong. */
  lemma {:induction false} SupersededLifetimeStays()
    ensures var earlier: Rates := map[("EUR", 5) := 1.0];
      var fx := Conversion(map[("EUR", 5) := 1.0, ("EUR", 8) := 2.0], 10, 30);
      var p := UserPurchase("u", 10, "EUR", 1_000_000);
      var payer := Payer(SumAccepted(fx, [p], [earlier]), SomeParked(fx, [p], [earlier]));
      && AddedTo(earlier, fx.rates) && payer == Payer(1_000_000, false)
      && ClearedPayer(fx, payer, [p]).lifetime == 1_000_000 && Lifetime(fx, [p]) == 2_000_000
  {
    var earlier: Rates := map[("EUR", 5) := 1.0];
    var rates: Rates := map[("EUR", 5) := 1.0, ("EUR", 8) := 2.0];
    var fx := Conversion(rates, 10, 30);
    var p := UserPurchase("u", 10, "EUR", 1_000_000);
    LatestRate(earlier, "EUR", 1_000_000, 10, 30, 5);
    LatestRate(rates, "EUR", 1_000_000, 10, 30, 8);
    hide Normalize;
    assert OwnDay(fx, p).normalized == 2_000_000;
    assert Accepted(fx, p, earlier).normalized == 1_000_000 && Accepted(fx, p, earlier).disposition != Parked;
    assert [p][..0] == [] && [earlier][..0] == [];
  }

  lemma {:induction false} LatestRate(rates: Rates, currency: string, amount: int, day: int, stalenessMax: int, date: int)
    requires (currency, date) in rates && day - stalenessMax <= date <= day && stalenessMax >= 0
    requires forall later :: date < later <= day ==> (currency, later) !in rates
    ensures var r := Normalize(rates, currency, amount, day, stalenessMax);
      r.disposition != Parked && r.normalized == MulDecimal(amount, rates[(currency, date)])
  {
    NormalizeIsAsOf(rates, currency, amount, day, stalenessMax);
  }

  // ---- The service -----------------------------------------------------------

  class ReconciliationService {
    var cells: map<CellId, Cell>
    var payerDay: Option<PayerDay>
    var payers: map<string, Payer>

    method MaxGen() returns (gen: int)
      ensures IsMaxGen(cells, gen)
    {
      gen := 0;
      var todo := cells.Keys;
      while todo != {}
        invariant todo <= cells.Keys
        invariant IsMaxGen(Visited(cells, todo), gen)
        decreases |todo|
      {
        var id :| id in todo;
        assert Visited(cells, todo - {id}) == Visited(cells, todo)[id := cells[id]];
        if cells[id].gen > gen {
          gen := cells[id].gen;
          assert Visited(cells, todo - {id})[id].gen == gen;
        } else if gen != 0 {
          var top :| top in Visited(cells, todo) && Visited(cells, todo)[top].gen == gen;
          assert Visited(cells, todo - {id})[top].gen == gen;
        }
        todo := todo - {id};
      }
      assert Visited(cells, {}) == cells;
    }

    method SumRevenue() returns (sum: int)
      ensures sum == CellRevenue(cells)
    {
      hide Total;
      ghost var revenues := Revenues(cells);
      sum := 0;
      var todo := cells.Keys;
      VisitNone(revenues);
      while todo != {}
        invariant todo <= cells.Keys
        invariant sum == Total(Visited(revenues, todo))
        decreases |todo|
      {
        var id :| id in todo;
        VisitOne(revenues, todo, id);
        sum := sum + cells[id].revenue;
        todo := todo - {id};
      }
    }

    static method RecomputeCell(fx: Conversion, cell: Cell) returns (revenue: int)
      ensures revenue == Recomputed(fx, cell)
    {
      hide Total, AsOfDate, MulDecimal;
      ghost var conversions := Conversions(fx, cell.local);
      revenue := 0;
      var todo := cell.local.Keys;
      VisitNone(conversions);
      while todo != {}
        invariant todo <= cell.local.Keys
        invariant revenue == Total(Visited(conversions, todo))
        decreases |todo|
      {
        var c :| c in todo;
        var result := Normalize(fx.rates, c, cell.local[c], fx.day, fx.stalenessMax);
        VisitOne(conversions, todo, c);
        if result.disposition != Parked {
          revenue := revenue + result.normalized;
        }
        todo := todo - {c};
      }
    }

    /** Does every purchase convert, and what do they come to? */
    static method ConvertAll(fx: Conversion, purchases: seq<UserPurchase>) returns (anyParked: bool, lifetime: int)
      ensures anyParked == !AllConvert(fx, purchases)
      ensures !anyParked ==> lifetime == Lifetime(fx, purchases)
    {
      hide Normalize;
      anyParked, lifetime := false, 0;
      var i := 0;
      while i < |purchases|
        invariant 0 <= i <= |purchases|
        invariant forall k :: 0 <= k < i ==> OwnDay(fx, purchases[k]).disposition != Parked
        invariant lifetime == Lifetime(fx, purchases[..i])
      {
        var p := purchases[i];
        var result := Normalize(fx.rates, p.currency, p.local, p.day, fx.stalenessMax);
        assert result == OwnDay(fx, purchases[i]);
        assert purchases[..i + 1][..i] == purchases[..i];
        if result.disposition == Parked {
          return true, lifetime;
        }
        lifetime := lifetime + result.normalized;
        i := i + 1;
      }
      assert purchases[..|purchases|] == purchases;
    }

    method ClearConvertedPayers(fx: Conversion, all: seq<UserPurchase>)
      modifies this`payers
      ensures payers == ClearedPayers(fx, old(payers), all, {})
    {
      hide ClearedPayers, AllConvert, OfUser, Lifetime;
      ghost var before := payers;
      var todo := payers.Keys;
      NothingCleared(fx, before, all);
      while todo != {}
        invariant todo <= before.Keys == payers.Keys
        invariant payers == ClearedPayers(fx, before, all, todo)
        decreases |todo|
      {
        var u :| u in todo;
        ClearOne(fx, before, all, todo, u);
        if payers[u].unconverted {
          var purchases := OfUser(all, u);
          var anyParked, lifetime := ConvertAll(fx, purchases);
          if !anyParked {
            payers := payers[u := Payer(lifetime, false)];
          } else {
            assert payers == payers[u := payers[u]];
          }
        } else {
          assert payers == payers[u := payers[u]];
        }
        todo := todo - {u};
      }
    }

    /**
     * Unsealed days only; a changed cell takes the day's next generation. Payers whose
     * parked purchases all convert now are cleared.
     */
    method RecomputeOpenDay(fx: Conversion, all: seq<UserPurchase>)
      returns (cellsUpdated: nat, newTotal: int, nextGen: int)
      modifies this
      ensures IsMaxGen(old(cells), nextGen - 1)
      ensures RecomputedOutside(fx, old(cells), cells, {}, nextGen)
      ensures cellsUpdated == |ChangedOutside(fx, old(cells), {})|
      ensures newTotal == CellRevenue(cells)
      ensures payerDay == Some(PayerDay(newTotal, (if old(payerDay).Some? then old(payerDay).value.gen else 0) + 1))
      ensures payers == ClearedPayers(fx, old(payers), all, {})
    {
      hide Total, Recomputed, IsMaxGen, RecomputedOutside, Visited, Revenues, ChangedOutside, ClearedPayers;
      var gen := MaxGen();
      nextGen := gen + 1;
      newTotal, cellsUpdated := 0, 0;
      var todo := cells.Keys;
      ghost var before := cells;
      ghost var revenues := NewRevenues(fx, before);
      VisitNone(revenues);
      NothingRecomputed(fx, before, nextGen);
      while todo != {}
        invariant todo <= before.Keys == cells.Keys == revenues.Keys
        invariant payerDay == old(payerDay) && payers == old(payers)
        invariant RecomputedOutside(fx, before, cells, todo, nextGen)
        invariant newTotal == Total(Visited(revenues, todo))
        invariant cellsUpdated == |ChangedOutside(fx, before, todo)|
        decreases |todo|
      {
        var id :| id in todo;
        RecomputeOne(fx, before, cells, todo, nextGen, id);
        VisitOne(revenues, todo, id);
        ChangedOne(fx, before, todo, id);
        var cell := cells[id];
        var revenue := RecomputeCell(fx, cell);
        if revenue != cell.revenue {
          cells := cells[id := cell.(revenue := revenue, gen := nextGen)];
          cellsUpdated := cellsUpdated + 1;
        } else {
          assert cells == cells[id := cell];
        }
        newTotal := newTotal + revenue;
        todo := todo - {id};
      }
      AllRecomputed(fx, before, cells, nextGen);
      payerDay := Some(PayerDay(newTotal, (if payerDay.Some? then payerDay.value.gen else 0) + 1));
      ClearConvertedPayers(fx, all);
    }

    /** Book a correction into the cell of product `unknown` with every dimension unknown. */
    method BookDeltaToUnknown(activeDims: seq<string>, correction: int) returns (gen: int)
      modifies this`cells
      ensures IsMaxGen(old(cells), gen - 1)
      ensures cells == Booked(old(cells), UnknownCell(activeDims), correction, gen)
    {
      hide IsMaxGen, UnknownCell;
      var top := MaxGen();
      gen := top + 1;
      var id := UnknownCell(activeDims);
      var existing := if id in cells then cells[id].revenue else 0;
      cells := cells[id := if id in cells then cells[id].(revenue := existing + correction, gen := gen)
                           else Cell(0, existing + correction, "reconciliation", map[], gen)];
    }

    static method SumDerived(fx: Conversion, purchases: seq<Purchase>) returns (derived: int)
      ensures derived == Derived(fx, purchases)
    {
      hide AsOfDate, MulDecimal;
      derived := 0;
      var i := 0;
      while i < |purchases|
        invariant 0 <= i <= |purchases|
        invariant derived == Derived(fx, purchases[..i])
      {
        var p := purchases[i];
        var result := Normalize(fx.rates, p.currency, p.local, fx.day, fx.stalenessMax);
        assert purchases[..i + 1][..i] == purchases[..i];
        if result.disposition != Parked && result.rate.Some? {
          derived := derived + MulDecimal(p.local, result.rate.value);
        }
        i := i + 1;
      }
      assert purchases[..|purchases|] == purchases;
    }

    method ReconcileDay(fx: Conversion, activeDims: seq<string>, purchases: seq<Purchase>)
      returns (delta: int, repairedCells: nat, gen: int)
      modifies this`cells
      ensures delta == CellRevenue(old(cells)) - Derived(fx, purchases)
      ensures repairedCells == if NeedsRepair(delta, Derived(fx, purchases)) then 1 else 0
      ensures repairedCells == 0 ==> cells == old(cells)
      ensures repairedCells == 1 ==> IsMaxGen(old(cells), gen - 1)
      ensures repairedCells == 1 ==> cells == Booked(old(cells), UnknownCell(activeDims), -delta, gen)
      ensures WithinTolerance(CellRevenue(cells), Derived(fx, purchases))
      ensures cells != old(cells) <==> !WithinTolerance(CellRevenue(old(cells)), Derived(fx, purchases))
      ensures cells != old(cells) ==> CellRevenue(cells) == Derived(fx, purchases)
    {
      ghost var id := UnknownCell(activeDims);
      ghost var off := CellRevenue(cells) - Derived(fx, purchases);
      BookingIsExact(cells, id, off, 0);
      RepairIff(CellRevenue(cells), Derived(fx, purchases));
      hide IsMaxGen, UnknownCell, Booked, Derived, CellRevenue, NeedsRepair, WithinTolerance;
      var cellRevenue := SumRevenue();
      var derived := SumDerived(fx, purchases);
      delta := cellRevenue - derived;
      repairedCells, gen := 0, 0;
      if NeedsRepair(delta, derived) {
        gen := BookDeltaToUnknown(activeDims, -delta);
        repairedCells := 1;
        BookingIsExact(old(cells), id, delta, gen);
        BookingShows(old(cells), id, delta, gen);
      }
    }
  }

  lemma {:induction false} NothingRecomputed(fx: Conversion, cells: map<CellId, Cell>, gen: int)
    ensures RecomputedOutside(fx, cells, cells, cells.Keys, gen)
    ensures |ChangedOutside(fx, cells, cells.Keys)| == 0
  {
    hide Recomputed, RecomputedCell;
    assert ChangedOutside(fx, cells, cells.Keys) == {};
  }

  lemma {:induction false} NothingCleared(fx: Conversion, payers: map<string, Payer>, all: seq<UserPurchase>)
    ensures ClearedPayers(fx, payers, all, payers.Keys) == payers
  {
    hide ClearedPayer, OfUser;
  }

  /** What a recompute does to one cell: only its revenue may change, and then its generation rises above every cell's. */
  lemma {:induction false} RecomputedByCell(fx: Conversion, before: map<CellId, Cell>, after: map<CellId, Cell>,
                                            nextGen: int, id: CellId)
    requires RecomputedOutside(fx, before, after, {}, nextGen) && IsMaxGen(before, nextGen - 1) && id in before
    ensures id in after && after[id].revenue == Total(Conversions(fx, before[id].local))
    ensures after[id].count == before[id].count && after[id].local == before[id].local
    ensures after[id].category == before[id].category
    ensures after[id].revenue == before[id].revenue ==> after[id] == before[id]
    ensures after[id].revenue != before[id].revenue ==>
      after[id].gen == nextGen && forall other :: other in before ==> before[other].gen < after[id].gen
  {
    hide Total;
  }

  /** A correction goes to the product `unknown` with every active dimension `unknown`. */
  lemma {:induction false} CorrectionCell(activeDims: seq<string>)
    requires forall d :: d in activeDims ==> d in DimCombo.ALL_DIMENSIONS
    ensures var (product, combo) := UnknownCell(activeDims); var parsed := DimCombo.ParsedCombo(combo);
      && product == "unknown" && parsed.Keys == (set d | d in activeDims)
      && forall d :: d in activeDims ==> parsed[d] == "unknown"
  {
    hide DimCombo.DimComboOf, DimCombo.ParsedCombo, DimCombo.PlainName;
    forall d | d in activeDims ensures DimCombo.PlainName(d) {
      DimCombo.KnownDimensionsArePlain(d);
    }
    DimCombo.DimComboRoundTrip(activeDims, map d | d in activeDims :: DimCombo.UNKNOWN_VALUE);
  }

  // ---- Reconciling settles the day -------------------------------------------

  /** A repair makes revenue exact and touches one cell, in its revenue and generation only. */
  lemma {:induction false} BookingIsExact(cells: map<CellId, Cell>, id: CellId, delta: int, gen: int)
    ensures var after := Booked(cells, id, -delta, gen);
      && CellRevenue(after) == CellRevenue(cells) - delta
      && (forall other :: other in cells && other != id ==> after[other] == cells[other])
      && (id in cells ==> after[id].count == cells[id].count && after[id].local == cells[id].local)
      && (id !in cells ==> after[id].count == 0 && after[id].local == map[] && after[id].category == "reconciliation")
      && (id in cells ==> after[id].category == cells[id].category) && after[id].gen == gen
  {
    var after := Booked(cells, id, -delta, gen);
    TotalIncr(Revenues(cells), id, -delta);
    assert Revenues(after) == Incr(Revenues(cells), id, -delta);
  }

  /**
   * After a reconcile the revenue is within 10^-6 or a billionth of the derived sum, above
   * or below; it was changed only if it was not, and then to exactly that sum.
   */
  lemma {:induction false} ReconcileIsWithinTolerance(cells: map<CellId, Cell>, id: CellId, gen: int, fx: Conversion,
                                                      purchases: seq<Purchase>)
    ensures var derived := Derived(fx, purchases); var delta := CellRevenue(cells) - derived;
      var after := if NeedsRepair(delta, derived) then Booked(cells, id, -delta, gen) else cells;
      var rest := CellRevenue(after) - derived;
      && (-1 <= rest <= 1 || (-derived <= rest * 1_000_000_000 <= derived) || (derived <= rest * 1_000_000_000 <= -derived))
      && (NeedsRepair(delta, derived) <==>
            && (delta > 1 || delta < -1)
            && (delta * 1_000_000_000 > derived || delta * 1_000_000_000 < -derived)
            && (delta * 1_000_000_000 > -derived || delta * 1_000_000_000 < derived))
      && (NeedsRepair(delta, derived) ==> rest == 0)
  {
    BookingIsExact(cells, id, CellRevenue(cells) - Derived(fx, purchases), gen);
    RepairIff(CellRevenue(cells), Derived(fx, purchases));
    hide Booked, CellRevenue, Derived;
  }

  /** After a reconcile, repaired or not, an immediate second one repairs nothing. */
  lemma {:induction false} ReconcileSettles(cells: map<CellId, Cell>, after: map<CellId, Cell>, id: CellId, gen: int,
                                            fx: Conversion, purchases: seq<Purchase>)
    requires var delta := CellRevenue(cells) - Derived(fx, purchases);
      after == if NeedsRepair(delta, Derived(fx, purchases)) then Booked(cells, id, -delta, gen) else cells
    ensures !NeedsRepair(CellRevenue(after) - Derived(fx, purchases), Derived(fx, purchases))
    ensures NeedsRepair(CellRevenue(cells) - Derived(fx, purchases), Derived(fx, purchases)) ==>
      CellRevenue(after) == Derived(fx, purchases)
  {
    BookingIsExact(cells, id, CellRevenue(cells) - Derived(fx, purchases), gen);
  }

  // ---- The rounding bound ----------------------------------------------------

  /** The rate a currency converts at; a parked currency converts at zero. */
  function RateOf(fx: Conversion, currency: string): real {
    var r := Normalize(fx.rates, currency, 0, fx.day, fx.stalenessMax);
    if r.rate.Some? then r.rate.value else 0.0
  }

  /** `d` is at most half a unit for each of `n` roundings. */
  ghost predicate Within(d: real, n: nat) {
    -(n as real) <= 2.0 * d <= n as real
  }

  lemma {:induction false} WithinNone()
    ensures Within(0.0, 0)
  {
  }

  lemma {:induction false} WithinOneMore(d: real, n: nat, e: real)
    requires Within(d, n) && -0.5 <= e <= 0.5
    ensures Within(d + e, n + 1)
  {
  }

  lemma {:induction false} ConvertedAtRate(fx: Conversion, currency: string, amount: int)
    ensures var rate := RateOf(fx, currency);
      Converted(fx, currency, amount) == MulDecimal(amount, rate) || (Converted(fx, currency, amount) == 0 && rate == 0.0)
  {
    hide MulDecimal, AsOfDate;
  }

  lemma {:induction false} ConvertedNearProduct(fx: Conversion, currency: string, amount: int)
    ensures -0.5 <= Converted(fx, currency, amount) as real - amount as real * RateOf(fx, currency) <= 0.5
  {
    hide Round, Converted, RateOf;
    ConvertedAtRate(fx, currency, amount);
    RoundWithinHalf(amount as real * RateOf(fx, currency));
  }

  type LocalKey = (CellId, string)

  /** The per-cell, per-currency local sums the purchases add up to. */
  function LocalSums(purchases: seq<Purchase>): map<LocalKey, int> {
    if purchases == [] then map[]
    else
      var p := purchases[|purchases| - 1];
      Incr(LocalSums(purchases[..|purchases| - 1]), (p.cell, p.currency), p.local)
  }

  lemma {:induction false} FewerSumsThanPurchases(purchases: seq<Purchase>)
    ensures |LocalSums(purchases)| <= |purchases|
  {
    if purchases != [] {
      var n := |purchases| - 1;
      FewerSumsThanPurchases(purchases[..n]);
      var sums := LocalSums(purchases[..n]);
      var key := (purchases[n].cell, purchases[n].currency);
      assert LocalSums(purchases).Keys == sums.Keys + {key};
    }
  }

  /** The exact worth of an amount, before rounding. */
  function Product(fx: Conversion, key: LocalKey, amount: int): real {
    amount as real * RateOf(fx, key.1)
  }

  lemma {:induction false} ProductAdds(fx: Conversion, key: LocalKey, a: int, b: int)
    ensures Product(fx, key, a + b) == Product(fx, key, a) + Product(fx, key, b)
  {
    hide RateOf;
    Distributes(a as real, b as real, RateOf(fx, key.1));
  }

  lemma {:induction false} Distributes(a: real, b: real, r: real)
    ensures (a + b) * r == a * r + b * r
  {
  }

  /** The exact worth of a table of local sums. */
  ghost function Worth(fx: Conversion, sums: map<LocalKey, int>): real {
    if sums.Keys == {} then 0.0
    else
      var k :| k in sums.Keys;
      Product(fx, k, sums[k]) + Worth(fx, sums - {k})
  }

  function SumConversions(fx: Conversion, sums: map<LocalKey, int>): map<LocalKey, int> {
    map k | k in sums :: Converted(fx, k.1, sums[k])
  }

  lemma {:induction false} WorthRemove(fx: Conversion, sums: map<LocalKey, int>, k: LocalKey)
    requires k in sums
    ensures Worth(fx, sums) == Product(fx, k, sums[k]) + Worth(fx, sums - {k})
    decreases |sums|
  {
    hide Product;
    var c :| c in sums.Keys && Worth(fx, sums) == Product(fx, c, sums[c]) + Worth(fx, sums - {c});
    if c != k {
      WorthRemove(fx, sums - {c}, k);
      WorthRemove(fx, sums - {k}, c);
      assert sums - {c} - {k} == sums - {k} - {c};
    }
  }

  lemma {:induction false} WorthIncr(fx: Conversion, sums: map<LocalKey, int>, k: LocalKey, amount: int)
    ensures Worth(fx, Incr(sums, k, amount)) == Worth(fx, sums) + Product(fx, k, amount)
  {
    hide Product, Worth;
    var after := Incr(sums, k, amount);
    WorthRemove(fx, after, k);
    assert after - {k} == sums - {k};
    if k in sums {
      WorthRemove(fx, sums, k);
      ProductAdds(fx, k, sums[k], amount);
    } else {
      assert sums - {k} == sums;
    }
  }

  /** Converting purchase by purchase strays from the worth by at most half a unit each. */
  lemma {:induction false} DerivedNearWorth(fx: Conversion, purchases: seq<Purchase>)
    ensures Within(Derived(fx, purchases) as real - Worth(fx, LocalSums(purchases)), |purchases|)
  {
    hide Converted, RateOf, Incr, Within;
    if purchases != [] {
      var n := |purchases| - 1;
      var p := purchases[n];
      var key := (p.cell, p.currency);
      DerivedNearWorth(fx, purchases[..n]);
      DerivedStep(fx, purchases);
      WorthIncr(fx, LocalSums(purchases[..n]), key, p.local);
      ConvertedNearProduct(fx, p.currency, p.local);
      WithinOneMore(Derived(fx, purchases[..n]) as real - Worth(fx, LocalSums(purchases[..n])), n,
                    Converted(fx, p.currency, p.local) as real - Product(fx, key, p.local));
    } else {
      assert LocalSums(purchases).Keys == {};
      WithinNone();
    }
  }

  lemma {:induction false} DerivedStep(fx: Conversion, purchases: seq<Purchase>)
    requires purchases != []
    ensures var n := |purchases| - 1; var p := purchases[n];
      Derived(fx, purchases) as real == Derived(fx, purchases[..n]) as real + Converted(fx, p.currency, p.local) as real
  {
    hide Converted;
  }

  /** Converting sum by sum strays by at most half a unit per sum. */
  lemma {:induction false} RecomputedNearWorth(fx: Conversion, sums: map<LocalKey, int>)
    ensures Within(Total(SumConversions(fx, sums)) as real - Worth(fx, sums), |sums|)
    decreases |sums|
  {
    hide Converted, Product, RateOf, Within, Total, Worth, SumConversions;
    if sums.Keys != {} {
      var k :| k in sums.Keys;
      RecomputedStep(fx, sums, k);
      RecomputedNearWorth(fx, sums - {k});
      WorthRemove(fx, sums, k);
      NearProduct(fx, k, sums[k]);
      WithinOneMore(Total(SumConversions(fx, sums - {k})) as real - Worth(fx, sums - {k}), |sums - {k}|,
                    Converted(fx, k.1, sums[k]) as real - Product(fx, k, sums[k]));
    } else {
      NoSums(fx, sums);
      WithinNone();
    }
  }

  lemma {:induction false} NearProduct(fx: Conversion, k: LocalKey, amount: int)
    ensures -0.5 <= Converted(fx, k.1, amount) as real - Product(fx, k, amount) <= 0.5
  {
    hide Converted, RateOf;
    ConvertedNearProduct(fx, k.1, amount);
  }

  lemma {:induction false} NoSums(fx: Conversion, sums: map<LocalKey, int>)
    requires sums.Keys == {}
    ensures |sums| == 0 && Total(SumConversions(fx, sums)) == 0 && Worth(fx, sums) == 0.0
  {
    assert sums == map[];
    assert SumConversions(fx, sums).Keys == {};
  }

  lemma {:induction false} RecomputedStep(fx: Conversion, sums: map<LocalKey, int>, k: LocalKey)
    requires k in sums
    ensures Total(SumConversions(fx, sums)) == Converted(fx, k.1, sums[k]) + Total(SumConversions(fx, sums - {k}))
    ensures |sums| == |sums - {k}| + 1
  {
    hide Converted, Total;
    TotalRemove(SumConversions(fx, sums), k);
    assert SumConversions(fx, sums) - {k} == SumConversions(fx, sums - {k});
    assert (sums - {k}).Keys == sums.Keys - {k};
    assert |sums.Keys| == |sums| && |(sums - {k}).Keys| == |sums - {k}|;
  }

  /**
   * When the cells' local sums are those of the purchases, a recompute differs from the
   * purchase-by-purchase revenue by at most half a unit of 10^-6 per purchase and per sum.
   */
  lemma {:induction false} RecomputeDriftBound(fx: Conversion, purchases: seq<Purchase>)
    ensures var sums := LocalSums(purchases);
      2 * Abs(Total(SumConversions(fx, sums)) - Derived(fx, purchases)) <= |purchases| + |sums|
  {
    hide Total, Worth, Derived, Converted, LocalSums;
    var sums := LocalSums(purchases);
    DerivedNearWorth(fx, purchases);
    RecomputedNearWorth(fx, sums);
    ghost var d := Total(SumConversions(fx, sums)) - Derived(fx, purchases);
    assert (2 * d) as real <= (|purchases| + |sums|) as real;
    assert (-2 * d) as real <= (|purchases| + |sums|) as real;
  }

  /** The local sums of all cells, one table. */
  function AllLocal(cells: map<CellId, Cell>): map<LocalKey, int> {
    map id, c | id in cells && c in cells[id].local :: (id, c) := cells[id].local[c]
  }

  function Tagged(fx: Conversion, id: CellId, local: map<string, int>): map<LocalKey, int> {
    map c | c in local :: (id, c) := Converted(fx, c, local[c])
  }

  lemma {:induction false} TaggedWithout(fx: Conversion, id: CellId, local: map<string, int>, c: string)
    requires c in local
    ensures (id, c) in Tagged(fx, id, local) && Tagged(fx, id, local)[(id, c)] == Conversions(fx, local)[c]
    ensures Tagged(fx, id, local) - {(id, c)} == Tagged(fx, id, local - {c})
    ensures Conversions(fx, local) - {c} == Conversions(fx, local - {c})
  {
    hide Converted;
    var without := Tagged(fx, id, local) - {(id, c)};
    forall k | k in without ensures k in Tagged(fx, id, local - {c}) {
      assert k == (id, k.1);
    }
  }

  lemma {:induction false} TotalTagged(fx: Conversion, id: CellId, local: map<string, int>)
    ensures Total(Tagged(fx, id, local)) == Total(Conversions(fx, local))
    decreases |local|
  {
    hide Converted, Total, Tagged;
    if c :| c in local {
      TaggedWithout(fx, id, local, c);
      TotalRemove(Tagged(fx, id, local), (id, c));
      TotalRemove(Conversions(fx, local), c);
      TotalTagged(fx, id, local - {c});
    } else {
      TaggedEmpty(fx, id, local);
      TotalNone(Tagged(fx, id, local));
      TotalNone(Conversions(fx, local));
    }
  }

  lemma TaggedEmpty(fx: Conversion, id: CellId, local: map<string, int>)
    requires local.Keys == {}
    ensures Tagged(fx, id, local).Keys == {} && Conversions(fx, local).Keys == {}
  {
  }

  /** Converting cell by cell is converting the table of all local sums. */
  lemma {:induction false} CellsAreOneTable(fx: Conversion, cells: map<CellId, Cell>)
    ensures Total(NewRevenues(fx, cells)) == Total(SumConversions(fx, AllLocal(cells)))
    decreases |cells|
  {
    hide Converted, Total;
    if id :| id in cells {
      CellsAreOneTable(fx, cells - {id});
      TotalRemove(NewRevenues(fx, cells), id);
      assert NewRevenues(fx, cells) - {id} == NewRevenues(fx, cells - {id});
      TotalTagged(fx, id, cells[id].local);
      TotalDisjoint(SumConversions(fx, AllLocal(cells - {id})), Tagged(fx, id, cells[id].local));
      OneCellMore(fx, cells, id);
    } else {
      assert NewRevenues(fx, cells) == map[] && SumConversions(fx, AllLocal(cells)) == map[];
      TotalNone(NewRevenues(fx, cells));
      TotalNone(SumConversions(fx, AllLocal(cells)));
    }
  }

  lemma {:induction false} OneCellMore(fx: Conversion, cells: map<CellId, Cell>, id: CellId)
    requires id in cells
    ensures SumConversions(fx, AllLocal(cells)) == SumConversions(fx, AllLocal(cells - {id})) + Tagged(fx, id, cells[id].local)
  {
    hide Converted, AllLocal, Tagged;
    var all, rest := SumConversions(fx, AllLocal(cells)), SumConversions(fx, AllLocal(cells - {id}));
    var own := Tagged(fx, id, cells[id].local);
    forall k ensures k in all <==> k in rest || k in own {
      InAllLocal(cells, k);
      InAllLocal(cells - {id}, k);
      InTagged(fx, id, cells[id].local, k);
    }
    forall k | k in all ensures all[k] == if k in own then own[k] else rest[k] {
      InAllLocal(cells, k);
      InAllLocal(cells - {id}, k);
      InTagged(fx, id, cells[id].local, k);
    }
  }

  lemma InTagged(fx: Conversion, id: CellId, local: map<string, int>, k: LocalKey)
    ensures k in Tagged(fx, id, local) <==> k.0 == id && k.1 in local
    ensures k in Tagged(fx, id, local) ==> Tagged(fx, id, local)[k] == Converted(fx, k.1, local[k.1])
  {
    hide Converted;
    assert k == (k.0, k.1);
  }

  lemma InAllLocal(cells: map<CellId, Cell>, k: LocalKey)
    ensures k in AllLocal(cells) <==> k.0 in cells && k.1 in cells[k.0].local
    ensures k in AllLocal(cells) ==> AllLocal(cells)[k] == cells[k.0].local[k.1]
  {
    assert k == (k.0, k.1);
  }

  /**
   * The drift of a recomputed day: when the cells' local sums are those of the purchases,
   * total recomputed revenue is within half a unit of 10^-6 per purchase and per local sum
   * of the revenue re-derived purchase by purchase.
   */
  lemma {:induction false} RecomputedDayDrift(fx: Conversion, cells: map<CellId, Cell>, purchases: seq<Purchase>)
    requires SameValues(AllLocal(cells), LocalSums(purchases))
    ensures 2 * Abs(Total(NewRevenues(fx, cells)) - Derived(fx, purchases)) <= |purchases| + |LocalSums(purchases)|
  {
    hide Converted, Total, Derived, LocalSums, AllLocal, NewRevenues;
    var table, sums := AllLocal(cells), LocalSums(purchases);
    CellsAreOneTable(fx, cells);
    forall k ensures Get(SumConversions(fx, table), k) == Get(SumConversions(fx, sums), k) {
      assert Get(table, k) == Get(sums, k);
      ZeroConvertsToZero(fx, k.1);
    }
    TotalExtensional(SumConversions(fx, table), SumConversions(fx, sums));
    RecomputeDriftBound(fx, purchases);
  }

  lemma ZeroConvertsToZero(fx: Conversion, currency: string)
    ensures Converted(fx, currency, 0) == 0
  {
    hide AsOfDate;
  }
}
