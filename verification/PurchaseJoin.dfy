/**
 * The companion join is confluent: whichever of the server row and its companion arrives
 * first, the purchase ends in the same cell. A move changes client dimensions only, and
 * delivering the companion again changes nothing.
 */
module PurchaseJoin {
  import opened Basics
  import opened DimCombo
  import opened LogicalDay
  import opened MonKeys
  import opened PurchaseRollup
  import opened Sums

  /** Configured dimensions come from the known list. */
  predicate KnownDims(cfg: Config) {
    forall d :: d in cfg.activeDims ==> d in ALL_DIMENSIONS
  }

  lemma {:induction false} KnownDimsPlain(cfg: Config)
    requires KnownDims(cfg)
    ensures forall d :: d in cfg.activeDims ==> PlainName(d)
  {
    forall d | d in cfg.activeDims ensures PlainName(d) {
      KnownDimensionsArePlain(d);
    }
  }

  // ---- Overlay ---------------------------------------------------------------

  /** A supplied client value for one of the client dimensions. */
  predicate Supplied(client: map<string, string>, d: string) {
    d in CLIENT_DIMENSIONS && d in client && client[d] != ""
  }

  lemma {:induction false} OverlayDomain(dims: seq<string>, base: map<string, string>, client: map<string, string>,
                                         cap: int, registry: map<string, set<string>>)
    ensures forall d :: d in Overlay(dims, base, client, cap, registry).0 <==> d in dims
    ensures forall d :: d in dims && !Supplied(client, d) ==>
      Overlay(dims, base, client, cap, registry).0[d] == if d in base then base[d] else UNKNOWN_VALUE
  {
    if dims != [] {
      var last := |dims| - 1;
      OverlayDomain(dims[..last], base, client, cap, registry);
      assert dims == dims[..last] + [dims[last]];
    }
  }

  lemma InPrefix(dims: seq<string>, d: string)
    requires d in dims
    ensures d == dims[|dims| - 1] || d in dims[..|dims| - 1]
  {
  }

  // ---- Combos ------------------------------------------------------------------

  lemma {:induction false} SameValuesSameCombo(cfg: Config, r1: map<string, string>, r2: map<string, string>)
    requires KnownDims(cfg) && forall d :: d in cfg.activeDims ==> ValueOf(r1, d) == ValueOf(r2, d)
    ensures DimComboOf(cfg.activeDims, r1) == DimComboOf(cfg.activeDims, r2)
  {
    hide DimComboOf, PlainName, ValueOf;
    KnownDimsPlain(cfg);
    assert Resolution(cfg.activeDims, r1) == Resolution(cfg.activeDims, r2);
    DimComboInjective(cfg.activeDims, r1, cfg.activeDims, r2);
  }

  /** A move keeps every server dimension of the combo it starts from. */
  lemma {:induction false} MoveKeepsServerDims(w: World, cfg: Config, counted: string, dims: map<string, string>,
                                               d: string)
    requires KnownDims(cfg) && d in cfg.activeDims && d in SERVER_DIMENSIONS
    requires d in ParsedCombo(counted) && ParsedCombo(counted)[d] != ""
    ensures var moved := ParsedCombo(RecomputeDimCombo(w, cfg, counted, dims).0);
      d in moved && moved[d] == ParsedCombo(counted)[d]
  {
    hide Overlay, DimComboOf, ParsedCombo, PlainName, Supplied, KnownDims;
    var base := ParsedCombo(counted);
    var resolved := Overlay(cfg.activeDims, base, dims, cfg.valueCap, w.registry).0;
    KnownDimsPlain(cfg);
    DimComboRoundTrip(cfg.activeDims, resolved);
    OverlayDomain(cfg.activeDims, base, dims, cfg.valueCap, w.registry);
    ServerNotSupplied(dims, d);
    assert resolved[d] == base[d];
  }

  lemma ServerNotSupplied(client: map<string, string>, d: string)
    requires d in SERVER_DIMENSIONS
    ensures !Supplied(client, d)
  {
  }

  // ---- Two companions of one attempt -----------------------------------------

  /** One dimension's part of the registry. */
  function Slot(registry: map<string, set<string>>, d: string): Option<set<string>> {
    if d in registry then Some(registry[d]) else None
  }

  /** Admitting a value touches its own dimension only. */
  function AdmitSlot(slot: Option<set<string>>, cap: int, value: string): (string, Option<set<string>>) {
    var seen := if slot.Some? then slot.value else {};
    if value == "" || value == OTHER_VALUE || value in seen then (value, slot)
    else if |seen| < cap then (value, Some(seen + {value}))
    else (OTHER_VALUE, slot)
  }

  lemma {:induction false} AdmitIsSlot(registry: map<string, set<string>>, cap: int, d: string, value: string, e: string)
    ensures Admit(registry, cap, d, value).0 == AdmitSlot(Slot(registry, d), cap, value).0
    ensures Slot(Admit(registry, cap, d, value).1, e)
         == if e == d then AdmitSlot(Slot(registry, d), cap, value).1 else Slot(registry, e)
  {
  }

  lemma AdmitSlotAgain(slot: Option<set<string>>, cap: int, value: string)
    ensures AdmitSlot(AdmitSlot(slot, cap, value).1, cap, value) == AdmitSlot(slot, cap, value)
  {
  }

  /** Two values of one dimension: the first leaves no trace exactly when it is the second or was not newly admitted. */
  lemma {:induction false} AdmitTwo(slot: Option<set<string>>, cap: int, first: string, second: string)
    ensures var after := AdmitSlot(slot, cap, first).1;
      && (AdmitSlot(after, cap, second).1 == AdmitSlot(slot, cap, second).1 <==> first == second || after == slot)
      && (first == second || after == slot ==> AdmitSlot(after, cap, second).0 == AdmitSlot(slot, cap, second).0)
  {
    AdmitSlotAgain(slot, cap, first);
    var after := AdmitSlot(slot, cap, first).1;
    if first != second && after != slot {
      assert first in after.value && first in AdmitSlot(after, cap, second).1.value;
      assert AdmitSlot(slot, cap, second).1.Some? ==> first !in AdmitSlot(slot, cap, second).1.value;
    }
  }

  /** What an overlay does to one dimension. */
  lemma {:induction false} OverlayAt(dims: seq<string>, base: map<string, string>, client: map<string, string>,
                                     cap: int, registry: map<string, set<string>>, d: string)
    ensures var (r, g) := Overlay(dims, base, client, cap, registry);
      && (Slot(g, d) == if d in dims && Supplied(client, d) then AdmitSlot(Slot(registry, d), cap, client[d]).1
                        else Slot(registry, d))
      && (d in dims ==> d in r && r[d] == if Supplied(client, d) then AdmitSlot(Slot(registry, d), cap, client[d]).0
                                         else if d in base then base[d] else UNKNOWN_VALUE)
  {
    hide Admit, Slot, AdmitSlot, Supplied;
    if dims != [] {
      var last := |dims| - 1;
      var e := dims[last];
      OverlayAt(dims[..last], base, client, cap, registry, d);
      var g := Overlay(dims[..last], base, client, cap, registry).1;
      if d in dims {
        InPrefix(dims, d);
      }
      OverlayLast(dims, base, client, cap, registry);
      if Supplied(client, e) {
        SuppliedIsIn(client, e);
        AdmitIsSlot(g, cap, e, client[e], d);
        AdmitSlotAgain(Slot(registry, e), cap, client[e]);
      }
      hide Overlay;
    }
  }

  /** The last dimension's turn. */
  lemma {:induction false} OverlayLast(dims: seq<string>, base: map<string, string>, client: map<string, string>,
                                       cap: int, registry: map<string, set<string>>)
    requires dims != []
    ensures Supplied(client, dims[|dims| - 1]) ==> dims[|dims| - 1] in client
    ensures var last := |dims| - 1; var e := dims[last];
      var (r, g) := Overlay(dims[..last], base, client, cap, registry);
      Overlay(dims, base, client, cap, registry)
        == if Supplied(client, e) then (r[e := Admit(g, cap, e, client[e]).0], Admit(g, cap, e, client[e]).1)
           else (r[e := if e in base then base[e] else UNKNOWN_VALUE], g)
  {
    hide Admit;
  }

  /**
   * Where both companions supply a dimension, the earlier one supplied the same value, or
   * one that the registry does not newly admit.
   */
  ghost predicate NothingDisplaced(cfg: Config, registry: map<string, set<string>>, earlier: map<string, string>,
                                   dims: map<string, string>) {
    forall d :: KeepsSlot(cfg, registry, earlier, dims, d)
  }

  ghost predicate KeepsSlot(cfg: Config, registry: map<string, set<string>>, earlier: map<string, string>,
                            dims: map<string, string>, d: string) {
    d in cfg.activeDims && Supplied(earlier, d) && Supplied(dims, d) && earlier[d] != dims[d] ==>
      Admit(registry, cfg.valueCap, d, earlier[d]).1 == registry
  }

  /** A companion that names a dimension gives it a value. */
  predicate GivesValues(earlier: map<string, string>, dims: map<string, string>) {
    forall d :: d in dims && d in earlier ==> dims[d] != ""
  }

  /** The registry after counting with the earlier companion and moving with the later, and after both at once. */
  lemma {:induction false} TwoRegistriesAt(cfg: Config, base: map<string, string>, staged: map<string, string>,
                                           earlier: map<string, string>, dims: map<string, string>,
                                           registry: map<string, set<string>>, d: string)
    requires GivesValues(earlier, dims)
    ensures var g1 := Overlay(cfg.activeDims, base, earlier, cfg.valueCap, registry).1;
            var g2 := Overlay(cfg.activeDims, staged, dims, cfg.valueCap, g1).1;
            var g3 := Overlay(cfg.activeDims, base, earlier + dims, cfg.valueCap, registry).1;
      Slot(g2, d) == Slot(g3, d) <==>
        (d in cfg.activeDims && Supplied(earlier, d) && Supplied(dims, d) && earlier[d] != dims[d] ==>
           AdmitSlot(Slot(registry, d), cfg.valueCap, earlier[d]).1 == Slot(registry, d))
  {
    hide Overlay, Slot, AdmitSlot;
    var g1 := Overlay(cfg.activeDims, base, earlier, cfg.valueCap, registry).1;
    OverlayAt(cfg.activeDims, base, earlier, cfg.valueCap, registry, d);
    OverlayAt(cfg.activeDims, staged, dims, cfg.valueCap, g1, d);
    OverlayAt(cfg.activeDims, base, earlier + dims, cfg.valueCap, registry, d);
    if Supplied(earlier, d) && Supplied(dims, d) {
      AdmitTwo(Slot(registry, d), cfg.valueCap, earlier[d], dims[d]);
    }
  }

  lemma {:induction false} SlotsAreRegistry(g: map<string, set<string>>, h: map<string, set<string>>)
    ensures g == h <==> forall d :: Slot(g, d) == Slot(h, d)
  {
    if forall d :: Slot(g, d) == Slot(h, d) {
      forall d ensures d in g <==> d in h { assert Slot(g, d) == Slot(h, d); }
      forall d | d in g ensures g[d] == h[d] { assert Slot(g, d) == Slot(h, d); }
    }
  }

  lemma {:induction false} AdmitLeavesIff(registry: map<string, set<string>>, cap: int, d: string, value: string)
    ensures Admit(registry, cap, d, value).1 == registry <==> AdmitSlot(Slot(registry, d), cap, value).1 == Slot(registry, d)
  {
    if Admit(registry, cap, d, value).1 != registry {
      assert value !in Observed(registry, d);
    }
  }

  lemma {:induction false} TwoRegistriesIff(cfg: Config, base: map<string, string>, staged: map<string, string>,
                                            earlier: map<string, string>, dims: map<string, string>,
                                            registry: map<string, set<string>>)
    requires GivesValues(earlier, dims)
    ensures var g1 := Overlay(cfg.activeDims, base, earlier, cfg.valueCap, registry).1;
            var g2 := Overlay(cfg.activeDims, staged, dims, cfg.valueCap, g1).1;
            var g3 := Overlay(cfg.activeDims, base, earlier + dims, cfg.valueCap, registry).1;
      g2 == g3 <==> NothingDisplaced(cfg, registry, earlier, dims)
  {
    hide Overlay, Slot, AdmitSlot, Admit, Supplied, GivesValues;
    var g1 := Overlay(cfg.activeDims, base, earlier, cfg.valueCap, registry).1;
    var g2 := Overlay(cfg.activeDims, staged, dims, cfg.valueCap, g1).1;
    var g3 := Overlay(cfg.activeDims, base, earlier + dims, cfg.valueCap, registry).1;
    SlotsAreRegistry(g2, g3);
    forall d ensures Slot(g2, d) == Slot(g3, d) <==> KeepsSlot(cfg, registry, earlier, dims, d) {
      TwoRegistriesAt(cfg, base, staged, earlier, dims, registry, d);
      SuppliedIsIn(earlier, d);
      if Supplied(earlier, d) {
        AdmitLeavesIff(registry, cfg.valueCap, d, earlier[d]);
      }
    }
  }

  lemma SuppliedIsIn(client: map<string, string>, d: string)
    ensures Supplied(client, d) ==> d in client
  {
  }

  /** And if nothing is displaced, the combo a purchase ends in is the same too. */
  lemma {:induction false} TwoCombosAt(cfg: Config, base: map<string, string>, earlier: map<string, string>,
                                       dims: map<string, string>, registry: map<string, set<string>>, d: string)
    requires KnownDims(cfg) && GivesValues(earlier, dims) && d in cfg.activeDims
    requires KeepsSlot(cfg, registry, earlier, dims, d)
    ensures var (r1, g1) := Overlay(cfg.activeDims, base, earlier, cfg.valueCap, registry);
            var staged := ParsedCombo(DimComboOf(cfg.activeDims, r1));
            var r2 := Overlay(cfg.activeDims, staged, dims, cfg.valueCap, g1).0;
            var r3 := Overlay(cfg.activeDims, base, earlier + dims, cfg.valueCap, registry).0;
      ValueOf(r2, d) == ValueOf(r3, d)
  {
    hide Overlay, Slot, AdmitSlot, Admit, DimComboOf, ParsedCombo, PlainName, KnownDims;
    var (r1, g1) := Overlay(cfg.activeDims, base, earlier, cfg.valueCap, registry);
    var staged := ParsedCombo(DimComboOf(cfg.activeDims, r1));
    KnownDimsPlain(cfg);
    DimComboRoundTrip(cfg.activeDims, r1);
    OverlayAt(cfg.activeDims, base, earlier, cfg.valueCap, registry, d);
    OverlayAt(cfg.activeDims, staged, dims, cfg.valueCap, g1, d);
    OverlayAt(cfg.activeDims, base, earlier + dims, cfg.valueCap, registry, d);
    if Supplied(earlier, d) && Supplied(dims, d) {
      AdmitTwo(Slot(registry, d), cfg.valueCap, earlier[d], dims[d]);
      AdmitLeavesIff(registry, cfg.valueCap, d, earlier[d]);
    }
  }

  lemma {:induction false} TwoCombosAgree(cfg: Config, base: map<string, string>, earlier: map<string, string>,
                                          dims: map<string, string>, registry: map<string, set<string>>)
    requires KnownDims(cfg) && GivesValues(earlier, dims) && NothingDisplaced(cfg, registry, earlier, dims)
    ensures var (r1, g1) := Overlay(cfg.activeDims, base, earlier, cfg.valueCap, registry);
            var staged := ParsedCombo(DimComboOf(cfg.activeDims, r1));
      DimComboOf(cfg.activeDims, Overlay(cfg.activeDims, staged, dims, cfg.valueCap, g1).0)
      == DimComboOf(cfg.activeDims, Overlay(cfg.activeDims, base, earlier + dims, cfg.valueCap, registry).0)
  {
    hide Overlay, DimComboOf, ParsedCombo, ValueOf, KeepsSlot, GivesValues;
    var (r1, g1) := Overlay(cfg.activeDims, base, earlier, cfg.valueCap, registry);
    var staged := ParsedCombo(DimComboOf(cfg.activeDims, r1));
    var r2 := Overlay(cfg.activeDims, staged, dims, cfg.valueCap, g1).0;
    var r3 := Overlay(cfg.activeDims, base, earlier + dims, cfg.valueCap, registry).0;
    forall d | d in cfg.activeDims ensures ValueOf(r2, d) == ValueOf(r3, d) {
      TwoCombosAt(cfg, base, earlier, dims, registry, d);
    }
    SameValuesSameCombo(cfg, r2, r3);
  }

  // ---- Where a row is counted, and where a move goes -------------------------------

  /** A supplied client value, or `other` once the dimension's registry is full. */
  function Guarded(registry: map<string, set<string>>, cap: int, d: string, value: string): string {
    var seen := if d in registry then registry[d] else {};
    if value == "other" || value in seen || |seen| < cap then value else "other"
  }

  predicate IsClientDim(d: string) {
    d in {"level_bucket", "region", "in_game_state", "sessions_before_purchase"}
  }

  /** What the server row and the staged companion say of one dimension. */
  function CountedValue(w: World, cap: int, row: ServerRow, d: string): string {
    var staged := if row.attempt.Some? && row.attempt.value in w.stage then w.stage[row.attempt.value].cmp else map[];
    if d in {"payer_tier", "install_cohort", "days_since_install"} then
      if d in row.serverDims && row.serverDims[d] != "" then row.serverDims[d] else "unknown"
    else if IsClientDim(d) && d in staged && staged[d] != "" then Guarded(w.registry, cap, d, staged[d])
    else "unknown"
  }

  lemma {:induction false} ResolvedValue(w: World, cfg: Config, row: ServerRow, d: string)
    requires KnownDims(cfg) && d in cfg.activeDims
    ensures var parsed := ParsedCombo(ResolveDimCombo(w, cfg, row).0);
      d in parsed && parsed[d] == CountedValue(w, cfg.valueCap, row, d)
  {
    hide Overlay, DimComboOf, ParsedCombo, PlainName, KnownDims;
    var client := if row.attempt.Some? then StageOf(w.stage, row.attempt.value).cmp else map[];
    var resolved := Overlay(cfg.activeDims, ServerBase(row.serverDims), client, cfg.valueCap, w.registry).0;
    KnownDimsPlain(cfg);
    DimComboRoundTrip(cfg.activeDims, resolved);
    OverlayAt(cfg.activeDims, ServerBase(row.serverDims), client, cfg.valueCap, w.registry, d);
  }

  lemma {:induction false} ResolvedDims(w: World, cfg: Config, row: ServerRow)
    requires KnownDims(cfg)
    ensures ParsedCombo(ResolveDimCombo(w, cfg, row).0).Keys == set d | d in cfg.activeDims
  {
    hide Overlay, DimComboOf, ParsedCombo, PlainName, KnownDims;
    var client := if row.attempt.Some? then StageOf(w.stage, row.attempt.value).cmp else map[];
    KnownDimsPlain(cfg);
    DimComboRoundTrip(cfg.activeDims, Overlay(cfg.activeDims, ServerBase(row.serverDims), client, cfg.valueCap, w.registry).0);
  }

  /**
   * The one cell a server row is counted in: its combo parses to every active dimension,
   * server dimensions as the server derived them, client ones as staged and guarded, and
   * `unknown` for want of either. Its count, revenue and local money grow by the row, and
   * nothing else of the day's cells changes.
   */
  lemma {:induction false} RowIsCountedIn(w: World, cfg: Config, row: ServerRow, floor: Day) returns (combo: string)
    requires KnownDims(cfg)
    ensures ParsedCombo(combo).Keys == set d | d in cfg.activeDims
    ensures forall d :: d in cfg.activeDims ==> ParsedCombo(combo)[d] == CountedValue(w, cfg.valueCap, row, d)
    ensures var before := if row.day in w.days then w.days[row.day] else floor;
      var after := AfterServerRow(w, cfg, row, floor);
      && after.days.Keys == w.days.Keys + {row.day}
      && (forall day :: day in w.days && day != row.day ==> after.days[day] == w.days[day])
      && RowCounted(before, after.days[row.day], row, CellKey(row.productId, combo))
      && (row.attempt.Some? ==>
            && row.attempt.value in after.stage
            && after.stage[row.attempt.value].srv
               == Some(Srv(row.productId, combo, row.normalized, row.local, row.currency, row.category, row.day)))
  {
    combo := ResolveDimCombo(w, cfg, row).0;
    ResolvedDims(w, cfg, row);
    forall d | d in cfg.activeDims ensures ParsedCombo(combo)[d] == CountedValue(w, cfg.valueCap, row, d) {
      ResolvedValue(w, cfg, row, d);
    }
    hide ResolveDimCombo, ParsedCombo, CountedValue, CellKey, RolledUp, KnownDims, RowCounted;
    var before := if row.day in w.days then w.days[row.day] else floor;
    RolledUpCounts(before, row, CellKey(row.productId, combo));
  }

  /** A row added to one cell, to its currency there, and to the day. */
  ghost predicate RowCounted(before: Day, after: Day, row: ServerRow, cell: string) {
    var field := LocField(cell, row.currency);
    && after.cnt == before.cnt[cell := (if cell in before.cnt then before.cnt[cell] else 0) + 1]
    && after.rev == before.rev[cell := (if cell in before.rev then before.rev[cell] else 0) + row.normalized]
    && after.loc == before.loc[field := (if field in before.loc then before.loc[field] else 0) + row.local]
    && after.cat == before.cat[cell := row.category]
    && after.payers == before.payers + {row.userId} && after.gen == before.gen
    && Get(after.revDay, "total") == Get(before.revDay, "total") + row.normalized
    && Get(after.revDay, "loc:" + row.currency) == Get(before.revDay, "loc:" + row.currency) + row.local
    && forall f :: f != "total" && f != "loc:" + row.currency ==> Get(after.revDay, f) == Get(before.revDay, f)
  }

  lemma {:induction false} RolledUpCounts(d: Day, row: ServerRow, cell: string)
    ensures RowCounted(d, RolledUp(d, cell, row), row, cell)
  {
    hide LocField;
    assert ("loc:" + row.currency)[0] == 'l' && "total"[0] == 't';
  }

  /** What a companion asks of one dimension of a purchase counted under `counted`. */
  function MovedValue(w: World, cap: int, counted: map<string, string>, dims: map<string, string>, d: string): string {
    if IsClientDim(d) && d in dims && dims[d] != "" then Guarded(w.registry, cap, d, dims[d])
    else if d in counted && counted[d] != "" then counted[d]
    else "unknown"
  }

  lemma {:induction false} RecomputedDims(w: World, cfg: Config, counted: string, dims: map<string, string>)
    requires KnownDims(cfg)
    ensures var parsed := ParsedCombo(RecomputeDimCombo(w, cfg, counted, dims).0);
      && parsed.Keys == (set d | d in cfg.activeDims)
      && forall d :: d in cfg.activeDims ==> parsed[d] == MovedValue(w, cfg.valueCap, ParsedCombo(counted), dims, d)
  {
    hide Overlay, DimComboOf, ParsedCombo, PlainName, KnownDims;
    var resolved := Overlay(cfg.activeDims, ParsedCombo(counted), dims, cfg.valueCap, w.registry).0;
    KnownDimsPlain(cfg);
    DimComboRoundTrip(cfg.activeDims, resolved);
    forall d | d in cfg.activeDims
      ensures ValueOf(resolved, d) == MovedValue(w, cfg.valueCap, ParsedCombo(counted), dims, d)
    {
      OverlayAt(cfg.activeDims, ParsedCombo(counted), dims, cfg.valueCap, w.registry, d);
    }
  }

  /**
   * Where a companion leaves a counted purchase of an open day: in the cell whose combo has
   * the companion's guarded values and otherwise the counted ones, with the same product,
   * and staged there.
   */
  lemma {:induction false} CompanionMovesTo(w: World, cfg: Config, c: Companion, floor: Day, srv: Srv)
    returns (combo: string)
    requires KnownDims(cfg) && c.attempt in w.stage && w.stage[c.attempt].srv == Some(srv) && c.attempt != ""
    requires srv.normalized >= 0 && srv.local >= 0 && c.now <= SealInstant(srv.day, cfg.reportingOffset)
    ensures ParsedCombo(combo).Keys == set d | d in cfg.activeDims
    ensures forall d :: d in cfg.activeDims ==>
      ParsedCombo(combo)[d] == MovedValue(w, cfg.valueCap, ParsedCombo(srv.dimCombo), c.dims, d)
    ensures var before := if srv.day in w.days then w.days[srv.day] else floor;
      var after := AfterCompanion(w, cfg, c, floor);
      && after.stage[c.attempt] == w.stage[c.attempt].(srv := Some(srv.(dimCombo := combo)))
      && srv.day in after.days
      && (combo == srv.dimCombo ==> after.days[srv.day] == before)
      && (combo != srv.dimCombo ==>
            PurchaseMoved(before, after.days[srv.day], srv, CellKey(srv.productId, srv.dimCombo), CellKey(srv.productId, combo)))
  {
    combo := RecomputeDimCombo(w, cfg, srv.dimCombo, c.dims).0;
    RecomputedDims(w, cfg, srv.dimCombo, c.dims);
    var before := if srv.day in w.days then w.days[srv.day] else floor;
    SealTestsAgree(srv.day, 0, c.now, cfg.reportingOffset);
    MovedMoves(before, CellKey(srv.productId, srv.dimCombo), CellKey(srv.productId, combo), srv);
    hide RecomputeDimCombo, ParsedCombo, MovedValue, CellKey, KnownDims, PurchaseDayIsSealed, PurchaseMoved, Moved;
    MovedCompletes(before, CellKey(srv.productId, srv.dimCombo), CellKey(srv.productId, combo), srv);
  }

  /** One purchase leaves a cell for another, and the day's generation says so. */
  ghost predicate PurchaseMoved(before: Day, after: Day, srv: Srv, source: string, target: string) {
    && (forall cell :: Get(after.cnt, cell)
          == Get(before.cnt, cell) + (if cell == target then 1 else 0) - (if cell == source then 1 else 0))
    && (forall cell :: Get(after.rev, cell)
          == Get(before.rev, cell) + (if cell == target then srv.normalized else 0)
             - (if cell == source then srv.normalized else 0))
    && after.cat == before.cat[target := srv.category]
    && after.payers == before.payers && after.revDay == before.revDay && after.gen == before.gen + 1
  }

  lemma {:induction false} OutAndIn(m: map<string, int>, source: string, target: string, amount: int, cell: string)
    ensures Get(Incr(Incr(m, source, -amount), target, amount), cell)
         == Get(m, cell) + (if cell == target then amount else 0) - (if cell == source then amount else 0)
  {
  }

  lemma {:induction false} MovedMoves(d: Day, source: string, target: string, srv: Srv)
    requires srv.normalized >= 0 && srv.local >= 0
    ensures PurchaseMoved(d, Moved(d, source, target, srv).day, srv, source, target)
  {
    hide LocField, Incr, Get;
    var after := Moved(d, source, target, srv).day;
    forall cell ensures Get(after.cnt, cell)
      == Get(d.cnt, cell) + (if cell == target then 1 else 0) - (if cell == source then 1 else 0)
    {
      OutAndIn(d.cnt, source, target, 1, cell);
    }
    forall cell ensures Get(after.rev, cell)
      == Get(d.rev, cell) + (if cell == target then srv.normalized else 0) - (if cell == source then srv.normalized else 0)
    {
      OutAndIn(d.rev, source, target, srv.normalized, cell);
    }
  }

  lemma MovedCompletes(d: Day, source: string, target: string, srv: Srv)
    requires srv.normalized >= 0 && srv.local >= 0
    ensures Moved(d, source, target, srv).Done?
  {
  }

  // ---- Confluence of the worlds ----------------------------------------------

  /** Equal for every reader: counter values, payers, day totals, registry and staged cell. */
  ghost predicate SameRollup(w1: World, w2: World, attempt: string) {
    && (forall day :: SameDay(DayIn(w1.days, day), DayIn(w2.days, day)))
    && w1.registry == w2.registry
    && StageOf(w1.stage, attempt).srv == StageOf(w2.stage, attempt).srv
    && forall a :: a != attempt ==> StageOf(w1.stage, a) == StageOf(w2.stage, a)
  }

  ghost predicate SameDay(d1: Day, d2: Day) {
    SameValues(d1.cnt, d2.cnt) && SameValues(d1.rev, d2.rev) && SameValues(d1.loc, d2.loc)
    && d1.payers == d2.payers && d1.revDay == d2.revDay
  }

  /** Counting in one cell and moving to another is counting in the other. */
  lemma {:induction false} RollThenMove(d: Day, row: ServerRow, dim1: string, dim2: string)
    requires row.normalized >= 0 && row.local >= 0
    ensures var cell1, cell2 := CellKey(row.productId, dim1), CellKey(row.productId, dim2);
            var result := Moved(RolledUp(d, cell1, row), cell1, cell2, SrvOf(row, dim1));
      result.Done? && SameDay(result.day, RolledUp(d, cell2, row))
      && result.day.cat[cell2] == RolledUp(d, cell2, row).cat[cell2]
  {
    hide CellKey, LocField, RevLocField;
    var cell1, cell2 := CellKey(row.productId, dim1), CellKey(row.productId, dim2);
    hide SameValues;
    IncrDecr(d.cnt, cell1, cell2, 1);
    IncrDecr(d.rev, cell1, cell2, row.normalized);
    IncrDecr(d.loc, LocField(cell1, row.currency), LocField(cell2, row.currency), row.local);
  }

  lemma {:induction false} IncrDecr(m: map<string, int>, k1: string, k2: string, delta: int)
    ensures SameValues(Incr(Incr(Incr(m, k1, delta), k1, -delta), k2, delta), Incr(m, k2, delta))
  {
  }

  /** The companion's dimensions staged for an attempt. */
  function Staged(w: World, attempt: string): map<string, string> {
    StageOf(w.stage, attempt).cmp
  }

  /** The combo of the server row counted with what is staged, and of the move that follows. */
  function CountedCombo(w: World, cfg: Config, row: ServerRow, earlier: map<string, string>)
    : (string, map<string, set<string>>)
  {
    var (resolved, registry) := Overlay(cfg.activeDims, ServerBase(row.serverDims), earlier, cfg.valueCap, w.registry);
    (DimComboOf(cfg.activeDims, resolved), registry)
  }

  lemma {:induction false} CompanionStages(w: World, cfg: Config, c: Companion, unused: Day)
    requires c.attempt != "" && StageOf(w.stage, c.attempt).srv.None?
    ensures var staged := AfterCompanion(w, cfg, c, unused);
      && staged.days == w.days && staged.registry == w.registry
      && StageOf(staged.stage, c.attempt) == Stage(None, Staged(w, c.attempt) + c.dims)
      && forall a :: a != c.attempt ==> StageOf(staged.stage, a) == StageOf(w.stage, a)
  {
    hide RecomputeDimCombo, PurchaseDayIsSealed, Moved;
    assert Staged(w, c.attempt) + map[] == Staged(w, c.attempt);
  }

  /** The server row reads what is staged and counts under that combo. */
  lemma {:induction false} RowCounts(w: World, cfg: Config, row: ServerRow, attempt: string, floor: Day)
    requires row.attempt == Some(attempt)
    ensures var (combo, registry) := CountedCombo(w, cfg, row, Staged(w, attempt));
      AfterServerRow(w, cfg, row, floor)
      == World(w.days[row.day := RolledUp(Seeded(w.days, row.day, floor), CellKey(row.productId, combo), row)],
               w.stage[attempt := StageOf(w.stage, attempt).(srv := Some(SrvOf(row, combo)))], registry)
  {
    hide Overlay, DimComboOf, RolledUp, CellKey, ServerBase;
  }

  /** A companion that finds the server row staged and its day seeded. */
  lemma {:induction false} CompanionSecond(w: World, cfg: Config, c: Companion, floor: Day, srv: Srv)
    requires c.attempt != "" && StageOf(w.stage, c.attempt).srv == Some(srv) && srv.day in w.days
    requires !PurchaseDayIsSealed(srv.day, c.now, cfg.reportingOffset) && srv.normalized >= 0 && srv.local >= 0
    ensures var (newDim, registry) := RecomputeDimCombo(w, cfg, srv.dimCombo, c.dims);
      var day := if newDim == srv.dimCombo then w.days[srv.day]
                 else Moved(w.days[srv.day], CellKey(srv.productId, srv.dimCombo), CellKey(srv.productId, newDim), srv).day;
      AfterCompanion(w, cfg, c, floor)
      == World(w.days[srv.day := day],
               w.stage[c.attempt := StageOf(w.stage, c.attempt).(srv := Some(srv.(dimCombo := newDim)))], registry)
  {
    hide RecomputeDimCombo, PurchaseDayIsSealed, CellKey, Incr;
  }

  /** Server row first: counted, then moved. */
  lemma {:induction false} RowThenCompanion(w: World, cfg: Config, row: ServerRow, c: Companion, floor: Day, unused: Day)
    requires row.attempt == Some(c.attempt) && c.attempt != "" && StageOf(w.stage, c.attempt).srv.None?
    requires row.normalized >= 0 && row.local >= 0
    requires !PurchaseDayIsSealed(row.day, c.now, cfg.reportingOffset)
    ensures var (plain, g1) := CountedCombo(w, cfg, row, Staged(w, c.attempt));
            var rolled := RolledUp(Seeded(w.days, row.day, floor), CellKey(row.productId, plain), row);
            var served := AfterServerRow(w, cfg, row, floor);
            var (newDim, g2) := RecomputeDimCombo(served, cfg, plain, c.dims);
            var day := if newDim == plain then rolled
                       else Moved(rolled, CellKey(row.productId, plain), CellKey(row.productId, newDim), SrvOf(row, plain)).day;
            var moved := AfterCompanion(served, cfg, c, unused);
      && served.registry == g1 && moved.registry == g2
      && moved.days == w.days[row.day := day]
      && StageOf(moved.stage, c.attempt).srv == Some(SrvOf(row, newDim))
      && forall a :: a != c.attempt ==> StageOf(moved.stage, a) == StageOf(w.stage, a)
  {
    hide RolledUp, Moved, CellKey, RecomputeDimCombo, CountedCombo, AfterServerRow, AfterCompanion, PurchaseDayIsSealed,
         Seeded;
    var served := AfterServerRow(w, cfg, row, floor);
    var plain := CountedCombo(w, cfg, row, Staged(w, c.attempt)).0;
    RowCounts(w, cfg, row, c.attempt, floor);
    var rolled := RolledUp(Seeded(w.days, row.day, floor), CellKey(row.productId, plain), row);
    assert served.days == w.days[row.day := rolled] && served.days[row.day] == rolled;
    CompanionSecond(served, cfg, c, unused, SrvOf(row, plain));
    var newDim := RecomputeDimCombo(served, cfg, plain, c.dims).0;
    var day := if newDim == plain then rolled
               else Moved(rolled, CellKey(row.productId, plain), CellKey(row.productId, newDim), SrvOf(row, plain)).day;
    assert served.days[row.day := day] == w.days[row.day := day];
  }

  /** Companion first: staged with what was there, then counted at once. */
  lemma {:induction false} CompanionThenRow(w: World, cfg: Config, row: ServerRow, c: Companion, floor: Day, unused: Day)
    requires row.attempt == Some(c.attempt) && c.attempt != "" && StageOf(w.stage, c.attempt).srv.None?
    ensures var (direct, g3) := CountedCombo(w, cfg, row, Staged(w, c.attempt) + c.dims);
            var counted := AfterServerRow(AfterCompanion(w, cfg, c, unused), cfg, row, floor);
      && counted.registry == g3
      && counted.days == w.days[row.day := RolledUp(Seeded(w.days, row.day, floor), CellKey(row.productId, direct), row)]
      && StageOf(counted.stage, c.attempt).srv == Some(SrvOf(row, direct))
      && forall a :: a != c.attempt ==> StageOf(counted.stage, a) == StageOf(w.stage, a)
  {
    hide RolledUp, CellKey, CountedCombo, AfterServerRow, AfterCompanion, Seeded;
    CompanionStages(w, cfg, c, unused);
    var staged := AfterCompanion(w, cfg, c, unused);
    RowCounts(staged, cfg, row, c.attempt, floor);
    SameRegistrySameCombo(staged, w, cfg, row, Staged(w, c.attempt) + c.dims);
    assert Staged(staged, c.attempt) == Staged(w, c.attempt) + c.dims;
    forall a | a != c.attempt
      ensures StageOf(AfterServerRow(staged, cfg, row, floor).stage, a) == StageOf(w.stage, a)
    {
      assert StageOf(staged.stage, a) == StageOf(w.stage, a);
    }
  }

  lemma SameRegistrySameCombo(a: World, b: World, cfg: Config, row: ServerRow, client: map<string, string>)
    requires a.registry == b.registry
    ensures CountedCombo(a, cfg, row, client) == CountedCombo(b, cfg, row, client)
  {
    hide Overlay, DimComboOf;
  }

  /** What a move asks for after the row was counted with what was staged. */
  lemma MoveAsks(w: World, served: World, cfg: Config, row: ServerRow, earlier: map<string, string>,
                 dims: map<string, string>)
    requires served.registry == CountedCombo(w, cfg, row, earlier).1
    ensures var (r1, g1) := Overlay(cfg.activeDims, ServerBase(row.serverDims), earlier, cfg.valueCap, w.registry);
            var (r2, g2) := Overlay(cfg.activeDims, ParsedCombo(DimComboOf(cfg.activeDims, r1)), dims, cfg.valueCap, g1);
      RecomputeDimCombo(served, cfg, CountedCombo(w, cfg, row, earlier).0, dims) == (DimComboOf(cfg.activeDims, r2), g2)
  {
    hide Overlay, DimComboOf, ParsedCombo;
  }

  /**
   * Server row first and moved, or companion first and staged: the same rollup, whatever
   * other companions of the attempt came before, exactly when no earlier one has supplied
   * another value of some dimension that the registry newly admits. Only the server row
   * may find the day unseeded, so the companion's floor is never read.
   */
  lemma {:induction false} JoinIsConfluentIff(w: World, cfg: Config, row: ServerRow, c: Companion, floor: Day,
                                              unused: Day)
    requires KnownDims(cfg) && row.attempt == Some(c.attempt) && c.attempt != ""
    requires StageOf(w.stage, c.attempt).srv.None? && GivesValues(Staged(w, c.attempt), c.dims)
    requires row.normalized >= 0 && row.local >= 0
    requires !PurchaseDayIsSealed(row.day, c.now, cfg.reportingOffset)
    ensures SameRollup(AfterCompanion(AfterServerRow(w, cfg, row, floor), cfg, c, unused),
                       AfterServerRow(AfterCompanion(w, cfg, c, unused), cfg, row, floor), c.attempt)
       <==> NothingDisplaced(cfg, w.registry, Staged(w, c.attempt), c.dims)
  {
    hide *;
    var earlier := Staged(w, c.attempt);
    var base := ServerBase(row.serverDims);
    var served := AfterServerRow(w, cfg, row, floor);
    var moved := AfterCompanion(served, cfg, c, unused);
    var counted := AfterServerRow(AfterCompanion(w, cfg, c, unused), cfg, row, floor);
    var r1 := Overlay(cfg.activeDims, base, earlier, cfg.valueCap, w.registry).0;
    RowThenCompanion(w, cfg, row, c, floor, unused);
    CompanionThenRow(w, cfg, row, c, floor, unused);
    MoveAsks(w, served, cfg, row, earlier, c.dims);
    CountedIs(w, cfg, row, earlier);
    CountedIs(w, cfg, row, earlier + c.dims);
    TwoRegistriesIff(cfg, base, ParsedCombo(DimComboOf(cfg.activeDims, r1)), earlier, c.dims, w.registry);
    if NothingDisplaced(cfg, w.registry, earlier, c.dims) {
      TwoCombosAgree(cfg, base, earlier, c.dims, w.registry);
      var (plain, direct) := (CountedCombo(w, cfg, row, earlier).0, CountedCombo(w, cfg, row, earlier + c.dims).0);
      var seeded := Seeded(w.days, row.day, floor);
      RollThenMove(seeded, row, plain, direct);
      SameDayReflexive();
      SameWorlds(w.days, row.day, if direct == plain then RolledUp(seeded, CellKey(row.productId, plain), row)
                                  else Moved(RolledUp(seeded, CellKey(row.productId, plain), row),
                                             CellKey(row.productId, plain), CellKey(row.productId, direct), SrvOf(row, plain)).day,
                 RolledUp(seeded, CellKey(row.productId, direct), row), moved, counted, c.attempt);
    } else {
      OtherRegistry(moved, counted, c.attempt);
    }
  }

  lemma CountedIs(w: World, cfg: Config, row: ServerRow, client: map<string, string>)
    ensures var (resolved, registry) := Overlay(cfg.activeDims, ServerBase(row.serverDims), client, cfg.valueCap, w.registry);
      CountedCombo(w, cfg, row, client) == (DimComboOf(cfg.activeDims, resolved), registry)
  {
    hide Overlay, DimComboOf, ServerBase;
  }

  lemma {:induction false} SameWorlds(days: map<int, Day>, day: int, d1: Day, d2: Day, a: World, b: World,
                                      attempt: string)
    requires a.days == days[day := d1] && b.days == days[day := d2] && SameDay(d1, d2) && a.registry == b.registry
    requires StageOf(a.stage, attempt).srv == StageOf(b.stage, attempt).srv
    requires forall o :: o != attempt ==> StageOf(a.stage, o) == StageOf(b.stage, o)
    ensures SameRollup(a, b, attempt)
  {
    hide SameDay, StageOf;
    SameDayReflexive();
  }

  lemma OtherRegistry(a: World, b: World, attempt: string)
    requires a.registry != b.registry
    ensures !SameRollup(a, b, attempt)
  {
    hide SameDay, StageOf;
  }

  /** In particular for an attempt with nothing staged yet. */
  lemma {:induction false} JoinIsConfluent(w: World, cfg: Config, row: ServerRow, c: Companion, floor: Day, unused: Day)
    requires KnownDims(cfg) && row.attempt == Some(c.attempt) && c.attempt != ""
    requires c.attempt !in w.stage
    requires row.normalized >= 0 && row.local >= 0
    requires !PurchaseDayIsSealed(row.day, c.now, cfg.reportingOffset)
    ensures SameRollup(AfterCompanion(AfterServerRow(w, cfg, row, floor), cfg, c, unused),
                       AfterServerRow(AfterCompanion(w, cfg, c, unused), cfg, row, floor), c.attempt)
  {
    hide *;
    NothingStaged(w, cfg, c.attempt, c.dims);
    JoinIsConfluentIff(w, cfg, row, c, floor, unused);
  }

  lemma NothingStaged(w: World, cfg: Config, attempt: string, dims: map<string, string>)
    requires attempt !in w.stage || w == EMPTY_WORLD
    ensures StageOf(w.stage, attempt).srv.None? && GivesValues(Staged(w, attempt), dims)
    ensures NothingDisplaced(cfg, w.registry, Staged(w, attempt), dims)
  {
    hide Admit;
  }

  /** From an empty world: two companions that disagree on the region make the order show in the registry. */
  lemma {:induction false} EarlierCompanionDisplaces(cfg: Config, row: ServerRow, first: Companion, second: Companion,
                                                     floor: Day, unused: Day)
    requires cfg.activeDims == ["region"] && cfg.valueCap >= 1
    requires first.attempt == second.attempt != "" && row.attempt == Some(first.attempt)
    requires first.dims == map["region" := "EU"] && second.dims == map["region" := "US"]
    requires row.normalized >= 0 && row.local >= 0 && !PurchaseDayIsSealed(row.day, second.now, cfg.reportingOffset)
    ensures var w := AfterCompanion(EMPTY_WORLD, cfg, first, unused);
      !SameRollup(AfterCompanion(AfterServerRow(w, cfg, row, floor), cfg, second, unused),
                  AfterServerRow(AfterCompanion(w, cfg, second, unused), cfg, row, floor), first.attempt)
  {
    hide *;
    var w := AfterCompanion(EMPTY_WORLD, cfg, first, unused);
    NothingStaged(EMPTY_WORLD, cfg, first.attempt, first.dims);
    CompanionStages(EMPTY_WORLD, cfg, first, unused);
    RegionsDisplace(w, cfg, first, second);
    JoinIsConfluentIff(w, cfg, row, second, floor, unused);
  }

  lemma {:induction false} RegionsDisplace(w: World, cfg: Config, first: Companion, second: Companion)
    requires cfg.activeDims == ["region"] && cfg.valueCap >= 1
    requires first.attempt == second.attempt
    requires first.dims == map["region" := "EU"] && second.dims == map["region" := "US"]
    requires StageOf(w.stage, first.attempt) == Stage(None, Staged(EMPTY_WORLD, first.attempt) + first.dims)
    requires w.registry == EMPTY_WORLD.registry
    ensures KnownDims(cfg) && GivesValues(Staged(w, first.attempt), second.dims)
    ensures !NothingDisplaced(cfg, w.registry, Staged(w, first.attempt), second.dims)
  {
    assert Staged(w, first.attempt) == first.dims;
    assert "region" in cfg.activeDims && Supplied(first.dims, "region") && Supplied(second.dims, "region");
    assert !KeepsSlot(cfg, w.registry, first.dims, second.dims, "region") by {
      assert Admit(w.registry, cfg.valueCap, "region", "EU").1 == map["region" := {"EU"}];
    }
  }

  lemma {:induction false} SameDayReflexive()
    ensures forall d :: SameDay(d, d)
  {
  }

  // ---- Redelivery ------------------------------------------------------------

  /** Whatever the registry answers now it answers later, without growing. */
  predicate Settled(registry: map<string, set<string>>, cap: int, d: string, value: string, answer: string) {
    Admit(registry, cap, d, value) == (answer, registry)
  }

  lemma {:induction false} SettledStays(registry: map<string, set<string>>, cap: int, d: string, value: string,
                                        answer: string, d2: string, value2: string)
    requires Settled(registry, cap, d, value, answer)
    ensures Settled(Admit(registry, cap, d2, value2).1, cap, d, value, answer)
  {
  }

  lemma {:induction false} OverlaySettles(dims: seq<string>, base: map<string, string>, client: map<string, string>,
                                          cap: int, registry: map<string, set<string>>)
    ensures var (r, g) := Overlay(dims, base, client, cap, registry);
      forall d :: d in dims && Supplied(client, d) ==> d in r && Settled(g, cap, d, client[d], r[d])
  {
    if dims != [] {
      var last := |dims| - 1;
      OverlaySettles(dims[..last], base, client, cap, registry);
      OverlayDomain(dims[..last], base, client, cap, registry);
      assert dims == dims[..last] + [dims[last]];
      var (r, g) := Overlay(dims[..last], base, client, cap, registry);
      var d := dims[last];
      if Supplied(client, d) {
        var (value, g') := Admit(g, cap, d, client[d]);
        AdmitLaws(g, cap, d, client[d], d);
        forall e | e in dims && Supplied(client, e) && e != d ensures Settled(g', cap, e, client[e], r[e]) {
          SettledStays(g, cap, e, client[e], r[e], d, client[d]);
        }
      }
    }
  }

  lemma {:induction false} OverlayOfSettled(dims: seq<string>, base: map<string, string>, client: map<string, string>,
                                            cap: int, registry: map<string, set<string>>, answers: map<string, string>)
    requires forall d :: d in dims && Supplied(client, d) ==>
      d in answers && Settled(registry, cap, d, client[d], answers[d])
    ensures var (r, g) := Overlay(dims, base, client, cap, registry);
      g == registry && forall d :: d in dims && Supplied(client, d) ==> d in r && r[d] == answers[d]
  {
    if dims != [] {
      var last := |dims| - 1;
      assert dims == dims[..last] + [dims[last]];
      OverlayOfSettled(dims[..last], base, client, cap, registry, answers);
      OverlayDomain(dims[..last], base, client, cap, registry);
    }
  }

  /** The values of a second overlay, started from the combo the first one produced. */
  lemma {:induction false} OverlayRepeats(cfg: Config, base: map<string, string>, client: map<string, string>,
                                          registry: map<string, set<string>>)
    requires KnownDims(cfg)
    ensures var (r, g) := Overlay(cfg.activeDims, base, client, cfg.valueCap, registry);
            var again := ParsedCombo(DimComboOf(cfg.activeDims, r));
            var (r1, g1) := Overlay(cfg.activeDims, again, client, cfg.valueCap, g);
      && g1 == g && forall d :: d in cfg.activeDims ==> ValueOf(r1, d) == ValueOf(r, d)
  {
    hide Overlay, DimComboOf, ParsedCombo, PlainName, Settled, Admit;
    var (r, g) := Overlay(cfg.activeDims, base, client, cfg.valueCap, registry);
    var again := ParsedCombo(DimComboOf(cfg.activeDims, r));
    KnownDimsPlain(cfg);
    DimComboRoundTrip(cfg.activeDims, r);
    OverlaySettles(cfg.activeDims, base, client, cfg.valueCap, registry);
    OverlayOfSettled(cfg.activeDims, again, client, cfg.valueCap, g, r);
    OverlayDomain(cfg.activeDims, again, client, cfg.valueCap, g);
  }

  /** Recomputing from the moved combo finds the moved combo. */
  lemma {:induction false} RecomputeIsStable(w: World, w1: World, cfg: Config, counted: string,
                                             dims: map<string, string>)
    requires KnownDims(cfg) && w1.registry == RecomputeDimCombo(w, cfg, counted, dims).1
    ensures var newDim := RecomputeDimCombo(w, cfg, counted, dims).0;
      RecomputeDimCombo(w1, cfg, newDim, dims) == (newDim, w1.registry)
  {
    hide Overlay, DimComboOf, ParsedCombo, ValueOf;
    var base := ParsedCombo(counted);
    var (r, g) := Overlay(cfg.activeDims, base, dims, cfg.valueCap, w.registry);
    OverlayRepeats(cfg, base, dims, w.registry);
    var again := ParsedCombo(DimComboOf(cfg.activeDims, r));
    SameValuesSameCombo(cfg, Overlay(cfg.activeDims, again, dims, cfg.valueCap, g).0, r);
  }

  /** A second delivery of the same companion leaves the whole world as it is. */
  lemma {:induction false} CompanionIdempotent(w: World, cfg: Config, c: Companion, floor: Day, later: Day)
    requires KnownDims(cfg) && c.attempt in w.stage && w.stage[c.attempt].srv.Some?
    requires w.stage[c.attempt].srv.value.normalized >= 0 && w.stage[c.attempt].srv.value.local >= 0
    ensures AfterCompanion(AfterCompanion(w, cfg, c, floor), cfg, c, later) == AfterCompanion(w, cfg, c, floor)
  {
    hide RecomputeDimCombo, PurchaseDayIsSealed, CellKey, Incr;
    var srv := w.stage[c.attempt].srv.value;
    var w1 := AfterCompanion(w, cfg, c, floor);
    if c.attempt != "" && !PurchaseDayIsSealed(srv.day, c.now, cfg.reportingOffset) {
      RecomputeIsStable(w, w1, cfg, srv.dimCombo, c.dims);
    }
  }
}
