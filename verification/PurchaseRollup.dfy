/**
 * Step 8 for purchases: server rows roll up into per-day cell hashes, companions join by
 * attempt id and move an already counted purchase to its enriched cell. Each Lua script is
 * one atomic step. Money is an integer number of 10^-6 units.
 */
module PurchaseRollup {
  import opened Basics
  import opened DimCombo
  import opened LogicalDay
  import opened MonKeys
  import opened Strings
  import opened Sums

  // ---- Records and state -----------------------------------------------------

  /** What the configuration service answers for the game. */
  datatype Config = Config(activeDims: seq<string>, valueCap: int, reportingOffset: int)

  /** An accepted server row with the values step 7 resolved. */
  datatype ServerRow = ServerRow(
    attempt: Option<string>, day: int, productId: string, normalized: int, local: int,
    currency: string, userId: string, category: string, serverDims: map<string, string>)

  /** A companion's join key and the dimensions read from its properties. */
  datatype Companion = Companion(attempt: string, dims: map<string, string>, now: int)

  /** The `mon:{day}:*`, `payer:{day}` and `rev:{day}` hashes of one day, without the seeded marker. */
  datatype Day = Day(
    cnt: map<string, int>, rev: map<string, int>, loc: map<string, int>, cat: map<string, string>,
    payers: set<string>, revDay: map<string, int>, gen: int)

  datatype Srv = Srv(productId: string, dimCombo: string, normalized: int, local: int,
                     currency: string, category: string, day: int)

  /** The staging hash of one attempt: the `srv:*` fields, if written, and the `cmp:*` fields. */
  datatype Stage = Stage(srv: Option<Srv>, cmp: map<string, string>)

  /** A day is in `days` once its hashes are seeded; a day missing there has never been or has been lost. */
  datatype World = World(days: map<int, Day>, stage: map<string, Stage>, registry: map<string, set<string>>)

  const EMPTY_DAY := Day(map[], map[], map[], map[], {}, map[], 0)
  const EMPTY_WORLD := World(map[], map[], map[])
  const REV_TOTAL_FIELD := "total"

  function RevLocField(currency: string): string {
    "loc:" + currency
  }

  function DayIn(days: map<int, Day>, day: int): Day {
    if day in days then days[day] else EMPTY_DAY
  }

  /** Rehydrate on a miss: a day that is not seeded starts from its durable floor. */
  function Seeded(days: map<int, Day>, day: int, floor: Day): Day {
    if day in days then days[day] else floor
  }

  function StageOf(stage: map<string, Stage>, attempt: string): Stage {
    if attempt in stage then stage[attempt] else Stage(None, map[])
  }

  // ---- Cardinality guard -----------------------------------------------------

  function Observed(registry: map<string, set<string>>, dim: string): set<string> {
    if dim in registry then registry[dim] else {}
  }

  /** Admit a value while the registry is under its cap; afterwards it is `other`. */
  function Admit(registry: map<string, set<string>>, cap: int, dim: string, value: string)
    : (r: (string, map<string, set<string>>))
  {
    var seen := Observed(registry, dim);
    if value == "" || value == OTHER_VALUE then (value, registry)
    else if value in seen then (value, registry)
    else if |seen| < cap then (value, registry[dim := seen + {value}])
    else (OTHER_VALUE, registry)
  }

  /** The registry never outgrows the cap, never forgets, and asking again changes nothing. */
  lemma {:induction false} AdmitLaws(registry: map<string, set<string>>, cap: int, dim: string, value: string,
                                     other: string)
    ensures var (resolved, registry') := Admit(registry, cap, dim, value);
      && Admit(registry', cap, dim, value) == (resolved, registry')
      && (resolved == value || resolved == OTHER_VALUE)
      && Observed(registry, other) <= Observed(registry', other)
      && (|Observed(registry, other)| <= cap ==> |Observed(registry', other)| <= cap)
  {
  }

  // ---- Dimension resolution --------------------------------------------------

  /**
   * For each active dimension: a supplied client value goes through the guard, anything
   * else keeps `base`, or `unknown`. A server row's base is its server-derived values; a
   * move's base is the combo the purchase was counted under.
   */
  function Overlay(dims: seq<string>, base: map<string, string>, client: map<string, string>, cap: int,
                   registry: map<string, set<string>>): (map<string, string>, map<string, set<string>>)
  {
    if dims == [] then (map[], registry)
    else
      var last := |dims| - 1;
      var (resolved, registry') := Overlay(dims[..last], base, client, cap, registry);
      var d := dims[last];
      if d in CLIENT_DIMENSIONS && d in client && client[d] != "" then
        var (value, registry'') := Admit(registry', cap, d, client[d]);
        (resolved[d := value], registry'')
      else (resolved[d := if d in base then base[d] else UNKNOWN_VALUE], registry')
  }

  /** Server dimensions come from the server only. */
  function ServerBase(serverDims: map<string, string>): map<string, string> {
    map d | d in serverDims && d in SERVER_DIMENSIONS :: serverDims[d]
  }

  // ---- The two scripts -------------------------------------------------------

  /** SERVER_ROLLUP_LUA. */
  function RolledUp(d: Day, cell: string, row: ServerRow): Day {
    Day(Incr(d.cnt, cell, 1),
        Incr(d.rev, cell, row.normalized),
        Incr(d.loc, LocField(cell, row.currency), row.local),
        d.cat[cell := row.category],
        d.payers + {row.userId},
        Incr(Incr(d.revDay, REV_TOTAL_FIELD, row.normalized), RevLocField(row.currency), row.local),
        d.gen)
  }

  datatype ScriptResult = Done(day: Day) | Failed(day: Day)

  /**
   * MOVE_LUA. The decrements are written as `'-' .. amount`, so a negative amount makes
   * HINCRBYFLOAT throw; the script stops there and keeps what it already wrote.
   */
  function Moved(d: Day, oldCell: string, newCell: string, srv: Srv): ScriptResult {
    var d1 := d.(cnt := Incr(d.cnt, oldCell, -1));
    if srv.normalized < 0 then Failed(d1)
    else
      var d2 := d1.(rev := Incr(d1.rev, oldCell, -srv.normalized));
      if srv.local < 0 then Failed(d2)
      else
        var loc := Incr(d2.loc, LocField(oldCell, srv.currency), -srv.local);
        Done(Day(Incr(d2.cnt, newCell, 1),
                 Incr(d2.rev, newCell, srv.normalized),
                 Incr(loc, LocField(newCell, srv.currency), srv.local),
                 d2.cat[newCell := srv.category], d2.payers, d2.revDay, d2.gen + 1))
  }

  // ---- One event -------------------------------------------------------------

  /** The combo a server row is counted under, and the registry after resolving it. */
  function ResolveDimCombo(w: World, cfg: Config, row: ServerRow): (string, map<string, set<string>>) {
    var client := if row.attempt.Some? then StageOf(w.stage, row.attempt.value).cmp else map[];
    var (resolved, registry) := Overlay(cfg.activeDims, ServerBase(row.serverDims), client, cfg.valueCap, w.registry);
    (DimComboOf(cfg.activeDims, resolved), registry)
  }

  function SrvOf(row: ServerRow, dimCombo: string): Srv {
    Srv(row.productId, dimCombo, row.normalized, row.local, row.currency, row.category, row.day)
  }

  /** `floor` is what the durable tables hold for the row's day. */
  function AfterServerRow(w: World, cfg: Config, row: ServerRow, floor: Day): World {
    var (dimCombo, registry) := ResolveDimCombo(w, cfg, row);
    var days := w.days[row.day := RolledUp(Seeded(w.days, row.day, floor), CellKey(row.productId, dimCombo), row)];
    var stage :=
      if row.attempt.None? then w.stage
      else w.stage[row.attempt.value := StageOf(w.stage, row.attempt.value).(srv := Some(SrvOf(row, dimCombo)))];
    World(days, stage, registry)
  }

  /** The combo a companion moves a counted purchase to. */
  function RecomputeDimCombo(w: World, cfg: Config, counted: string, dims: map<string, string>)
    : (string, map<string, set<string>>)
  {
    var (resolved, registry) := Overlay(cfg.activeDims, ParsedCombo(counted), dims, cfg.valueCap, w.registry);
    (DimComboOf(cfg.activeDims, resolved), registry)
  }

  /** `floor` is what the durable tables hold for the purchase's day. */
  function AfterCompanion(w: World, cfg: Config, c: Companion, floor: Day): World {
    if c.attempt == "" then w
    else
      var staged := StageOf(w.stage, c.attempt);
      if staged.srv.Some? then
        var srv := staged.srv.value;
        if PurchaseDayIsSealed(srv.day, c.now, cfg.reportingOffset) then w
        else
          var day := Seeded(w.days, srv.day, floor);
          var (newDim, registry) := RecomputeDimCombo(w, cfg, srv.dimCombo, c.dims);
          if newDim == srv.dimCombo then w.(days := w.days[srv.day := day], registry := registry)
          else
            var result := Moved(day, CellKey(srv.productId, srv.dimCombo),
                                CellKey(srv.productId, newDim), srv);
            World(w.days[srv.day := result.day],
                  if result.Done? then w.stage[c.attempt := staged.(srv := Some(srv.(dimCombo := newDim)))] else w.stage,
                  registry)
      else if c.dims == map[] then w
      else w.(stage := w.stage[c.attempt := staged.(cmp := staged.cmp + c.dims)])
  }

  // ---- The hook --------------------------------------------------------------

  class PurchaseHotHook {
    var days: map<int, Day>
    var stage: map<string, Stage>
    var registry: map<string, set<string>>

    function State(): World
      reads this
    {
      World(days, stage, registry)
    }

    /** ADMIT_OR_OVERFLOW_LUA. */
    method ResolveValue(cap: int, dim: string, value: string) returns (resolved: string)
      modifies this`registry
      ensures (resolved, registry) == Admit(old(registry), cap, dim, value)
    {
      if value == "" || value == OTHER_VALUE {
        return value;
      }
      var seen := Observed(registry, dim);
      if value in seen {
        return value;
      }
      if |seen| < cap {
        registry := registry[dim := seen + {value}];
        return value;
      }
      return OTHER_VALUE;
    }

    method Resolve(cfg: Config, base: map<string, string>, client: map<string, string>)
      returns (resolved: map<string, string>)
      modifies this`registry
      ensures (resolved, registry) == Overlay(cfg.activeDims, base, client, cfg.valueCap, old(registry))
    {
      hide Admit;
      resolved := map[];
      var i := 0;
      assert cfg.activeDims[..0] == [];
      while i < |cfg.activeDims|
        invariant 0 <= i <= |cfg.activeDims|
        invariant (resolved, registry) == Overlay(cfg.activeDims[..i], base, client, cfg.valueCap, old(registry))
      {
        var d := cfg.activeDims[i];
        ghost var scanned := cfg.activeDims[..i + 1];
        assert scanned[..i] == cfg.activeDims[..i] && scanned[i] == d;
        if d in CLIENT_DIMENSIONS && d in client && client[d] != "" {
          var value := ResolveValue(cfg.valueCap, d, client[d]);
          resolved := resolved[d := value];
        } else {
          resolved := resolved[d := if d in base then base[d] else UNKNOWN_VALUE];
        }
        i := i + 1;
      }
      assert cfg.activeDims[..|cfg.activeDims|] == cfg.activeDims;
    }

    method SeedDay(day: int, floor: Day)
      modifies this`days
      ensures days == old(days)[day := Seeded(old(days), day, floor)]
    {
      if day !in days {
        days := days[day := floor];
      }
    }

    method RollupServerRow(cfg: Config, row: ServerRow, floor: Day)
      modifies this
      ensures State() == AfterServerRow(old(State()), cfg, row, floor)
    {
      hide Overlay, RolledUp, CellKey, DimComboOf, ServerBase;
      SeedDay(row.day, floor);
      var client := if row.attempt.Some? then StageOf(stage, row.attempt.value).cmp else map[];
      var resolved := Resolve(cfg, ServerBase(row.serverDims), client);
      var dimCombo := BuildDimCombo(cfg.activeDims, resolved);
      var cell := CellKey(row.productId, dimCombo);
      days := days[row.day := RolledUp(days[row.day], cell, row)];
      if row.attempt.Some? {
        stage := stage[row.attempt.value := StageOf(stage, row.attempt.value).(srv := Some(SrvOf(row, dimCombo)))];
      }
    }

    method JoinCompanion(cfg: Config, c: Companion, floor: Day)
      modifies this
      ensures State() == AfterCompanion(old(State()), cfg, c, floor)
    {
      hide Overlay, Moved, CellKey, DimComboOf, ParsedCombo, PurchaseDayIsSealed;
      if c.attempt == "" {
        return;
      }
      var staged := StageOf(stage, c.attempt);
      if staged.srv.Some? {
        var srv := staged.srv.value;
        if PurchaseDayIsSealed(srv.day, c.now, cfg.reportingOffset) {
          return;
        }
        SeedDay(srv.day, floor);
        var base := ParseDimCombo(srv.dimCombo);
        var resolved := Resolve(cfg, base, c.dims);
        var newDim := BuildDimCombo(cfg.activeDims, resolved);
        if newDim != srv.dimCombo {
          var result := Moved(days[srv.day], CellKey(srv.productId, srv.dimCombo),
                              CellKey(srv.productId, newDim), srv);
          days := days[srv.day := result.day];
          if result.Done? {
            stage := stage[c.attempt := staged.(srv := Some(srv.(dimCombo := newDim)))];
          }
        }
      } else if c.dims != map[] {
        stage := stage[c.attempt := staged.(cmp := staged.cmp + c.dims)];
      }
    }
  }
}
