/**
 * The operator's rebuild: recompute COHORT, RETENTION_CELL and ACTIVE_USER_DAY from the
 * spine alone and merge them into the durable tables with GREATEST and set union.
 */
module SpineRescan {
  import opened Spine
  import opened Sums

  // ---- The pure projection ---------------------------------------------------

  /** The counters some row contributes to. */
  function CountersOf(spine: map<string, Row>): set<Counter> {
    (set u | u in spine :: CohortSize(spine[u].cohort))
    + (set u, offset | u in spine && 0 <= offset < |spine[u].bitmap| && spine[u].bitmap[offset] ::
         RetentionCell(spine[u].cohort, offset))
  }

  function Projection(spine: map<string, Row>): map<Counter, int> {
    map k | k in CountersOf(spine) :: Truth(spine, k)
  }

  function ActiveOn(spine: map<string, Row>, day: int): set<string> {
    set u | u in spine && ActiveRow(spine[u], day)
  }

  predicate ActiveRow(row: Row, day: int) {
    0 <= day - row.cohort < |row.bitmap| && row.bitmap[day - row.cohort]
  }

  /** `ON CONFLICT … GREATEST`. */
  function Greatest(table: map<Counter, int>, k: Counter, value: int): int {
    if k in table && table[k] > value then table[k] else value
  }

  function Upserted(table: map<Counter, int>, rows: map<Counter, int>): map<Counter, int> {
    map k | k in table.Keys + rows.Keys :: if k in rows then Greatest(table, k, rows[k]) else table[k]
  }

  lemma {:induction false} NothingUpserted(table: map<Counter, int>)
    ensures Upserted(table, map[]) == table
  {
  }

  lemma {:induction false} OneMoreUpserted(table: map<Counter, int>, rows: map<Counter, int>, k: Counter, value: int)
    requires k !in rows
    ensures Upserted(table, rows[k := value])
         == Upserted(table, rows)[k := Greatest(Upserted(table, rows), k, value)]
  {
  }

  lemma {:induction false} CountedIffPositive(spine: map<string, Row>, k: Counter)
    ensures k in CountersOf(spine) <==> Truth(spine, k) > 0
  {
    if Truth(spine, k) > 0 {
      var u :| u in Witnesses(spine, k);
      assert k == CohortSize(spine[u].cohort) || (k.RetentionCell? && spine[u].bitmap[k.offset]);
    }
    if k in CountersOf(spine) {
      var u :| u in spine && Counts(spine[u], k);
      assert u in Witnesses(spine, k);
    }
  }

  lemma {:induction false} ProjectionValue(spine: map<string, Row>, k: Counter)
    ensures Value(Projection(spine), k) == Truth(spine, k)
  {
    CountedIffPositive(spine, k);
  }

  /** One more witness for one counter is one increment of its Map entry. */
  lemma {:induction false} ProjectionStep(before: map<string, Row>, after: map<string, Row>, counter: Counter)
    requires forall k :: Truth(after, k) == Truth(before, k) + (if k == counter then 1 else 0)
    ensures Projection(after) == Projection(before)[counter := Value(Projection(before), counter) + 1]
  {
    forall k ensures k in CountersOf(after) <==> k in CountersOf(before) || k == counter {
      CountedIffPositive(before, k);
      CountedIffPositive(after, k);
      assert Truth(after, k) == Truth(before, k) + (if k == counter then 1 else 0);
    }
    ProjectionValue(before, counter);
  }

  lemma {:induction false} NothingProjected()
    ensures Projection(map[]) == map[]
    ensures forall d :: ActiveOn(map[], d) == {}
  {
  }

  lemma {:induction false} RowEntersProjection(spine: map<string, Row>, user: string, cohort: int)
    requires user !in spine
    ensures Projection(spine[user := Row(cohort, [])])
         == Projection(spine)[CohortSize(cohort) := Value(Projection(spine), CohortSize(cohort)) + 1]
    ensures forall d :: ActiveOn(spine[user := Row(cohort, [])], d) == ActiveOn(spine, d)
  {
    var after := spine[user := Row(cohort, [])];
    assert SeedFirstSeen(spine, user, cohort, 0)[user].bitmap == [];
    assert after == SeedFirstSeen(spine, user, cohort, 0);
    forall k ensures Truth(after, k) == Truth(spine, k) + (if k == CohortSize(cohort) then 1 else 0) {
      SeedRaisesOneCohort(spine, user, cohort, 0, k);
    }
    ProjectionStep(spine, after, CohortSize(cohort));
  }

  lemma {:induction false} ClearBitEntersProjection(spine: map<string, Row>, user: string, cohort: int,
                                                    prefix: seq<bool>)
    requires user in spine && spine[user] == Row(cohort, prefix)
    ensures Projection(spine[user := Row(cohort, prefix + [false])]) == Projection(spine)
  {
    var wide := spine[user := Row(cohort, prefix + [false])];
    forall k ensures Truth(wide, k) == Truth(spine, k) && (k in CountersOf(wide) <==> k in CountersOf(spine)) {
      assert Witnesses(wide, k) == Witnesses(spine, k);
      CountedIffPositive(wide, k);
      CountedIffPositive(spine, k);
    }
  }

  /** Scanning one more bitmap position. */
  lemma {:induction false} BitEntersProjection(spine: map<string, Row>, user: string, cohort: int,
                                               prefix: seq<bool>, bit: bool)
    requires user in spine && spine[user] == Row(cohort, prefix)
    ensures var cell := RetentionCell(cohort, |prefix|);
            Projection(spine[user := Row(cohort, prefix + [bit])])
            == if bit then Projection(spine)[cell := Value(Projection(spine), cell) + 1] else Projection(spine)
  {
    hide Projection, Truth, Counts;
    ClearBitEntersProjection(spine, user, cohort, prefix);
    if bit {
      var wide := spine[user := Row(cohort, prefix + [false])];
      assert (prefix + [false])[|prefix| := true] == prefix + [true];
      assert SetActivityBit(wide, user, |prefix|) == spine[user := Row(cohort, prefix + [true])];
      forall k ensures Truth(SetActivityBit(wide, user, |prefix|), k)
                    == Truth(wide, k) + (if k == RetentionCell(cohort, |prefix|) then 1 else 0)
      {
        BitRaisesOneCell(wide, user, |prefix|, k);
      }
      ProjectionStep(wide, SetActivityBit(wide, user, |prefix|), RetentionCell(cohort, |prefix|));
    }
  }

  lemma {:induction false} BitEntersActive(spine: map<string, Row>, user: string, cohort: int,
                                           prefix: seq<bool>, bit: bool, day: int)
    requires user in spine && spine[user] == Row(cohort, prefix)
    ensures ActiveOn(spine[user := Row(cohort, prefix + [bit])], day)
         == ActiveOn(spine, day) + (if bit && day == cohort + |prefix| then {user} else {})
  {
    var after := spine[user := Row(cohort, prefix + [bit])];
    forall u ensures u in ActiveOn(after, day)
      <==> u in ActiveOn(spine, day) || (u == user && bit && day == cohort + |prefix|)
    {
      if u != user {
        assert u in after <==> u in spine;
      }
    }
  }

  function Members(days: map<int, set<string>>, day: int): set<string> {
    if day in days then days[day] else {}
  }

  /** `members || EXCLUDED.members`, day by day. */
  function Merged(table: map<int, set<string>>, rows: map<int, set<string>>): map<int, set<string>> {
    map d | d in table.Keys + rows.Keys :: if d in rows then Members(table, d) + rows[d] else table[d]
  }

  lemma {:induction false} NothingMerged(table: map<int, set<string>>)
    ensures Merged(table, map[]) == table
  {
  }

  lemma {:induction false} OneMoreMerged(table: map<int, set<string>>, rows: map<int, set<string>>, day: int,
                                         users: set<string>)
    requires day !in rows
    ensures Merged(table, rows[day := users])
         == Merged(table, rows)[day := Members(Merged(table, rows), day) + users]
  {
  }

  function AddMember(days: map<int, set<string>>, day: int, user: string): map<int, set<string>> {
    days[day := Members(days, day) + {user}]
  }

  /** Both Maps describe exactly the rows of `spine`. */
  ghost predicate Describe(counts: map<Counter, int>, active: map<int, set<string>>, spine: map<string, Row>) {
    counts == Projection(spine) && forall d :: Members(active, d) == ActiveOn(spine, d)
  }

  lemma {:induction false} RowScanned(counts: map<Counter, int>, active: map<int, set<string>>,
                                      spine: map<string, Row>, user: string, cohort: int)
    requires Describe(counts, active, spine) && user !in spine
    ensures Describe(counts[CohortSize(cohort) := Value(counts, CohortSize(cohort)) + 1], active,
                     spine[user := Row(cohort, [])])
  {
    RowEntersProjection(spine, user, cohort);
  }

  /** The Maps after the scan of `bitmap` moves past `offset`. */
  lemma {:induction false} BitScanned(counts: map<Counter, int>, active: map<int, set<string>>,
                                      done: map<string, Row>, user: string, cohort: int, bitmap: seq<bool>, offset: nat)
    requires offset < |bitmap|
    requires Describe(counts, active, done[user := Row(cohort, bitmap[..offset])])
    ensures var cell := RetentionCell(cohort, offset);
            var next := done[user := Row(cohort, bitmap[..offset + 1])];
            if bitmap[offset]
            then Describe(counts[cell := Value(counts, cell) + 1], AddMember(active, cohort + offset, user), next)
            else Describe(counts, active, next)
  {
    hide Projection, ActiveOn;
    var scanned := done[user := Row(cohort, bitmap[..offset])];
    var next := done[user := Row(cohort, bitmap[..offset + 1])];
    assert bitmap[..offset + 1] == bitmap[..offset] + [bitmap[offset]];
    assert scanned[user := Row(cohort, bitmap[..offset] + [bitmap[offset]])] == next;
    BitEntersProjection(scanned, user, cohort, bitmap[..offset], bitmap[offset]);
    forall d ensures ActiveOn(next, d)
                  == ActiveOn(scanned, d) + (if bitmap[offset] && d == cohort + offset then {user} else {})
    {
      BitEntersActive(scanned, user, cohort, bitmap[..offset], bitmap[offset], d);
    }
  }

  // ---- The service -----------------------------------------------------------

  datatype D0Result = D0Result(ok: bool, usersMissingBit0: nat, cohortsMismatched: nat)

  class SpineRescanService {
    /** COHORT and RETENTION_CELL, and ACTIVE_USER_DAY.members per day. */
    var tables: map<Counter, int>
    var activeUserDay: map<int, set<string>>

    /** The inner loop: every set bit of one row, the rows in `done` being counted already. */
    static method CountBits(user: string, row: Row, counts0: map<Counter, int>, active0: map<int, set<string>>,
                            ghost done: map<string, Row>)
      returns (counts: map<Counter, int>, active: map<int, set<string>>)
      requires Describe(counts0, active0, done[user := Row(row.cohort, [])])
      ensures Describe(counts, active, done[user := row])
    {
      hide Describe;
      counts, active := counts0, active0;
      var offset: nat := 0;
      assert row.bitmap[..0] == [];
      while offset < |row.bitmap|
        invariant offset <= |row.bitmap|
        invariant Describe(counts, active, done[user := Row(row.cohort, row.bitmap[..offset])])
      {
        BitScanned(counts, active, done, user, row.cohort, row.bitmap, offset);
        if row.bitmap[offset] {
          var cell := RetentionCell(row.cohort, offset);
          counts := counts[cell := Value(counts, cell) + 1];
          active := AddMember(active, row.cohort + offset, user);
        }
        offset := offset + 1;
      }
      assert row.bitmap[..|row.bitmap|] == row.bitmap;
    }

    /** Count every row and every set bit, in whatever order the rows come. */
    static method CountSpine(spine: map<string, Row>)
      returns (counts: map<Counter, int>, active: map<int, set<string>>)
      ensures counts == Projection(spine)
      ensures forall d :: Members(active, d) == ActiveOn(spine, d)
    {
      counts, active := map[], map[];
      NothingProjected();
      var todo := spine.Keys;
      ghost var done: map<string, Row> := map[];
      while todo != {}
        invariant todo <= spine.Keys
        invariant done == map u | u in spine && u !in todo :: spine[u]
        invariant Describe(counts, active, done)
        decreases |todo|
      {
        hide Describe;
        var user :| user in todo;
        var row := spine[user];
        RowScanned(counts, active, done, user, row.cohort);
        counts := counts[CohortSize(row.cohort) := Value(counts, CohortSize(row.cohort)) + 1];
        counts, active := CountBits(user, row, counts, active, done);
        todo := todo - {user};
        done := done[user := row];
      }
      assert done == spine;
    }

    method UpsertCounters(counts: map<Counter, int>)
      modifies this`tables
      ensures tables == Upserted(old(tables), counts)
    {
      hide Upserted, Greatest;
      NothingUpserted(tables);
      var todo := counts.Keys;
      ghost var written: map<Counter, int> := map[];
      while todo != {}
        invariant todo <= counts.Keys
        invariant written == map k | k in counts && k !in todo :: counts[k]
        invariant tables == Upserted(old(tables), written)
        decreases |todo|
      {
        var k :| k in todo;
        OneMoreUpserted(old(tables), written, k, counts[k]);
        tables := tables[k := Greatest(tables, k, counts[k])];
        todo := todo - {k};
        written := written[k := counts[k]];
      }
      assert written == counts;
    }

    method UpsertActiveDays(active: map<int, set<string>>)
      modifies this`activeUserDay
      ensures activeUserDay == Merged(old(activeUserDay), active)
    {
      hide Merged, Members;
      NothingMerged(activeUserDay);
      var todo := active.Keys;
      ghost var written: map<int, set<string>> := map[];
      while todo != {}
        invariant todo <= active.Keys
        invariant written == map d | d in active && d !in todo :: active[d]
        invariant activeUserDay == Merged(old(activeUserDay), written)
        decreases |todo|
      {
        SomeInt(todo);
        var day :| day in todo;
        OneMoreMerged(old(activeUserDay), written, day, active[day]);
        activeUserDay := activeUserDay[day := Members(activeUserDay, day) + active[day]];
        todo := todo - {day};
        written := written[day := active[day]];
      }
      assert written == active;
    }

    /** One transaction: absolute upserts of everything counted. */
    method RescanGame(spine: map<string, Row>)
      modifies this
      ensures tables == Upserted(old(tables), Projection(spine))
      ensures forall d :: Members(activeUserDay, d) == old(Members(activeUserDay, d)) + ActiveOn(spine, d)
    {
      var counts, active := CountSpine(spine);
      UpsertCounters(counts);
      UpsertActiveDays(active);
    }

    /** Count the rows without bit 0, and the COHORT rows that differ from their day-0 cell. */
    method VerifyD0Invariant(spine: map<string, Row>) returns (r: D0Result)
      ensures r.usersMissingBit0 == |MissingBit0(spine)|
      ensures r.cohortsMismatched == |MismatchedCohorts(tables)|
      ensures r.ok <==> MissingBit0(spine) == {} && MismatchedCohorts(tables) == {}
    {
      var missing := set u | u in spine && !Bit0Set(spine[u]);
      var mismatched := set k | k in tables && k.CohortSize? && tables[k] != Value(tables, RetentionCell(k.cohort, 0)) :: k.cohort;
      assert mismatched == MismatchedCohorts(tables) by {
        forall c ensures c in mismatched <==> c in MismatchedCohorts(tables) {
          if c in MismatchedCohorts(tables) {
            assert CohortSize(c) in tables;
          }
        }
      }
      r := D0Result(|missing| == 0 && |mismatched| == 0, |missing|, |mismatched|);
    }
  }

  function MissingBit0(spine: map<string, Row>): set<string> {
    set u | u in spine && !Bit0Set(spine[u])
  }

  /** The cohorts whose size is not their day-0 cell, an absent cell counting as 0. */
  function MismatchedCohorts(tables: map<Counter, int>): set<int> {
    set k | k in tables && k.CohortSize? && tables[k] != Value(tables, RetentionCell(k.cohort, 0)) :: k.cohort
  }

  // ---- What a rescan achieves ------------------------------------------------

  /** A table that lags or equals the spine on every counter. */
  ghost predicate Lags(tables: map<Counter, int>, spine: map<string, Row>) {
    forall k :: k in tables ==> 0 <= tables[k] <= Truth(spine, k)
  }

  function AfterRescan(tables: map<Counter, int>, spine: map<string, Row>): map<Counter, int> {
    Upserted(tables, Projection(spine))
  }

  /** From a lagging state a rescan is exact, and a second one changes nothing. */
  lemma {:induction false} RescanIsExact(tables: map<Counter, int>, spine: map<string, Row>, k: Counter)
    requires Lags(tables, spine)
    ensures Value(AfterRescan(tables, spine), k) == Truth(spine, k)
    ensures AfterRescan(AfterRescan(tables, spine), spine) == AfterRescan(tables, spine)
  {
    CountedIffPositive(spine, k);
  }

  /** A table that leads stays ahead: GREATEST cannot repair downwards. */
  lemma {:induction false} RescanExactIffLags(tables: map<Counter, int>, spine: map<string, Row>)
    requires forall k :: k in tables ==> tables[k] >= 0
    ensures (forall k :: Value(AfterRescan(tables, spine), k) == Truth(spine, k)) <==> Lags(tables, spine)
  {
    if Lags(tables, spine) {
      forall k ensures Value(AfterRescan(tables, spine), k) == Truth(spine, k) {
        RescanIsExact(tables, spine, k);
      }
    }
    if forall k :: Value(AfterRescan(tables, spine), k) == Truth(spine, k) {
      forall k | k in tables ensures tables[k] <= Truth(spine, k) {
        assert Value(AfterRescan(tables, spine), k) == Truth(spine, k);
      }
    }
  }

  /** After a rescan of a lagging state the D0 check passes exactly when every row has bit 0. */
  lemma {:induction false} D0AfterRescan(tables: map<Counter, int>, spine: map<string, Row>)
    requires Lags(tables, spine)
    ensures MismatchedCohorts(AfterRescan(tables, spine)) == {} <==> MissingBit0(spine) == {}
  {
    hide AfterRescan;
    var mismatched := MismatchedCohorts(AfterRescan(tables, spine));
    forall c ensures c in mismatched <==> exists u :: u in MissingBit0(spine) && spine[u].cohort == c {
      CohortMismatchIff(tables, spine, c);
    }
    if u :| u in MissingBit0(spine) {
      assert spine[u].cohort in mismatched;
    } else {
      assert forall c :: c !in mismatched;
    }
  }

  /** Of any table: a cohort with a size row is counted as long as its day-0 cell, or 0 for want of one, is larger or smaller. */
  lemma {:induction false} MismatchedIff(tables: map<Counter, int>, c: int)
    ensures c in MismatchedCohorts(tables) <==>
      && CohortSize(c) in tables
      && var day0 := if RetentionCell(c, 0) in tables then tables[RetentionCell(c, 0)] else 0;
         tables[CohortSize(c)] < day0 || tables[CohortSize(c)] > day0
  {
    if CohortSize(c) in tables {
      assert CohortSize(c).cohort == c;
    }
  }

  /** Of any spine: a user is counted whose bitmap is empty or starts with a clear bit. */
  lemma MissingIff(spine: map<string, Row>, u: string)
    ensures u in MissingBit0(spine) <==> u in spine && (spine[u].bitmap == [] || !spine[u].bitmap[0])
  {
  }

  /** It reports a cohort exactly when one of the cohort's rows lacks bit 0. */
  lemma {:induction false} CohortMismatchIff(tables: map<Counter, int>, spine: map<string, Row>, c: int)
    requires Lags(tables, spine)
    ensures c in MismatchedCohorts(AfterRescan(tables, spine))
       <==> exists u :: u in MissingBit0(spine) && spine[u].cohort == c
  {
    var after := AfterRescan(tables, spine);
    RescanIsExact(tables, spine, CohortSize(c));
    RescanIsExact(tables, spine, RetentionCell(c, 0));
    CellsWithinCohort(spine, c, 0);
    hide AfterRescan, Truth;
    if u :| u in MissingBit0(spine) && spine[u].cohort == c {
      RowCounted(tables, spine, u);
    }
  }

  lemma RowCounted(tables: map<Counter, int>, spine: map<string, Row>, u: string)
    requires u in spine
    ensures CohortSize(spine[u].cohort) in AfterRescan(tables, spine)
  {
    assert CohortSize(spine[u].cohort) in CountersOf(spine);
  }
}
