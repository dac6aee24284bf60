/**
 * The retention truth: one spine row per user, holding the cohort day (day of first_seen)
 * and a bitmap of active days counted from it. Projections are counters over it.
 */
module Spine {
  datatype Row = Row(cohort: int, bitmap: seq<bool>)

  /** One COHORT row or one RETENTION_CELL row. */
  datatype Counter = CohortSize(cohort: int) | RetentionCell(cohort: int, offset: nat)

  predicate Counts(row: Row, k: Counter) {
    match k
    case CohortSize(c) => row.cohort == c
    case RetentionCell(c, offset) => row.cohort == c && offset < |row.bitmap| && row.bitmap[offset]
  }

  function Witnesses(spine: map<string, Row>, k: Counter): set<string> {
    set u | u in spine && Counts(spine[u], k)
  }

  /** What the projection of `k` should be: a cardinality over the spine. */
  function Truth(spine: map<string, Row>, k: Counter): nat {
    |Witnesses(spine, k)|
  }

  function Value(table: map<Counter, int>, k: Counter): int {
    if k in table then table[k] else 0
  }

  /** The day whose hash holds the counter: the activity day, not the cohort day. */
  function ActivityDay(k: Counter): int {
    match k
    case CohortSize(c) => c
    case RetentionCell(c, offset) => c + offset
  }

  // ---- Spine updates ---------------------------------------------------------

  /** Step 7a: insert if absent, with an all-zero bitmap of the configured span. */
  function SeedFirstSeen(spine: map<string, Row>, user: string, cohort: int, span: nat): map<string, Row> {
    if user in spine then spine else spine[user := Row(cohort, seq(span, _ => false))]
  }

  /** Step 7b': set one bit that is still 0. */
  function SetActivityBit(spine: map<string, Row>, user: string, offset: nat): map<string, Row>
    requires user in spine && offset < |spine[user].bitmap|
  {
    var row := spine[user];
    spine[user := row.(bitmap := row.bitmap[offset := true])]
  }

  lemma {:induction false} WitnessMember(spine: map<string, Row>, k: Counter, user: string)
    ensures user in Witnesses(spine, k) <==> user in spine && Counts(spine[user], k)
  {
    hide Counts;
  }

  lemma {:induction false} FreshRowCounts(cohort: int, span: nat, k: Counter)
    ensures Counts(Row(cohort, seq(span, _ => false)), k) <==> k == CohortSize(cohort)
  {
  }

  /** Creating a row raises exactly its own cohort, by one. */
  lemma {:induction false} SeedRaisesOneCohort(spine: map<string, Row>, user: string, cohort: int, span: nat,
                                               k: Counter)
    ensures Truth(SeedFirstSeen(spine, user, cohort, span), k)
         == Truth(spine, k) + (if user !in spine && k == CohortSize(cohort) then 1 else 0)
  {
    hide Counts, Witnesses;
    var spine' := SeedFirstSeen(spine, user, cohort, span);
    var before, after := Witnesses(spine, k), Witnesses(spine', k);
    FreshRowCounts(cohort, span, k);
    forall u ensures u in after <==> u in before || (u == user && user !in spine && k == CohortSize(cohort)) {
      WitnessMember(spine, k, u);
      WitnessMember(spine', k, u);
    }
    WitnessMember(spine, k, user);
    if user !in spine && k == CohortSize(cohort) {
      assert after == before + {user};
    } else {
      assert after == before;
    }
  }

  /** A 0-to-1 transition raises exactly its own cell, by one. */
  lemma {:induction false} BitRaisesOneCell(spine: map<string, Row>, user: string, offset: nat, k: Counter)
    requires user in spine && offset < |spine[user].bitmap|
    ensures Truth(SetActivityBit(spine, user, offset), k)
         == Truth(spine, k)
            + (if !spine[user].bitmap[offset] && k == RetentionCell(spine[user].cohort, offset) then 1 else 0)
  {
    var before, after := Witnesses(spine, k), Witnesses(SetActivityBit(spine, user, offset), k);
    if !spine[user].bitmap[offset] && k == RetentionCell(spine[user].cohort, offset) {
      assert after == before + {user};
    } else {
      assert after == before;
    }
  }

  // ---- Laws of the truth -----------------------------------------------------

  predicate Bit0Set(row: Row) {
    |row.bitmap| > 0 && row.bitmap[0]
  }

  lemma {:induction false} SubsetCardinality(a: set<string>, b: set<string>)
    requires a <= b
    ensures |a| <= |b|
    ensures |a| == |b| ==> a == b
  {
    assert b == a + (b - a);
  }

  /** No cell exceeds its cohort; day 0 equals it exactly when every row of the cohort has bit 0. */
  lemma {:induction false} CellsWithinCohort(spine: map<string, Row>, c: int, offset: nat)
    ensures Truth(spine, RetentionCell(c, offset)) <= Truth(spine, CohortSize(c))
    ensures Truth(spine, RetentionCell(c, 0)) == Truth(spine, CohortSize(c))
       <==> forall u :: u in spine && spine[u].cohort == c ==> Bit0Set(spine[u])
  {
    var cohort := Witnesses(spine, CohortSize(c));
    SubsetCardinality(Witnesses(spine, RetentionCell(c, offset)), cohort);
    var day0 := Witnesses(spine, RetentionCell(c, 0));
    SubsetCardinality(day0, cohort);
    if |day0| == |cohort| {
      forall u | u in spine && spine[u].cohort == c ensures Bit0Set(spine[u]) {
        assert u in cohort;
        assert u in day0;
      }
    }
    if forall u :: u in spine && spine[u].cohort == c ==> Bit0Set(spine[u]) {
      assert day0 == cohort;
    }
  }
}
