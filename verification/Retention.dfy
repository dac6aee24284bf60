/**
 * The retention protocol. Every session event is a worker that runs the durable step 7 and
 * then, one Redis command at a time, the hot step 8; the flusher, Redis losses, abandoned
 * events and the spine rescan interleave with the workers in any order.
 *
 * The theorem of the module is that projections lag the spine and never lead it.
 */
module Retention {
  import opened Basics
  import opened Spine
  import SpineRescan
  import Sums

  // ---- State -----------------------------------------------------------------

  /** A field of the hash `ret:{day}`. */
  datatype Field = Size | Cell(cohort: int, offset: nat)

  datatype Bucket = Bucket(fields: map<Field, int>, seeded: bool)

  /** Where a worker stands on its next counter. */
  datatype Phase =
    | BitPending                         // step 7a done, step 7b' not yet
    | Start                              // next: read the durable floor
    | FloorRead(floor: map<Field, int>)  // next: is the bucket seeded?
    | MustSeed(floor: map<Field, int>)   // next: HSETNX the floor, then the marker
    | Ready                              // next: HINCRBY

  /** One session event in flight; `todo` are the increments it still owes. */
  datatype Event = Event(user: string, offset: int, phase: Phase, todo: seq<Counter>)

  datatype State = State(
    spine: map<string, Row>,
    durable: map<Counter, int>,
    hot: map<int, Bucket>,
    workers: map<int, Event>,
    flushing: set<(Counter, int)>,    // values a flusher has read and may still write
    scans: set<map<Counter, int>>)    // projections a rescan has computed and may still write

  const INITIAL := State(map[], map[], map[], map[], {}, {})

  datatype Action =
    | Begin(worker: int, user: string, startDay: int, span: nat)
    | SetBit(worker: int)
    | ReadFloor(worker: int)
    | CheckSeeded(worker: int)
    | SeedBucket(worker: int)
    | Increment(worker: int)
    | Abandon(worker: int)
    | FlushRead(day: int)
    | FlushWrite(counter: Counter, value: int)
    | RedisLoss
    | RescanRead
    | RescanWrite(counts: map<Counter, int>)

  // ---- Hash layout (bucket-day rule) -----------------------------------------

  function FieldOf(k: Counter): Field {
    match k
    case CohortSize(_) => Size
    case RetentionCell(c, offset) => Cell(c, offset)
  }

  /** How the flush projectors read a field of the hash of `day`. */
  function CounterOf(day: int, f: Field): Counter {
    match f
    case Size => CohortSize(day)
    case Cell(c, offset) => RetentionCell(c, offset)
  }

  /** The durable floor of one day's hash: its cohort's size and the cells active that day. */
  function RetFloor(durable: map<Counter, int>, day: int): map<Field, int> {
    map k | k in durable && ActivityDay(k) == day :: FieldOf(k) := durable[k]
  }

  function BucketOf(hot: map<int, Bucket>, day: int): Bucket {
    if day in hot then hot[day] else Bucket(map[], false)
  }

  function HotValue(hot: map<int, Bucket>, k: Counter): int {
    var b := BucketOf(hot, ActivityDay(k));
    if FieldOf(k) in b.fields then b.fields[FieldOf(k)] else 0
  }

  // ---- Steps -----------------------------------------------------------------

  /** Step 7a: seed the spine row, then work out the offset against the row's own cohort. */
  function AfterBegin(s: State, worker: int, user: string, startDay: int, span: nat): State {
    var spine := SeedFirstSeen(s.spine, user, startDay, span);
    var cohort := spine[user].cohort;
    var offset := startDay - cohort;
    var todo := if user in s.spine then [] else [CohortSize(cohort)];
    var tracked := 0 <= offset < span;
    s.(spine := spine,
       workers := s.workers[worker := Event(user, offset, if tracked then BitPending else Start, todo)])
  }

  /** Step 7b': the conditional bit update; an offset beyond an old row's bitmap fails the event. */
  function AfterSetBit(s: State, worker: int): State
    requires worker in s.workers
  {
    var e := s.workers[worker];
    if e.user !in s.spine || !(0 <= e.offset < |s.spine[e.user].bitmap|) then
      s.(workers := s.workers - {worker})
    else if s.spine[e.user].bitmap[e.offset] then
      s.(workers := s.workers[worker := e.(phase := Start)])
    else
      s.(spine := SetActivityBit(s.spine, e.user, e.offset),
         workers := s.workers[worker :=
           e.(phase := Start, todo := e.todo + [RetentionCell(s.spine[e.user].cohort, e.offset)])])
  }

  /** HSETNX every floor field (a present field wins), then the marker, in one MULTI. */
  function Seeded(b: Bucket, floor: map<Field, int>): Bucket {
    Bucket(floor + b.fields, true)
  }

  function Incremented(b: Bucket, f: Field): Bucket {
    b.(fields := b.fields[f := (if f in b.fields then b.fields[f] else 0) + 1])
  }

  function WithPhase(s: State, worker: int, phase: Phase): State
    requires worker in s.workers
  {
    s.(workers := s.workers[worker := s.workers[worker].(phase := phase)])
  }

  function AfterIncrement(s: State, worker: int): State
    requires worker in s.workers && s.workers[worker].todo != []
  {
    var e := s.workers[worker];
    var k := e.todo[0];
    var day := ActivityDay(k);
    s.(hot := s.hot[day := Incremented(BucketOf(s.hot, day), FieldOf(k))],
       workers := s.workers[worker := e.(phase := Start, todo := e.todo[1..])])
  }

  /** The flusher reads a whole seeded hash; an unseeded one is skipped. */
  function FlushRows(s: State, day: int): set<(Counter, int)> {
    var b := BucketOf(s.hot, day);
    if b.seeded then set f | f in b.fields :: (CounterOf(day, f), b.fields[f]) else {}
  }

  predicate Owes(s: State, worker: int, k: Counter) {
    worker in s.workers && k in s.workers[worker].todo
  }

  /** No event in flight still has a transition to count. */
  predicate NothingOwed(s: State) {
    forall w :: w in s.workers ==> s.workers[w].todo == []
  }

  /** A rescan queries the spine now and upserts what it counted in a later transaction. */
  function Scanned(s: State): State {
    s.(scans := s.scans + {SpineRescan.Projection(s.spine)})
  }

  function AfterRescanWrite(s: State, counts: map<Counter, int>): State {
    s.(durable := SpineRescan.Upserted(s.durable, counts))
  }

  /** One step; an action that is not enabled leaves the state alone. */
  function Step(s: State, a: Action): State {
    match a
    case Begin(w, user, startDay, span) =>
      if w in s.workers then s else AfterBegin(s, w, user, startDay, span)
    case SetBit(w) =>
      if w in s.workers && s.workers[w].phase.BitPending? then AfterSetBit(s, w) else s
    case ReadFloor(w) =>
      if w in s.workers && s.workers[w].phase.Start? && s.workers[w].todo != []
      then WithPhase(s, w, FloorRead(RetFloor(s.durable, ActivityDay(s.workers[w].todo[0]))))
      else s
    case CheckSeeded(w) =>
      if w in s.workers && s.workers[w].phase.FloorRead? && s.workers[w].todo != []
      then WithPhase(s, w, if BucketOf(s.hot, ActivityDay(s.workers[w].todo[0])).seeded then Ready
                           else MustSeed(s.workers[w].phase.floor))
      else s
    case SeedBucket(w) =>
      if w in s.workers && s.workers[w].phase.MustSeed? && s.workers[w].todo != []
      then
        var day := ActivityDay(s.workers[w].todo[0]);
        WithPhase(s, w, Ready).(hot := s.hot[day := Seeded(BucketOf(s.hot, day), s.workers[w].phase.floor)])
      else s
    case Increment(w) =>
      if w in s.workers && s.workers[w].phase.Ready? && s.workers[w].todo != []
      then AfterIncrement(s, w) else s
    case Abandon(w) => s.(workers := s.workers - {w})
    case FlushRead(day) => s.(flushing := s.flushing + FlushRows(s, day))
    case FlushWrite(k, v) =>
      if (k, v) in s.flushing then s.(durable := s.durable[k := SpineRescan.Greatest(s.durable, k, v)]) else s
    case RedisLoss => s.(hot := map[])
    case RescanRead => if NothingOwed(s) then Scanned(s) else s
    case RescanWrite(counts) => if counts in s.scans then AfterRescanWrite(s, counts) else s
  }

  function Run(s: State, actions: seq<Action>): State
    decreases |actions|
  {
    if actions == [] then s else Run(Step(s, actions[0]), actions[1..])
  }

  // ---- Step 8 without interference -------------------------------------------

  function HotSteps(w: int): seq<Action> {
    [ReadFloor(w), CheckSeeded(w), SeedBucket(w), Increment(w)]
  }

  /** Seed on a miss, then increment: one counter of the hot hook. */
  function Bump(hot: map<int, Bucket>, durable: map<Counter, int>, k: Counter): map<int, Bucket> {
    var day := ActivityDay(k);
    var b := BucketOf(hot, day);
    hot[day := Incremented(if b.seeded then b else Seeded(b, RetFloor(durable, day)), FieldOf(k))]
  }

  /** Run back to back, the four commands are one bump of the counter the event owes next. */
  lemma {:induction false} HotStepsAreOneBump(s: State, w: int)
    requires w in s.workers && s.workers[w].phase.Start? && s.workers[w].todo != []
    ensures var e := s.workers[w];
      Run(s, HotSteps(w)) == s.(hot := Bump(s.hot, s.durable, e.todo[0]),
                                workers := s.workers[w := e.(todo := e.todo[1..])])
  {
    hide RetFloor, Incremented, Seeded, AfterBegin, AfterSetBit, FlushRows, Scanned, AfterRescanWrite, FieldOf,
         ActivityDay, Run;
    var e := s.workers[w];
    var k := e.todo[0];
    var day := ActivityDay(k);
    var floor := RetFloor(s.durable, day);
    var b := BucketOf(s.hot, day);
    RunFour(s, ReadFloor(w), CheckSeeded(w), SeedBucket(w), Increment(w));
    var s1 := Step(s, ReadFloor(w));
    assert s1.workers[w] == e.(phase := FloorRead(floor)) && s1.workers == s.workers[w := e.(phase := FloorRead(floor))];
    var s2 := Step(s1, CheckSeeded(w));
    assert s2.workers == s.workers[w := e.(phase := if b.seeded then Ready else MustSeed(floor))];
    var s3 := Step(s2, SeedBucket(w));
    assert s3.workers == s.workers[w := e.(phase := Ready)];
    assert BucketOf(s3.hot, day) == if b.seeded then b else Seeded(b, floor);
    var s4 := Step(s3, Increment(w));
    assert s4.workers == s.workers[w := e.(todo := e.todo[1..])];
    assert s4.hot == Bump(s.hot, s.durable, k);
  }

  // ---- The invariant ---------------------------------------------------------

  function OwingAmong(workers: map<int, Event>, k: Counter): set<int> {
    set w | w in workers && k in workers[w].todo
  }

  function Owing(s: State, k: Counter): set<int> {
    OwingAmong(s.workers, k)
  }

  /** What every stored value may reach: the truth minus the transitions still to be counted. */
  function Bound(s: State, k: Counter): int {
    Truth(s.spine, k) - |Owing(s, k)|
  }

  ghost predicate FloorWithin(s: State, day: int, floor: map<Field, int>) {
    forall f :: f in floor ==> 0 <= floor[f] <= Bound(s, CounterOf(day, f))
  }

  ghost predicate EventWithin(s: State, e: Event) {
    && (forall i, j :: 0 <= i < j < |e.todo| ==> e.todo[i] != e.todo[j])
    && (e.phase.BitPending? ==> forall k :: k in e.todo ==> k.CohortSize?)
    && (e.phase.FloorRead? || e.phase.MustSeed? ==>
          e.todo != [] && FloorWithin(s, ActivityDay(e.todo[0]), e.phase.floor))
  }

  ghost predicate CountsWithin(s: State, counts: map<Counter, int>) {
    forall k :: k in counts ==> 0 <= counts[k] <= Bound(s, k)
  }

  ghost predicate Inv(s: State) {
    && (forall k :: 0 <= Bound(s, k))
    && (forall k :: k in s.durable ==> 0 <= s.durable[k] <= Bound(s, k))
    && (forall day :: day in s.hot ==> FloorWithin(s, day, s.hot[day].fields))
    && (forall k, v :: (k, v) in s.flushing ==> 0 <= v <= Bound(s, k))
    && (forall counts :: counts in s.scans ==> CountsWithin(s, counts))
    && (forall w :: w in s.workers ==> EventWithin(s, s.workers[w]))
  }

  /** `t` allows every counter at least as much as `s` did. */
  ghost predicate Raises(s: State, t: State) {
    forall k :: Bound(s, k) <= Bound(t, k)
  }

  /** Everything stored in `s` fits `t`, if `t` only adds room. */
  lemma {:induction false} StoredStillFits(s: State, t: State)
    requires Inv(s) && Raises(s, t)
    ensures forall k :: 0 <= Bound(t, k)
    ensures forall k :: k in s.durable ==> 0 <= s.durable[k] <= Bound(t, k)
    ensures forall day :: day in s.hot ==> FloorWithin(t, day, s.hot[day].fields)
    ensures forall k, v :: (k, v) in s.flushing ==> 0 <= v <= Bound(t, k)
    ensures forall counts :: counts in s.scans ==> CountsWithin(t, counts)
    ensures forall w :: w in s.workers ==> EventWithin(t, s.workers[w])
  {
    hide Bound;
    forall counts | counts in s.scans ensures CountsWithin(t, counts) {
      assert CountsWithin(s, counts);
      forall k | k in counts ensures 0 <= counts[k] <= Bound(t, k) { assert Bound(s, k) <= Bound(t, k); }
    }
    forall k ensures 0 <= Bound(t, k) { assert Bound(s, k) <= Bound(t, k); }
    forall k | k in s.durable ensures 0 <= s.durable[k] <= Bound(t, k) { assert Bound(s, k) <= Bound(t, k); }
    forall day | day in s.hot ensures FloorWithin(t, day, s.hot[day].fields) {
      FloorStillFits(s, t, day, s.hot[day].fields);
    }
    forall w | w in s.workers ensures EventWithin(t, s.workers[w]) {
      var e := s.workers[w];
      assert EventWithin(s, e);
      if e.phase.FloorRead? || e.phase.MustSeed? {
        FloorStillFits(s, t, ActivityDay(e.todo[0]), e.phase.floor);
      }
    }
  }

  lemma {:induction false} FloorStillFits(s: State, t: State, day: int, floor: map<Field, int>)
    requires FloorWithin(s, day, floor) && Raises(s, t)
    ensures FloorWithin(t, day, floor)
  {
    hide Bound;
    forall f | f in floor ensures 0 <= floor[f] <= Bound(t, CounterOf(day, f)) {
      assert Bound(s, CounterOf(day, f)) <= Bound(t, CounterOf(day, f));
    }
  }

  // ---- How each step moves the bound -----------------------------------------

  /** One worker's debt changes by at most the listed counter; nobody else's changes. */
  lemma {:induction false} OwingChange(s: State, t: State, w: int, k: Counter)
    requires s.workers - {w} == t.workers - {w}
    ensures |Owing(t, k)| - |Owing(s, k)| == (if Owes(t, w, k) then 1 else 0) - (if Owes(s, w, k) then 1 else 0)
  {
    OwingOfOne(s.workers, w, k);
    OwingOfOne(t.workers, w, k);
  }

  lemma {:induction false} NobodyOwing(s: State, k: Counter)
    requires NothingOwed(s)
    ensures Owing(s, k) == {}
  {
    forall w | w in s.workers ensures k !in s.workers[w].todo {
      assert s.workers[w].todo == [];
    }
  }

  lemma {:induction false} OwingOfOne(workers: map<int, Event>, w: int, k: Counter)
    ensures |OwingAmong(workers, k)|
         == |OwingAmong(workers - {w}, k)| + (if w in workers && k in workers[w].todo then 1 else 0)
  {
    var rest := OwingAmong(workers - {w}, k);
    if w in workers && k in workers[w].todo {
      assert OwingAmong(workers, k) == rest + {w};
    } else {
      assert OwingAmong(workers, k) == rest;
    }
  }

  lemma {:induction false} BeginKeepsBound(s: State, w: int, user: string, startDay: int, span: nat)
    requires w !in s.workers
    ensures forall k :: Bound(AfterBegin(s, w, user, startDay, span), k) == Bound(s, k)
  {
    var t := AfterBegin(s, w, user, startDay, span);
    forall k ensures Bound(t, k) == Bound(s, k) {
      SeedRaisesOneCohort(s.spine, user, startDay, span, k);
      assert s.workers - {w} == t.workers - {w};
      OwingChange(s, t, w, k);
    }
  }

  /** The bit is already beyond this row's bitmap (rows keep the span they were created with). */
  predicate BitFails(s: State, e: Event) {
    e.user !in s.spine || !(0 <= e.offset < |s.spine[e.user].bitmap|)
  }

  /** A transition is owed the moment it is made; a failing update drops what the event owed. */
  lemma {:induction false} SetBitBound(s: State, w: int, k: Counter)
    requires w in s.workers && s.workers[w].phase.BitPending? && EventWithin(s, s.workers[w])
    ensures Bound(AfterSetBit(s, w), k)
         == Bound(s, k) + (if BitFails(s, s.workers[w]) && k in s.workers[w].todo then 1 else 0)
  {
    var t := AfterSetBit(s, w);
    var e := s.workers[w];
    assert s.workers - {w} == t.workers - {w};
    OwingChange(s, t, w, k);
    if !BitFails(s, e) {
      BitRaisesOneCell(s.spine, e.user, e.offset, k);
    }
  }

  lemma {:induction false} IncrementRaises(s: State, w: int)
    requires w in s.workers && s.workers[w].todo != [] && EventWithin(s, s.workers[w])
    ensures var k0 := s.workers[w].todo[0];
      forall k :: Bound(AfterIncrement(s, w), k) == Bound(s, k) + (if k == k0 then 1 else 0)
  {
    var t := AfterIncrement(s, w);
    var todo := s.workers[w].todo;
    assert s.workers - {w} == t.workers - {w};
    assert todo == [todo[0]] + todo[1..];
    forall j | 0 <= j < |todo[1..]| ensures todo[1..][j] != todo[0] {
      assert todo[1..][j] == todo[j + 1];
    }
    forall k ensures Bound(t, k) == Bound(s, k) + (if k == todo[0] then 1 else 0) {
      OwingChange(s, t, w, k);
    }
  }

  /** A worker that keeps its debts, or disappears, only adds room. */
  lemma {:induction false} WorkerStepRaises(s: State, t: State, w: int)
    requires t.spine == s.spine && s.workers - {w} == t.workers - {w}
    requires forall k :: Owes(t, w, k) ==> Owes(s, w, k)
    ensures Raises(s, t)
  {
    forall k ensures Bound(s, k) <= Bound(t, k) {
      OwingChange(s, t, w, k);
    }
  }

  lemma {:induction false} SameBound(s: State, t: State)
    requires t.spine == s.spine && t.workers == s.workers
    ensures Raises(s, t) && Raises(t, s)
  {
    forall k ensures Owing(s, k) == Owing(t, k) {
    }
  }

  // ---- Each action keeps the invariant ---------------------------------------

  lemma {:induction false} BeginKeeps(s: State, w: int, user: string, startDay: int, span: nat)
    requires Inv(s) && w !in s.workers
    ensures Inv(AfterBegin(s, w, user, startDay, span))
  {
    hide Bound;
    var t := AfterBegin(s, w, user, startDay, span);
    BeginKeepsBound(s, w, user, startDay, span);
    StoredStillFits(s, t);
    assert EventWithin(t, t.workers[w]);
  }

  lemma {:induction false} SetBitKeeps(s: State, w: int)
    requires Inv(s) && w in s.workers && s.workers[w].phase.BitPending?
    ensures Inv(AfterSetBit(s, w))
  {
    hide Bound;
    var t := AfterSetBit(s, w);
    forall k ensures Bound(s, k) <= Bound(t, k) { SetBitBound(s, w, k); }
    StoredStillFits(s, t);
    var e := s.workers[w];
    assert EventWithin(s, e);
    assert forall i :: 0 <= i < |e.todo| ==> e.todo[i] in e.todo && e.todo[i].CohortSize?;
    if w in t.workers {
      assert EventWithin(t, t.workers[w]);
    }
  }

  /** The floor of a day holds durable values, so it fits wherever they do. */
  lemma {:induction false} FloorFits(s: State, day: int)
    requires forall k :: k in s.durable ==> 0 <= s.durable[k] <= Bound(s, k)
    ensures FloorWithin(s, day, RetFloor(s.durable, day))
  {
    hide Bound;
    var floor := RetFloor(s.durable, day);
    forall f | f in floor ensures 0 <= floor[f] <= Bound(s, CounterOf(day, f)) {
      var k :| k in s.durable && ActivityDay(k) == day && FieldOf(k) == f && floor[f] == s.durable[k];
      assert CounterOf(day, f) == k;
    }
  }

  lemma {:induction false} PhaseKeeps(s: State, w: int, phase: Phase)
    requires Inv(s) && w in s.workers && s.workers[w].todo != [] && !phase.BitPending?
    requires phase.FloorRead? || phase.MustSeed? ==>
      FloorWithin(s, ActivityDay(s.workers[w].todo[0]), phase.floor)
    ensures Inv(WithPhase(s, w, phase)) && Raises(s, WithPhase(s, w, phase))
  {
    hide Bound;
    var t := WithPhase(s, w, phase);
    assert s.workers - {w} == t.workers - {w};
    WorkerStepRaises(s, t, w);
    StoredStillFits(s, t);
    assert EventWithin(s, s.workers[w]);
    if phase.FloorRead? || phase.MustSeed? {
      FloorStillFits(s, t, ActivityDay(s.workers[w].todo[0]), phase.floor);
    }
    assert EventWithin(t, t.workers[w]);
  }

  lemma {:induction false} SeedKeeps(s: State, day: int, floor: map<Field, int>)
    requires Inv(s) && FloorWithin(s, day, floor)
    ensures Inv(s.(hot := s.hot[day := Seeded(BucketOf(s.hot, day), floor)]))
  {
    hide Bound;
    var t := s.(hot := s.hot[day := Seeded(BucketOf(s.hot, day), floor)]);
    SameBound(s, t);
    StoredStillFits(s, t);
    FloorStillFits(s, t, day, floor);
    FloorStillFits(s, t, day, BucketOf(s.hot, day).fields);
  }

  lemma {:induction false} IncrementKeeps(s: State, w: int)
    requires Inv(s) && w in s.workers && s.workers[w].todo != []
    ensures Inv(AfterIncrement(s, w))
  {
    hide Bound;
    var t := AfterIncrement(s, w);
    var e := s.workers[w];
    var k := e.todo[0];
    var day := ActivityDay(k);
    IncrementRaises(s, w);
    StoredStillFits(s, t);
    var b := BucketOf(s.hot, day);
    FloorStillFits(s, t, day, b.fields);
    assert CounterOf(day, FieldOf(k)) == k;
    assert FloorWithin(s, day, b.fields);
    assert Bound(t, k) == Bound(s, k) + 1 && 0 <= Bound(s, k);
    assert FloorWithin(t, day, t.hot[day].fields);
    assert EventWithin(s, e);
    assert forall i :: 0 <= i < |e.todo[1..]| ==> e.todo[1..][i] == e.todo[i + 1];
    assert EventWithin(t, t.workers[w]);
  }

  lemma {:induction false} AbandonKeeps(s: State, w: int)
    requires Inv(s)
    ensures Inv(s.(workers := s.workers - {w}))
  {
    hide Bound;
    var t := s.(workers := s.workers - {w});
    assert s.workers - {w} == t.workers - {w};
    WorkerStepRaises(s, t, w);
    StoredStillFits(s, t);
  }

  lemma {:induction false} FlushKeeps(s: State, a: Action)
    requires Inv(s) && (a.FlushRead? || a.FlushWrite? || a.RedisLoss?)
    ensures Inv(Step(s, a))
  {
    hide Bound;
    var t := Step(s, a);
    SameBound(s, t);
    StoredStillFits(s, t);
    if a.FlushRead? && a.day in s.hot {
      assert FloorWithin(t, a.day, s.hot[a.day].fields);
    }
  }

  lemma {:induction false} RescanReadKeeps(s: State)
    requires Inv(s) && NothingOwed(s)
    ensures Inv(Scanned(s))
  {
    var t := Scanned(s);
    SameBound(s, t);
    StoredStillFits(s, t);
    var counts := SpineRescan.Projection(s.spine);
    forall k | k in counts ensures 0 <= counts[k] <= Bound(t, k) {
      NobodyOwing(t, k);
    }
    assert CountsWithin(t, counts);
  }

  lemma {:induction false} RescanWriteKeeps(s: State, counts: map<Counter, int>)
    requires Inv(s) && counts in s.scans
    ensures Inv(AfterRescanWrite(s, counts))
  {
    hide Bound;
    var t := AfterRescanWrite(s, counts);
    SameBound(s, t);
    StoredStillFits(s, t);
    assert CountsWithin(t, counts);
  }

  lemma {:induction false} StepKeeps(s: State, a: Action)
    requires Inv(s)
    ensures Inv(Step(s, a))
  {
    hide Bound, AfterBegin, AfterSetBit, AfterIncrement, Scanned, AfterRescanWrite, EventWithin;
    if Step(s, a) != s {
      match a
      case Begin(w, user, startDay, span) => BeginKeeps(s, w, user, startDay, span);
      case SetBit(w) => SetBitKeeps(s, w);
      case ReadFloor(w) =>
        var day := ActivityDay(s.workers[w].todo[0]);
        FloorFits(s, day);
        PhaseKeeps(s, w, FloorRead(RetFloor(s.durable, day)));
      case CheckSeeded(w) =>
        WorkerFloor(s, w);
        PhaseKeeps(s, w, if BucketOf(s.hot, ActivityDay(s.workers[w].todo[0])).seeded then Ready
                         else MustSeed(s.workers[w].phase.floor));
      case SeedBucket(w) =>
        WorkerFloor(s, w);
        var day := ActivityDay(s.workers[w].todo[0]);
        PhaseKeeps(s, w, Ready);
        FloorStillFits(s, WithPhase(s, w, Ready), day, s.workers[w].phase.floor);
        SeedKeeps(WithPhase(s, w, Ready), day, s.workers[w].phase.floor);
      case Increment(w) => IncrementKeeps(s, w);
      case Abandon(w) => AbandonKeeps(s, w);
      case RescanRead => RescanReadKeeps(s);
      case RescanWrite(counts) => RescanWriteKeeps(s, counts);
      case _ => FlushKeeps(s, a);
    }
  }

  lemma {:induction false} WorkerFloor(s: State, w: int)
    requires Inv(s) && w in s.workers && (s.workers[w].phase.FloorRead? || s.workers[w].phase.MustSeed?)
    ensures s.workers[w].todo != []
    ensures FloorWithin(s, ActivityDay(s.workers[w].todo[0]), s.workers[w].phase.floor)
  {
    assert EventWithin(s, s.workers[w]);
  }

  lemma {:induction false} InitialInv()
    ensures Inv(INITIAL)
  {
    forall k ensures Bound(INITIAL, k) == 0 {
      assert Witnesses(INITIAL.spine, k) == {};
      assert Owing(INITIAL, k) == {};
    }
  }

  lemma {:induction false} RunKeeps(s: State, actions: seq<Action>)
    requires Inv(s)
    ensures Inv(Run(s, actions))
    decreases |actions|
  {
    if actions != [] {
      StepKeeps(s, actions[0]);
      RunKeeps(Step(s, actions[0]), actions[1..]);
    }
  }

  // ---- Main results ----------------------------------------------------------

  /** Over every run, no durable and no hot value exceeds the spine's own count. */
  lemma {:induction false} ProjectionsNeverLead(actions: seq<Action>, k: Counter)
    ensures var s := Run(INITIAL, actions);
      Value(s.durable, k) <= Truth(s.spine, k) && HotValue(s.hot, k) <= Truth(s.spine, k)
  {
    InitialInv();
    RunKeeps(INITIAL, actions);
    NeverLeads(Run(INITIAL, actions), k);
  }

  /** A rescan read in `s` and written after whatever ran in between. */
  function LateWrite(s: State, between: seq<Action>): State {
    AfterRescanWrite(Run(Scanned(s), between), SpineRescan.Projection(s.spine))
  }

  lemma {:induction false} LateWriteWithin(s: State, between: seq<Action>, k: Counter)
    requires Inv(s) && NothingOwed(s)
    ensures SpineRescan.Projection(s.spine) in Run(Scanned(s), between).scans
    ensures Truth(s.spine, k) <= Value(LateWrite(s, between).durable, k) <= Truth(LateWrite(s, between).spine, k)
  {
    hide Run, Inv, NothingOwed, AfterRescanWrite, SpineRescan.Projection, Truth, Value;
    var counts := SpineRescan.Projection(s.spine);
    RescanReadKeeps(s);
    RunKeeps(Scanned(s), between);
    ScansStay(Scanned(s), between, counts);
    ProjectionHolds(s.spine, k);
    WrittenWithin(Run(Scanned(s), between), counts, k);
  }

  lemma ScanSteps(s: State, t: State, counts: map<Counter, int>)
    ensures NothingOwed(s) ==> Step(s, RescanRead) == Scanned(s)
    ensures counts in t.scans ==> Step(t, RescanWrite(counts)) == AfterRescanWrite(t, counts)
  {
    hide NothingOwed;
  }

  /**
   * A rescan read with nothing owed, however late it is written and whatever runs in
   * between, brings every table row up to the count at the read and never past the count
   * at the write; written at once it is exact.
   */
  lemma {:induction false} RescanRepairsAnyRun(actions: seq<Action>, between: seq<Action>, k: Counter)
    requires NothingOwed(Run(INITIAL, actions))
    ensures var s := Run(INITIAL, actions);
      var t := Run(Step(s, RescanRead), between);
      var written := Step(t, RescanWrite(SpineRescan.Projection(s.spine)));
      && Truth(s.spine, k) <= Value(written.durable, k) <= Truth(written.spine, k)
      && (between == [] ==> Value(written.durable, k) == Truth(s.spine, k))
  {
    hide Inv, NothingOwed, AfterRescanWrite, SpineRescan.Projection, Truth, Value, Step;
    var s := Run(INITIAL, actions);
    InitialInv();
    RunKeeps(INITIAL, actions);
    LateWriteWithin(s, between, k);
    ScanSteps(s, Run(Scanned(s), between), SpineRescan.Projection(s.spine));
    RunNothing(Scanned(s));
    hide Run;
    assert LateWrite(s, []).spine == s.spine by { WriteKeepsSpine(Scanned(s), SpineRescan.Projection(s.spine)); }
  }

  lemma WriteKeepsSpine(s: State, counts: map<Counter, int>)
    ensures AfterRescanWrite(s, counts).spine == s.spine
  {
  }

  lemma ProjectionHolds(spine: map<string, Row>, k: Counter)
    ensures var counts := SpineRescan.Projection(spine);
      if k in counts then counts[k] == Truth(spine, k) else Truth(spine, k) == 0
  {
    SpineRescan.CountedIffPositive(spine, k);
  }

  lemma RunNothing(s: State)
    ensures Run(s, []) == s
  {
  }

  lemma {:induction false} WrittenWithin(t: State, counts: map<Counter, int>, k: Counter)
    requires Inv(t) && counts in t.scans
    ensures Value(AfterRescanWrite(t, counts).durable, k) <= Truth(AfterRescanWrite(t, counts).spine, k)
    ensures k in counts ==> counts[k] <= Value(AfterRescanWrite(t, counts).durable, k)
    ensures 0 <= Value(AfterRescanWrite(t, counts).durable, k)
  {
    RescanWriteKeeps(t, counts);
    var u := AfterRescanWrite(t, counts);
    assert 0 <= Bound(u, k) <= Truth(u.spine, k);
  }

  lemma {:induction false} StepScans(s: State, a: Action)
    ensures s.scans <= Step(s, a).scans
  {
    hide Seeded, FlushRows, Incremented, SeedFirstSeen, Spine.SetActivityBit, RetFloor, BucketOf;
  }

  lemma {:induction false} ScansStay(s: State, actions: seq<Action>, counts: map<Counter, int>)
    requires counts in s.scans
    ensures counts in Run(s, actions).scans
    decreases |actions|
  {
    hide Step;
    if actions != [] {
      StepScans(s, actions[0]);
      ScansStay(Step(s, actions[0]), actions[1..], counts);
    }
  }

  /** A seeding event that reaches step 7b' leaves its row with bit 0 set. */
  lemma {:induction false} SeedingEventSetsBit0(s: State, w: int, user: string, startDay: int, span: nat)
    requires w !in s.workers && user !in s.spine && span > 0
    ensures var t := Step(Step(s, Begin(w, user, startDay, span)), SetBit(w));
      && user in t.spine && Bit0Set(t.spine[user])
      && w in t.workers && t.workers[w].todo == [CohortSize(startDay), RetentionCell(startDay, 0)]
  {
  }

  // ---- Without losses the projection is exact --------------------------------

  predicate Lossless(a: Action) {
    !a.RedisLoss? && !a.Abandon?
  }

  predicate Present(s: State, k: Counter) {
    FieldOf(k) in BucketOf(s.hot, ActivityDay(k)).fields
  }

  ghost predicate FloorPresent(s: State, day: int, floor: map<Field, int>) {
    forall f :: f in floor ==> f in BucketOf(s.hot, day).fields
  }

  ghost predicate CountsPresent(s: State, counts: map<Counter, int>) {
    forall k :: k in counts ==> Present(s, k)
  }

  ghost predicate EventExact(s: State, e: Event) {
    && (e.phase.BitPending? && e.todo != [] ==> !BitFails(s, e))
    && (e.phase.FloorRead? || e.phase.MustSeed? ==>
          e.todo != [] && FloorPresent(s, ActivityDay(e.todo[0]), e.phase.floor))
  }

  /** Every counter is where it should be, and what the tables know the hash knows too. */
  ghost predicate Exact(s: State) {
    && (forall k :: HotValue(s.hot, k) == Bound(s, k))
    && (forall day, f :: day in s.hot && f in s.hot[day].fields ==> ActivityDay(CounterOf(day, f)) == day)
    && (forall k :: k in s.durable ==> Present(s, k))
    && (forall k, v :: (k, v) in s.flushing ==> Present(s, k))
    && (forall counts :: counts in s.scans ==> CountsPresent(s, counts))
    && (forall w :: w in s.workers ==> EventExact(s, s.workers[w]))
  }

  lemma {:induction false} BeginExact(s: State, w: int, user: string, startDay: int, span: nat)
    requires Exact(s) && w !in s.workers
    ensures Exact(AfterBegin(s, w, user, startDay, span))
  {
    hide Bound;
    var t := AfterBegin(s, w, user, startDay, span);
    BeginKeepsBound(s, w, user, startDay, span);
    forall v | v in t.workers ensures EventExact(t, t.workers[v]) {
      if v != w {
        assert EventExact(s, s.workers[v]);
      }
    }
  }

  lemma {:induction false} SetBitExact(s: State, w: int)
    requires Inv(s) && Exact(s) && w in s.workers && s.workers[w].phase.BitPending?
    ensures Exact(AfterSetBit(s, w))
  {
    hide Bound, Inv;
    var t := AfterSetBit(s, w);
    assert EventWithin(s, s.workers[w]) by { StoredStillFits(s, s); }
    assert EventExact(s, s.workers[w]);
    forall k ensures Bound(t, k) == Bound(s, k) {
      SetBitBound(s, w, k);
    }
    forall v | v in t.workers ensures EventExact(t, t.workers[v]) {
      assert EventExact(s, s.workers[v]);
    }
  }

  lemma {:induction false} PhaseExact(s: State, w: int, phase: Phase)
    requires Exact(s) && w in s.workers && s.workers[w].todo != [] && !phase.BitPending?
    requires phase.FloorRead? || phase.MustSeed? ==>
      FloorPresent(s, ActivityDay(s.workers[w].todo[0]), phase.floor)
    ensures Exact(WithPhase(s, w, phase))
  {
    var t := WithPhase(s, w, phase);
    forall k ensures Bound(t, k) == Bound(s, k) {
      assert s.workers - {w} == t.workers - {w};
      OwingChange(s, t, w, k);
    }
    hide Bound;
    forall v | v in t.workers ensures EventExact(t, t.workers[v]) {
      assert EventExact(s, s.workers[v]);
    }
  }

  /** Seeding adds nothing: every floor field is already there, and a present field wins. */
  lemma {:induction false} SeedExact(s: State, day: int, floor: map<Field, int>)
    requires Exact(s) && FloorPresent(s, day, floor)
    ensures Exact(s.(hot := s.hot[day := Seeded(BucketOf(s.hot, day), floor)]))
  {
    var t := s.(hot := s.hot[day := Seeded(BucketOf(s.hot, day), floor)]);
    assert floor + BucketOf(s.hot, day).fields == BucketOf(s.hot, day).fields;
    assert forall d :: BucketOf(t.hot, d).fields == BucketOf(s.hot, d).fields;
    SameBound(s, t);
    hide Bound;
    forall k ensures HotValue(t.hot, k) == Bound(t, k) {
      assert Bound(s, k) <= Bound(t, k) && Bound(t, k) <= Bound(s, k);
    }
    forall v | v in t.workers ensures EventExact(t, t.workers[v]) {
      assert EventExact(s, s.workers[v]);
    }
  }

  lemma {:induction false} IncrementMovesOneField(s: State, w: int, k: Counter)
    requires w in s.workers && s.workers[w].todo != []
    ensures var k0 := s.workers[w].todo[0];
      && HotValue(AfterIncrement(s, w).hot, k) == HotValue(s.hot, k) + (if k == k0 then 1 else 0)
      && (Present(s, k) ==> Present(AfterIncrement(s, w), k))
  {
    var k0 := s.workers[w].todo[0];
    assert CounterOf(ActivityDay(k), FieldOf(k)) == k && CounterOf(ActivityDay(k0), FieldOf(k0)) == k0;
  }

  lemma {:induction false} IncrementHot(s: State, w: int)
    requires Inv(s) && Exact(s) && w in s.workers && s.workers[w].todo != []
    ensures var t := AfterIncrement(s, w);
      && (forall k :: HotValue(t.hot, k) == Bound(t, k))
      && (forall day, f :: day in t.hot && f in t.hot[day].fields ==> ActivityDay(CounterOf(day, f)) == day)
      && (forall k :: Present(s, k) ==> Present(t, k))
  {
    var t := AfterIncrement(s, w);
    var e, k0 := s.workers[w], s.workers[w].todo[0];
    assert EventWithin(s, e);
    IncrementRaises(s, w);
    assert CounterOf(ActivityDay(k0), FieldOf(k0)) == k0;
    forall k ensures HotValue(t.hot, k) == Bound(t, k) && (Present(s, k) ==> Present(t, k)) {
      IncrementMovesOneField(s, w, k);
    }
  }

  lemma {:induction false} IncrementExact(s: State, w: int)
    requires Inv(s) && Exact(s) && w in s.workers && s.workers[w].todo != []
    ensures Exact(AfterIncrement(s, w))
  {
    hide Bound, Inv, HotValue, Incremented, Present;
    var t := AfterIncrement(s, w);
    IncrementHot(s, w);
    forall counts | counts in t.scans ensures CountsPresent(t, counts) {
      assert CountsPresent(s, counts);
    }
    forall v | v in t.workers ensures EventExact(t, t.workers[v]) {
      assert EventExact(s, s.workers[v]);
      FloorsStayPresent(s, w, s.workers[v]);
    }
  }

  lemma {:induction false} FloorsStayPresent(s: State, w: int, e: Event)
    requires EventExact(s, e) && w in s.workers && s.workers[w].todo != []
    ensures EventExact(AfterIncrement(s, w), e)
  {
  }

  lemma {:induction false} FlushExact(s: State, a: Action)
    requires Exact(s) && (a.FlushRead? || a.FlushWrite?)
    ensures Exact(Step(s, a))
  {
    var t := Step(s, a);
    SameBound(s, t);
    hide Bound;
    SameHotExact(s, t);
    hide HotValue, EventExact;
  }

  /** What a quiet rescan counts is positive, so the hash already has it. */
  /** What a rescan counts, the hash has counted. */
  lemma {:induction false} ScannedIsPresent(s: State, k: Counter)
    requires Exact(s) && NothingOwed(s) && k in SpineRescan.Projection(s.spine)
    ensures Present(s, k)
  {
    ProjectionHolds(s.spine, k);
    SpineRescan.CountedIffPositive(s.spine, k);
    NobodyOwing(s, k);
    assert HotValue(s.hot, k) == Bound(s, k);
    hide Truth, NothingOwed, EventExact;
  }

  lemma {:induction false} RescanReadExact(s: State)
    requires Inv(s) && Exact(s) && NothingOwed(s)
    ensures Exact(Scanned(s))
  {
    hide Inv, Truth, NothingOwed, SpineRescan.Projection;
    var t := Scanned(s);
    SameBound(s, t);
    var counts := SpineRescan.Projection(s.spine);
    forall k | k in counts ensures Present(s, k) {
      ScannedIsPresent(s, k);
    }
    SamePresent(s, t, counts);
    hide Bound;
    SameHotExact(s, t);
  }

  lemma SamePresent(s: State, t: State, counts: map<Counter, int>)
    requires s.hot == t.hot && forall k :: k in counts ==> Present(s, k)
    ensures CountsPresent(t, counts)
  {
  }

  lemma {:induction false} RescanWriteExact(s: State, counts: map<Counter, int>)
    requires Inv(s) && Exact(s) && counts in s.scans
    ensures Exact(AfterRescanWrite(s, counts))
  {
    hide SpineRescan.Greatest, Inv, HotValue, Bound, EventExact;
    var t := AfterRescanWrite(s, counts);
    SameBound(s, t);
    SameHotExact(s, t);
    assert CountsPresent(s, counts);
    assert t.durable.Keys == s.durable.Keys + counts.Keys;
  }

  lemma {:induction false} SameHotExact(s: State, t: State)
    requires Exact(s) && Raises(s, t) && Raises(t, s) && t.hot == s.hot && t.workers == s.workers && t.spine == s.spine
    ensures forall k :: HotValue(t.hot, k) == Bound(t, k)
    ensures forall w :: w in t.workers ==> EventExact(t, t.workers[w])
  {
    hide Bound;
    forall k ensures HotValue(t.hot, k) == Bound(t, k) {
      assert Bound(s, k) <= Bound(t, k) && Bound(t, k) <= Bound(s, k);
    }
    forall w | w in t.workers ensures EventExact(t, t.workers[w]) {
      assert EventExact(s, s.workers[w]);
    }
  }

  lemma {:induction false} StepExact(s: State, a: Action)
    requires Inv(s) && Exact(s) && Lossless(a)
    ensures Exact(Step(s, a))
  {
    hide Bound, AfterBegin, AfterSetBit, AfterIncrement, Scanned, AfterRescanWrite, Seeded, Inv;
    if Step(s, a) != s {
      match a
      case Begin(w, user, startDay, span) => BeginExact(s, w, user, startDay, span);
      case SetBit(w) => SetBitExact(s, w);
      case ReadFloor(w) =>
        var day := ActivityDay(s.workers[w].todo[0]);
        assert FloorPresent(s, day, RetFloor(s.durable, day));
        PhaseExact(s, w, FloorRead(RetFloor(s.durable, day)));
      case CheckSeeded(w) =>
        assert EventExact(s, s.workers[w]);
        PhaseExact(s, w, if BucketOf(s.hot, ActivityDay(s.workers[w].todo[0])).seeded then Ready
                         else MustSeed(s.workers[w].phase.floor));
      case SeedBucket(w) =>
        assert EventExact(s, s.workers[w]);
        PhaseExact(s, w, Ready);
        SeedExact(WithPhase(s, w, Ready), ActivityDay(s.workers[w].todo[0]), s.workers[w].phase.floor);
      case Increment(w) => IncrementExact(s, w);
      case RescanRead => RescanReadExact(s);
      case RescanWrite(counts) => RescanWriteExact(s, counts);
      case _ => FlushExact(s, a);
    }
  }

  lemma {:induction false} LosslessRunExact(s: State, actions: seq<Action>)
    requires Inv(s) && Exact(s) && forall a :: a in actions ==> Lossless(a)
    ensures Inv(Run(s, actions)) && Exact(Run(s, actions))
    decreases |actions|
  {
    if actions != [] {
      StepKeeps(s, actions[0]);
      StepExact(s, actions[0]);
      LosslessRunExact(Step(s, actions[0]), actions[1..]);
    }
  }

  /**
   * Without a Redis loss or an abandoned event, the lag is exactly the increments still in
   * flight: once nothing is owed every hot counter equals the spine's count, whatever
   * flushes, seeds and rescans happened in between.
   */
  lemma {:induction false} LosslessHotIsExact(actions: seq<Action>, k: Counter)
    requires forall a :: a in actions ==> Lossless(a)
    ensures var s := Run(INITIAL, actions);
      && HotValue(s.hot, k) == Truth(s.spine, k) - |Owing(s, k)|
      && (NothingOwed(s) ==> HotValue(s.hot, k) == Truth(s.spine, k))
  {
    InitialInv();
    assert Exact(INITIAL) by {
      forall j ensures Bound(INITIAL, j) == 0 {
        assert Witnesses(INITIAL.spine, j) == {};
        assert Owing(INITIAL, j) == {};
      }
    }
    LosslessRunExact(INITIAL, actions);
    var s := Run(INITIAL, actions);
    assert HotValue(s.hot, k) == Bound(s, k);
    if NothingOwed(s) {
      NobodyOwing(s, k);
    }
  }

  // ---- A flush catches the tables up -----------------------------------------------

  /** Read one day's hash and write one of its counters. */
  function FlushOne(s: State, k: Counter): State {
    Step(Step(s, FlushRead(ActivityDay(k))), FlushWrite(k, HotValue(s.hot, k)))
  }

  /** The flush stores a counter of a seeded hash unless the table has more, and touches nothing else; an unseeded hash is skipped. */
  lemma {:induction false} FlushStores(s: State, k: Counter)
    requires Present(s, k)
    ensures var b := BucketOf(s.hot, ActivityDay(k)); var after := FlushOne(s, k);
      && (b.seeded ==>
            after.durable == s.durable[k :=
              if k in s.durable && s.durable[k] > HotValue(s.hot, k) then s.durable[k] else HotValue(s.hot, k)])
      && (!b.seeded ==> Step(s, FlushRead(ActivityDay(k))) == s)
      && after.hot == s.hot && after.spine == s.spine && after.workers == s.workers
  {
    assert CounterOf(ActivityDay(k), FieldOf(k)) == k;
    var b := BucketOf(s.hot, ActivityDay(k));
    if b.seeded {
      assert FieldOf(k) in b.fields && (k, HotValue(s.hot, k)) in FlushRows(s, ActivityDay(k));
    } else {
      assert s.flushing + {} == s.flushing;
    }
  }

  /** Without losses and with nothing owed, one flush of a seeded day makes the table the spine's count. */
  lemma {:induction false} FlushIsExact(actions: seq<Action>, k: Counter)
    requires forall a :: a in actions ==> Lossless(a)
    requires var s := Run(INITIAL, actions); NothingOwed(s) && Present(s, k) && BucketOf(s.hot, ActivityDay(k)).seeded
    ensures var s := Run(INITIAL, actions); Value(FlushOne(s, k).durable, k) == Truth(s.spine, k)
  {
    var s := Run(INITIAL, actions);
    LosslessHotIsExact(actions, k);
    ProjectionsNeverLead(actions, k);
    FlushStores(s, k);
    hide Run, Truth, FlushOne, NothingOwed, HotValue;
  }

  // ---- A rescan must be read with nothing owed -------------------------------------

  /** Some table row or hot counter says more than the spine. */
  predicate Leads(s: State, k: Counter) {
    Value(s.durable, k) > Truth(s.spine, k) || HotValue(s.hot, k) > Truth(s.spine, k)
  }

  /** The smallest bitmap span the configuration yields. */
  const MIN_SPAN: nat := 15

  /** A rescan read between step 7 and step 8 of one event makes the hot count lead. */
  lemma {:induction false} RescanMidEventLeads() returns (s: State, t: State)
    ensures s == Run(INITIAL, [Begin(0, "u", 0, MIN_SPAN), SetBit(0)])
    ensures t == Run(Scanned(s), [RescanWrite(SpineRescan.Projection(s.spine))] + HotSteps(0))
    ensures HotValue(t.hot, CohortSize(0)) == 2 && Truth(t.spine, CohortSize(0)) == 1
  {
    var k := CohortSize(0);
    var s0 := Step(INITIAL, Begin(0, "u", 0, MIN_SPAN));
    s := Step(s0, SetBit(0));
    RunTwo(INITIAL, Begin(0, "u", 0, MIN_SPAN), SetBit(0));
    assert s0.workers[0] == Event("u", 0, BitPending, [k]);
    assert s.workers[0] == Event("u", 0, Start, [k, RetentionCell(0, 0)]);
    assert Witnesses(s.spine, k) == {"u"};
    SpineRescan.CountedIffPositive(s.spine, k);
    var counts := SpineRescan.Projection(s.spine);
    var s1 := Step(Scanned(s), RescanWrite(counts));
    assert s1.durable[k] == 1 && s1.hot == map[] && s1.workers == s.workers && s1.spine == s.spine;
    t := Run(s1, HotSteps(0));
    RunCons(Scanned(s), RescanWrite(counts), HotSteps(0));
    hide AfterRescanWrite, Step, AfterBegin, Inv;
    HotStepsAreOneBump(s1, 0);
    FloorOfOneCounter(s1.durable, 0);
  }

  lemma {:induction false} RunCons(s: State, a: Action, more: seq<Action>)
    ensures Run(s, [a] + more) == Run(Step(s, a), more)
  {
    hide Step;
    assert ([a] + more)[1..] == more;
  }

  lemma {:induction false} RunTwo(s: State, a: Action, b: Action)
    ensures Run(s, [a, b]) == Step(Step(s, a), b)
  {
    hide Step;
    assert [a, b] == [a] + [b] && [b] == [b] + [];
    RunCons(s, a, [b]);
    RunCons(Step(s, a), b, []);
  }

  lemma {:induction false} RunAppend(s: State, a: seq<Action>, b: seq<Action>)
    ensures Run(s, a + b) == Run(Run(s, a), b)
    decreases |a|
  {
    hide Step;
    if a == [] {
      assert a + b == b;
    } else {
      assert (a + b)[1..] == a[1..] + b;
      RunAppend(Step(s, a[0]), a[1..], b);
    }
  }

  /** A worker that created its row, and so owes its cohort, can set its bit. */
  ghost predicate SeedersFit(s: State) {
    forall w :: w in s.workers && s.workers[w].phase.BitPending? && s.workers[w].todo != [] ==> !BitFails(s, s.workers[w])
  }

  lemma {:induction false} StepSeeders(s: State, a: Action)
    requires SeedersFit(s)
    ensures SeedersFit(Step(s, a))
  {
    hide Seeded, FlushRows, Incremented, RetFloor, BucketOf;
    var t := Step(s, a);
    forall w | w in t.workers && t.workers[w].phase.BitPending? && t.workers[w].todo != []
      ensures !BitFails(t, t.workers[w])
    {
      if w in s.workers && t.workers[w] == s.workers[w] {
        assert !BitFails(s, s.workers[w]);
        RowsKeepTheirSpan(s, a, s.workers[w].user);
      } else {
        assert a.Begin? && a.worker == w;
      }
    }
  }

  lemma {:induction false} RowsKeepTheirSpan(s: State, a: Action, user: string)
    requires user in s.spine
    ensures user in Step(s, a).spine && |Step(s, a).spine[user].bitmap| == |s.spine[user].bitmap|
  {
    hide Seeded, FlushRows, Incremented, RetFloor, BucketOf;
  }

  lemma {:induction false} RunSeeders(s: State, actions: seq<Action>)
    requires SeedersFit(s)
    ensures SeedersFit(Run(s, actions))
    decreases |actions|
  {
    hide Step, SeedersFit;
    if actions != [] {
      StepSeeders(s, actions[0]);
      RunSeeders(Step(s, actions[0]), actions[1..]);
    }
  }

  /** Redis was lost just after the rescan was written, and worker `w` is about to count `k`. */
  ghost predicate Poised(s: State, w: int, k: Counter) {
    && s.hot == map[]
    && w in s.workers && s.workers[w].todo != [] && s.workers[w].todo[0] == k && !s.workers[w].phase.BitPending?
    && k in s.durable && s.durable[k] >= Truth(s.spine, k)
  }

  /** What the invariant says of the first counter a worker owes. */
  lemma {:induction false} OwedCounter(s: State, w: int)
    requires Inv(s) && w in s.workers && s.workers[w].todo != []
    ensures Truth(s.spine, s.workers[w].todo[0]) > 0
    ensures s.workers[w].phase.BitPending? ==> s.workers[w].todo[0].CohortSize?
  {
    var k := s.workers[w].todo[0];
    assert w in Owing(s, k) && 0 <= Bound(s, k);
    assert EventWithin(s, s.workers[w]);
    hide Truth;
  }

  /** The rescan write brings a counter of the spine up to its count, and touches the tables only. */
  lemma {:induction false} RescanCovers(s: State, k: Counter)
    requires Truth(s.spine, k) > 0
    ensures var t := Step(Scanned(s), RescanWrite(SpineRescan.Projection(s.spine)));
      && t.hot == s.hot && t.workers == s.workers && t.spine == s.spine
      && k in t.durable && t.durable[k] >= Truth(t.spine, k)
  {
    ProjectionHolds(s.spine, k);
    hide Truth, SpineRescan.Projection;
  }

  lemma LossTakesHotOnly(s: State)
    ensures Step(s, RedisLoss) == s.(hot := map[])
  {
  }

  /** Write the rescan read while `w` owed a counter, lose Redis, and let `w` set its bit. */
  lemma {:induction false} WriteAndLose(s: State, w: int) returns (k: Counter)
    requires Inv(s) && SeedersFit(s) && w in s.workers && s.workers[w].todo != []
    ensures var counts := SpineRescan.Projection(s.spine);
      Poised(Run(Scanned(s), [RescanWrite(counts), RedisLoss, SetBit(w)]), w, k)
  {
    hide Inv, Step, Run, Scanned, Truth, SpineRescan.Projection, Poised;
    k := s.workers[w].todo[0];
    var counts := SpineRescan.Projection(s.spine);
    var s1 := Step(Scanned(s), RescanWrite(counts));
    var s2 := Step(s1, RedisLoss);
    RunCons(Scanned(s), RescanWrite(counts), [RedisLoss, SetBit(w)]);
    assert [RescanWrite(counts)] + [RedisLoss, SetBit(w)] == [RescanWrite(counts), RedisLoss, SetBit(w)];
    RunTwo(s1, RedisLoss, SetBit(w));
    OwedCounter(s, w);
    RescanCovers(s, k);
    LossTakesHotOnly(s1);
    SetBitPoises(s2, w, k);
  }

  lemma {:induction false} SetBitPoises(s: State, w: int, k: Counter)
    requires s.hot == map[] && w in s.workers && s.workers[w].todo != [] && s.workers[w].todo[0] == k
    requires s.workers[w].phase.BitPending? ==> k.CohortSize? && !BitFails(s, s.workers[w])
    requires k in s.durable && s.durable[k] >= Truth(s.spine, k)
    ensures Poised(Step(s, SetBit(w)), w, k)
  {
    var e := s.workers[w];
    if e.phase.BitPending? {
      BitRaisesOneCell(s.spine, e.user, e.offset, k);
    }
  }

  /** A user not in the spine and a worker not in flight. */
  lemma {:induction false} SomebodyNew(spine: map<string, Row>, workers: map<int, Event>) returns (u: string, v: int)
    ensures u !in spine && v !in workers
  {
    var n := LongerThanAll(spine.Keys);
    u := seq(n, _ => 'a');
    v := Sums.AboveAll(workers.Keys);
  }

  lemma {:induction false} LongerThanAll(names: set<string>) returns (n: nat)
    ensures forall u :: u in names ==> |u| < n
    decreases |names|
  {
    if names == {} {
      n := 0;
    } else {
      var u :| u in names;
      var m := LongerThanAll(names - {u});
      n := if m > |u| then m else |u| + 1;
      forall x | x in names ensures |x| < n {
        assert x == u || x in names - {u};
      }
    }
  }

  /** A new user's first session on `day`. */
  function FirstSession(v: int, u: string, day: int): seq<Action> {
    [Begin(v, u, day, MIN_SPAN), SetBit(v)]
  }

  lemma {:induction false} FirstSessionBegins(s: State, v: int, u: string, day: int, k: Counter)
    requires v !in s.workers && u !in s.spine
    ensures var t := Run(s, FirstSession(v, u, day));
      && t.hot == s.hot && t.durable == s.durable
      && t.workers == s.workers[v := Event(u, 0, Start, [CohortSize(day), RetentionCell(day, 0)])]
      && Truth(t.spine, k) == Truth(s.spine, k)
           + (if k == CohortSize(day) then 1 else 0) + (if k == RetentionCell(day, 0) then 1 else 0)
  {
    RunTwo(s, Begin(v, u, day, MIN_SPAN), SetBit(v));
    var s1 := Step(s, Begin(v, u, day, MIN_SPAN));
    SeedRaisesOneCohort(s.spine, u, day, MIN_SPAN, k);
    BitRaisesOneCell(s1.spine, u, 0, k);
    assert s1.workers == s.workers[v := Event(u, 0, BitPending, [CohortSize(day)])];
    assert s1.spine[u] == Row(day, seq(MIN_SPAN, _ => false)) && !s1.spine[u].bitmap[0];
    var t := Step(s1, SetBit(v));
    assert [CohortSize(day)] + [RetentionCell(day, 0)] == [CohortSize(day), RetentionCell(day, 0)];
    assert t.workers[v] == Event(u, 0, Start, [CohortSize(day), RetentionCell(day, 0)]);
    assert t.workers == s.workers[v := Event(u, 0, Start, [CohortSize(day), RetentionCell(day, 0)])];
  }

  /** Two increments over a freshly seeded hash. */
  lemma {:induction false} TwoBumps(durable: map<Counter, int>, day: int, k: Counter)
    requires ActivityDay(k) == day && k in durable
    ensures var hot := Bump(Bump(map[], durable, CohortSize(day)), durable, RetentionCell(day, 0));
      && BucketOf(hot, day).seeded && FieldOf(k) in BucketOf(hot, day).fields
      && HotValue(hot, k) == durable[k] + (if k == CohortSize(day) then 1 else 0) + (if k == RetentionCell(day, 0) then 1 else 0)
  {
    var floor := RetFloor(durable, day);
    assert CounterOf(day, FieldOf(k)) == k;
    assert FieldOf(k) in floor && floor[FieldOf(k)] == durable[k];
  }

  /** The new user's session seeds the day's hash from the rescanned table and is counted. */
  lemma {:induction false} NewcomerSeeds(s: State, w: int, k: Counter, v: int, u: string)
    requires Poised(s, w, k) && v !in s.workers && u !in s.spine
    ensures var day := ActivityDay(k); var t := Run(s, FirstSession(v, u, day) + HotSteps(v) + HotSteps(v));
      && w in t.workers && t.workers[w] == s.workers[w]
      && BucketOf(t.hot, day).seeded && FieldOf(k) in BucketOf(t.hot, day).fields
      && HotValue(t.hot, k) >= Truth(t.spine, k)
  {
    var day := ActivityDay(k);
    var t1 := Run(s, FirstSession(v, u, day));
    FirstSessionBegins(s, v, u, day, k);
    RunAppend(s, FirstSession(v, u, day) + HotSteps(v), HotSteps(v));
    RunAppend(s, FirstSession(v, u, day), HotSteps(v));
    TwoBumps(s.durable, day, k);
    hide Run, FirstSession, HotSteps, Truth, Bump, BucketOf, HotValue;
    HotStepsAreOneBump(t1, v);
    var t2 := Run(t1, HotSteps(v));
    HotStepsAreOneBump(t2, v);
  }

  /** From whatever point it has reached, the owing worker adds one to the seeded field. */
  lemma {:induction false} LateIncrement(s: State, w: int, k: Counter)
    requires w in s.workers && s.workers[w].todo != [] && s.workers[w].todo[0] == k && !s.workers[w].phase.BitPending?
    requires BucketOf(s.hot, ActivityDay(k)).seeded && FieldOf(k) in BucketOf(s.hot, ActivityDay(k)).fields
    ensures var t := Run(s, HotSteps(w)); t.spine == s.spine && HotValue(t.hot, k) == HotValue(s.hot, k) + 1
  {
    hide RetFloor, AfterBegin, AfterSetBit, FlushRows, Scanned, AfterRescanWrite, FieldOf, ActivityDay, Run;
    RunFour(s, ReadFloor(w), CheckSeeded(w), SeedBucket(w), Increment(w));
    GetsReady(s, w, k);
    hide Step;
    IncrementAt(Step(Step(Step(s, ReadFloor(w)), CheckSeeded(w)), SeedBucket(w)), w, k);
  }

  lemma {:induction false} GetsReady(s: State, w: int, k: Counter)
    requires w in s.workers && s.workers[w].todo != [] && s.workers[w].todo[0] == k && !s.workers[w].phase.BitPending?
    requires BucketOf(s.hot, ActivityDay(k)).seeded && FieldOf(k) in BucketOf(s.hot, ActivityDay(k)).fields
    ensures var t := Step(Step(Step(s, ReadFloor(w)), CheckSeeded(w)), SeedBucket(w));
      && w in t.workers && t.workers[w].phase.Ready? && t.workers[w].todo == s.workers[w].todo
      && t.spine == s.spine && HotValue(t.hot, k) == HotValue(s.hot, k)
  {
    hide RetFloor, AfterBegin, AfterSetBit, FlushRows, Scanned, AfterRescanWrite, FieldOf, ActivityDay, AfterIncrement;
    var s1 := Step(s, ReadFloor(w));
    var s2 := Step(s1, CheckSeeded(w));
    assert s2.hot == s.hot && s2.spine == s.spine && s2.workers[w].todo == s.workers[w].todo;
  }

  lemma {:induction false} IncrementAt(s: State, w: int, k: Counter)
    requires w in s.workers && s.workers[w].phase.Ready? && s.workers[w].todo != [] && s.workers[w].todo[0] == k
    ensures var t := Step(s, Increment(w)); t.spine == s.spine && HotValue(t.hot, k) == HotValue(s.hot, k) + 1
  {
    hide FieldOf, ActivityDay;
  }

  /** A rescan read while a worker owes a counter: some continuation makes the counter lead. */
  lemma {:induction false} BusyRescanLeads(s: State, w: int) returns (more: seq<Action>, k: Counter)
    requires Inv(s) && SeedersFit(s) && w in s.workers && s.workers[w].todo != []
    ensures Leads(Run(Scanned(s), more), k)
  {
    var first := [RescanWrite(SpineRescan.Projection(s.spine)), RedisLoss, SetBit(w)];
    k := WriteAndLose(s, w);
    var t := Run(Scanned(s), first);
    var u, v := SomebodyNew(t.spine, t.workers);
    var second := FirstSession(v, u, ActivityDay(k)) + HotSteps(v) + HotSteps(v);
    NewcomerSeeds(t, w, k, v, u);
    LateIncrement(Run(t, second), w, k);
    more := first + second + HotSteps(w);
    hide Run, HotSteps, FirstSession, Truth, HotValue;
    RunAppend(Scanned(s), first + second, HotSteps(w));
    RunAppend(Scanned(s), first, second);
  }

  lemma {:induction false} NeverLeads(s: State, k: Counter)
    requires Inv(s)
    ensures !Leads(s, k)
  {
    assert 0 <= Bound(s, k);
    assert CounterOf(ActivityDay(k), FieldOf(k)) == k;
    if ActivityDay(k) in s.hot {
      assert FloorWithin(s, ActivityDay(k), s.hot[ActivityDay(k)].fields);
    }
  }

  /**
   * In every reachable state, reading a rescan is safe exactly when no event in flight
   * still owes an increment: otherwise some continuation of it makes a table row or a hot
   * counter say more than the spine.
   */
  lemma {:induction false} RescanSafeIff(actions: seq<Action>)
    ensures var s := Run(INITIAL, actions);
      NothingOwed(s) <==> forall more: seq<Action>, k :: !Leads(Run(Scanned(s), more), k)
  {
    InitialInv();
    RunKeeps(INITIAL, actions);
    RunSeeders(INITIAL, actions);
    var s := Run(INITIAL, actions);
    hide Inv, SeedersFit, Leads;
    if NothingOwed(s) {
      RescanReadKeeps(s);
      forall more: seq<Action>, k ensures !Leads(Run(Scanned(s), more), k) {
        RunKeeps(Scanned(s), more);
        NeverLeads(Run(Scanned(s), more), k);
      }
    } else {
      var w :| w in s.workers && s.workers[w].todo != [];
      var more, k := BusyRescanLeads(s, w);
    }
  }

  lemma {:induction false} FloorOfOneCounter(durable: map<Counter, int>, day: int)
    requires CohortSize(day) in durable
    ensures Size in RetFloor(durable, day) && RetFloor(durable, day)[Size] == durable[CohortSize(day)]
  {
    assert ActivityDay(CohortSize(day)) == day && FieldOf(CohortSize(day)) == Size;
  }

  lemma {:induction false} RunFour(s: State, a: Action, b: Action, c: Action, d: Action)
    ensures Run(s, [a, b, c, d]) == Step(Step(Step(Step(s, a), b), c), d)
  {
    hide Step;
    var s1 := Step(s, a);
    var s2 := Step(s1, b);
    var s3 := Step(s2, c);
    assert [a, b, c, d][1..] == [b, c, d] && [b, c, d][1..] == [c, d] && [c, d][1..] == [d] && [d][1..] == [];
    assert Run(s3, [d]) == Run(Step(s3, d), []);
    assert Run(s2, [c, d]) == Run(s3, [d]);
    assert Run(s1, [b, c, d]) == Run(s2, [c, d]);
  }
}
