/**
 * Last-writer-wins balances of one game and currency. A hash entry is replaced only by a
 * report that beats it; a missing entry is compared against the durable row first; the
 * flush replaces a durable row only by one reported at the same time or later.
 */
module BalanceLww {
  import opened Basics
  import opened Strings

  /** One balance report; times in epoch milliseconds. */
  datatype Entry = Entry(balance: int, asOf: int, provenance: string, serverReceived: int, eventId: string)

  /** A BALANCE_SNAPSHOT row: the tie-break keys are not stored. */
  datatype Row = Row(balance: int, asOf: int, provenance: string)

  // ---- The order of writers ----------------------------------------------------

  predicate IncomingWins(incoming: Entry, stored: Entry) {
    if incoming.asOf != stored.asOf then incoming.asOf > stored.asOf
    else if incoming.serverReceived != stored.serverReceived then incoming.serverReceived > stored.serverReceived
    else LexLess(stored.eventId, incoming.eventId)
  }

  predicate SameKey(a: Entry, b: Entry) {
    a.asOf == b.asOf && a.serverReceived == b.serverReceived && a.eventId == b.eventId
  }

  lemma {:induction false} WinsTransitive(a: Entry, b: Entry, c: Entry)
    requires IncomingWins(a, b) && IncomingWins(b, c)
    ensures IncomingWins(a, c)
  {
    if a.asOf == b.asOf == c.asOf && a.serverReceived == b.serverReceived == c.serverReceived {
      LexLessTransitive(c.eventId, b.eventId, a.eventId);
    }
  }

  /** Exactly one of: `a` wins, `b` wins, the two carry the same keys. */
  lemma {:induction false} WinsTrichotomy(a: Entry, b: Entry)
    ensures IncomingWins(a, b) || IncomingWins(b, a) || SameKey(a, b)
    ensures !(IncomingWins(a, b) && IncomingWins(b, a))
    ensures SameKey(a, b) ==> !IncomingWins(a, b)
  {
    LexLessTrichotomy(a.eventId, b.eventId);
  }

  /** Later balances first, then later receipts, then the larger event id. */
  lemma {:induction false} WinsByKeys(a: Entry, b: Entry)
    ensures a.asOf > b.asOf ==> IncomingWins(a, b) && !IncomingWins(b, a)
    ensures a.asOf == b.asOf && a.serverReceived > b.serverReceived ==> IncomingWins(a, b) && !IncomingWins(b, a)
    ensures a.asOf == b.asOf && a.serverReceived == b.serverReceived ==> (IncomingWins(a, b) <==> LexLess(b.eventId, a.eventId))
  {
  }

  function RowOf(e: Entry): Row {
    Row(e.balance, e.asOf, e.provenance)
  }

  /** The durable row as a stored entry, with neutral tie-break keys. */
  function SeedOf(r: Row): Entry {
    Entry(r.balance, r.asOf, r.provenance, r.asOf, "")
  }

  /** What the script leaves in the hash for one user, given the seed read beforehand. */
  function Guarded(hash: map<string, Entry>, user: string, incoming: Entry, seed: Option<Entry>): map<string, Entry> {
    var wins :=
      if user in hash then IncomingWins(incoming, hash[user])
      else if seed.Some? then IncomingWins(incoming, seed.value)
      else true;
    if wins then hash[user := incoming] else hash
  }

  /** `ON CONFLICT DO UPDATE ... WHERE EXCLUDED.as_of >= balance_snapshot.as_of`. */
  function Merged(durable: map<string, Row>, user: string, row: Row): map<string, Row> {
    if user in durable && row.asOf < durable[user].asOf then durable else durable[user := row]
  }

  /** Every user outside `todo` has been merged on its own; nobody else's row has changed. */
  ghost predicate FlushedOutside(hash: map<string, Entry>, before: map<string, Row>, after: map<string, Row>,
                                 todo: set<string>) {
    && after.Keys == before.Keys + (hash.Keys - todo)
    && forall user :: user in after ==>
         after[user] == if user in hash && user !in todo then Merged(before, user, RowOf(hash[user]))[user] else before[user]
  }

  lemma {:induction false} NothingFlushed(hash: map<string, Entry>, durable: map<string, Row>)
    ensures FlushedOutside(hash, durable, durable, hash.Keys)
  {
  }

  lemma {:induction false} OneMoreFlushed(hash: map<string, Entry>, before: map<string, Row>, after: map<string, Row>,
                                          todo: set<string>, user: string)
    requires FlushedOutside(hash, before, after, todo) && user in todo && user in hash
    ensures FlushedOutside(hash, before, Merged(after, user, RowOf(hash[user])), todo - {user})
  {
  }

  // ---- The service -------------------------------------------------------------

  class BalanceLwwService {
    var hash: map<string, Entry>
    var seeded: bool
    var dirty: set<string>
    var durable: map<string, Row>

    method BalPointRead(user: string) returns (seed: Option<Entry>)
      ensures seed == if user in durable then Some(SeedOf(durable[user])) else None
    {
      if user !in durable { return None; }
      var row := durable[user];
      seed := Some(Entry(row.balance, row.asOf, row.provenance, row.asOf, ""));
    }

    /** One atomic script: compare, and on a win write, mark seeded and mark dirty. */
    method GuardedUpsert(user: string, incoming: Entry, seed: Option<Entry>) returns (applied: bool)
      modifies this`hash, this`seeded, this`dirty
      ensures hash == Guarded(old(hash), user, incoming, seed)
      ensures applied ==> user in hash && hash[user] == incoming && seeded && dirty == old(dirty) + {user}
      ensures !applied ==> hash == old(hash) && seeded == old(seeded) && dirty == old(dirty)
      ensures applied <==> ((user !in old(hash) && seed.None?) ||
                            (user !in old(hash) && seed.Some? && IncomingWins(incoming, seed.value)) ||
                            (user in old(hash) && IncomingWins(incoming, old(hash)[user])))
    {
      var existing := if user in hash then Some(hash[user]) else None;
      if existing.None? && seed.Some? {
        existing := seed;
      }
      applied := true;
      if existing.Some? {
        var e := existing.value;
        if incoming.asOf != e.asOf {
          applied := incoming.asOf > e.asOf;
        } else if incoming.serverReceived != e.serverReceived {
          applied := incoming.serverReceived > e.serverReceived;
        } else {
          applied := LexLess(e.eventId, incoming.eventId);
        }
      }
      if applied {
        hash := hash[user := incoming];
        seeded := true;
        dirty := dirty + {user};
      }
    }

    /** Undisturbed: the stored entry, or else the durable row, yields only to a later writer. */
    method Upsert(user: string, incoming: Entry) returns (applied: bool)
      modifies this`hash, this`seeded, this`dirty
      ensures hash == Guarded(old(hash), user, incoming, if user in durable then Some(SeedOf(durable[user])) else None)
      ensures user !in old(hash) && user in durable && incoming.asOf < durable[user].asOf ==> !applied && hash == old(hash)
      ensures applied ==> user in hash && hash[user] == incoming && seeded
    {
      var seed := None;
      if user !in hash {
        seed := BalPointRead(user);
      }
      applied := GuardedUpsert(user, incoming, seed);
    }

    /** Project every entry of a seeded hash and upsert its row. */
    method FlushBucket()
      modifies this`durable
      ensures if seeded then FlushedOutside(hash, old(durable), durable, {}) else durable == old(durable)
    {
      hide FlushedOutside, Merged;
      if !seeded { return; }
      var todo := hash.Keys;
      ghost var before := durable;
      NothingFlushed(hash, durable);
      while todo != {}
        invariant todo <= hash.Keys
        invariant FlushedOutside(hash, before, durable, todo)
        decreases |todo|
      {
        var user :| user in todo;
        OneMoreFlushed(hash, before, durable, todo, user);
        durable := Merged(durable, user, RowOf(hash[user]));
        todo := todo - {user};
      }
    }
  }

  // ---- The protocol ------------------------------------------------------------

  /** An upsert in flight: `hexists`, then on a miss the point read, then the script. */
  datatype Seed = Unread | Ready(seed: Option<Entry>)
  datatype Upsert = Upsert(user: string, incoming: Entry, seed: Seed)

  /** `evaluated` is the history of reports the script has compared, in order. */
  datatype State = State(
    hash: map<string, Entry>,
    durable: map<string, Row>,
    workers: map<int, Upsert>,
    flushing: set<(string, Row)>,  // rows a flusher has read and may write, once or again
    evaluated: seq<(string, Entry)>)

  const INITIAL := State(map[], map[], map[], {}, [])

  datatype Action =
    | CheckPresent(worker: int, user: string, incoming: Entry)
    | PointRead(worker: int)
    | Eval(worker: int)
    | Abandon(worker: int)
    | FlushRead(user: string)
    | FlushWrite(user: string, row: Row)
    | RedisLoss

  function Step(s: State, a: Action): State {
    match a
    case CheckPresent(w, user, incoming) =>
      s.(workers := s.workers[w := Upsert(user, incoming, if user in s.hash then Ready(None) else Unread)])
    case PointRead(w) =>
      if w in s.workers && s.workers[w].seed.Unread? then
        var user := s.workers[w].user;
        var seed := if user in s.durable then Some(SeedOf(s.durable[user])) else None;
        s.(workers := s.workers[w := s.workers[w].(seed := Ready(seed))])
      else s
    case Eval(w) =>
      if w in s.workers && s.workers[w].seed.Ready? then
        var u := s.workers[w];
        s.(hash := Guarded(s.hash, u.user, u.incoming, u.seed.seed),
           workers := s.workers - {w},
           evaluated := s.evaluated + [(u.user, u.incoming)])
      else s
    case Abandon(w) => s.(workers := s.workers - {w})
    case FlushRead(user) =>
      if user in s.hash then s.(flushing := s.flushing + {(user, RowOf(s.hash[user]))}) else s
    case FlushWrite(user, row) =>
      if (user, row) in s.flushing then s.(durable := Merged(s.durable, user, row)) else s
    case RedisLoss => s.(hash := map[])
  }

  function Run(s: State, actions: seq<Action>): State
    decreases |actions|
  {
    if actions == [] then s else Run(Step(s, actions[0]), actions[1..])
  }

  // ---- Safety over every run, losses included ------------------------------------

  ghost predicate Reported(s: State, user: string, e: Entry) {
    (user, e) in s.evaluated
  }

  ghost predicate RowReported(s: State, user: string, row: Row) {
    exists e :: Reported(s, user, e) && RowOf(e) == row
  }

  /** Everything stored anywhere is a report the script has compared. */
  ghost predicate Truthful(s: State) {
    && (forall user :: user in s.hash ==> Reported(s, user, s.hash[user]))
    && (forall user :: user in s.durable ==> RowReported(s, user, s.durable[user]))
    && (forall f :: f in s.flushing ==> RowReported(s, f.0, f.1))
  }

  lemma {:induction false} StepTruthful(s: State, a: Action)
    requires Truthful(s)
    ensures Truthful(Step(s, a))
  {
    var s' := Step(s, a);
    forall user, e | Reported(s, user, e) ensures Reported(s', user, e) {
    }
    forall user, row | RowReported(s, user, row) ensures RowReported(s', user, row) {
      var e :| Reported(s, user, e) && RowOf(e) == row;
      assert Reported(s', user, e);
    }
    match a {
      case Eval(w) =>
        if s' != s {
          assert s'.evaluated[|s.evaluated|] == (s.workers[w].user, s.workers[w].incoming);
        }
      case FlushRead(user) =>
        if user in s.hash {
          assert Reported(s', user, s.hash[user]);
        }
      case _ =>
    }
  }

  /** The durable row of each user exists still, and was reported no earlier than before. */
  ghost predicate NoOlder(before: map<string, Row>, after: map<string, Row>) {
    forall user :: user in before ==> user in after && after[user].asOf >= before[user].asOf
  }

  lemma {:induction false} NoOlderTransitive(a: map<string, Row>, b: map<string, Row>, c: map<string, Row>)
    requires NoOlder(a, b) && NoOlder(b, c)
    ensures NoOlder(a, c)
  {
  }

  /**
   * From any state, over every interleaving with losses, stale seeds, abandoned upserts
   * and delayed or repeated flush writes, no durable balance is displaced by an older one.
   */
  lemma {:induction false} DurableNeverOlder(s: State, actions: seq<Action>)
    ensures NoOlder(s.durable, Run(s, actions).durable)
    decreases |actions|
  {
    hide Guarded;
    if actions != [] {
      var s' := Step(s, actions[0]);
      assert NoOlder(s.durable, s'.durable);
      DurableNeverOlder(s', actions[1..]);
      NoOlderTransitive(s.durable, s'.durable, Run(s', actions[1..]).durable);
    }
  }

  lemma {:induction false} RunTruthful(s: State, actions: seq<Action>)
    requires Truthful(s)
    ensures Truthful(Run(s, actions))
    decreases |actions|
  {
    hide Truthful, Step;
    if actions != [] {
      StepTruthful(s, actions[0]);
      RunTruthful(Step(s, actions[0]), actions[1..]);
    }
  }

  /** Over every run a durable balance is one that was reported, with the time it carries. */
  lemma {:induction false} DurableWasReported(actions: seq<Action>, user: string)
    ensures var s := Run(INITIAL, actions);
      user in s.durable ==>
        exists e :: (user, e) in s.evaluated && s.durable[user] == Row(e.balance, e.asOf, e.provenance)
  {
    RunTruthful(INITIAL, actions);
    var s := Run(INITIAL, actions);
    hide Run;
    if user in s.durable {
      var e :| Reported(s, user, e) && RowOf(e) == s.durable[user];
      assert (user, e) in s.evaluated;
    }
  }

  // ---- Convergence without loss --------------------------------------------------

  /** No report of the user compared so far beats `e`, which is one of them. */
  ghost predicate IsMaximum(evaluated: seq<(string, Entry)>, user: string, e: Entry) {
    && (user, e) in evaluated
    && forall other :: (user, other) in evaluated ==> !IncomingWins(other, e)
  }

  /** The hash holds each reporting user's maximum, and nothing durable or in flight is ahead of it. */
  ghost predicate HoldsMaxima(s: State) {
    && (forall user :: user in s.hash ==> IsMaximum(s.evaluated, user, s.hash[user]))
    && (forall r :: r in s.evaluated ==> r.0 in s.hash)
    && (forall user :: user in s.durable ==> user in s.hash)
    && (forall w :: w in s.workers && s.workers[w].seed.Ready? && s.workers[w].seed.seed.Some? ==> s.workers[w].user in s.hash)
    && (forall f :: f in s.flushing ==> f.0 in s.hash)
  }

  lemma {:induction false} EvalHoldsMaxima(s: State, w: int)
    requires HoldsMaxima(s) && w in s.workers && s.workers[w].seed.Ready?
    ensures HoldsMaxima(Step(s, Eval(w)))
  {
    var s' := Step(s, Eval(w));
    var u := s.workers[w];
    assert s'.evaluated == s.evaluated + [(u.user, u.incoming)];
    forall user | user in s'.hash ensures IsMaximum(s'.evaluated, user, s'.hash[user]) {
      if user == u.user {
        if user in s.hash {
          WinsTrichotomy(u.incoming, s.hash[user]);
          WinsTrichotomy(u.incoming, u.incoming);
          forall other | (user, other) in s'.evaluated ensures !IncomingWins(other, s'.hash[user]) {
            if (user, other) in s.evaluated && s'.hash[user] == u.incoming
               && IncomingWins(other, u.incoming) && u.incoming != s.hash[user] {
              WinsTransitive(other, u.incoming, s.hash[user]);
            }
          }
          assert (user, s'.hash[user]) in s'.evaluated by {
            assert s'.evaluated[|s.evaluated|] == (u.user, u.incoming);
          }
        } else {
          assert s'.hash[user] == u.incoming;
          WinsTrichotomy(u.incoming, u.incoming);
          assert s'.evaluated[|s.evaluated|] == (u.user, u.incoming);
          forall other | (user, other) in s'.evaluated ensures other == u.incoming {
            var r := (user, other);
            if r in s.evaluated {
              assert false;
            }
          }
        }
      } else {
        assert forall other :: (user, other) in s'.evaluated <==> (user, other) in s.evaluated;
      }
    }
  }

  lemma {:induction false} StepHoldsMaxima(s: State, a: Action)
    requires HoldsMaxima(s) && !a.RedisLoss?
    ensures HoldsMaxima(Step(s, a))
  {
    hide Guarded, IsMaximum;
    if a.Eval? && a.worker in s.workers && s.workers[a.worker].seed.Ready? {
      EvalHoldsMaxima(s, a.worker);
    }
  }

  /** Without a Redis loss the hash always holds the maximum of what was compared. */
  lemma {:induction false} RunHoldsMaxima(s: State, actions: seq<Action>)
    requires HoldsMaxima(s) && RedisLoss !in actions
    ensures HoldsMaxima(Run(s, actions))
    decreases |actions|
  {
    hide HoldsMaxima, Step;
    if actions != [] {
      assert actions[0] in actions;
      StepHoldsMaxima(s, actions[0]);
      RunHoldsMaxima(Step(s, actions[0]), actions[1..]);
    }
  }

  /** Reports of a user are told apart by their keys (event ids are unique). */
  ghost predicate KeysIdentify(evaluated: seq<(string, Entry)>, user: string) {
    forall a, b :: (user, a) in evaluated && (user, b) in evaluated && SameKey(a, b) ==> a == b
  }

  /**
   * Convergence: two loss-free runs that compared the same reports of a user, in whatever
   * order, with whatever duplicates and interleaved flushes, hold the same entry.
   */
  lemma {:induction false} ArrivalOrderIsIrrelevant(actions1: seq<Action>, actions2: seq<Action>, user: string)
    requires RedisLoss !in actions1 && RedisLoss !in actions2
    requires var s1, s2 := Run(INITIAL, actions1), Run(INITIAL, actions2);
      && (forall e :: (user, e) in s1.evaluated <==> (user, e) in s2.evaluated)
      && KeysIdentify(s1.evaluated, user)
    ensures var s1, s2 := Run(INITIAL, actions1), Run(INITIAL, actions2);
      && (user in s1.hash <==> user in s2.hash)
      && (user in s1.hash ==> s1.hash[user] == s2.hash[user])
  {
    RunHoldsMaxima(INITIAL, actions1);
    RunHoldsMaxima(INITIAL, actions2);
    var s1, s2 := Run(INITIAL, actions1), Run(INITIAL, actions2);
    hide Run;
    if user in s1.hash {
      assert (user, s1.hash[user]) in s2.evaluated;
    }
    if user in s2.hash {
      assert (user, s2.hash[user]) in s1.evaluated;
    }
    if user in s1.hash && user in s2.hash {
      WinsTrichotomy(s1.hash[user], s2.hash[user]);
    }
  }

  /** After a loss-free run, flushing a user once stores the maximum's balance. */
  lemma {:induction false} QuiescentFlushStoresMaximum(actions: seq<Action>, user: string)
    requires RedisLoss !in actions && user in Run(INITIAL, actions).hash
    ensures var s := Run(INITIAL, actions); var row := RowOf(s.hash[user]);
      var flushed := Step(Step(s, FlushRead(user)), FlushWrite(user, row));
      && IsMaximum(s.evaluated, user, s.hash[user])
      && user in flushed.durable && flushed.durable[user] == row
  {
    RunHoldsMaxima(INITIAL, actions);
    RunTruthful(INITIAL, actions);
    var s := Run(INITIAL, actions);
    hide Run;
    if user in s.durable {
      var e :| Reported(s, user, e) && RowOf(e) == s.durable[user];
      assert !IncomingWins(e, s.hash[user]);
    }
  }

  // ---- What a loss costs -----------------------------------------------------------

  /**
   * After a loss a report is compared with the durable row, whose tie-break keys are gone.
   * A report that had lost to the winner is then accepted exactly when it lost only by the
   * tie-break keys and beats the neutral ones.
   */
  lemma {:induction false} AcceptedAfterLossIff(winner: Entry, loser: Entry)
    requires IncomingWins(winner, loser)
    ensures IncomingWins(loser, SeedOf(RowOf(winner))) <==>
      (loser.asOf == winner.asOf && (loser.serverReceived > loser.asOf ||
                                     (loser.serverReceived == loser.asOf && loser.eventId != "")))
  {
    LexLessTrichotomy("", loser.eventId);
  }

  function LossThenReport(w: int, user: string, e: Entry): seq<Action> {
    [RedisLoss, CheckPresent(w, user, e), PointRead(w), Eval(w), FlushRead(user), FlushWrite(user, RowOf(e))]
  }

  /**
   * So, from any state whose durable row is the winner's, a loss, the loser's redelivery and
   * a flush put the loser into the durable row under the same condition.
   */
  lemma {:induction false} LoserDisplacesIff(s: State, w: int, user: string, winner: Entry, loser: Entry)
    requires IncomingWins(winner, loser) && RowOf(winner) != RowOf(loser)
    requires user in s.durable && s.durable[user] == RowOf(winner) && (user, RowOf(loser)) !in s.flushing
    ensures user in Run(s, LossThenReport(w, user, loser)).durable
    ensures Run(s, LossThenReport(w, user, loser)).durable[user] == RowOf(loser) <==>
      (loser.asOf == winner.asOf && (loser.serverReceived > loser.asOf ||
                                     (loser.serverReceived == loser.asOf && loser.eventId != "")))
  {
    AcceptedAfterLossIff(winner, loser);
    hide IncomingWins, LexLess;
    var accepted := IncomingWins(loser, SeedOf(RowOf(winner)));
    var actions := LossThenReport(w, user, loser);
    var s1 := Step(s, RedisLoss);
    var s2 := Step(s1, actions[1]);
    var s3 := Step(s2, actions[2]);
    assert s3.workers[w] == Upsert(user, loser, Ready(Some(SeedOf(RowOf(winner)))));
    var s4 := Step(s3, actions[3]);
    assert s4.hash == if accepted then map[user := loser] else map[];
    var s5 := Step(s4, actions[4]);
    var s6 := Step(s5, actions[5]);
    assert s6.durable == if accepted then s.durable[user := RowOf(loser)] else s.durable;
    hide Step;
    RunUnfold(s, actions);
    RunUnfold(s1, actions[1..]);
    RunUnfold(s2, actions[2..]);
    RunUnfold(s3, actions[3..]);
    RunUnfold(s4, actions[4..]);
    RunUnfold(s5, actions[5..]);
    RunUnfold(s6, []);
  }

  /** A whole run from the start in which a report that lost a tie reaches the durable row. */
  lemma {:induction false} TieBreakIsNotDurable()
    ensures exists actions, loser: Entry, winner: Entry ::
      && IncomingWins(winner, loser)
      && Run(INITIAL, actions).evaluated == [("u", winner), ("u", loser)]
      && "u" in Run(INITIAL, actions).durable && Run(INITIAL, actions).durable["u"] == RowOf(loser) != RowOf(winner)
  {
    var winner, loser := Entry(7, 100, "server", 120, "b"), Entry(3, 100, "server", 110, "a");
    var first := [CheckPresent(0, "u", winner), PointRead(0), Eval(0), FlushRead("u"), FlushWrite("u", RowOf(winner)), RedisLoss];
    var second := [CheckPresent(1, "u", loser), PointRead(1), Eval(1), FlushRead("u"), FlushWrite("u", RowOf(loser))];
    var lost := State(map[], map["u" := RowOf(winner)], map[], {("u", RowOf(winner))}, [("u", winner)]);
    FirstTie(winner, first, lost);
    SecondTie(winner, loser, second, lost);
    RunAppend(INITIAL, first, second);
    var actions := first + second;
    assert RowOf(loser) != RowOf(winner);
    assert Run(INITIAL, actions) == Run(lost, second);
    assert Run(INITIAL, actions).evaluated == [("u", winner), ("u", loser)];
  }

  lemma {:induction false} FirstTie(winner: Entry, actions: seq<Action>, lost: State)
    requires actions == [CheckPresent(0, "u", winner), PointRead(0), Eval(0), FlushRead("u"),
                         FlushWrite("u", RowOf(winner)), RedisLoss]
    requires lost == State(map[], map["u" := RowOf(winner)], map[], {("u", RowOf(winner))}, [("u", winner)])
    ensures Run(INITIAL, actions) == lost
  {
    var s1 := Step(INITIAL, actions[0]);
    var s2 := Step(s1, actions[1]);
    var s3 := Step(s2, actions[2]);
    assert s3.hash == map["u" := winner] && s3.workers == map[];
    var s4 := Step(s3, actions[3]);
    var s5 := Step(s4, actions[4]);
    var s6 := Step(s5, actions[5]);
    assert s6 == lost;
    hide Step;
    RunUnfold(INITIAL, actions);
    RunUnfold(s1, actions[1..]);
    RunUnfold(s2, actions[2..]);
    RunUnfold(s3, actions[3..]);
    RunUnfold(s4, actions[4..]);
    RunUnfold(s5, actions[5..]);
    RunUnfold(s6, []);
  }

  lemma {:induction false} SecondTie(winner: Entry, loser: Entry, actions: seq<Action>, lost: State)
    requires actions == [CheckPresent(1, "u", loser), PointRead(1), Eval(1), FlushRead("u"), FlushWrite("u", RowOf(loser))]
    requires lost == State(map[], map["u" := RowOf(winner)], map[], {("u", RowOf(winner))}, [("u", winner)])
    requires winner.asOf == loser.asOf < loser.serverReceived
    ensures var s := Run(lost, actions);
      "u" in s.durable && s.durable["u"] == RowOf(loser) && s.evaluated == [("u", winner), ("u", loser)]
  {
    var s1 := Step(lost, actions[0]);
    var s2 := Step(s1, actions[1]);
    assert s2.workers[1].seed == Ready(Some(SeedOf(RowOf(winner))));
    var s3 := Step(s2, actions[2]);
    assert s3.hash == map["u" := loser];
    var s4 := Step(s3, actions[3]);
    var s5 := Step(s4, actions[4]);
    assert s5.durable["u"] == RowOf(loser) && s5.evaluated == [("u", winner), ("u", loser)];
    hide Step;
    RunUnfold(lost, actions);
    RunUnfold(s1, actions[1..]);
    RunUnfold(s2, actions[2..]);
    RunUnfold(s3, actions[3..]);
    RunUnfold(s4, actions[4..]);
    RunUnfold(s5, []);
  }

  lemma {:induction false} RunAppend(s: State, a: seq<Action>, b: seq<Action>)
    ensures Run(s, a + b) == Run(Run(s, a), b)
    decreases |a|
  {
    hide Step;
    if a == [] {
      assert a + b == b;
    } else {
      assert (a + b)[1..] == a[1..] + b;
      RunAppend(Step(s, a[0]), a[1..], b);
    }
  }

  lemma RunUnfold(s: State, actions: seq<Action>)
    ensures Run(s, actions) == if actions == [] then s else Run(Step(s, actions[0]), actions[1..])
  {
  }
}
