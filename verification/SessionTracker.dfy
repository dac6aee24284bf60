/**
 * The client's session tracker. Every operation is a plan of small steps on memory and on
 * storage; operations run to completion, but the process may be killed after any step, and
 * then starts over by reconciling.
 */
module SessionTracker {
  import opened Basics

  datatype Reason = Timeout | AppClose | Reconciled

  /** A terminal session event. */
  datatype Emit = Emit(id: nat, start: int, end: int, duration: int, reason: Reason)

  /** The persisted open session. */
  datatype Record = Record(id: nat, start: int, last: int)

  /** The tracker's fields; `armed` says whether an inactivity timer is pending. */
  datatype Memory = Memory(sessionId: Option<nat>, start: int, lastWall: int, lastMono: int, armed: bool)

  /** A registered activity, for the history. */
  datatype Capture = Capture(id: nat, wall: int, mono: int)

  /**
   * What outlives the process: the open record, the queued terminal events, the session
   * counter. `nextId` makes minted ids fresh. `captures` and `torn` are history: the
   * activities registered, and the session of every kill between an enqueue and its clear.
   */
  datatype Durable = Durable(open: Option<Record>, terminals: seq<Emit>, nextId: nat, counter: nat,
                             captures: seq<Capture>, torn: seq<nat>)

  /** `ready`: this process has reconciled. */
  datatype State = State(mem: Memory, dur: Durable, ready: bool)

  const FRESH_MEMORY := Memory(None, 0, 0, 0, false)
  const INSTALLED := State(FRESH_MEMORY, Durable(None, [], 0, 0, [], []), false)

  datatype Op = OnCapture(wall: int, mono: int) | OnTimerFire(mono: int) | Close(now: int) | Reconcile

  // ---- Steps and plans -----------------------------------------------------------

  datatype Micro =
    | Forget
    | Enqueue(e: Emit)
    | ClearOpen
    | Mint(wall: int)
    | BumpCounter
    | Touch(wall: int, mono: int)
    | Persist
    | Arm
    | Started

  function Do(s: State, m: Micro): State {
    match m
    case Forget => s.(mem := s.mem.(sessionId := None, armed := false))
    case Enqueue(e) => s.(dur := s.dur.(terminals := s.dur.terminals + [e]))
    case ClearOpen => s.(dur := s.dur.(open := None))
    case Mint(wall) => State(s.mem.(sessionId := Some(s.dur.nextId), start := wall), s.dur.(nextId := s.dur.nextId + 1), s.ready)
    case BumpCounter => s.(dur := s.dur.(counter := s.dur.counter + 1))
    case Touch(wall, mono) => s.(mem := s.mem.(lastWall := wall, lastMono := mono))
    case Persist =>
      if s.mem.sessionId.None? then s
      else s.(dur := s.dur.(open := Some(Record(s.mem.sessionId.value, s.mem.start, s.mem.lastWall)),
                            captures := s.dur.captures + [Capture(s.mem.sessionId.value, s.mem.lastWall, s.mem.lastMono)]))
    case Arm => s.(mem := s.mem.(armed := true))
    case Started => s.(ready := true)
  }

  function Exec(s: State, plan: seq<Micro>): State {
    if plan == [] then s else Do(Exec(s, plan[..|plan| - 1]), plan[|plan| - 1])
  }


  function EndPlan(mem: Memory, reason: Reason, end: int): seq<Micro> {
    if mem.sessionId.None? then []
    else [Forget, Enqueue(Emit(mem.sessionId.value, mem.start, end, Max(0, end - mem.start), reason)), ClearOpen]
  }

  predicate Idle(mem: Memory, mono: int, timeout: nat) {
    mem.sessionId.Some? && mono - mem.lastMono >= timeout
  }

  function TouchPlan(wall: int, mono: int): seq<Micro> {
    [Touch(wall, mono), Persist, Arm]
  }

  function CapturePlan(mem: Memory, timeout: nat, wall: int, mono: int): seq<Micro> {
    (if Idle(mem, mono, timeout) then EndPlan(mem, Timeout, mem.lastWall) else [])
    + ((if Idle(mem, mono, timeout) || mem.sessionId.None? then [Mint(wall), BumpCounter] else [])
       + TouchPlan(wall, mono))
  }

  function TimerPlan(mem: Memory, timeout: nat, mono: int): seq<Micro> {
    if mem.sessionId.None? || !mem.armed then []
    else if Idle(mem, mono, timeout) then EndPlan(mem, Timeout, mem.lastWall)
    else [Arm]
  }

  function ReconcilePlan(open: Option<Record>): seq<Micro> {
    if open.None? then [Started]
    else
      var r := open.value;
      [Enqueue(Emit(r.id, r.start, r.last, Max(0, r.last - r.start), Reconciled)), ClearOpen, Started]
  }

  /** Init reconciles exactly once, before anything else may run. */
  function Plan(s: State, timeout: nat, op: Op): seq<Micro> {
    match op
    case Reconcile => if s.ready then [] else ReconcilePlan(s.dur.open)
    case OnCapture(wall, mono) => if !s.ready then [] else CapturePlan(s.mem, timeout, wall, mono)
    case OnTimerFire(mono) => if !s.ready then [] else TimerPlan(s.mem, timeout, mono)
    case Close(now) => if !s.ready then [] else EndPlan(s.mem, AppClose, now)
  }

  /** A kill: memory is gone, and the history notes a terminal event enqueued but not cleared. */
  function Killed(s: State, justEnqueued: Option<nat>): State {
    State(FRESH_MEMORY,
          if justEnqueued.Some? then s.dur.(torn := s.dur.torn + [justEnqueued.value]) else s.dur,
          false)
  }

  datatype Action = Run(op: Op) | Kill(op: Op, after: nat)

  function JustEnqueued(done: seq<Micro>): Option<nat> {
    if done != [] && done[|done| - 1].Enqueue? then Some(done[|done| - 1].e.id) else None
  }

  function Next(s: State, timeout: nat, a: Action): State {
    var plan := Plan(s, timeout, a.op);
    if a.Run? then Exec(s, plan)
    else
      var done := if a.after <= |plan| then plan[..a.after] else plan;
      Killed(Exec(s, done), JustEnqueued(done))
  }

  function Runs(s: State, timeout: nat, actions: seq<Action>): State
    decreases |actions|
  {
    if actions == [] then s else Runs(Next(s, timeout, actions[0]), timeout, actions[1..])
  }

  // ---- The tracker ---------------------------------------------------------------

  /** Storage, the event queue and the identity the host lends the tracker. */
  class Host {
    var open: Option<Record>
    var terminals: seq<Emit>
    var nextId: nat
    var counter: nat
    ghost var captures: seq<Capture>
    ghost var torn: seq<nat>

    ghost function State(): Durable
      reads this
    {
      Durable(open, terminals, nextId, counter, captures, torn)
    }

    method MintId() returns (id: nat)
      modifies this`nextId
      ensures id == old(nextId) && nextId == old(nextId) + 1
    {
      id := nextId;
      nextId := nextId + 1;
    }

    method EmitTerminal(e: Emit)
      modifies this`terminals
      ensures terminals == old(terminals) + [e]
    {
      terminals := terminals + [e];
    }

    /** The write that makes an activity count. */
    method WriteOpen(rec: Record, ghost mono: int)
      modifies this`open, this`captures
      ensures open == Some(rec) && captures == old(captures) + [Capture(rec.id, rec.last, mono)]
    {
      open := Some(rec);
      captures := captures + [Capture(rec.id, rec.last, mono)];
    }
  }

  class SessionTracker {
    const host: Host
    const timeout: nat
    var sessionId: Option<nat>
    var sessionStartTime: int
    var lastActivityWall: int
    var lastActivityMono: int
    var armed: bool
    var ready: bool

    constructor (host: Host, timeout: nat)
      ensures this.host == host && this.timeout == timeout
      ensures TrackerState() == State(FRESH_MEMORY, host.State(), false)
    {
      this.host, this.timeout := host, timeout;
      sessionId, sessionStartTime, lastActivityWall, lastActivityMono, armed, ready := None, 0, 0, 0, false, false;
    }

    ghost function TrackerState(): State
      reads this, host
    {
      State(Memory(sessionId, sessionStartTime, lastActivityWall, lastActivityMono, armed), host.State(), ready)
    }

    method EndSession(reason: Reason, endWall: int)
      modifies this`sessionId, this`armed, host`terminals, host`open
      ensures TrackerState() == Exec(old(TrackerState()), EndPlan(old(TrackerState()).mem, reason, endWall))
    {
      ExecThree(TrackerState(), EndPlan(TrackerState().mem, reason, endWall));
      if sessionId.None? { return; }
      var id, start := sessionId.value, sessionStartTime;
      sessionId := None;
      armed := false;
      host.EmitTerminal(Emit(id, start, endWall, Max(0, endWall - start), reason));
      host.open := None;
    }

    method Reconcile()
      requires !ready
      modifies this`ready, host`terminals, host`open
      ensures TrackerState() == Exec(old(TrackerState()), ReconcilePlan(old(TrackerState()).dur.open))
    {
      ExecThree(TrackerState(), ReconcilePlan(TrackerState().dur.open));
      if host.open.Some? {
        var rec := host.open.value;
        host.EmitTerminal(Emit(rec.id, rec.start, rec.last, Max(0, rec.last - rec.start), Reconciled));
        host.open := None;
      }
      ready := true;
    }

    /** The session the capture belongs to: the current one, or a fresh one after none or an idle one. */
    method OnCapture(wall: int, mono: int) returns (id: nat)
      modifies this, host
      ensures ready == old(ready)
      ensures TrackerState() == Exec(old(TrackerState()), CapturePlan(old(TrackerState()).mem, timeout, wall, mono))
      ensures sessionId == Some(id) && host.open == Some(Record(id, sessionStartTime, wall))
    {
      hide Exec, EndPlan, CapturePlan, Do;
      CaptureUnfolds(TrackerState(), timeout, wall, mono);
      if sessionId.Some? && mono - lastActivityMono >= timeout {
        EndSession(Timeout, lastActivityWall);
      }
      if sessionId.None? {
        var minted := host.MintId();
        sessionId := Some(minted);
        sessionStartTime := wall;
        host.counter := host.counter + 1;
      }
      lastActivityWall := wall;
      lastActivityMono := mono;
      id := sessionId.value;
      host.WriteOpen(Record(id, sessionStartTime, lastActivityWall), mono);
      armed := true;
    }

    method OnTimerFire(mono: int)
      modifies this`sessionId, this`armed, host`terminals, host`open
      ensures TrackerState() == Exec(old(TrackerState()), TimerPlan(old(TrackerState()).mem, timeout, mono))
    {
      if sessionId.None? || !armed { return; }
      var elapsed := mono - lastActivityMono;
      if elapsed >= timeout {
        EndSession(Timeout, lastActivityWall);
      } else {
        ExecOne(TrackerState(), Arm);
        armed := true;
      }
    }

    method Close(now: int)
      modifies this`sessionId, this`armed, host`terminals, host`open
      ensures TrackerState() == Exec(old(TrackerState()), EndPlan(old(TrackerState()).mem, AppClose, now))
    {
      if sessionId.None? { return; }
      EndSession(AppClose, now);
    }
  }

  function Begun(s: State, wall: int): State {
    State(s.mem.(sessionId := Some(s.dur.nextId), start := wall),
          s.dur.(nextId := s.dur.nextId + 1, counter := s.dur.counter + 1), s.ready)
  }

  function Registered(s: State, wall: int, mono: int): State
    requires s.mem.sessionId.Some?
  {
    var id := s.mem.sessionId.value;
    State(Memory(Some(id), s.mem.start, wall, mono, true), PersistedAs(s.dur, id, s.mem.start, wall, mono), s.ready)
  }

  /** A capture: end the idle session, begin one if there is none, register the activity. */
  lemma {:induction false} CaptureUnfolds(s: State, timeout: nat, wall: int, mono: int)
    ensures var s1 := if Idle(s.mem, mono, timeout) then Exec(s, EndPlan(s.mem, Timeout, s.mem.lastWall)) else s;
      var s2 := if s1.mem.sessionId.None? then Begun(s1, wall) else s1;
      Exec(s, CapturePlan(s.mem, timeout, wall, mono)) == Registered(s2, wall, mono)
  {
    var ending := if Idle(s.mem, mono, timeout) then EndPlan(s.mem, Timeout, s.mem.lastWall) else [];
    var beginning := if Idle(s.mem, mono, timeout) || s.mem.sessionId.None? then [Mint(wall), BumpCounter] else [];
    ExecAppend(s, ending, beginning + TouchPlan(wall, mono));
    ExecThree(s, ending);
    var s1 := Exec(s, ending);
    assert s1.mem.sessionId.None? <==> beginning != [];
    ExecAppend(s1, beginning, TouchPlan(wall, mono));
    ExecThree(s1, beginning);
    ExecTwo(s1, Mint(wall), BumpCounter);
    var s2 := Exec(s1, beginning);
    assert s2 == if beginning == [] then s1 else Begun(s1, wall);
    ExecThree(s2, TouchPlan(wall, mono));
  }

  lemma {:induction false} ExecAppend(s: State, a: seq<Micro>, b: seq<Micro>)
    ensures Exec(s, a + b) == Exec(Exec(s, a), b)
  {
    if b == [] {
      assert a + b == a;
    } else {
      var n := |b| - 1;
      ExecAppend(s, a, b[..n]);
      assert (a + b)[..|a + b| - 1] == a + b[..n];
    }
  }

  lemma ExecOne(s: State, m: Micro)
    ensures Exec(s, [m]) == Do(s, m)
  {
    assert [m][..0] == [];
  }

  lemma ExecTwo(s: State, m1: Micro, m2: Micro)
    ensures Exec(s, [m1, m2]) == Do(Do(s, m1), m2)
  {
    hide Do;
    assert [m1, m2][..1] == [m1];
    ExecOne(s, m1);
  }

  /** Unfold a plan of up to three steps, and each of its prefixes. */
  lemma ExecThree(s: State, plan: seq<Micro>)
    ensures Exec(s, []) == s
    ensures |plan| >= 1 ==> Exec(s, plan[..1]) == Do(s, plan[0])
    ensures |plan| >= 2 ==> Exec(s, plan[..2]) == Do(Do(s, plan[0]), plan[1])
    ensures |plan| >= 3 ==> Exec(s, plan[..3]) == Do(Do(Do(s, plan[0]), plan[1]), plan[2])
    ensures plan[..|plan|] == plan
  {
    hide Do;
    if |plan| >= 1 {
      ExecOne(s, plan[0]);
      assert plan[..1] == [plan[0]];
    }
    if |plan| >= 2 {
      ExecTwo(s, plan[0], plan[1]);
      assert plan[..2] == [plan[0], plan[1]];
    }
    if |plan| >= 3 {
      assert plan[..3][..2] == plan[..2];
    }
  }

  // ---- What storage always satisfies --------------------------------------------------

  function TerminalIds(terminals: seq<Emit>): seq<nat> {
    seq(|terminals|, i requires 0 <= i < |terminals| => terminals[i].id)
  }

  function Terminals(d: Durable, id: nat): nat { multiset(TerminalIds(d.terminals))[id] }
  function TornKills(d: Durable, id: nat): nat { multiset(d.torn)[id] }

  predicate Captured(captures: seq<Capture>, id: nat) {
    exists i :: 0 <= i < |captures| && captures[i].id == id
  }

  /** The wall clock of a session's first and of its last registered activity. */
  function FirstWall(captures: seq<Capture>, id: nat): Option<int> {
    if captures == [] then None
    else
      var n := |captures| - 1;
      var first := FirstWall(captures[..n], id);
      if first.Some? then first else if captures[n].id == id then Some(captures[n].wall) else None
  }

  function LastWall(captures: seq<Capture>, id: nat): Option<int> {
    if captures == [] then None
    else
      var n := |captures| - 1;
      if captures[n].id == id then Some(captures[n].wall) else LastWall(captures[..n], id)
  }

  /** Ids are minted in order, and a session's activities are not interleaved with another's. */
  ghost predicate IdsInOrder(d: Durable) {
    && (forall i :: 0 <= i < |d.captures| ==> d.captures[i].id < d.nextId)
    && (forall i, j :: 0 <= i < j < |d.captures| ==> d.captures[i].id <= d.captures[j].id)
    && (forall i :: 0 <= i < |d.terminals| ==> Captured(d.captures, d.terminals[i].id))
    && (forall i :: 0 <= i < |d.torn| ==> Captured(d.captures, d.torn[i]))
    && (d.open.Some? ==> d.captures != [] && d.captures[|d.captures| - 1].id == d.open.value.id)
  }

  /** Terminal events of a session: one per torn kill, and one more once its record is gone. */
  ghost predicate CountOk(d: Durable, pending: bool, id: nat) {
    Captured(d.captures, id) ==>
      Terminals(d, id) == TornKills(d, id) +
        if d.open.Some? && d.open.value.id == id then (if pending then 1 else 0) else 1
  }

  ghost predicate Counts(d: Durable, pending: bool) {
    forall id: nat :: CountOk(d, pending, id)
  }

  /** Two successive activities of one session are less than the timeout apart. */
  ghost predicate NoIdleGap(d: Durable, timeout: nat) {
    forall i :: 0 <= i < |d.captures| - 1 && d.captures[i].id == d.captures[i + 1].id ==>
      d.captures[i + 1].mono - d.captures[i].mono < timeout
  }

  predicate EmitIsTrue(captures: seq<Capture>, e: Emit) {
    && FirstWall(captures, e.id) == Some(e.start)
    && (e.reason != AppClose ==> LastWall(captures, e.id) == Some(e.end))
    && e.duration == Max(0, e.end - e.start)
  }

  /** A terminal event carries the first activity and, unless closed by the app, the last. */
  ghost predicate EmitsAreTrue(d: Durable) {
    && (forall i :: 0 <= i < |d.terminals| ==> EmitIsTrue(d.captures, d.terminals[i]))
    && (d.open.Some? ==> FirstWall(d.captures, d.open.value.id) == Some(d.open.value.start)
                         && LastWall(d.captures, d.open.value.id) == Some(d.open.value.last))
  }

  /** On a clock that never goes back: sessions are proper intervals that follow one another. */
  ghost predicate Intervals(d: Durable, clock: int) {
    && (forall i :: 0 <= i < |d.terminals| ==> d.terminals[i].start <= d.terminals[i].end <= clock)
    && (forall i, j :: 0 <= i < j < |d.terminals| && d.terminals[i].id != d.terminals[j].id ==>
          d.terminals[i].end <= d.terminals[j].start)
    && (d.open.Some? ==>
          && d.open.value.start <= d.open.value.last <= clock
          && forall i :: 0 <= i < |d.terminals| && d.terminals[i].id != d.open.value.id ==>
               d.terminals[i].end <= d.open.value.start)
  }

  /** `timely` says the wall clock has not gone back so far. */
  ghost predicate DInv(d: Durable, pending: bool, timeout: nat, timely: bool, clock: int) {
    && IdsInOrder(d) && Counts(d, pending) && NoIdleGap(d, timeout) && EmitsAreTrue(d)
    && (timely ==> Intervals(d, clock))
  }

  /** Memory mirrors the record of a live session, which has no terminal event and has its timer armed. */
  ghost predicate MemoryOk(s: State) {
    && (s.mem.sessionId.Some? ==>
          && s.ready && s.mem.armed
          && s.dur.open == Some(Record(s.mem.sessionId.value, s.mem.start, s.mem.lastWall))
          && s.dur.captures != []
          && s.dur.captures[|s.dur.captures| - 1] == Capture(s.mem.sessionId.value, s.mem.lastWall, s.mem.lastMono)
          && s.mem.sessionId.value !in s.dur.torn)
    && (s.ready && s.mem.sessionId.None? ==> s.dur.open.None?)
  }

  ghost predicate Inv(s: State, timeout: nat, timely: bool, clock: int) {
    DInv(s.dur, false, timeout, timely, clock) && MemoryOk(s)
  }

  // ---- Each step on storage -------------------------------------------------------------

  lemma {:induction false} TerminalsAppend(d: Durable, e: Emit, id: nat)
    ensures Terminals(d.(terminals := d.terminals + [e]), id) == Terminals(d, id) + if e.id == id then 1 else 0
  {
    assert TerminalIds(d.terminals + [e]) == TerminalIds(d.terminals) + [e.id];
  }

  lemma {:induction false} WallsAppend(captures: seq<Capture>, c: Capture, id: nat)
    ensures FirstWall(captures + [c], id) ==
      if FirstWall(captures, id).Some? then FirstWall(captures, id) else if c.id == id then Some(c.wall) else None
    ensures LastWall(captures + [c], id) == if c.id == id then Some(c.wall) else LastWall(captures, id)
    ensures Captured(captures + [c], id) <==> Captured(captures, id) || c.id == id
  {
    assert (captures + [c])[..|captures|] == captures;
    if Captured(captures, id) {
      var i :| 0 <= i < |captures| && captures[i].id == id;
      assert (captures + [c])[i].id == id;
    }
    if c.id == id {
      assert (captures + [c])[|captures|].id == id;
    }
  }

  lemma {:induction false} WallsExist(captures: seq<Capture>, id: nat)
    ensures Captured(captures, id) <==> FirstWall(captures, id).Some?
    ensures Captured(captures, id) <==> LastWall(captures, id).Some?
  {
    if captures != [] {
      var n := |captures| - 1;
      WallsExist(captures[..n], id);
      WallsAppend(captures[..n], captures[n], id);
      assert captures == captures[..n] + [captures[n]];
    }
  }

  /** Emitting for the open session leaves its clear pending. */
  lemma {:induction false} EnqueueKeeps(d: Durable, e: Emit, timeout: nat, timely: bool, clock: int, clock': int)
    requires DInv(d, false, timeout, timely, clock) && d.open.Some? && clock <= clock'
    requires e.id == d.open.value.id && e.start == d.open.value.start && e.duration == Max(0, e.end - e.start)
    requires if e.reason == AppClose then (timely ==> e.end == clock') else e.end == d.open.value.last
    ensures DInv(d.(terminals := d.terminals + [e]), true, timeout, timely, clock')
  {
    var d' := d.(terminals := d.terminals + [e]);
    hide FirstWall, LastWall;
    assert Captured(d.captures, e.id) by {
      assert d.captures[|d.captures| - 1].id == e.id;
    }
    hide Captured, Terminals, TornKills;
    assert Counts(d', true) by {
      forall id: nat ensures CountOk(d', true, id) {
        TerminalsAppend(d, e, id);
        assert CountOk(d, false, id);
      }
    }
  }

  lemma {:induction false} ClearKeeps(d: Durable, timeout: nat, timely: bool, clock: int)
    requires DInv(d, true, timeout, timely, clock) && d.open.Some?
    ensures DInv(d.(open := None), false, timeout, timely, clock)
  {
    var d' := d.(open := None);
    hide FirstWall, LastWall, Captured;
    forall id: nat ensures CountOk(d', false, id) {
      assert CountOk(d, true, id);
    }
  }

  /** A kill between the enqueue and the clear is one torn kill of the open session. */
  lemma {:induction false} TearKeeps(d: Durable, timeout: nat, timely: bool, clock: int)
    requires DInv(d, true, timeout, timely, clock) && d.open.Some?
    ensures DInv(d.(torn := d.torn + [d.open.value.id]), false, timeout, timely, clock)
  {
    var d' := d.(torn := d.torn + [d.open.value.id]);
    assert Captured(d.captures, d.open.value.id) by {
      assert d.captures[|d.captures| - 1].id == d.open.value.id;
    }
    hide FirstWall, LastWall, Captured;
    forall id: nat ensures CountOk(d', false, id) {
      assert CountOk(d, true, id);
    }
  }

  lemma {:induction false} MintKeeps(d: Durable, nextId: nat, counter: nat, timeout: nat, timely: bool, clock: int)
    requires DInv(d, false, timeout, timely, clock) && nextId >= d.nextId
    ensures DInv(d.(nextId := nextId, counter := counter), false, timeout, timely, clock)
  {
    var d' := d.(nextId := nextId, counter := counter);
    hide FirstWall, LastWall, Captured;
    forall id: nat ensures CountOk(d', false, id) {
      assert CountOk(d, false, id);
    }
  }

  function PersistedAs(d: Durable, id: nat, start: int, wall: int, mono: int): Durable {
    d.(open := Some(Record(id, start, wall)), captures := d.captures + [Capture(id, wall, mono)])
  }

  /** An activity opens a fresh session, or continues the live one within the timeout. */
  ghost predicate CanPersist(d: Durable, id: nat, start: int, wall: int, mono: int, timeout: nat) {
    && IdsInOrder(d) && Counts(d, false)
    && if d.open.None? then id < d.nextId && start == wall && forall i :: 0 <= i < |d.captures| ==> d.captures[i].id < id
       else && d.open.value.id == id && d.open.value.start == start && id !in d.torn
            && mono - d.captures[|d.captures| - 1].mono < timeout
  }

  /** No terminal event names the session of an activity. */
  lemma {:induction false} NoTerminal(d: Durable, id: nat, start: int, wall: int, mono: int, timeout: nat)
    requires CanPersist(d, id, start, wall, mono, timeout)
    ensures id !in TerminalIds(d.terminals) && id !in d.torn
    ensures forall i :: 0 <= i < |d.terminals| ==> d.terminals[i].id != id
    ensures Captured(d.captures, id) <==> d.open.Some?
  {
    var ids := TerminalIds(d.terminals);
    if d.open.Some? {
      assert d.captures[|d.captures| - 1].id == id;
      assert CountOk(d, false, id);
      forall i | 0 <= i < |d.terminals| ensures d.terminals[i].id != id {
        assert ids[i] in ids;
      }
    }
  }

  /** How the activity changes the walls of each session. */
  lemma {:induction false} WallsAfter(d: Durable, id: nat, start: int, wall: int, mono: int, timeout: nat, other: nat)
    requires CanPersist(d, id, start, wall, mono, timeout)
    ensures var captures := PersistedAs(d, id, start, wall, mono).captures;
      && (Captured(captures, other) <==> Captured(d.captures, other) || other == id)
      && (other != id ==> FirstWall(captures, other) == FirstWall(d.captures, other)
                          && LastWall(captures, other) == LastWall(d.captures, other))
      && LastWall(captures, id) == Some(wall)
      && FirstWall(captures, id) == if d.open.None? then Some(wall) else FirstWall(d.captures, id)
  {
    NoTerminal(d, id, start, wall, mono, timeout);
    WallsAppend(d.captures, Capture(id, wall, mono), other);
    WallsAppend(d.captures, Capture(id, wall, mono), id);
    WallsExist(d.captures, id);
  }

  lemma {:induction false} PersistIds(d: Durable, id: nat, start: int, wall: int, mono: int, timeout: nat)
    requires CanPersist(d, id, start, wall, mono, timeout)
    ensures IdsInOrder(PersistedAs(d, id, start, wall, mono))
  {
    forall other: nat {:trigger Captured(d.captures, other)}
      ensures Captured(PersistedAs(d, id, start, wall, mono).captures, other) <==> Captured(d.captures, other) || other == id
    {
      WallsAppend(d.captures, Capture(id, wall, mono), other);
    }
    hide Captured, Counts;
  }

  lemma {:induction false} PersistCounts(d: Durable, id: nat, start: int, wall: int, mono: int, timeout: nat)
    requires CanPersist(d, id, start, wall, mono, timeout)
    ensures Counts(PersistedAs(d, id, start, wall, mono), false)
  {
    var d' := PersistedAs(d, id, start, wall, mono);
    NoTerminal(d, id, start, wall, mono, timeout);
    forall other: nat ensures CountOk(d', false, other) {
      WallsAppend(d.captures, Capture(id, wall, mono), other);
      assert CountOk(d, false, other);
    }
  }

  lemma {:induction false} PersistGap(d: Durable, id: nat, start: int, wall: int, mono: int, timeout: nat)
    requires CanPersist(d, id, start, wall, mono, timeout) && NoIdleGap(d, timeout)
    ensures NoIdleGap(PersistedAs(d, id, start, wall, mono), timeout)
  {
    hide Captured, Counts;
  }

  lemma {:induction false} PersistEmits(d: Durable, id: nat, start: int, wall: int, mono: int, timeout: nat)
    requires CanPersist(d, id, start, wall, mono, timeout) && EmitsAreTrue(d)
    ensures EmitsAreTrue(PersistedAs(d, id, start, wall, mono))
  {
    var d' := PersistedAs(d, id, start, wall, mono);
    NoTerminal(d, id, start, wall, mono, timeout);
    forall i | 0 <= i < |d.terminals| ensures EmitIsTrue(d'.captures, d.terminals[i]) {
      WallsAfter(d, id, start, wall, mono, timeout, d.terminals[i].id);
    }
    WallsAfter(d, id, start, wall, mono, timeout, id);
  }

  lemma {:induction false} PersistIntervals(d: Durable, id: nat, start: int, wall: int, mono: int, timeout: nat,
                                            clock: int, clock': int)
    requires CanPersist(d, id, start, wall, mono, timeout) && Intervals(d, clock) && clock <= clock' == wall
    ensures Intervals(PersistedAs(d, id, start, wall, mono), clock')
  {
    hide Captured, Counts, IdsInOrder;
  }

  /** An activity keeps everything. */
  lemma {:induction false} PersistKeeps(d: Durable, id: nat, start: int, wall: int, mono: int, timeout: nat,
                                        timely: bool, clock: int, clock': int)
    requires DInv(d, false, timeout, timely, clock) && CanPersist(d, id, start, wall, mono, timeout)
    requires clock <= clock' && (timely ==> wall == clock')
    ensures DInv(PersistedAs(d, id, start, wall, mono), false, timeout, timely, clock')
  {
    PersistIds(d, id, start, wall, mono, timeout);
    PersistCounts(d, id, start, wall, mono, timeout);
    PersistGap(d, id, start, wall, mono, timeout);
    PersistEmits(d, id, start, wall, mono, timeout);
    if timely {
      PersistIntervals(d, id, start, wall, mono, timeout, clock, clock');
    }
    hide IdsInOrder, Counts, NoIdleGap, EmitsAreTrue, Intervals;
  }

  // ---- Each operation, and each operation cut short --------------------------------------

  /** Storage is sound, perhaps with one enqueued terminal event whose clear is still to come. */
  ghost predicate MidInv(s: State, justEnqueued: Option<nat>, timeout: nat, timely: bool, clock: int) {
    && DInv(s.dur, justEnqueued.Some?, timeout, timely, clock)
    && (justEnqueued.Some? ==> s.dur.open.Some? && s.dur.open.value.id == justEnqueued.value)
  }

  lemma {:induction false} KillKeeps(s: State, justEnqueued: Option<nat>, timeout: nat, timely: bool, clock: int)
    requires MidInv(s, justEnqueued, timeout, timely, clock)
    ensures Inv(Killed(s, justEnqueued), timeout, timely, clock)
  {
    if justEnqueued.Some? {
      TearKeeps(s.dur, timeout, timely, clock);
    }
    hide DInv;
  }

  /** The plan that ends the live session, cut after `k` steps. */
  lemma {:induction false} EndCut(s: State, reason: Reason, end: int, k: nat, timeout: nat, timely: bool, clock: int,
                                  clock': int)
    requires Inv(s, timeout, timely, clock) && clock <= clock' && s.ready
    requires reason != Reconciled
    requires s.mem.sessionId.Some? ==> if reason == AppClose then (timely ==> end == clock') else end == s.mem.lastWall
    requires k <= |EndPlan(s.mem, reason, end)|
    ensures var done := EndPlan(s.mem, reason, end)[..k]; MidInv(Exec(s, done), JustEnqueued(done), timeout, timely, clock')
    ensures var after := Exec(s, EndPlan(s.mem, reason, end));
      Inv(after, timeout, timely, clock') && after.mem.sessionId.None? && after.ready
  {
    hide DInv, Exec, JustEnqueued;
    var plan := EndPlan(s.mem, reason, end);
    ExecThree(s, plan);
    CutOfThree(plan, k);
    LaterClock(s.dur, timeout, timely, clock, clock');
    if plan != [] {
      var e := plan[1].e;
      EnqueueKeeps(s.dur, e, timeout, timely, clock, clock');
      var d1 := s.dur.(terminals := s.dur.terminals + [e]);
      ClearKeeps(d1, timeout, timely, clock');
    }
  }

  lemma {:induction false} LaterClock(d: Durable, timeout: nat, timely: bool, clock: int, clock': int)
    requires DInv(d, false, timeout, timely, clock) && clock <= clock'
    ensures DInv(d, false, timeout, timely, clock')
  {
    hide IdsInOrder, Counts, NoIdleGap, EmitsAreTrue;
  }

  lemma {:induction false} ReconcileCut(s: State, k: nat, timeout: nat, timely: bool, clock: int)
    requires Inv(s, timeout, timely, clock) && !s.ready
    requires k <= |ReconcilePlan(s.dur.open)|
    ensures var done := ReconcilePlan(s.dur.open)[..k]; MidInv(Exec(s, done), JustEnqueued(done), timeout, timely, clock)
    ensures Inv(Exec(s, ReconcilePlan(s.dur.open)), timeout, timely, clock)
  {
    hide DInv, Exec, JustEnqueued;
    var plan := ReconcilePlan(s.dur.open);
    ExecThree(s, plan);
    if s.dur.open.Some? {
      var e := plan[0].e;
      EnqueueKeeps(s.dur, e, timeout, timely, clock, clock);
      var d1 := s.dur.(terminals := s.dur.terminals + [e]);
      ClearKeeps(d1, timeout, timely, clock);
    }
    CutOfThree(plan, k);
  }

  /** Registering the activity, cut after `k` steps; `s.mem` names its session. */
  lemma {:induction false} TouchCut(s: State, wall: int, mono: int, k: nat, timeout: nat, timely: bool, clock: int,
                                    clock': int)
    requires DInv(s.dur, false, timeout, timely, clock) && s.ready && s.mem.sessionId.Some?
    requires CanPersist(s.dur, s.mem.sessionId.value, s.mem.start, wall, mono, timeout)
    requires clock <= clock' && (timely ==> wall == clock')
    requires k <= 3
    ensures var done := TouchPlan(wall, mono)[..k]; MidInv(Exec(s, done), JustEnqueued(done), timeout, timely, clock')
    ensures Inv(Exec(s, TouchPlan(wall, mono)), timeout, timely, clock')
  {
    hide DInv, Exec, CanPersist, JustEnqueued;
    var plan := TouchPlan(wall, mono);
    ExecThree(s, plan);
    var id := s.mem.sessionId.value;
    PersistKeeps(s.dur, id, s.mem.start, wall, mono, timeout, timely, clock, clock');
    LaterClock(s.dur, timeout, timely, clock, clock');
    NoTerminal(s.dur, id, s.mem.start, wall, mono, timeout);
    CutOfThree(plan, k);
  }

  lemma {:induction false} MintedCanPersist(s: State, wall: int, mono: int, timeout: nat, timely: bool, clock: int)
    requires Inv(s, timeout, timely, clock) && s.ready && s.mem.sessionId.None?
    ensures var d := s.dur.(nextId := s.dur.nextId + 1, counter := s.dur.counter + 1);
      DInv(d, false, timeout, timely, clock) && CanPersist(d, s.dur.nextId, wall, wall, mono, timeout)
  {
    MintKeeps(s.dur, s.dur.nextId + 1, s.dur.counter + 1, timeout, timely, clock);
    assert IdsInOrder(s.dur);
    hide Counts, NoIdleGap, EmitsAreTrue, Intervals;
  }

  /** Minting a session, cut after `k` steps. */
  lemma {:induction false} BeginCut(s: State, wall: int, mono: int, k: nat, timeout: nat, timely: bool, clock: int)
    requires Inv(s, timeout, timely, clock) && s.ready && s.mem.sessionId.None?
    requires k <= 2
    ensures var done := [Mint(wall), BumpCounter][..k]; MidInv(Exec(s, done), JustEnqueued(done), timeout, timely, clock)
    ensures var after := Exec(s, [Mint(wall), BumpCounter]);
      && DInv(after.dur, false, timeout, timely, clock) && after.ready
      && after.mem.sessionId.Some? && after.mem.start == wall
      && CanPersist(after.dur, after.mem.sessionId.value, wall, wall, mono, timeout)
  {
    hide Exec, DInv, CanPersist;
    var plan := [Mint(wall), BumpCounter];
    ExecThree(s, plan);
    MintKeeps(s.dur, s.dur.nextId + 1, s.dur.counter, timeout, timely, clock);
    MintedCanPersist(s, wall, mono, timeout, timely, clock);
    CutOfThree(plan, k);
  }

  /** The last step of a cut plan of up to three steps. */
  lemma {:induction false} CutOfThree(plan: seq<Micro>, k: nat)
    requires k <= |plan| <= 3
    ensures k == 0 ==> plan[..k] == [] && JustEnqueued(plan[..k]).None?
    ensures k == 1 ==> plan[..k] == plan[..1]
    ensures k == 2 ==> plan[..k] == plan[..2]
    ensures k == 3 ==> plan[..k] == plan[..3]
    ensures k > 0 ==> JustEnqueued(plan[..k]) == if plan[k - 1].Enqueue? then Some(plan[k - 1].e.id) else None
  {
  }

  lemma {:induction false} AppendCut(s: State, a: seq<Micro>, b: seq<Micro>, k: nat)
    requires k <= |a + b|
    ensures k <= |a| ==> (a + b)[..k] == a[..k]
    ensures k > |a| ==>
      && (a + b)[..k] == a + b[..k - |a|]
      && Exec(s, (a + b)[..k]) == Exec(Exec(s, a), b[..k - |a|])
      && JustEnqueued((a + b)[..k]) == JustEnqueued(b[..k - |a|])
  {
    if k > |a| {
      assert (a + b)[..k] == a + b[..k - |a|];
      ExecAppend(s, a, b[..k - |a|]);
    }
  }

  /** Minting if need be and then registering, cut after `k` steps. */
  lemma {:induction false} StartOrContinueCut(s: State, begin: bool, wall: int, mono: int, k: nat, timeout: nat,
                                              timely: bool,
                                              clock: int, clock': int)
    requires Inv(s, timeout, timely, clock) && s.ready && (begin <==> s.mem.sessionId.None?)
    requires !begin ==> mono - s.mem.lastMono < timeout
    requires clock <= clock' && (timely ==> wall == clock')
    requires k <= |(if begin then [Mint(wall), BumpCounter] else []) + TouchPlan(wall, mono)|
    ensures var plan := (if begin then [Mint(wall), BumpCounter] else []) + TouchPlan(wall, mono); var done := plan[..k];
      && MidInv(Exec(s, done), JustEnqueued(done), timeout, timely, clock')
      && Inv(Exec(s, plan), timeout, timely, clock')
  {
    var beginning := if begin then [Mint(wall), BumpCounter] else [];
    var tail := TouchPlan(wall, mono);
    ExecAppend(s, beginning, tail);
    AppendCut(s, beginning, tail, k);
    if begin {
      BeginCut(s, wall, mono, if k <= 2 then k else 2, timeout, timely, clock);
      if k <= 2 {
        LaterMid(Exec(s, beginning[..k]), JustEnqueued(beginning[..k]), timeout, timely, clock, clock');
      }
    } else {
      assert Exec(s, beginning) == s;
      LiveCanPersist(s, wall, mono, timeout, timely, clock);
    }
    var s1 := Exec(s, beginning);
    hide DInv, Exec, CanPersist;
    TouchCut(s1, wall, mono, if k <= |beginning| then 0 else k - |beginning|, timeout, timely, clock, clock');
    if k == 0 {
      assert beginning[..0] == tail[..0] == [];
    }
  }

  lemma {:induction false} LiveCanPersist(s: State, wall: int, mono: int, timeout: nat, timely: bool, clock: int)
    requires Inv(s, timeout, timely, clock) && s.mem.sessionId.Some? && mono - s.mem.lastMono < timeout
    ensures DInv(s.dur, false, timeout, timely, clock)
    ensures CanPersist(s.dur, s.mem.sessionId.value, s.mem.start, wall, mono, timeout)
  {
  }

  lemma {:induction false} LaterMid(s: State, justEnqueued: Option<nat>, timeout: nat, timely: bool, clock: int,
                                    clock': int)
    requires MidInv(s, justEnqueued, timeout, timely, clock) && clock <= clock'
    ensures MidInv(s, justEnqueued, timeout, timely, clock')
  {
    hide IdsInOrder, Counts, NoIdleGap, EmitsAreTrue;
  }

  lemma {:induction false} CaptureCut(s: State, wall: int, mono: int, k: nat, timeout: nat, timely: bool, clock: int,
                                      clock': int)
    requires Inv(s, timeout, timely, clock) && s.ready
    requires clock <= clock' && (timely ==> wall == clock')
    requires k <= |CapturePlan(s.mem, timeout, wall, mono)|
    ensures var plan := CapturePlan(s.mem, timeout, wall, mono); var done := plan[..k];
      && MidInv(Exec(s, done), JustEnqueued(done), timeout, timely, clock')
      && Inv(Exec(s, plan), timeout, timely, clock')
  {
    hide Inv, MidInv, Exec;
    var idle := Idle(s.mem, mono, timeout);
    var begin := idle || s.mem.sessionId.None?;
    var ending := if idle then EndPlan(s.mem, Timeout, s.mem.lastWall) else [];
    var tail := (if begin then [Mint(wall), BumpCounter] else []) + TouchPlan(wall, mono);
    ExecAppend(s, ending, tail);
    AppendCut(s, ending, tail, k);
    if idle {
      EndCut(s, Timeout, s.mem.lastWall, if k <= |ending| then k else |ending|, timeout, timely, clock, clock);
      if k <= |ending| {
        LaterMid(Exec(s, ending[..k]), JustEnqueued(ending[..k]), timeout, timely, clock, clock');
      }
    } else {
      ExecThree(s, []);
      assert ending == [];
    }
    StartOrContinueCut(Exec(s, ending), begin, wall, mono, if k <= |ending| then 0 else k - |ending|,
                       timeout, timely, clock, clock');
    if !idle && k == 0 {
      assert ending[..0] == tail[..0] == [];
    }
  }

  lemma {:induction false} TimerCut(s: State, mono: int, k: nat, timeout: nat, timely: bool, clock: int)
    requires Inv(s, timeout, timely, clock) && s.ready
    requires k <= |TimerPlan(s.mem, timeout, mono)|
    ensures var plan := TimerPlan(s.mem, timeout, mono); var done := plan[..k];
      && MidInv(Exec(s, done), JustEnqueued(done), timeout, timely, clock)
      && Inv(Exec(s, plan), timeout, timely, clock)
  {
    var plan := TimerPlan(s.mem, timeout, mono);
    ExecThree(s, plan);
    hide DInv, Exec;
    if s.mem.sessionId.Some? && s.mem.armed && Idle(s.mem, mono, timeout) {
      EndCut(s, Timeout, s.mem.lastWall, k, timeout, timely, clock, clock);
    } else {
      assert plan[..k] == if k == 0 then [] else plan[..1];
    }
  }

  // ---- Runs ----------------------------------------------------------------------------------

  function WallOf(op: Op, clock: int): int {
    match op
    case OnCapture(wall, _) => wall
    case Close(now) => now
    case _ => clock
  }

  /** The wall clock never goes back along the run. */
  predicate NeverBack(clock: int, actions: seq<Action>)
    decreases |actions|
  {
    actions == [] || (WallOf(actions[0].op, clock) >= clock && NeverBack(WallOf(actions[0].op, clock), actions[1..]))
  }

  lemma {:induction false} OpCut(s: State, timeout: nat, op: Op, k: nat, timely: bool, clock: int, clock': int)
    requires Inv(s, timeout, timely, clock) && k <= |Plan(s, timeout, op)|
    requires clock <= clock' && (timely ==> clock' == WallOf(op, clock))
    ensures var plan := Plan(s, timeout, op);
      && MidInv(Exec(s, plan[..k]), JustEnqueued(plan[..k]), timeout, timely, clock')
      && Inv(Exec(s, plan), timeout, timely, clock')
  {
    hide Exec, CapturePlan, EndPlan, TimerPlan, ReconcilePlan, DInv;
    var plan := Plan(s, timeout, op);
    ExecThree(s, []);
    LaterClock(s.dur, timeout, timely, clock, clock');
    if plan == [] {
      assert plan[..k] == [];
    } else {
      match op {
        case Reconcile =>
          ReconcileCut(s, k, timeout, timely, clock);
          LaterMid(Exec(s, plan[..k]), JustEnqueued(plan[..k]), timeout, timely, clock, clock');
          LaterClock(Exec(s, plan).dur, timeout, timely, clock, clock');
        case OnCapture(wall, mono) => CaptureCut(s, wall, mono, k, timeout, timely, clock, clock');
        case OnTimerFire(mono) =>
          TimerCut(s, mono, k, timeout, timely, clock);
          LaterMid(Exec(s, plan[..k]), JustEnqueued(plan[..k]), timeout, timely, clock, clock');
          LaterClock(Exec(s, plan).dur, timeout, timely, clock, clock');
        case Close(now) => EndCut(s, AppClose, now, k, timeout, timely, clock, clock');
      }
    }
  }

  /** Every operation, completed or killed after any step, keeps the invariant. */
  lemma {:induction false} NextKeeps(s: State, timeout: nat, a: Action, timely: bool, clock: int, clock': int)
    requires Inv(s, timeout, timely, clock)
    requires clock <= clock' && (timely ==> clock' == WallOf(a.op, clock))
    ensures Inv(Next(s, timeout, a), timeout, timely, clock')
  {
    hide Inv, MidInv, Exec, Plan, Killed;
    var plan := Plan(s, timeout, a.op);
    var k := if a.Kill? && a.after <= |plan| then a.after else |plan|;
    assert plan[..|plan|] == plan;
    OpCut(s, timeout, a.op, k, timely, clock, clock');
    if a.Kill? {
      KillKeeps(Exec(s, plan[..k]), JustEnqueued(plan[..k]), timeout, timely, clock');
    }
  }

  lemma {:induction false} RunsKeep(s: State, timeout: nat, actions: seq<Action>, timely: bool,
                                    clock: int) returns (end: int)
    requires Inv(s, timeout, timely, clock)
    requires timely ==> NeverBack(clock, actions)
    ensures Inv(Runs(s, timeout, actions), timeout, timely, end)
    decreases |actions|
  {
    hide Inv, Next;
    end := clock;
    if actions != [] {
      var clock' := if timely then WallOf(actions[0].op, clock) else clock;
      NextKeeps(s, timeout, actions[0], timely, clock, clock');
      end := RunsKeep(Next(s, timeout, actions[0]), timeout, actions[1..], timely, clock');
    }
  }

  lemma {:induction false} InstalledOk(timeout: nat, timely: bool, clock: int)
    ensures Inv(INSTALLED, timeout, timely, clock)
  {
  }

  /**
   * Over every run of captures, timer fires, closes, kills after any step and re-inits: a
   * session that registered an activity is the one open persisted session, or has ended,
   * with exactly one terminal event besides one for each kill that fell between an enqueue
   * and its clear. A live session is persisted, unended, and has its timer armed.
   */
  lemma {:induction false} ExactlyOneTerminal(timeout: nat, actions: seq<Action>, id: nat)
    ensures var s := Runs(INSTALLED, timeout, actions);
      && (Captured(s.dur.captures, id) ==>
            Terminals(s.dur, id) == TornKills(s.dur, id) + if s.dur.open.Some? && s.dur.open.value.id == id then 0 else 1)
      && (s.mem.sessionId == Some(id) ==>
            s.dur.open.Some? && s.dur.open.value.id == id && Terminals(s.dur, id) == 0 && s.mem.armed)
      && (s.ready && s.mem.sessionId.None? ==> s.dur.open.None?)
  {
    InstalledOk(timeout, false, 0);
    var _ := RunsKeep(INSTALLED, timeout, actions, false, 0);
    var s := Runs(INSTALLED, timeout, actions);
    hide Runs;
    assert CountOk(s.dur, false, id);
    if s.mem.sessionId == Some(id) {
      assert s.dur.captures[|s.dur.captures| - 1].id == id;
    }
  }

  /**
   * Sessions are runs of activities never a timeout apart, and a terminal event reports the
   * true first activity, and the true last one unless the app closed the session.
   */
  lemma {:induction false} SessionsHaveNoIdleGap(timeout: nat, actions: seq<Action>)
    ensures var d := Runs(INSTALLED, timeout, actions).dur;
      && (forall i :: 0 <= i < |d.captures| - 1 && d.captures[i].id == d.captures[i + 1].id ==>
            d.captures[i + 1].mono - d.captures[i].mono < timeout)
      && (forall i, j :: 0 <= i < j < |d.captures| ==> d.captures[i].id <= d.captures[j].id)
      && (forall i :: 0 <= i < |d.terminals| ==>
            var e := d.terminals[i];
            && FirstWall(d.captures, e.id) == Some(e.start)
            && (e.reason != AppClose ==> LastWall(d.captures, e.id) == Some(e.end))
            && e.duration == Max(0, e.end - e.start))
  {
    InstalledOk(timeout, false, 0);
    var _ := RunsKeep(INSTALLED, timeout, actions, false, 0);
    hide Runs, FirstWall, LastWall;
    var d := Runs(INSTALLED, timeout, actions).dur;
    forall i | 0 <= i < |d.terminals| ensures EmitIsTrue(d.captures, d.terminals[i]) {
    }
  }

  /** On a wall clock that never goes back, the intervals of distinct sessions never overlap. */
  lemma {:induction false} SessionsDoNotOverlap(timeout: nat, actions: seq<Action>, clock: int)
    requires NeverBack(clock, actions)
    ensures var d := Runs(INSTALLED, timeout, actions).dur;
      && (forall i :: 0 <= i < |d.terminals| ==>
            && d.terminals[i].start <= d.terminals[i].end
            && d.terminals[i].duration == d.terminals[i].end - d.terminals[i].start)
      && (forall i, j :: 0 <= i < j < |d.terminals| && d.terminals[i].id != d.terminals[j].id ==>
            d.terminals[i].end <= d.terminals[j].start)
  {
    InstalledOk(timeout, true, clock);
    var _ := RunsKeep(INSTALLED, timeout, actions, true, clock);
    hide Runs, FirstWall, LastWall, Counts, IdsInOrder, NoIdleGap;
    var d := Runs(INSTALLED, timeout, actions).dur;
    forall i | 0 <= i < |d.terminals|
      ensures d.terminals[i].start <= d.terminals[i].end && d.terminals[i].duration == d.terminals[i].end - d.terminals[i].start
    {
      assert EmitIsTrue(d.captures, d.terminals[i]);
    }
  }

  // ---- When a session ends, and when it does not ---------------------------------------------

  lemma {:induction false} ReachableOk(timeout: nat, actions: seq<Action>)
    ensures var s := Runs(INSTALLED, timeout, actions);
      && MemoryOk(s)
      && (forall i :: 0 <= i < |s.dur.captures| ==> s.dur.captures[i].id < s.dur.nextId)
      && (s.mem.sessionId.Some? ==> FirstWall(s.dur.captures, s.mem.sessionId.value) == Some(s.mem.start))
  {
    InstalledOk(timeout, false, 0);
    var _ := RunsKeep(INSTALLED, timeout, actions, false, 0);
    hide Runs, FirstWall, LastWall, Counts, NoIdleGap, Captured;
  }

  /** The latest activity. */
  function LastCapture(d: Durable): Capture
    requires d.captures != []
  {
    d.captures[|d.captures| - 1]
  }

  /**
   * A capture while a session is live: within the timeout of the last activity it continues
   * that session and nothing is emitted; from the timeout on it ends the session at its
   * last activity and begins a fresh one.
   */
  lemma {:induction false} CaptureContinuesIff(timeout: nat, actions: seq<Action>, wall: int, mono: int)
    requires Runs(INSTALLED, timeout, actions).mem.sessionId.Some?
    ensures Runs(INSTALLED, timeout, actions).dur.captures != []
    ensures var s := Runs(INSTALLED, timeout, actions); var last := LastCapture(s.dur);
      var after := Next(s, timeout, Run(OnCapture(wall, mono)));
      && (mono - last.mono < timeout ==>
            && after.dur.captures == s.dur.captures + [Capture(last.id, wall, mono)]
            && after.dur.terminals == s.dur.terminals && after.dur.counter == s.dur.counter
            && after.mem.sessionId == Some(last.id))
      && (mono - last.mono >= timeout ==>
            && after.dur.captures == s.dur.captures + [Capture(s.dur.nextId, wall, mono)] && last.id < s.dur.nextId
            && after.dur.terminals == s.dur.terminals + [TimeoutOf(s.dur)] && after.dur.counter == s.dur.counter + 1
            && after.mem.sessionId == Some(s.dur.nextId) && after.mem.start == wall)
  {
    ReachableOk(timeout, actions);
    hide Runs, Exec, CapturePlan, FirstWall;
    var s := Runs(INSTALLED, timeout, actions);
    CaptureUnfolds(s, timeout, wall, mono);
    ExecThree(s, EndPlan(s.mem, Timeout, s.mem.lastWall));
  }

  /** The terminal event of a session that times out: from its first to its last activity. */
  function TimeoutOf(d: Durable): Emit
    requires d.captures != []
  {
    var last := LastCapture(d);
    var first := FirstWall(d.captures, last.id);
    var start := if first.Some? then first.value else last.wall;
    Emit(last.id, start, last.wall, if last.wall >= start then last.wall - start else 0, Timeout)
  }

  /** A capture with no live session begins a fresh one. */
  lemma {:induction false} CaptureBegins(timeout: nat, actions: seq<Action>, wall: int, mono: int)
    requires var s := Runs(INSTALLED, timeout, actions); s.ready && s.mem.sessionId.None?
    ensures var s := Runs(INSTALLED, timeout, actions); var after := Next(s, timeout, Run(OnCapture(wall, mono)));
      && after.dur.captures == s.dur.captures + [Capture(s.dur.nextId, wall, mono)]
      && (forall i :: 0 <= i < |s.dur.captures| ==> s.dur.captures[i].id < s.dur.nextId)
      && after.dur.terminals == s.dur.terminals && after.dur.counter == s.dur.counter + 1
      && after.mem.sessionId == Some(s.dur.nextId) && after.mem.start == wall
  {
    ReachableOk(timeout, actions);
    hide Runs, Exec, CapturePlan;
    CaptureUnfolds(Runs(INSTALLED, timeout, actions), timeout, wall, mono);
  }

  /** A timer that fires early leaves the session live and armed; from the timeout on it ends it. */
  lemma {:induction false} TimerEndsIff(timeout: nat, actions: seq<Action>, mono: int)
    requires Runs(INSTALLED, timeout, actions).mem.sessionId.Some?
    ensures Runs(INSTALLED, timeout, actions).dur.captures != []
    ensures var s := Runs(INSTALLED, timeout, actions); var last := LastCapture(s.dur);
      var after := Next(s, timeout, Run(OnTimerFire(mono)));
      && (mono - last.mono < timeout ==> after == s && s.mem.armed)
      && (mono - last.mono >= timeout ==>
            && after.mem.sessionId.None? && !after.mem.armed && after.dur.open.None? && after.ready
            && after.dur.terminals == s.dur.terminals + [TimeoutOf(s.dur)] && after.dur.captures == s.dur.captures
            && after.dur.nextId == s.dur.nextId)
  {
    ReachableOk(timeout, actions);
    hide Runs, Exec, FirstWall;
    var s := Runs(INSTALLED, timeout, actions);
    ExecThree(s, EndPlan(s.mem, Timeout, s.mem.lastWall));
    ExecOne(s, Arm);
  }

  /** A close ends the live session now; with none live it does nothing. */
  lemma {:induction false} CloseEndsSession(timeout: nat, actions: seq<Action>, now: int)
    requires Runs(INSTALLED, timeout, actions).ready
    ensures var s := Runs(INSTALLED, timeout, actions); var after := Next(s, timeout, Run(Close(now)));
      && (s.mem.sessionId.None? ==> after == s)
      && (s.mem.sessionId.Some? ==>
            && s.dur.captures != [] && s.mem.sessionId == Some(LastCapture(s.dur).id)
            && after.mem.sessionId.None? && after.dur.open.None? && after.ready && after.dur.captures == s.dur.captures
            && var start := TimeoutOf(s.dur).start;
               after.dur.terminals == s.dur.terminals
                 + [Emit(LastCapture(s.dur).id, start, now, if now >= start then now - start else 0, AppClose)])
  {
    ReachableOk(timeout, actions);
    hide Runs, Exec, FirstWall;
    var s := Runs(INSTALLED, timeout, actions);
    ExecThree(s, EndPlan(s.mem, AppClose, now));
  }

  /** After a kill nothing runs before the re-init, which closes a surviving record at its last activity. */
  lemma {:induction false} ReinitComesFirst(timeout: nat, actions: seq<Action>, op: Op)
    requires !Runs(INSTALLED, timeout, actions).ready
    ensures var s := Runs(INSTALLED, timeout, actions); var after := Next(s, timeout, Run(op));
      && (!op.Reconcile? ==> after == s)
      && (op.Reconcile? ==>
            && after.ready && after.dur.open.None? && after.dur.captures == s.dur.captures && after.mem == s.mem
            && (s.dur.open.None? ==> after.dur == s.dur)
            && (s.dur.open.Some? ==>
                  var r := s.dur.open.value;
                  after.dur.terminals == s.dur.terminals
                    + [Emit(r.id, r.start, r.last, if r.last >= r.start then r.last - r.start else 0, Reconciled)]))
  {
    hide Runs, Exec;
    var s := Runs(INSTALLED, timeout, actions);
    ExecThree(s, ReconcilePlan(s.dur.open));
  }

  function Fires(monos: seq<int>): seq<Action> {
    seq(|monos|, i requires 0 <= i < |monos| => Run(OnTimerFire(monos[i])))
  }

  lemma {:induction false} RunsAppend(s: State, timeout: nat, a: seq<Action>, b: seq<Action>)
    ensures Runs(s, timeout, a + b) == Runs(Runs(s, timeout, a), timeout, b)
    decreases |a|
  {
    hide Next;
    if a == [] {
      assert a + b == b;
    } else {
      assert (a + b)[1..] == a[1..] + b;
      RunsAppend(Next(s, timeout, a[0]), timeout, a[1..], b);
    }
  }

  lemma RunsOne(s: State, timeout: nat, a: Action)
    ensures Runs(s, timeout, [a]) == Next(s, timeout, a)
  {
    hide Next;
    assert [a][1..] == [];
  }

  predicate AllEarly(monos: seq<int>, since: int, timeout: nat) {
    forall i :: 0 <= i < |monos| ==> monos[i] - since < timeout
  }

  lemma AllEarlyLast(monos: seq<int>, since: int, timeout: nat)
    requires monos != []
    ensures var n := |monos| - 1;
      AllEarly(monos, since, timeout) <==> AllEarly(monos[..n], since, timeout) && monos[n] - since < timeout
  {
    assert forall i :: 0 <= i < |monos| - 1 ==> monos[..|monos| - 1][i] == monos[i];
  }

  /** Timer fires on a session: it stays live until one of them is late enough. */
  lemma {:induction false} FiresEndIff(timeout: nat, actions: seq<Action>, monos: seq<int>)
    requires Runs(INSTALLED, timeout, actions).mem.sessionId.Some?
    ensures Runs(INSTALLED, timeout, actions).dur.captures != []
    ensures var s := Runs(INSTALLED, timeout, actions); var last := LastCapture(s.dur);
      var after := Runs(INSTALLED, timeout, actions + Fires(monos));
      && after.dur.captures == s.dur.captures && after.ready && after.dur.nextId == s.dur.nextId
      && (after.mem.sessionId == Some(last.id) <==> AllEarly(monos, last.mono, timeout))
      && (after.mem.sessionId.Some? ==> after == s)
      && (after.mem.sessionId.None? || after.mem.sessionId == Some(last.id))
    decreases |monos|
  {
    ReachableOk(timeout, actions);
    var s := Runs(INSTALLED, timeout, actions);
    if monos == [] {
      assert actions + Fires(monos) == actions;
    } else {
      var n := |monos| - 1;
      FiresEndIff(timeout, actions, monos[..n]);
      var before := actions + Fires(monos[..n]);
      var fire := Run(OnTimerFire(monos[n]));
      assert actions + Fires(monos) == before + [fire];
      RunsAppend(INSTALLED, timeout, before, [fire]);
      RunsOne(Runs(INSTALLED, timeout, before), timeout, fire);
      if Runs(INSTALLED, timeout, before).mem.sessionId.Some? {
        TimerEndsIff(timeout, before, monos[n]);
      } else {
        FireOnNothing(Runs(INSTALLED, timeout, before), timeout, monos[n]);
      }
      AllEarlyLast(monos, LastCapture(s.dur).mono, timeout);
      hide Runs, Next, TimeoutOf, AllEarly;
    }
  }

  lemma FireOnNothing(s: State, timeout: nat, mono: int)
    requires s.mem.sessionId.None?
    ensures Next(s, timeout, Run(OnTimerFire(mono))) == s
  {
  }

  /**
   * Two successive captures of one process, with nothing but timer fires between them, on a
   * monotonic clock that does not go back: they belong to one session exactly when they are
   * less than the timeout apart. So, besides the idle timeout, only a close, a kill or a
   * re-init between them separates two activities.
   */
  lemma {:induction false} SameSessionIff(timeout: nat, actions: seq<Action>, wall1: int, mono1: int, fires: seq<int>,
                                          wall2: int, mono2: int)
    requires Runs(INSTALLED, timeout, actions).ready && forall i :: 0 <= i < |fires| ==> fires[i] <= mono2
    ensures var d := Runs(INSTALLED, timeout, actions).dur;
      var after := Runs(INSTALLED, timeout,
                        actions + [Run(OnCapture(wall1, mono1))] + Fires(fires) + [Run(OnCapture(wall2, mono2))]).dur;
      && |after.captures| == |d.captures| + 2 && after.captures[..|d.captures|] == d.captures
      && after.captures[|d.captures|].mono == mono1 && after.captures[|d.captures| + 1].mono == mono2
      && (after.captures[|d.captures|].id == after.captures[|d.captures| + 1].id <==> mono2 - mono1 < timeout)
  {
    var first, second := Run(OnCapture(wall1, mono1)), Run(OnCapture(wall2, mono2));
    var begun := actions + [first];
    var waited := begun + Fires(fires);
    var s := Runs(INSTALLED, timeout, actions);
    RunsAppend(INSTALLED, timeout, actions, [first]);
    RunsOne(s, timeout, first);
    RunsAppend(INSTALLED, timeout, waited, [second]);
    RunsOne(Runs(INSTALLED, timeout, waited), timeout, second);
    hide Runs, Next, TimeoutOf, Fires;
    if s.mem.sessionId.Some? {
      CaptureContinuesIff(timeout, actions, wall1, mono1);
    } else {
      CaptureBegins(timeout, actions, wall1, mono1);
    }
    FiresEndIff(timeout, begun, fires);
    if Runs(INSTALLED, timeout, waited).mem.sessionId.Some? {
      CaptureContinuesIff(timeout, waited, wall2, mono2);
    } else {
      CaptureBegins(timeout, waited, wall2, mono2);
      var captures := Runs(INSTALLED, timeout, waited).dur.captures;
      assert captures[|captures| - 1].id < Runs(INSTALLED, timeout, waited).dur.nextId;
    }
  }

  /** Terminal events are only added, each by a step of the plan. */
  lemma {:induction false} ExecTerminals(s: State, plan: seq<Micro>)
    ensures var after := Exec(s, plan).dur.terminals;
      && |s.dur.terminals| <= |after| && after[..|s.dur.terminals|] == s.dur.terminals
      && forall i :: |s.dur.terminals| <= i < |after| ==> Enqueue(after[i]) in plan
  {
    if plan != [] {
      var n := |plan| - 1;
      ExecTerminals(s, plan[..n]);
      assert plan == plan[..n] + [plan[n]];
    }
  }

  /**
   * Whatever is run or cut short, an event with reason `timeout` is only ever emitted for
   * the session of the latest activity, and at least the timeout after it.
   */
  lemma {:induction false} TimeoutIsLate(timeout: nat, actions: seq<Action>, a: Action, i: nat)
    requires var s := Runs(INSTALLED, timeout, actions);
      |s.dur.terminals| <= i < |Next(s, timeout, a).dur.terminals| && Next(s, timeout, a).dur.terminals[i].reason == Timeout
    ensures var s := Runs(INSTALLED, timeout, actions); var e := Next(s, timeout, a).dur.terminals[i];
      && s.dur.captures != [] && e.id == LastCapture(s.dur).id
      && (a.op.OnCapture? || a.op.OnTimerFire?) && a.op.mono - LastCapture(s.dur).mono >= timeout
      && e.end == LastCapture(s.dur).wall
  {
    ReachableOk(timeout, actions);
    var s := Runs(INSTALLED, timeout, actions);
    hide Runs, FirstWall, Exec;
    var plan := Plan(s, timeout, a.op);
    var done := if a.Kill? && a.after <= |plan| then plan[..a.after] else plan;
    ExecTerminals(s, done);
    var e := Next(s, timeout, a).dur.terminals[i];
    assert e == Exec(s, done).dur.terminals[i];
    assert Enqueue(e) in plan;
    TimeoutEnds(s, timeout, a.op, e);
  }

  lemma {:induction false} TimeoutEnds(s: State, timeout: nat, op: Op, e: Emit)
    requires Enqueue(e) in Plan(s, timeout, op) && e.reason == Timeout
    ensures s.mem.sessionId == Some(e.id) && s.ready && e.end == s.mem.lastWall
    ensures (op.OnCapture? || op.OnTimerFire?) && op.mono - s.mem.lastMono >= timeout
  {
  }
}
