/**
 * The client transport: a flush drains the queue in byte-bounded FIFO batches and removes
 * rows only when the server has answered for them. Captures go on while a request is
 * awaited. Clocks, serialized sizes and answers are inputs.
 */
module Transport {
  import opened Basics
  import opened OfflineQueue

  datatype Response = NoFetch | NetworkError | Status(code: int)

  datatype Config = Config(batchMaxEvents: nat, batchMaxBytes: nat, eventTtlMs: int, cap: nat)

  /** What has become of every row, and the batches posted; history, in order. */
  datatype Log = Log(pushed: seq<Row>, acked: seq<Row>, refused: seq<Row>, expired: seq<Row>, overflow: seq<Row>,
                     posts: seq<seq<Row>>)

  datatype Client = Client(queue: seq<Row>, nextSeq: nat, paused: bool, streak: nat, log: Log)

  const NEW_CLIENT := Client([], 1, false, 0, Log([], [], [], [], [], []))

  /** What a round of the drain loop holds while it awaits: the peeked rows, or the posted batch. */
  datatype Flight = Idle | Peeked(rows: seq<Row>) | Awaiting(batch: seq<Row>)

  datatype Link = Link(c: Client, flight: Flight)

  datatype Arrival = Arrival(envelope: string, at: int, money: bool)

  datatype Action =
    | Capture(event: Arrival)
    | Peek
    | Expire(now: int, bytes: seq<Row> -> nat)
    | Answer(response: Response)

  // ---- Steps ---------------------------------------------------------------------

  predicate IsExpired(r: Row, cutoff: int) {
    !r.money && r.enqueuedAt < cutoff
  }

  function Fresh(rows: seq<Row>, cutoff: int): (r: seq<Row>)
    ensures |r| <= |rows|
  {
    if rows == [] then []
    else
      var n := |rows| - 1;
      Fresh(rows[..n], cutoff) + if IsExpired(rows[n], cutoff) then [] else [rows[n]]
  }

  function Expired(rows: seq<Row>, cutoff: int): (r: seq<Row>)
    ensures |r| + |Fresh(rows, cutoff)| == |rows|
  {
    if rows == [] then []
    else
      var n := |rows| - 1;
      Expired(rows[..n], cutoff) + if IsExpired(rows[n], cutoff) then [rows[n]] else []
  }

  /** Grow a batch of `n` rows while the count and the size allow. */
  function Grow(rows: seq<Row>, n: nat, bytes: seq<Row> -> nat, maxBytes: nat, maxEvents: nat): (r: nat)
    requires n <= |rows|
    ensures n <= r <= |rows|
    decreases |rows| - n
  {
    if n == |rows| || n >= maxEvents || bytes(rows[..n + 1]) > maxBytes then n
    else Grow(rows, n + 1, bytes, maxBytes, maxEvents)
  }

  function BatchOf(rows: seq<Row>, bytes: seq<Row> -> nat, cfg: Config): seq<Row>
    requires rows != []
  {
    rows[..Grow(rows, 1, bytes, cfg.batchMaxBytes, cfg.batchMaxEvents)]
  }

  predicate IsAck(r: Response) { r.Status? && 200 <= r.code < 300 }
  predicate IsAuthFailure(r: Response) { r.Status? && (r.code == 401 || r.code == 403) }
  predicate IsRetryable(r: Response) { r.NetworkError? || (r.Status? && (r.code == 429 || r.code >= 500)) }

  /** The answer is final, and the posted rows leave the queue. */
  predicate Settles(r: Response) { r.Status? && !IsAuthFailure(r) && !IsRetryable(r) }

  function PeekLimit(cfg: Config): nat { cfg.batchMaxEvents * 4 }

  function Front(queue: seq<Row>, cfg: Config): seq<Row> {
    if |queue| <= PeekLimit(cfg) then queue else queue[..PeekLimit(cfg)]
  }

  datatype Exit = ByAge | ByAck | ByRefusal

  /** Rows leave the queue by their handles, wherever they are by now. */
  function Left(c: Client, rows: seq<Row>, exit: Exit): Client {
    c.(queue := Without(c.queue, SeqNos(rows)),
       log := match exit
              case ByAge => c.log.(expired := c.log.expired + rows)
              case ByAck => c.log.(acked := c.log.acked + rows)
              case ByRefusal => c.log.(refused := c.log.refused + rows))
  }

  function Posted(c: Client, batch: seq<Row>): Client {
    c.(log := c.log.(posts := c.log.posts + [batch]))
  }

  /** The effect of the server's answer to a posted batch. */
  function AfterSend(c: Client, batch: seq<Row>, response: Response): Client {
    if response.NoFetch? then c
    else if IsAck(response) then Left(Posted(c, batch), batch, ByAck).(streak := 0)
    else if IsAuthFailure(response) then Posted(c, batch).(paused := true)
    else if IsRetryable(response) then Posted(c, batch).(streak := c.streak + 1)
    else Left(Posted(c, batch), batch, ByRefusal).(streak := 0)
  }

  function Enqueued(c: Client, cfg: Config, e: Arrival): Client {
    var row := Row(c.nextSeq, e.envelope, e.at, e.money);
    Client(Pushed(c.queue, row, cfg.cap), c.nextSeq + 1, c.paused, c.streak,
           c.log.(pushed := c.log.pushed + [row], overflow := c.log.overflow + c.queue[..Evicted(|c.queue|, cfg.cap)]))
  }

  /** The expiry pass over the peeked rows, and the batch it leaves to be posted. */
  function AfterExpiry(c: Client, cfg: Config, rows: seq<Row>, now: int, bytes: seq<Row> -> nat): Link {
    var cutoff := now - cfg.eventTtlMs;
    Link(Left(c, Expired(rows, cutoff), ByAge),
         if Fresh(rows, cutoff) == [] then Idle else Awaiting(BatchOf(Fresh(rows, cutoff), bytes, cfg)))
  }

  /** One step; an action that is not enabled does nothing. */
  function Step(l: Link, cfg: Config, a: Action): Link {
    match a
    case Capture(e) => l.(c := Enqueued(l.c, cfg, e))
    case Peek =>
      if l.flight.Idle? && !l.c.paused && l.c.queue != [] then l.(flight := Peeked(Front(l.c.queue, cfg))) else l
    case Expire(now, bytes) => if l.flight.Peeked? then AfterExpiry(l.c, cfg, l.flight.rows, now, bytes) else l
    case Answer(response) =>
      if l.flight.Awaiting? then Link(AfterSend(l.c, l.flight.batch, response), Idle) else l
  }

  function Run(l: Link, cfg: Config, actions: seq<Action>): Link
    decreases |actions|
  {
    if actions == [] then l else Run(Step(l, cfg, actions[0]), cfg, actions[1..])
  }

  // ---- A flush is a run ------------------------------------------------------------

  /** What the environment does in one round of the drain loop, with what is captured at each await. */
  datatype Round = Round(now: int, bytes: seq<Row> -> nat, response: Response,
                         whilePeeking: seq<Arrival>, whileSending: seq<Arrival>, afterwards: seq<Arrival>)

  predicate Quiet(r: Round) {
    r.whilePeeking == [] && r.whileSending == [] && r.afterwards == []
  }

  function Captured(c: Client, cfg: Config, events: seq<Arrival>): Client {
    if events == [] then c
    else Enqueued(Captured(c, cfg, events[..|events| - 1]), cfg, events[|events| - 1])
  }

  /** One turn of the drain loop, and whether it goes round again. */
  function AfterRound(c: Client, cfg: Config, r: Round): (Client, bool) {
    var rows := Front(c.queue, cfg);
    var c1 := Captured(c, cfg, r.whilePeeking);
    if rows == [] then (c1, false)
    else
      var l2 := AfterExpiry(c1, cfg, rows, r.now, r.bytes);
      if l2.flight.Idle? then (l2.c, true)
      else
        var batch := l2.flight.batch;
        var c3 := Captured(AfterSend(Captured(l2.c, cfg, r.whileSending), batch, r.response), cfg, r.afterwards);
        (c3, IsAck(r.response)
             && !(|batch| == |Fresh(rows, r.now - cfg.eventTtlMs)| == |rows| < PeekLimit(cfg) && c3.queue == []))
  }

  /** Captures during one flush are finitely many. */
  ghost predicate QuietFrom(rounds: nat -> Round, quiet: nat) {
    forall k :: k >= quiet ==> Quiet(rounds(k))
  }

  /** The drain loop: it goes on only past an ack or a pure expiry, so without captures the queue shrinks. */
  ghost function Drain(c: Client, cfg: Config, rounds: nat -> Round, quiet: nat, k: nat): Client
    requires cfg.batchMaxEvents >= 1 && Sound(c) && QuietFrom(rounds, quiet)
    decreases if k < quiet then quiet - k else 0, |c.queue|
  {
    hide AfterRound, Sound, Quiet;
    RoundSound(c, cfg, rounds(k));
    RoundShrinks(c, cfg, rounds(k));
    var (after, more) := AfterRound(c, cfg, rounds(k));
    if more then
      Drain(after, cfg, rounds, quiet, k + 1)
    else after
  }

  ghost function Flushed(c: Client, cfg: Config, rounds: nat -> Round, quiet: nat): Client
    requires cfg.batchMaxEvents >= 1 && Sound(c) && QuietFrom(rounds, quiet)
  {
    if c.paused then c else Drain(c, cfg, rounds, quiet, 0)
  }

  // ---- Shape of the queue after removals -------------------------------------------

  /** Handles rise through the queue and stay below the next one to be issued. */
  ghost predicate Sound(c: Client) {
    Ordered(c.queue) && forall r :: r in c.queue ==> r.seqNo < c.nextSeq
  }

  lemma {:induction false} FreshMembers(rows: seq<Row>, cutoff: int, r: Row)
    ensures r in Fresh(rows, cutoff) <==> r in rows && !IsExpired(r, cutoff)
    ensures r in Expired(rows, cutoff) <==> r in rows && IsExpired(r, cutoff)
  {
    hide IsExpired;
    if rows != [] {
      var n := |rows| - 1;
      FreshMembers(rows[..n], cutoff, r);
      assert rows == rows[..n] + [rows[n]];
    }
  }

  /** Removing the expired handles from distinct rows leaves the fresh ones. */
  lemma {:induction false} WithoutExpired(rows: seq<Row>, cutoff: int, drop: set<nat>)
    requires forall r :: r in rows ==> (r.seqNo in drop <==> IsExpired(r, cutoff))
    ensures Without(rows, drop) == Fresh(rows, cutoff)
  {
    if rows != [] {
      var n := |rows| - 1;
      WithoutExpired(rows[..n], cutoff, drop);
      assert rows[n] in rows;
    }
  }

  lemma {:induction false} SameHandleSameRow(rows: seq<Row>, a: Row, b: Row)
    requires Ordered(rows) && a in rows && b in rows && a.seqNo == b.seqNo
    ensures a == b
  {
    var i :| 0 <= i < |rows| && rows[i] == a;
    var j :| 0 <= j < |rows| && rows[j] == b;
  }

  lemma {:induction false} WithoutMember(queue: seq<Row>, drop: set<nat>, r: Row)
    ensures r in Without(queue, drop) <==> r in queue && r.seqNo !in drop
  {
    if queue != [] {
      var n := |queue| - 1;
      WithoutMember(queue[..n], drop, r);
      assert queue == queue[..n] + [queue[n]];
    }
  }

  lemma {:induction false} WithoutOrdered(queue: seq<Row>, drop: set<nat>)
    requires Ordered(queue)
    ensures Ordered(Without(queue, drop))
  {
    if queue != [] {
      var n := |queue| - 1;
      WithoutOrdered(queue[..n], drop);
      var rest := Without(queue[..n], drop);
      forall i | 0 <= i < |rest| ensures rest[i].seqNo < queue[n].seqNo {
        WithoutMember(queue[..n], drop, rest[i]);
        var j :| 0 <= j < n && queue[j] == rest[i];
      }
    }
  }

  /** A batch at the front of the queue is removed by its handles, and nothing else. */
  lemma {:induction false} SendShape(queue: seq<Row>, batch: seq<Row>)
    requires Ordered(queue) && batch != [] && batch <= queue
    ensures Without(queue, SeqNos(batch)) == queue[|batch|..]
    ensures |Without(queue, SeqNos(batch))| < |queue|
    ensures Ordered(queue[|batch|..])
  {
    assert queue == batch + queue[|batch|..];
    WithoutPrefix(batch, queue[|batch|..]);
  }

  /** Expiring a front of the queue leaves its fresh rows followed by the rest. */
  lemma {:induction false} ExpiryShape(rows: seq<Row>, rest: seq<Row>, cutoff: int)
    requires Ordered(rows + rest)
    ensures Without(rows + rest, SeqNos(Expired(rows, cutoff))) == Fresh(rows, cutoff) + rest
  {
    var drop := SeqNos(Expired(rows, cutoff));
    forall r | r in rows ensures r.seqNo in drop <==> IsExpired(r, cutoff) {
      FreshMembers(rows, cutoff, r);
      if r.seqNo in drop {
        var e :| e in Expired(rows, cutoff) && e.seqNo == r.seqNo;
        FreshMembers(rows, cutoff, e);
        SameHandleSameRow(rows + rest, r, e);
      }
    }
    forall r | r in rest ensures r.seqNo !in drop {
      if r.seqNo in drop {
        var e :| e in Expired(rows, cutoff) && e.seqNo == r.seqNo;
        FreshMembers(rows, cutoff, e);
        HandlesSplit(rows, rest, e, r);
      }
    }
    WithoutAppend(rows, rest, drop);
    WithoutExpired(rows, cutoff, drop);
    WithoutNone(rest, drop);
  }

  lemma {:induction false} AppendOrdered(done: seq<Row>, batch: seq<Row>)
    requires Ordered(done) && Ordered(batch) && Before(done, batch)
    ensures Ordered(done + batch)
  {
    var all := done + batch;
    forall i, j | 0 <= i < j < |all| ensures all[i].seqNo < all[j].seqNo {
      if i < |done| <= j {
        assert all[i] in done && all[j] in batch;
      }
    }
  }

  lemma {:induction false} OrderedSlice(a: seq<Row>, b: seq<Row>)
    requires Ordered(a + b)
    ensures Ordered(a) && Ordered(b)
  {
    forall i, j | 0 <= i < j < |a| ensures a[i].seqNo < a[j].seqNo {
      assert (a + b)[i] == a[i] && (a + b)[j] == a[j];
    }
    forall i, j | 0 <= i < j < |b| ensures b[i].seqNo < b[j].seqNo {
      assert (a + b)[|a| + i] == b[i] && (a + b)[|a| + j] == b[j];
    }
  }

  ghost predicate Before(a: seq<Row>, b: seq<Row>) {
    forall x, y :: x in a && y in b ==> x.seqNo < y.seqNo
  }

  lemma {:induction false} LeftSound(c: Client, rows: seq<Row>, exit: Exit)
    requires Sound(c)
    ensures Sound(Left(c, rows, exit))
  {
    var drop := SeqNos(rows);
    WithoutOrdered(c.queue, drop);
    forall r | r in Without(c.queue, drop) ensures r in c.queue {
      WithoutMember(c.queue, drop, r);
    }
    hide Ordered, Without;
  }

  lemma {:induction false} CaptureSound(c: Client, cfg: Config, e: Arrival)
    requires Sound(c)
    ensures Sound(Enqueued(c, cfg, e))
  {
    var n := Evicted(|c.queue|, cfg.cap);
    var row := Row(c.nextSeq, e.envelope, e.at, e.money);
    var kept := c.queue[n..];
    assert c.queue == c.queue[..n] + kept;
    assert forall r :: r in kept ==> r in c.queue;
    hide Ordered, Evicted;
    OrderedSlice(c.queue[..n], kept);
    AppendIfBefore(kept, row);
    assert Enqueued(c, cfg, e).queue == kept + [row];
  }

  lemma AppendIfBefore(done: seq<Row>, row: Row)
    requires Ordered(done) && forall r :: r in done ==> r.seqNo < row.seqNo
    ensures Ordered(done + [row])
  {
    SingleOrdered(row);
    AppendOrdered(done, [row]);
  }

  lemma SingleOrdered(row: Row)
    ensures Ordered([row])
  {
  }

  lemma {:induction false} CapturedSound(c: Client, cfg: Config, events: seq<Arrival>)
    requires Sound(c)
    ensures Sound(Captured(c, cfg, events))
    ensures Captured(c, cfg, events).paused == c.paused
  {
    hide Sound;
    if events != [] {
      CapturedSound(c, cfg, events[..|events| - 1]);
      CaptureSound(Captured(c, cfg, events[..|events| - 1]), cfg, events[|events| - 1]);
    }
  }

  lemma {:induction false} SendSound(c: Client, batch: seq<Row>, response: Response)
    requires Sound(c)
    ensures Sound(AfterSend(c, batch, response))
  {
    LeftSound(Posted(c, batch), batch, ByAck);
    LeftSound(Posted(c, batch), batch, ByRefusal);
    hide Ordered, Left;
  }

  lemma {:induction false} RoundSound(c: Client, cfg: Config, r: Round)
    requires Sound(c)
    ensures Sound(AfterRound(c, cfg, r).0)
  {
    hide Sound, Captured, AfterSend, Left, Fresh, Expired, Grow;
    var rows := Front(c.queue, cfg);
    var c1 := Captured(c, cfg, r.whilePeeking);
    CapturedSound(c, cfg, r.whilePeeking);
    if rows != [] {
      LeftSound(c1, Expired(rows, r.now - cfg.eventTtlMs), ByAge);
      var l2 := AfterExpiry(c1, cfg, rows, r.now, r.bytes);
      if !l2.flight.Idle? {
        CapturedSound(l2.c, cfg, r.whileSending);
        SendSound(Captured(l2.c, cfg, r.whileSending), l2.flight.batch, r.response);
        CapturedSound(AfterSend(Captured(l2.c, cfg, r.whileSending), l2.flight.batch, r.response), cfg, r.afterwards);
      }
    }
  }

  function Rest(queue: seq<Row>, cfg: Config): seq<Row> {
    if |queue| <= PeekLimit(cfg) then [] else queue[PeekLimit(cfg)..]
  }

  /** The queue after the expiry pass when nothing was captured since the peek. */
  lemma {:induction false} ExpiryQueue(c: Client, cfg: Config, now: int, bytes: seq<Row> -> nat)
    requires Ordered(c.queue)
    ensures var rows := Front(c.queue, cfg); var cutoff := now - cfg.eventTtlMs;
      && AfterExpiry(c, cfg, rows, now, bytes).c.queue == Fresh(rows, cutoff) + Rest(c.queue, cfg)
      && |Fresh(rows, cutoff)| + |Expired(rows, cutoff)| + |Rest(c.queue, cfg)| == |c.queue|
      && Ordered(Fresh(rows, cutoff) + Rest(c.queue, cfg))
  {
    hide Ordered, Without, Fresh, Expired, Grow;
    var rows, rest := Front(c.queue, cfg), Rest(c.queue, cfg);
    assert c.queue == rows + rest;
    ExpiryShape(rows, rest, now - cfg.eventTtlMs);
    WithoutOrdered(c.queue, SeqNos(Expired(rows, now - cfg.eventTtlMs)));
  }

  /** A round without captures that goes round again has removed something. */
  lemma {:induction false} RoundShrinks(c: Client, cfg: Config, r: Round)
    requires cfg.batchMaxEvents >= 1 && Sound(c)
    ensures Quiet(r) && AfterRound(c, cfg, r).1 ==> |AfterRound(c, cfg, r).0.queue| < |c.queue|
  {
    hide Ordered, Without, Fresh, Expired, Grow;
    var rows, cutoff := Front(c.queue, cfg), r.now - cfg.eventTtlMs;
    ExpiryQueue(c, cfg, r.now, r.bytes);
    var l2 := AfterExpiry(c, cfg, rows, r.now, r.bytes);
    if Quiet(r) && Fresh(rows, cutoff) != [] {
      SendShape(l2.c.queue, l2.flight.batch);
    }
  }

  // ---- The transport -------------------------------------------------------------------

  class Transport {
    const queue: OfflineQueue
    const cfg: Config
    var flushing: bool
    var paused: bool
    var failureStreak: nat
    /** The history the specification speaks of. */
    ghost var log: Log

    constructor (queue: OfflineQueue, cfg: Config)
      ensures this.queue == queue && this.cfg == cfg && !flushing && !paused && failureStreak == 0
      ensures log == NEW_CLIENT.log
    {
      this.queue, this.cfg, flushing, paused, failureStreak := queue, cfg, false, false, 0;
      log := NEW_CLIENT.log;
    }

    ghost function State(): Client
      reads this, queue, queue.storage
    {
      Client(queue.storage.queue, queue.storage.nextSeq, paused, failureStreak, log)
    }

    ghost predicate Valid()
      reads this, queue, queue.storage
    {
      && cfg.batchMaxEvents >= 1
      && queue.cap == cfg.cap
      && Sound(State())
      && queue.overflowDropped == |log.overflow|
      && queue.ttlDropped == |log.expired|
    }

    method ApplyTtl(rows: seq<Row>, now: int) returns (unexpired: seq<Row>, expired: seq<Row>)
      ensures unexpired == Fresh(rows, now - cfg.eventTtlMs)
      ensures expired == Expired(rows, now - cfg.eventTtlMs)
      ensures forall r :: r in expired <==> r in rows && !r.money && r.enqueuedAt < now - cfg.eventTtlMs
      ensures forall r :: r in unexpired <==> r in rows && (r.money || r.enqueuedAt >= now - cfg.eventTtlMs)
    {
      var cutoff := now - cfg.eventTtlMs;
      forall r ensures (r in Fresh(rows, cutoff) <==> r in rows && (r.money || r.enqueuedAt >= cutoff))
               ensures (r in Expired(rows, cutoff) <==> r in rows && !r.money && r.enqueuedAt < cutoff) {
        FreshMembers(rows, cutoff, r);
      }
      unexpired, expired := [], [];
      var i := 0;
      while i < |rows|
        invariant 0 <= i <= |rows|
        invariant unexpired == Fresh(rows[..i], cutoff)
        invariant expired == Expired(rows[..i], cutoff)
      {
        var r := rows[i];
        assert rows[..i + 1][..i] == rows[..i];
        if !r.money && r.enqueuedAt < cutoff {
          expired := expired + [r];
        } else {
          unexpired := unexpired + [r];
        }
        i := i + 1;
      }
      assert rows[..|rows|] == rows;
    }

    method TakeByteBounded(rows: seq<Row>, bytes: seq<Row> -> nat) returns (out: seq<Row>)
      requires rows != [] && cfg.batchMaxEvents >= 1
      ensures out == BatchOf(rows, bytes, cfg)
    {
      out := [];
      var i := 0;
      while i < |rows|
        invariant 0 <= i <= |rows| && out == rows[..i]
        invariant i < cfg.batchMaxEvents
        invariant Grow(rows, if i == 0 then 1 else i, bytes, cfg.batchMaxBytes, cfg.batchMaxEvents)
               == Grow(rows, 1, bytes, cfg.batchMaxBytes, cfg.batchMaxEvents)
      {
        var candidate := out + [rows[i]];
        assert candidate == rows[..i + 1];
        if |out| > 0 && bytes(candidate) > cfg.batchMaxBytes { return; }
        out := candidate;
        i := i + 1;
        if |out| >= cfg.batchMaxEvents { return; }
      }
    }

    /** Post one batch; true on a 2xx, whose rows the caller removes. */
    method Send(rows: seq<Row>, response: Response) returns (ok: bool)
      modifies this`paused, this`failureStreak, this`log, queue.storage`queue
      ensures ok == IsAck(response)
      ensures var after := AfterSend(old(State()), rows, response);
        if ok then State() == after.(queue := old(queue.storage.queue), streak := old(failureStreak),
                                     log := after.log.(acked := old(log.acked)))
        else State() == after
    {
      if response.NoFetch? { return false; }
      log := log.(posts := log.posts + [rows]);
      if response.NetworkError? {
        failureStreak := failureStreak + 1;
        return false;
      }
      var status := response.code;
      if 200 <= status < 300 { return true; }
      if status == 401 || status == 403 {
        paused := true;
        return false;
      }
      if status == 429 || status >= 500 {
        failureStreak := failureStreak + 1;
        return false;
      }
      RemoveRows(rows);
      failureStreak := 0;
      log := log.(refused := log.refused + rows);
      return false;
    }

    method RemoveRows(rows: seq<Row>)
      modifies queue.storage`queue
      ensures queue.storage.queue == Without(old(queue.storage.queue), SeqNos(rows))
    {
      var seqs := seq(|rows|, i requires 0 <= i < |rows| => rows[i].seqNo);
      assert Handles(seqs) == SeqNos(rows) by {
        forall s ensures s in Handles(seqs) <==> s in SeqNos(rows) {
          if s in SeqNos(rows) {
            var r :| r in rows && r.seqNo == s;
            var i :| 0 <= i < |rows| && rows[i] == r;
            assert seqs[i] == s;
          }
        }
      }
      queue.storage.Remove(seqs);
    }

    /** Capture one event: an append, evicting the oldest at the cap. */
    method Enqueue(e: Arrival)
      requires Valid()
      modifies this`log, queue`overflowDropped, queue.storage
      ensures Valid()
      ensures State() == Enqueued(old(State()), cfg, e)
    {
      CaptureSound(State(), cfg, e);
      log := log.(pushed := log.pushed + [Row(queue.storage.nextSeq, e.envelope, e.at, e.money)],
                  overflow := log.overflow + queue.storage.queue[..Evicted(|queue.storage.queue|, cfg.cap)]);
      queue.Enqueue(e.envelope, e.money, e.at);
      hide Sound;
    }

    /** What the game captures while this transport awaits something. */
    method Await(events: seq<Arrival>)
      requires Valid()
      modifies this`log, queue`overflowDropped, queue.storage
      ensures Valid()
      ensures State() == Captured(old(State()), cfg, events)
    {
      hide Enqueued, Sound;
      for i := 0 to |events|
        invariant Valid()
        invariant State() == Captured(old(State()), cfg, events[..i])
      {
        assert events[..i + 1][..i] == events[..i];
        Enqueue(events[i]);
      }
      assert events[..|events|] == events;
    }

    /** Partition the peeked rows by age, and drop the expired ones. */
    method ExpirePass(rows: seq<Row>, now: int) returns (unexpired: seq<Row>)
      requires Valid()
      modifies this`log, queue`ttlDropped, queue.storage`queue
      ensures Valid()
      ensures unexpired == Fresh(rows, now - cfg.eventTtlMs)
      ensures State() == Left(old(State()), Expired(rows, now - cfg.eventTtlMs), ByAge)
    {
      hide Without, Fresh, Expired, Sound;
      ghost var c := State();
      LeftSound(c, Expired(rows, now - cfg.eventTtlMs), ByAge);
      var expired;
      unexpired, expired := ApplyTtl(rows, now);
      if |expired| > 0 {
        RemoveRows(expired);
        queue.CountTtlDropped(|expired|);
        log := log.(expired := log.expired + expired);
      } else {
        assert SeqNos(expired) == {};
        WithoutNone(queue.storage.queue, {});
        assert log.expired + expired == log.expired;
      }
    }

    /** Post a batch, await the answer while captures go on, and remove the rows it settles. */
    method SendAndRemove(batch: seq<Row>, whileSending: seq<Arrival>, response: Response) returns (ok: bool)
      requires Valid()
      modifies this`paused, this`failureStreak, this`log, queue`overflowDropped, queue.storage
      ensures Valid()
      ensures ok == IsAck(response)
      ensures State() == AfterSend(Captured(old(State()), cfg, whileSending), batch, response)
    {
      hide Without, Sound, Captured;
      Await(whileSending);
      SendSound(State(), batch, response);
      ok := Send(batch, response);
      if ok {
        RemoveRows(batch);
        failureStreak := 0;
        log := log.(acked := log.acked + batch);
      }
    }

    /** One turn of the loop: expire, batch, post, remove. */
    method DrainRound(r: Round) returns (more: bool)
      requires Valid()
      modifies this`paused, this`failureStreak, this`log, queue`ttlDropped, queue`overflowDropped, queue.storage
      ensures Valid()
      ensures (State(), more) == AfterRound(old(State()), cfg, r)
    {
      hide Fresh, Expired, Grow, Sound, Left, AfterSend, Captured;
      var rows := queue.storage.Peek(cfg.batchMaxEvents * 4);
      Await(r.whilePeeking);
      if |rows| == 0 { return false; }
      var unexpired := ExpirePass(rows, r.now);
      if |unexpired| == 0 { return true; }
      var batch := TakeByteBounded(unexpired, r.bytes);
      more := SendAndRemove(batch, r.whileSending, r.response);
      Await(r.afterwards);
      if more && |batch| == |unexpired| && |unexpired| == |rows| && |rows| < cfg.batchMaxEvents * 4 {
        var remaining := queue.storage.Size();
        more := remaining != 0;
      }
    }

    /**
     * Drain until the queue is empty or a send fails; a re-entrant or paused call does
     * nothing. From round `quiet` on nothing more is captured.
     */
    method Flush(rounds: nat -> Round, ghost quiet: nat)
      requires Valid() && QuietFrom(rounds, quiet)
      modifies this, queue`ttlDropped, queue`overflowDropped, queue.storage
      ensures Valid()
      ensures flushing == old(flushing)
      ensures State() == if old(flushing) then old(State()) else Flushed(old(State()), cfg, rounds, quiet)
    {
      hide AfterRound, Sound, Quiet;
      if flushing || paused { return; }
      flushing := true;
      var more := true;
      var k := 0;
      while more
        invariant Valid() && flushing
        invariant (if more then Drain(State(), cfg, rounds, quiet, k) else State())
               == Flushed(old(State()), cfg, rounds, quiet)
        decreases more, if k < quiet then quiet - k else 0, |queue.storage.queue|
      {
        RoundSound(State(), cfg, rounds(k));
        RoundShrinks(State(), cfg, rounds(k));
        more := DrainRound(rounds(k));
        k := k + 1;
      }
      flushing := false;
    }
  }

  // ---- Where every row is ----------------------------------------------------------

  ghost function Times(rows: seq<Row>, r: Row): nat {
    multiset(rows)[r]
  }

  /** The rows that have left by an answer or for their age. */
  function Gone(log: Log): seq<Row> {
    log.acked + log.refused + log.expired
  }

  /** A captured row left at most once, was evicted at most once, and is resident if neither. */
  ghost predicate Placed(c: Client, r: Row) {
    var resident, evicted, gone := Times(c.queue, r), Times(c.log.overflow, r), Times(Gone(c.log), r);
    if r in c.log.pushed then
      evicted <= 1 && gone <= 1 && resident == if evicted == 0 && gone == 0 then 1 else 0
    else resident == 0 && evicted == 0 && gone == 0
  }

  ghost predicate AllPlaced(c: Client) {
    forall r :: Placed(c, r)
  }

  /** Handles are issued in capture order. */
  ghost predicate Numbered(c: Client) {
    && c.nextSeq == |c.log.pushed| + 1
    && forall i :: 0 <= i < |c.log.pushed| ==> c.log.pushed[i].seqNo == i + 1
  }

  lemma TimesAppend(a: seq<Row>, b: seq<Row>, r: Row)
    ensures Times(a + b, r) == Times(a, r) + Times(b, r)
  {
    assert multiset(a + b) == multiset(a) + multiset(b);
  }

  lemma TimesIn(rows: seq<Row>, r: Row)
    ensures Times(rows, r) > 0 <==> r in rows
  {
  }

  lemma {:induction false} TimesOrdered(rows: seq<Row>, r: Row)
    requires Ordered(rows)
    ensures Times(rows, r) == if r in rows then 1 else 0
  {
    if r in rows {
      var i :| 0 <= i < |rows| && rows[i] == r;
      var a, b := rows[..i], rows[i + 1..];
      assert rows == a + [r] + b;
      assert r !in a && r !in b;
      TimesAppend(a + [r], b, r);
      TimesAppend(a, [r], r);
    }
  }

  lemma {:induction false} TimesWithout(queue: seq<Row>, drop: set<nat>, r: Row)
    ensures Times(Without(queue, drop), r) == if r.seqNo in drop then 0 else Times(queue, r)
  {
    if queue != [] {
      var n := |queue| - 1;
      var last := queue[n];
      TimesWithout(queue[..n], drop, r);
      assert queue == queue[..n] + [last];
      TimesAppend(queue[..n], [last], r);
      TimesAppend(Without(queue[..n], drop), if last.seqNo in drop then [] else [last], r);
    }
  }

  lemma {:induction false} SameHandle(c: Client, a: Row, b: Row)
    requires Numbered(c) && a in c.log.pushed && b in c.log.pushed && a.seqNo == b.seqNo
    ensures a == b
  {
    var i :| 0 <= i < |c.log.pushed| && c.log.pushed[i] == a;
    var j :| 0 <= j < |c.log.pushed| && c.log.pushed[j] == b;
  }

  /** Captured rows that have not left yet. */
  ghost predicate Open(c: Client, rows: seq<Row>) {
    Ordered(rows) && forall r :: r in rows ==> r in c.log.pushed && r !in Gone(c.log)
  }

  lemma {:induction false} HandleIn(c: Client, rows: seq<Row>, r: Row)
    requires Numbered(c) && Open(c, rows) && r in c.log.pushed
    ensures r.seqNo in SeqNos(rows) <==> r in rows
  {
    if r.seqNo in SeqNos(rows) {
      var q :| q in rows && q.seqNo == r.seqNo;
      SameHandle(c, q, r);
    }
  }

  lemma {:induction false} TimesGone(c: Client, rows: seq<Row>, exit: Exit, r: Row)
    ensures Times(Gone(Left(c, rows, exit).log), r) == Times(Gone(c.log), r) + Times(rows, r)
  {
    hide Without, Times;
    var log, log' := c.log, Left(c, rows, exit).log;
    TimesGoneParts(log, r);
    TimesGoneParts(log', r);
    match exit {
      case ByAge => TimesAppend(log.expired, rows, r);
      case ByAck => TimesAppend(log.acked, rows, r);
      case ByRefusal => TimesAppend(log.refused, rows, r);
    }
  }

  lemma TimesGoneParts(log: Log, r: Row)
    ensures Times(Gone(log), r) == Times(log.acked, r) + Times(log.refused, r) + Times(log.expired, r)
  {
    hide Times;
    TimesAppend(log.acked + log.refused, log.expired, r);
    TimesAppend(log.acked, log.refused, r);
  }

  lemma {:induction false} LeftPlaced(c: Client, rows: seq<Row>, exit: Exit)
    requires AllPlaced(c) && Numbered(c) && Open(c, rows)
    ensures AllPlaced(Left(c, rows, exit))
  {
    hide Numbered, Ordered, Times, Gone, Left, SeqNos;
    var c' := Left(c, rows, exit);
    forall r ensures Placed(c', r) {
      assert Placed(c, r);
      LeftTimes(c, rows, exit, r);
    }
  }

  lemma {:induction false} LeftTimes(c: Client, rows: seq<Row>, exit: Exit, r: Row)
    requires AllPlaced(c) && Numbered(c) && Open(c, rows)
    ensures var c' := Left(c, rows, exit);
      && c'.log.pushed == c.log.pushed && c'.log.overflow == c.log.overflow
      && (if r in rows then
            Times(Gone(c.log), r) == 0 && Times(Gone(c'.log), r) == 1 && Times(c'.queue, r) == 0 && r in c.log.pushed
          else Times(Gone(c'.log), r) == Times(Gone(c.log), r) && Times(c'.queue, r) == Times(c.queue, r))
  {
    TimesGone(c, rows, exit, r);
    TimesOrdered(rows, r);
    TimesWithout(c.queue, SeqNos(rows), r);
    TimesIn(Gone(c.log), r);
    assert Placed(c, r);
    hide Without, Numbered, Ordered, Times, Gone;
    if r in c.log.pushed {
      HandleIn(c, rows, r);
    }
  }

  lemma {:induction false} CapturePlaced(c: Client, cfg: Config, e: Arrival)
    requires AllPlaced(c) && Numbered(c)
    ensures AllPlaced(Enqueued(c, cfg, e)) && Numbered(Enqueued(c, cfg, e))
  {
    var c' := Enqueued(c, cfg, e);
    var row := Row(c.nextSeq, e.envelope, e.at, e.money);
    var n := Evicted(|c.queue|, cfg.cap);
    var out, kept := c.queue[..n], c.queue[n..];
    assert c.queue == out + kept;
    assert row !in c.log.pushed;
    hide Numbered, Times, Gone;
    forall r ensures Placed(c', r) {
      assert Placed(c, r);
      TimesAppend(out, kept, r);
      TimesAppend(kept, [row], r);
      TimesAppend(c.log.overflow, out, r);
      TimesOne(row, r);
    }
  }

  lemma TimesOne(row: Row, r: Row)
    ensures Times([row], r) == if r == row then 1 else 0
  {
  }

  // ---- The order of delivery ---------------------------------------------------------

  /** The peeked rows lead the queue: what is resident is one of them or was captured after them. */
  ghost predicate Leading(rows: seq<Row>, queue: seq<Row>) {
    forall x, y :: x in rows && y in queue ==> y in rows || x.seqNo < y.seqNo
  }

  ghost predicate Delivered(done: seq<Row>, rows: seq<Row>, queue: seq<Row>) {
    Ordered(done) && Before(done, rows) && Before(done, queue)
  }

  function InFlight(f: Flight): seq<Row> {
    match f
    case Idle => []
    case Peeked(rows) => rows
    case Awaiting(batch) => batch
  }

  /** Rows settled by the server precede the ones in flight and the resident ones. */
  ghost predicate InOrder(l: Link) {
    && Sound(l.c) && Open(l.c, InFlight(l.flight)) && Leading(InFlight(l.flight), l.c.queue)
    && Delivered(l.c.log.acked, InFlight(l.flight), l.c.queue)
    && Delivered(l.c.log.refused, InFlight(l.flight), l.c.queue)
  }

  ghost predicate FlightFits(f: Flight, cfg: Config) {
    f.Awaiting? ==> 0 < |f.batch| <= cfg.batchMaxEvents
  }

  /** The queue is bounded, money is never dropped for its age, posts are ordered and within the count. */
  ghost predicate Tame(c: Client, cfg: Config) {
    && (|c.queue| <= cfg.cap || |c.queue| <= 1)
    && (forall r :: r in c.log.expired ==> !r.money)
    && (forall p :: p in c.log.posts ==> 0 < |p| <= cfg.batchMaxEvents && Ordered(p))
  }

  ghost predicate Inv(l: Link, cfg: Config) {
    AllPlaced(l.c) && Numbered(l.c) && InOrder(l) && FlightFits(l.flight, cfg) && Tame(l.c, cfg)
  }

  /** A row found anywhere was captured, under a handle already issued. */
  lemma {:induction false} WasCaptured(c: Client, r: Row)
    requires AllPlaced(c) && Numbered(c) && (r in c.queue || r in Gone(c.log) || r in c.log.overflow)
    ensures r in c.log.pushed && 0 < r.seqNo < c.nextSeq
  {
    assert Placed(c, r);
    TimesIn(c.queue, r);
    TimesIn(Gone(c.log), r);
    TimesIn(c.log.overflow, r);
  }

  lemma {:induction false} CaptureInOrder(l: Link, cfg: Config, e: Arrival)
    requires AllPlaced(l.c) && Numbered(l.c) && InOrder(l)
    ensures InOrder(Step(l, cfg, Capture(e)))
  {
    hide Ordered, AllPlaced, Gone;
    CaptureSound(l.c, cfg, e);
    var row := Row(l.c.nextSeq, e.envelope, e.at, e.money);
    var c' := Enqueued(l.c, cfg, e);
    forall r | r in c'.queue ensures r in l.c.queue || r == row {
    }
    OldBefore(l.c, InFlight(l.flight), row);
    ServedBefore(l.c, row);
    assert c'.log.acked == l.c.log.acked && c'.log.refused == l.c.log.refused && Gone(c'.log) == Gone(l.c.log) by {
      assert c'.log == l.c.log.(pushed := c'.log.pushed, overflow := c'.log.overflow);
      GoneSame(l.c.log, c'.log);
    }
  }

  lemma GoneSame(a: Log, b: Log)
    requires a.acked == b.acked && a.refused == b.refused && a.expired == b.expired
    ensures Gone(a) == Gone(b)
  {
  }

  lemma {:induction false} OldBefore(c: Client, rows: seq<Row>, row: Row)
    requires Numbered(c) && row.seqNo == c.nextSeq && forall r :: r in rows ==> r in c.log.pushed
    ensures Before(rows, [row])
  {
  }

  lemma {:induction false} ServedBefore(c: Client, row: Row)
    requires AllPlaced(c) && Numbered(c) && row.seqNo == c.nextSeq
    ensures Before(c.log.acked, [row]) && Before(c.log.refused, [row])
  {
    forall r | r in c.log.acked || r in c.log.refused ensures r in c.log.pushed {
      WasCaptured(c, r);
    }
    OldBefore(c, c.log.acked, row);
    OldBefore(c, c.log.refused, row);
  }

  lemma {:induction false} PeekInOrder(l: Link, cfg: Config)
    requires AllPlaced(l.c) && Numbered(l.c) && InOrder(l) && l.flight.Idle?
    ensures InOrder(l.(flight := Peeked(Front(l.c.queue, cfg))))
  {
    hide Ordered, AllPlaced, Gone, Numbered;
    var queue := l.c.queue;
    var rows, rest := Front(queue, cfg), Rest(queue, cfg);
    assert queue == rows + rest;
    OrderedSlice(rows, rest);
    forall r | r in rows ensures r in l.c.log.pushed && r !in Gone(l.c.log) {
      Resident(l.c, r);
    }
    forall x, y | x in rows && y in queue ensures y in rows || x.seqNo < y.seqNo {
      if y in rest {
        HandlesSplit(rows, rest, x, y);
      }
    }
  }

  /** A resident row was captured and has not left. */
  lemma {:induction false} Resident(c: Client, r: Row)
    requires AllPlaced(c) && r in c.queue
    ensures r in c.log.pushed && r !in Gone(c.log) && r !in c.log.overflow
  {
    assert Placed(c, r);
    TimesIn(c.queue, r);
    TimesIn(Gone(c.log), r);
    TimesIn(c.log.overflow, r);
  }

  lemma {:induction false} FreshOrdered(rows: seq<Row>, cutoff: int)
    requires Ordered(rows)
    ensures Ordered(Fresh(rows, cutoff)) && Ordered(Expired(rows, cutoff))
  {
    if rows != [] {
      var n := |rows| - 1;
      assert rows == rows[..n] + [rows[n]];
      OrderedSlice(rows[..n], [rows[n]]);
      FreshOrdered(rows[..n], cutoff);
      forall r | r in Fresh(rows[..n], cutoff) || r in Expired(rows[..n], cutoff) ensures r.seqNo < rows[n].seqNo {
        FreshMembers(rows[..n], cutoff, r);
        HandlesSplit(rows[..n], [rows[n]], r, rows[n]);
      }
      SingleOrdered(rows[n]);
      AppendIfBefore(Fresh(rows[..n], cutoff), rows[n]);
      AppendIfBefore(Expired(rows[..n], cutoff), rows[n]);
    }
  }

  lemma DeliveredShrinks(done: seq<Row>, rows: seq<Row>, queue: seq<Row>, rows': seq<Row>, queue': seq<Row>)
    requires Delivered(done, rows, queue)
    requires (forall r :: r in rows' ==> r in rows) && (forall r :: r in queue' ==> r in queue)
    ensures Delivered(done, rows', queue')
  {
  }

  /** The rows the expiry pass leaves: a prefix of the fresh ones leads what is still resident. */
  lemma {:induction false} FreshLeads(rows: seq<Row>, queue: seq<Row>, cutoff: int, n: nat)
    requires Ordered(rows) && Leading(rows, queue) && n <= |Fresh(rows, cutoff)|
    ensures Leading(Fresh(rows, cutoff)[..n], Without(queue, SeqNos(Expired(rows, cutoff))))
  {
    hide Ordered, Without, Fresh, Expired;
    var young, drop := Fresh(rows, cutoff), SeqNos(Expired(rows, cutoff));
    FreshOrdered(rows, cutoff);
    assert young == young[..n] + young[n..];
    forall x, y | x in young[..n] && y in Without(queue, drop) ensures y in young[..n] || x.seqNo < y.seqNo {
      WithoutMember(queue, drop, y);
      FreshMembers(rows, cutoff, x);
      FreshMembers(rows, cutoff, y);
      if y in young[n..] {
        HandlesSplit(young[..n], young[n..], x, y);
      }
    }
  }

  lemma {:induction false} FreshOpen(c: Client, rows: seq<Row>, cutoff: int, n: nat)
    requires Open(c, rows) && n <= |Fresh(rows, cutoff)|
    ensures Open(Left(c, Expired(rows, cutoff), ByAge), Fresh(rows, cutoff)[..n])
    ensures Open(c, Expired(rows, cutoff))
  {
    hide Ordered, Fresh, Expired, Without, SeqNos;
    var young := Fresh(rows, cutoff);
    FreshOrdered(rows, cutoff);
    assert young == young[..n] + young[n..];
    OrderedSlice(young[..n], young[n..]);
    forall r ensures (r in young || r in Expired(rows, cutoff) ==> r in rows)
             ensures r in young ==> r !in Expired(rows, cutoff) {
      FreshMembers(rows, cutoff, r);
    }
  }

  lemma {:induction false} ExpireInOrder(l: Link, cfg: Config, rows: seq<Row>, now: int, bytes: seq<Row> -> nat)
    requires InOrder(l) && l.flight == Peeked(rows)
    ensures InOrder(AfterExpiry(l.c, cfg, rows, now, bytes))
    ensures Open(l.c, Expired(rows, now - cfg.eventTtlMs))
  {
    hide Ordered, Gone, Leading, Fresh, Expired, Without, SeqNos, Grow, Open, Delivered;
    var cutoff := now - cfg.eventTtlMs;
    var l' := AfterExpiry(l.c, cfg, rows, now, bytes);
    var young, out := Fresh(rows, cutoff), Expired(rows, cutoff);
    LeftSound(l.c, out, ByAge);
    var n := |InFlight(l'.flight)|;
    assert InFlight(l'.flight) == young[..n];
    FreshOpen(l.c, rows, cutoff, n);
    assert Ordered(rows) by { OpenOrdered(l.c, rows); }
    FreshLeads(rows, l.c.queue, cutoff, n);
    forall r | r in l'.c.queue ensures r in l.c.queue {
      WithoutMember(l.c.queue, SeqNos(out), r);
    }
    forall r | r in young[..n] ensures r in rows {
      FreshMembers(rows, cutoff, r);
    }
    hide Sound;
    DeliveredShrinks(l.c.log.acked, rows, l.c.queue, young[..n], l'.c.queue);
    DeliveredShrinks(l.c.log.refused, rows, l.c.queue, young[..n], l'.c.queue);
  }

  lemma OpenOrdered(c: Client, rows: seq<Row>)
    requires Open(c, rows)
    ensures Ordered(rows)
  {
  }

  /** A batch joins the rows settled before it. */
  lemma {:induction false} BatchDelivered(done: seq<Row>, batch: seq<Row>, queue: seq<Row>)
    requires Delivered(done, batch, queue) && Ordered(batch) && Leading(batch, queue)
    ensures Delivered(done + batch, [], Without(queue, SeqNos(batch)))
  {
    hide Ordered, Without;
    AppendOrdered(done, batch);
    forall x, y | x in done + batch && y in Without(queue, SeqNos(batch)) ensures x.seqNo < y.seqNo {
      WithoutMember(queue, SeqNos(batch), y);
    }
  }

  lemma {:induction false} SettledInOrder(l: Link, batch: seq<Row>, exit: Exit)
    requires InOrder(l) && l.flight == Awaiting(batch) && !exit.ByAge?
    ensures InOrder(Link(Left(l.c, batch, exit), Idle))
  {
    hide Gone, Leading, Without, SeqNos, Delivered;
    var c' := Left(l.c, batch, exit);
    LeftSound(l.c, batch, exit);
    assert Ordered([]);
    hide Ordered;
    forall r | r in c'.queue ensures r in l.c.queue {
      WithoutMember(l.c.queue, SeqNos(batch), r);
    }
    BatchDelivered(l.c.log.acked, batch, l.c.queue);
    BatchDelivered(l.c.log.refused, batch, l.c.queue);
    hide Sound;
    DeliveredShrinks(l.c.log.acked, batch, l.c.queue, [], c'.queue);
    DeliveredShrinks(l.c.log.refused, batch, l.c.queue, [], c'.queue);
    NoneLead(c'.queue);
  }

  lemma NoneLead(queue: seq<Row>)
    ensures Leading([], queue)
  {
  }

  // ---- Every step keeps the invariant ---------------------------------------------------

  lemma {:induction false} CaptureKeeps(l: Link, cfg: Config, e: Arrival)
    requires Inv(l, cfg)
    ensures Inv(Step(l, cfg, Capture(e)), cfg)
  {
    CapturePlaced(l.c, cfg, e);
    CaptureInOrder(l, cfg, e);
    hide AllPlaced, Numbered, InOrder, Ordered;
  }

  lemma {:induction false} PeekKeeps(l: Link, cfg: Config)
    requires Inv(l, cfg)
    ensures Inv(Step(l, cfg, Peek), cfg)
  {
    hide AllPlaced, Numbered, InOrder, Tame;
    if l.flight.Idle? {
      PeekInOrder(l, cfg);
    }
  }

  lemma {:induction false} LeftTame(c: Client, cfg: Config, rows: seq<Row>, exit: Exit)
    requires Tame(c, cfg) && (exit.ByAge? ==> forall r :: r in rows ==> !r.money)
    ensures Tame(Left(c, rows, exit), cfg)
  {
    hide Ordered;
  }

  lemma LeftNumbered(c: Client, rows: seq<Row>, exit: Exit)
    requires Numbered(c)
    ensures Numbered(Left(c, rows, exit))
  {
  }

  lemma {:induction false} ExpireKeeps(l: Link, cfg: Config, rows: seq<Row>, now: int, bytes: seq<Row> -> nat)
    requires Inv(l, cfg) && l.flight == Peeked(rows) && cfg.batchMaxEvents >= 1
    ensures Inv(AfterExpiry(l.c, cfg, rows, now, bytes), cfg)
  {
    hide AllPlaced, Numbered, InOrder, Tame, Fresh, Expired, Left, Open, BatchOf, FlightFits;
    var out := Expired(rows, now - cfg.eventTtlMs);
    ExpireInOrder(l, cfg, rows, now, bytes);
    forall r | r in out ensures !r.money {
      FreshMembers(rows, now - cfg.eventTtlMs, r);
    }
    LeftTame(l.c, cfg, out, ByAge);
    LeftNumbered(l.c, out, ByAge);
    LeftPlaced(l.c, out, ByAge);
    BatchFits(l.c, cfg, rows, now, bytes);
  }

  lemma {:induction false} BatchFits(c: Client, cfg: Config, rows: seq<Row>, now: int, bytes: seq<Row> -> nat)
    requires cfg.batchMaxEvents >= 1
    ensures FlightFits(AfterExpiry(c, cfg, rows, now, bytes).flight, cfg)
  {
    hide Left, Expired, Grow, Fresh;
    var young := Fresh(rows, now - cfg.eventTtlMs);
    if young != [] {
      GrowBounds(young, 1, bytes, cfg.batchMaxBytes, cfg.batchMaxEvents);
    }
  }

  /** A batch is greedy: each prefix fits, and it stops at a limit or at the end. */
  lemma {:induction false} GrowBounds(rows: seq<Row>, n: nat, bytes: seq<Row> -> nat, maxBytes: nat, maxEvents: nat)
    requires 1 <= n <= |rows| && n <= maxEvents
    requires forall m :: 2 <= m <= n ==> bytes(rows[..m]) <= maxBytes
    ensures var r := Grow(rows, n, bytes, maxBytes, maxEvents);
      && r <= maxEvents
      && (forall m :: 2 <= m <= r ==> bytes(rows[..m]) <= maxBytes)
      && (r == |rows| || r == maxEvents || bytes(rows[..r + 1]) > maxBytes)
    decreases |rows| - n
  {
    if n < |rows| && n < maxEvents && bytes(rows[..n + 1]) <= maxBytes {
      GrowBounds(rows, n + 1, bytes, maxBytes, maxEvents);
    }
  }

  /** Neither the history of posts nor the flags matter to where rows are. */
  lemma {:induction false} PostedKeeps(l: Link, cfg: Config, batch: seq<Row>)
    requires Inv(l, cfg) && 0 < |batch| <= cfg.batchMaxEvents && Ordered(batch)
    ensures Inv(l.(c := Posted(l.c, batch)), cfg)
  {
    hide Ordered, Times, Before, Leading;
    var c' := Posted(l.c, batch);
    assert Gone(c'.log) == Gone(l.c.log);
    forall r ensures Placed(c', r) {
      assert Placed(l.c, r);
    }
  }

  lemma {:induction false} FlagsKeep(l: Link, cfg: Config, paused: bool, streak: nat)
    requires Inv(l, cfg)
    ensures Inv(l.(c := l.c.(paused := paused, streak := streak)), cfg)
  {
    hide Ordered, Times, Before, Leading, Gone;
    forall r ensures Placed(l.c.(paused := paused, streak := streak), r) {
      assert Placed(l.c, r);
    }
  }

  lemma {:induction false} LandedKeeps(l: Link, cfg: Config)
    requires Inv(l, cfg)
    ensures Inv(l.(flight := Idle), cfg)
  {
    assert Ordered([]);
    hide Ordered, AllPlaced, Numbered, Tame, Gone;
    var f := InFlight(l.flight);
    DeliveredShrinks(l.c.log.acked, f, l.c.queue, [], l.c.queue);
    DeliveredShrinks(l.c.log.refused, f, l.c.queue, [], l.c.queue);
  }

  lemma {:induction false} SettleKeeps(l: Link, cfg: Config, batch: seq<Row>, exit: Exit)
    requires Inv(l, cfg) && l.flight == Awaiting(batch) && !exit.ByAge?
    ensures Inv(Link(Left(l.c, batch, exit), Idle), cfg)
  {
    SettledInOrder(l, batch, exit);
    LeftTame(l.c, cfg, batch, exit);
    LeftNumbered(l.c, batch, exit);
    LeftPlaced(l.c, batch, exit);
    hide AllPlaced, Numbered, Left, Tame, Open, Sound, Leading, Delivered;
  }

  lemma {:induction false} AnswerKeeps(l: Link, cfg: Config, batch: seq<Row>, response: Response)
    requires Inv(l, cfg) && l.flight == Awaiting(batch)
    ensures Inv(Link(AfterSend(l.c, batch, response), Idle), cfg)
  {
    BatchOfInv(l, cfg);
    hide Inv, Left, Ordered, Posted;
    LandedKeeps(l, cfg);
    PostedKeeps(l, cfg, batch);
    var posted := Link(Posted(l.c, batch), l.flight);
    if IsAuthFailure(response) || IsRetryable(response) {
      LandedKeeps(posted, cfg);
      FlagsKeep(Link(posted.c, Idle), cfg, true, posted.c.streak);
      FlagsKeep(Link(posted.c, Idle), cfg, posted.c.paused, posted.c.streak + 1);
      PostedFlags(l.c, batch);
    } else {
      var exit := if IsAck(response) then ByAck else ByRefusal;
      SettleKeeps(posted, cfg, batch, exit);
      var left := Left(posted.c, batch, exit);
      FlagsKeep(Link(left, Idle), cfg, left.paused, 0);
    }
  }

  lemma PostedFlags(c: Client, batch: seq<Row>)
    ensures Posted(c, batch).paused == c.paused && Posted(c, batch).streak == c.streak
  {
  }

  lemma {:induction false} BatchOfInv(l: Link, cfg: Config)
    requires Inv(l, cfg) && l.flight.Awaiting?
    ensures Open(l.c, l.flight.batch) && Ordered(l.flight.batch) && 0 < |l.flight.batch| <= cfg.batchMaxEvents
  {
    hide Ordered, AllPlaced, Numbered, Tame;
  }

  lemma {:induction false} StepKeeps(l: Link, cfg: Config, a: Action)
    requires Inv(l, cfg) && cfg.batchMaxEvents >= 1
    ensures Inv(Step(l, cfg, a), cfg)
  {
    hide Inv, AfterExpiry, AfterSend, Enqueued, Front;
    match a {
      case Capture(e) => CaptureKeeps(l, cfg, e);
      case Peek => PeekKeeps(l, cfg);
      case Expire(now, bytes) =>
        if l.flight.Peeked? {
          ExpireKeeps(l, cfg, l.flight.rows, now, bytes);
        }
      case Answer(response) =>
        if l.flight.Awaiting? {
          AnswerKeeps(l, cfg, l.flight.batch, response);
        }
    }
  }

  lemma {:induction false} RunKeeps(l: Link, cfg: Config, actions: seq<Action>)
    requires Inv(l, cfg) && cfg.batchMaxEvents >= 1
    ensures Inv(Run(l, cfg, actions), cfg)
    decreases |actions|
  {
    hide Inv, Step;
    if actions != [] {
      StepKeeps(l, cfg, actions[0]);
      RunKeeps(Step(l, cfg, actions[0]), cfg, actions[1..]);
    }
  }

  const NEW_LINK := Link(NEW_CLIENT, Idle)

  lemma NewKeeps(cfg: Config)
    ensures Inv(NEW_LINK, cfg)
  {
    assert forall r :: Placed(NEW_CLIENT, r);
  }

  // ---- Safety over every run -------------------------------------------------------------

  /** In how many places, and how many times, a row is found. */
  ghost function Fates(c: Client, r: Row): nat {
    Times(c.queue, r) + Times(c.log.acked, r) + Times(c.log.refused, r) + Times(c.log.expired, r)
    + Times(c.log.overflow, r)
  }

  /** Evicted at the cap, and all the same acked, refused or expired. */
  ghost predicate Twice(c: Client, r: Row) {
    r in c.log.overflow && r in Gone(c.log)
  }

  lemma {:induction false} FatesAre(c: Client, r: Row)
    requires AllPlaced(c) && r in c.log.pushed
    ensures Fates(c, r) == if Twice(c, r) then 2 else 1
  {
    assert Placed(c, r);
    TimesGoneParts(c.log, r);
    TimesIn(Gone(c.log), r);
    TimesIn(c.log.overflow, r);
    hide Times, Gone;
  }

  /**
   * Over every run of captures, peeks, expiry passes and answers, interleaved in any way:
   * no captured row is forgotten, and a row has one fate (resident, acked, refused, expired
   * or overflowed) but for those that were evicted while in flight and left all the same.
   * The server gets rows in capture order, the queue respects its cap, money is never
   * dropped for its age, and every post is a non-empty ordered batch within the count.
   */
  lemma {:induction false} EveryRowIsAccountedFor(cfg: Config, actions: seq<Action>)
    requires cfg.batchMaxEvents >= 1
    ensures var c := Run(NEW_LINK, cfg, actions).c;
      && (forall r :: r in c.log.pushed ==> Fates(c, r) == if Twice(c, r) then 2 else 1)
      && (forall r :: r !in c.log.pushed ==> Fates(c, r) == 0)
      && Ordered(c.log.acked) && Before(c.log.acked, c.queue)
      && (|c.queue| <= cfg.cap || |c.queue| <= 1)
      && (forall r :: r in c.log.expired ==> !r.money)
      && (forall p :: p in c.log.posts ==> 0 < |p| <= cfg.batchMaxEvents && Ordered(p))
  {
    NewKeeps(cfg);
    RunKeeps(NEW_LINK, cfg, actions);
    var c := Run(NEW_LINK, cfg, actions).c;
    hide Run, Times, Ordered, Gone, Twice, Fates;
    forall r ensures Fates(c, r) == if r !in c.log.pushed then 0 else if Twice(c, r) then 2 else 1 {
      if r in c.log.pushed {
        FatesAre(c, r);
      } else {
        NoFate(c, r);
      }
    }
  }

  lemma {:induction false} NoFate(c: Client, r: Row)
    requires AllPlaced(c) && r !in c.log.pushed
    ensures Fates(c, r) == 0
  {
    assert Placed(c, r);
    TimesGoneParts(c.log, r);
  }

  /** The rows an action makes leave: the peeked rows that are too old, or a batch with a final answer. */
  function Taken(l: Link, cfg: Config, a: Action): seq<Row> {
    if a.Expire? && l.flight.Peeked? then Expired(l.flight.rows, a.now - cfg.eventTtlMs)
    else if a.Answer? && l.flight.Awaiting? && Settles(a.response) then l.flight.batch
    else []
  }

  /** None of them was evicted while in flight. */
  predicate TakesResident(l: Link, cfg: Config, a: Action) {
    forall r :: r in Taken(l, cfg, a) ==> r in l.c.queue
  }

  predicate NoneEvictedInFlight(l: Link, cfg: Config, actions: seq<Action>)
    decreases |actions|
  {
    actions == []
    || (TakesResident(l, cfg, actions[0]) && NoneEvictedInFlight(Step(l, cfg, actions[0]), cfg, actions[1..]))
  }

  ghost predicate NoneTwice(c: Client) {
    forall r :: r in c.log.overflow ==> r !in Gone(c.log)
  }

  lemma {:induction false} CaptureTwice(l: Link, cfg: Config, e: Arrival)
    requires Inv(l, cfg)
    ensures NoneTwice(Step(l, cfg, Capture(e)).c) <==> NoneTwice(l.c)
  {
    hide Ordered, AllPlaced, Numbered;
    var c' := Enqueued(l.c, cfg, e);
    GoneSame(l.c.log, c'.log);
    hide Gone;
    var out := l.c.queue[..Evicted(|l.c.queue|, cfg.cap)];
    forall r | r in out ensures r !in Gone(l.c.log) {
      Resident(l.c, r);
    }
    forall r | r in l.c.log.overflow ensures r in c'.log.overflow {
    }
  }

  lemma {:induction false} TakeTwice(l: Link, cfg: Config, rows: seq<Row>, exit: Exit)
    requires Inv(l, cfg) && Open(l.c, rows)
    ensures NoneTwice(Left(l.c, rows, exit)) <==> NoneTwice(l.c) && forall r :: r in rows ==> r in l.c.queue
  {
    hide Ordered, Numbered, AllPlaced, InOrder, Tame;
    var c' := Left(l.c, rows, exit);
    forall r ensures r in Gone(c'.log) <==> r in Gone(l.c.log) || r in rows {
      TimesGone(l.c, rows, exit, r);
      TimesIn(Gone(c'.log), r);
      TimesIn(Gone(l.c.log), r);
      TimesIn(rows, r);
    }
    hide Gone, Times, Without;
    forall r | r in rows ensures r in l.c.queue <==> r !in l.c.log.overflow {
      OpenIsResident(l.c, r);
    }
  }

  lemma {:induction false} OpenIsResident(c: Client, r: Row)
    requires AllPlaced(c) && r in c.log.pushed && r !in Gone(c.log)
    ensures r in c.queue <==> r !in c.log.overflow
  {
    assert Placed(c, r);
    TimesIn(c.queue, r);
    TimesIn(Gone(c.log), r);
    TimesIn(c.log.overflow, r);
  }

  lemma InvInOrder(l: Link, cfg: Config)
    requires Inv(l, cfg)
    ensures InOrder(l)
  {
  }

  lemma {:induction false} ExpireTwice(l: Link, cfg: Config, rows: seq<Row>, now: int, bytes: seq<Row> -> nat)
    requires Inv(l, cfg) && l.flight == Peeked(rows)
    ensures NoneTwice(AfterExpiry(l.c, cfg, rows, now, bytes).c)
       <==> NoneTwice(l.c) && forall r :: r in Expired(rows, now - cfg.eventTtlMs) ==> r in l.c.queue
  {
    hide Inv, InOrder, Open, NoneTwice, Left, Expired, Fresh, BatchOf;
    InvInOrder(l, cfg);
    ExpireInOrder(l, cfg, rows, now, bytes);
    TakeTwice(l, cfg, Expired(rows, now - cfg.eventTtlMs), ByAge);
  }

  lemma {:induction false} AnswerTwice(l: Link, cfg: Config, batch: seq<Row>, response: Response)
    requires Inv(l, cfg) && l.flight == Awaiting(batch)
    ensures NoneTwice(AfterSend(l.c, batch, response))
       <==> NoneTwice(l.c) && (Settles(response) ==> forall r :: r in batch ==> r in l.c.queue)
  {
    BatchOfInv(l, cfg);
    PostedKeeps(l, cfg, batch);
    var posted := Link(Posted(l.c, batch), l.flight);
    BatchOfInv(posted, cfg);
    SameTwice(l.c, posted.c);
    assert posted.c.queue == l.c.queue;
    hide Inv, Open, NoneTwice, Left, Posted, Ordered;
    if Settles(response) {
      var exit := if IsAck(response) then ByAck else ByRefusal;
      TakeTwice(posted, cfg, batch, exit);
      var left := Left(posted.c, batch, exit);
      SameTwice(left, left.(streak := 0));
    } else {
      SameTwice(posted.c, posted.c.(paused := true));
      SameTwice(posted.c, posted.c.(streak := l.c.streak + 1));
    }
  }

  lemma SameTwice(a: Client, b: Client)
    requires a.log.acked == b.log.acked && a.log.refused == b.log.refused
    requires a.log.expired == b.log.expired && a.log.overflow == b.log.overflow
    ensures NoneTwice(a) <==> NoneTwice(b)
  {
  }

  lemma {:induction false} StepTwice(l: Link, cfg: Config, a: Action)
    requires Inv(l, cfg)
    ensures NoneTwice(Step(l, cfg, a).c) <==> NoneTwice(l.c) && TakesResident(l, cfg, a)
  {
    hide Inv, AfterExpiry, AfterSend, Enqueued, Front, NoneTwice, Expired, Settles;
    match a {
      case Capture(e) => CaptureTwice(l, cfg, e);
      case Peek =>
      case Expire(now, bytes) =>
        if l.flight.Peeked? {
          ExpireTwice(l, cfg, l.flight.rows, now, bytes);
        }
      case Answer(response) =>
        if l.flight.Awaiting? {
          AnswerTwice(l, cfg, l.flight.batch, response);
        }
    }
  }

  lemma {:induction false} RunTwice(l: Link, cfg: Config, actions: seq<Action>)
    requires Inv(l, cfg) && cfg.batchMaxEvents >= 1
    ensures NoneTwice(Run(l, cfg, actions).c) <==> NoneTwice(l.c) && NoneEvictedInFlight(l, cfg, actions)
    decreases |actions|
  {
    hide Inv, Step, NoneTwice, TakesResident;
    if actions != [] {
      StepTwice(l, cfg, actions[0]);
      StepKeeps(l, cfg, actions[0]);
      RunTwice(Step(l, cfg, actions[0]), cfg, actions[1..]);
    }
  }

  /**
   * Exactly when every captured row has one fate: no row was evicted between its peek and
   * its expiry, or between its post and a final answer. An answer that leaves the batch
   * queued counts nothing twice.
   */
  lemma {:induction false} OneFateIff(cfg: Config, actions: seq<Action>)
    requires cfg.batchMaxEvents >= 1
    ensures var c := Run(NEW_LINK, cfg, actions).c;
      (forall r :: r in c.log.pushed ==> Fates(c, r) == 1) <==> NoneEvictedInFlight(NEW_LINK, cfg, actions)
  {
    NewKeeps(cfg);
    RunTwice(NEW_LINK, cfg, actions);
    RunKeeps(NEW_LINK, cfg, actions);
    assert NoneTwice(NEW_CLIENT);
    var c := Run(NEW_LINK, cfg, actions).c;
    hide Run, NoneEvictedInFlight, Fates, Gone, Numbered, InOrder, Tame;
    forall r | r in c.log.pushed ensures Fates(c, r) == if Twice(c, r) then 2 else 1 {
      FatesAre(c, r);
    }
    forall r | r in c.log.overflow ensures r in c.log.pushed {
      WasCaptured(c, r);
    }
    hide AllPlaced;
    assert NoneTwice(c) <==> forall r :: r in c.log.pushed ==> !Twice(c, r);
  }

  // ---- Captures during a request ------------------------------------------------------

  /** The rows that captures push. */
  function Arriving(nextSeq: nat, events: seq<Arrival>): (rows: seq<Row>)
    ensures |rows| == |events|
  {
    if events == [] then []
    else
      var n := |events| - 1;
      Arriving(nextSeq, events[..n]) + [Row(nextSeq + n, events[n].envelope, events[n].at, events[n].money)]
  }

  /** A cap of 0 still keeps the newest row. */
  function Room(cfg: Config): nat {
    if cfg.cap == 0 then 1 else cfg.cap
  }

  /** How many of the oldest rows do not fit. */
  function Excess(size: nat, cfg: Config): nat {
    if size <= Room(cfg) then 0 else size - Room(cfg)
  }

  lemma {:induction false} PushedSuffix(all: seq<Row>, row: Row, cfg: Config)
    ensures var queue := all[Excess(|all|, cfg)..]; var more := all + [row];
      && Pushed(queue, row, cfg.cap) == more[Excess(|more|, cfg)..]
      && all[..Excess(|all|, cfg)] + queue[..Evicted(|queue|, cfg.cap)] == more[..Excess(|more|, cfg)]
  {
    var was, now := Excess(|all|, cfg), Excess(|all| + 1, cfg);
    var queue := all[was..];
    assert Evicted(|queue|, cfg.cap) == now - was;
    assert queue[now - was..] == all[now..];
  }

  /** Captures keep the newest rows that there is room for, and evict the others. */
  lemma {:induction false} CapturedShape(c: Client, cfg: Config, events: seq<Arrival>)
    requires |c.queue| <= Room(cfg)
    ensures var all := c.queue + Arriving(c.nextSeq, events); var c' := Captured(c, cfg, events);
      var out := Excess(|all|, cfg);
      && c' == Client(all[out..], c.nextSeq + |events|, c.paused, c.streak,
                      c.log.(pushed := c.log.pushed + Arriving(c.nextSeq, events),
                             overflow := c.log.overflow + all[..out]))
  {
    hide Room, Pushed, Evicted;
    if events == [] {
      assert c.queue + [] == c.queue && c.log.pushed + [] == c.log.pushed && c.log.overflow + [] == c.log.overflow;
      assert Excess(|c.queue|, cfg) == 0;
    } else {
      var n := |events| - 1;
      var arrived := Arriving(c.nextSeq, events[..n]);
      var row := Row(c.nextSeq + n, events[n].envelope, events[n].at, events[n].money);
      CapturedShape(c, cfg, events[..n]);
      PushedSuffix(c.queue + arrived, row, cfg);
      var prev := Captured(c, cfg, events[..n]);
      var out := prev.queue[..Evicted(|prev.queue|, cfg.cap)];
      assert Captured(c, cfg, events) == Enqueued(prev, cfg, events[n]);
      assert Arriving(c.nextSeq, events) == arrived + [row];
      hide Captured, Arriving, Excess;
      assert c.queue + arrived + [row] == c.queue + (arrived + [row]);
      assert c.log.pushed + arrived + [row] == c.log.pushed + (arrived + [row]);
      var before := (c.queue + arrived)[..Excess(|c.queue + arrived|, cfg)];
      assert c.log.overflow + before + out == c.log.overflow + (before + out);
    }
  }

  function Captures(events: seq<Arrival>): seq<Action> {
    if events == [] then [] else Captures(events[..|events| - 1]) + [Capture(events[|events| - 1])]
  }

  lemma {:induction false} RunAppend(l: Link, cfg: Config, a: seq<Action>, b: seq<Action>)
    ensures Run(l, cfg, a + b) == Run(Run(l, cfg, a), cfg, b)
    decreases |a|
  {
    hide Step;
    if a == [] {
      assert a + b == b;
    } else {
      assert (a + b)[1..] == a[1..] + b;
      RunAppend(Step(l, cfg, a[0]), cfg, a[1..], b);
    }
  }

  lemma RunOne(l: Link, cfg: Config, a: Action)
    ensures Run(l, cfg, [a]) == Step(l, cfg, a)
  {
    hide Step;
    assert [a][1..] == [];
  }

  lemma {:induction false} CapturesRun(l: Link, cfg: Config, events: seq<Arrival>)
    ensures Run(l, cfg, Captures(events)) == Link(Captured(l.c, cfg, events), l.flight)
  {
    hide Enqueued;
    if events != [] {
      var n := |events| - 1;
      CapturesRun(l, cfg, events[..n]);
      RunAppend(l, cfg, Captures(events[..n]), [Capture(events[n])]);
      RunOne(Link(Captured(l.c, cfg, events[..n]), l.flight), cfg, Capture(events[n]));
    }
  }

  lemma {:induction false} GoneAfterSend(c: Client, batch: seq<Row>, response: Response, r: Row)
    requires r in batch
    ensures r in Gone(AfterSend(c, batch, response).log) <==> r in Gone(c.log) || Settles(response)
    ensures AfterSend(c, batch, response).log.overflow == c.log.overflow
    ensures AfterSend(c, batch, response).log.pushed == c.log.pushed
  {
    hide Without;
  }

  /**
   * One request, posted from the front of the queue: some row of it is counted twice, as
   * overflowed and as acked or refused, exactly when what is captured meanwhile does not
   * fit and the answer is final.
   */
  lemma {:induction false} CountedTwiceIff(l: Link, cfg: Config, batch: seq<Row>, events: seq<Arrival>,
                                           response: Response)
    requires Inv(l, cfg) && l.flight == Awaiting(batch) && batch <= l.c.queue && cfg.batchMaxEvents >= 1
    ensures var after := Run(l, cfg, Captures(events) + [Answer(response)]).c;
      (exists r :: r in batch && Fates(after, r) == 2) <==> Settles(response) && |l.c.queue| + |events| > Room(cfg)
  {
    var sent := Captured(l.c, cfg, events);
    var after := AfterSend(sent, batch, response);
    RunAppend(l, cfg, Captures(events), [Answer(response)]);
    CapturesRun(l, cfg, events);
    RunOne(Link(sent, l.flight), cfg, Answer(response));
    assert Run(l, cfg, Captures(events) + [Answer(response)]) == Link(after, Idle);
    RunKeeps(l, cfg, Captures(events) + [Answer(response)]);
    QueueFits(l, cfg);
    hide Run, Captured, AfterSend, Settles, Fates, Inv, Step;
    forall r | r in batch
      ensures Fates(after, r) == if r in sent.log.overflow && Settles(response) then 2 else 1
    {
      AnsweredFates(l, cfg, batch, events, response, r);
    }
    EvictedOfBatch(l, cfg, batch, events);
    assert |batch| > 0 by { BatchOfInv(l, cfg); }
    assert batch[0] in batch;
  }

  /** Captures evict some row of a batch at the front, its first one, exactly when they do not fit. */
  lemma {:induction false} EvictedOfBatch(l: Link, cfg: Config, batch: seq<Row>, events: seq<Arrival>)
    requires Inv(l, cfg) && batch <= l.c.queue && batch != []
    ensures var overflow := Captured(l.c, cfg, events).log.overflow;
      if |l.c.queue| + |events| > Room(cfg) then batch[0] in overflow else forall r :: r in batch ==> r !in overflow
  {
    QueueFits(l, cfg);
    CapturedShape(l.c, cfg, events);
    var all := l.c.queue + Arriving(l.c.nextSeq, events);
    var out := Excess(|all|, cfg);
    if out > 0 {
      assert all[..out][0] == all[0] == batch[0];
    } else {
      hide Captured, Inv;
      assert Captured(l.c, cfg, events).log.overflow == l.c.log.overflow;
      forall r | r in batch ensures r !in l.c.log.overflow {
        QueueNotEvicted(l, cfg, r);
      }
    }
  }

  lemma {:induction false} AnsweredFates(l: Link, cfg: Config, batch: seq<Row>, events: seq<Arrival>,
                                         response: Response, r: Row)
    requires Inv(l, cfg) && l.flight == Awaiting(batch) && r in batch
    requires Inv(Link(AfterSend(Captured(l.c, cfg, events), batch, response), Idle), cfg)
    ensures var sent := Captured(l.c, cfg, events); var after := AfterSend(sent, batch, response);
      Fates(after, r) == if r in sent.log.overflow && Settles(response) then 2 else 1
  {
    var sent := Captured(l.c, cfg, events);
    BatchOfInv(l, cfg);
    CapturedLog(l.c, cfg, events);
    GoneSame(l.c.log, sent.log);
    GoneAfterSend(sent, batch, response, r);
    hide Inv, AfterSend, Captured, Fates, Gone, Settles;
    AfterFates(Link(AfterSend(sent, batch, response), Idle), cfg, r);
  }

  lemma {:induction false} CapturedLog(c: Client, cfg: Config, events: seq<Arrival>)
    ensures var log := Captured(c, cfg, events).log;
      && log.acked == c.log.acked && log.refused == c.log.refused && log.expired == c.log.expired
      && forall r :: r in c.log.pushed ==> r in log.pushed
  {
    if events != [] {
      CapturedLog(c, cfg, events[..|events| - 1]);
    }
  }

  const TINY := Config(1, 100, 1000, 1)

  function OneRequest(first: Arrival, second: Arrival): seq<Action> {
    [Capture(first), Peek, Expire(0, rows => 0), Capture(second), Answer(Status(200))]
  }

  function FirstRow(first: Arrival): Row {
    Row(1, first.envelope, 0, first.money)
  }

  /** The first row is captured, peeked, found young and posted. */
  lemma {:induction false} FirstRowIsPosted(first: Arrival)
    requires first.at == 0
    ensures var row := FirstRow(first);
      Run(NEW_LINK, TINY, [Capture(first), Peek, Expire(0, rows => 0)])
        == Link(NEW_CLIENT.(queue := [row], nextSeq := 2, log := NEW_CLIENT.log.(pushed := [row])), Awaiting([row]))
  {
    hide Run, AfterExpiry, Enqueued;
    var row := FirstRow(first);
    var l1 := Link(NEW_CLIENT.(queue := [row], nextSeq := 2, log := NEW_CLIENT.log.(pushed := [row])), Idle);
    FirstCapture(first);
    assert Step(NEW_LINK, TINY, Capture(first)) == l1;
    var l2 := l1.(flight := Peeked([row]));
    assert Step(l1, TINY, Peek) == l2;
    TinyExpiry(l1.c, row);
    var expire := Expire(0, rows => 0);
    assert Step(l2, TINY, expire) == l1.(flight := Awaiting([row]));
    hide Step;
    RunTwo(NEW_LINK, TINY, Capture(first), Peek);
    RunOne(l2, TINY, expire);
    RunAppend(NEW_LINK, TINY, [Capture(first), Peek], [expire]);
    assert [Capture(first), Peek] + [expire] == [Capture(first), Peek, expire];
  }

  /** A run from the start, with a cap of one row, that counts its first row as overflowed and as acked. */
  lemma {:induction false} FirstRowCountsTwice(first: Arrival, second: Arrival)
    requires first.at == 0
    ensures var row := FirstRow(first); var c := Run(NEW_LINK, TINY, OneRequest(first, second)).c;
      c.log.acked == [row] && c.log.overflow == [row] && Fates(c, row) == 2
  {
    var row := FirstRow(first);
    var posted := [Capture(first), Peek, Expire(0, rows => 0)];
    FirstRowIsPosted(first);
    var l := Run(NEW_LINK, TINY, posted);
    RunAppend(NEW_LINK, TINY, posted, [Capture(second), Answer(Status(200))]);
    assert OneRequest(first, second) == posted + [Capture(second), Answer(Status(200))];
    RunTwo(l, TINY, Capture(second), Answer(Status(200)));
    NewKeeps(TINY);
    RunKeeps(NEW_LINK, TINY, OneRequest(first, second));
    hide Run, Inv, Fates;
    SecondEvicts(l, row, second);
    AfterFates(Run(NEW_LINK, TINY, OneRequest(first, second)), TINY, row);
    hide Step;
    assert [row][0] == row;
  }

  /** The second capture evicts the only row; the answer acks it all the same. */
  lemma {:induction false} SecondEvicts(l: Link, row: Row, second: Arrival)
    requires l.c.queue == [row] && l.flight == Awaiting([row])
    requires l.c.log == NEW_CLIENT.log.(pushed := [row])
    ensures var after := Step(Step(l, TINY, Capture(second)), TINY, Answer(Status(200))).c;
      after.log.acked == [row] && after.log.overflow == [row] && row in after.log.pushed
  {
    hide Without;
    var c := Enqueued(l.c, TINY, second);
    assert c.log.overflow == [row] && c.log.acked == [] && row in c.log.pushed by {
      assert [row][..1] == [row];
      assert [] + [row] == [row];
    }
    assert Step(l, TINY, Capture(second)) == Link(c, l.flight);
    assert [] + [row] == [row];
  }

  lemma FirstCapture(first: Arrival)
    requires first.at == 0
    ensures Enqueued(NEW_CLIENT, TINY, first)
         == NEW_CLIENT.(queue := [Row(1, first.envelope, 0, first.money)], nextSeq := 2,
                        log := NEW_CLIENT.log.(pushed := [Row(1, first.envelope, 0, first.money)]))
  {
  }

  lemma TinyExpiry(c: Client, row: Row)
    requires c.queue == [row] && c.log.expired == [] && row.enqueuedAt == 0
    ensures AfterExpiry(c, TINY, [row], 0, rows => 0) == Link(c, Awaiting([row]))
  {
    var cutoff := 0 - TINY.eventTtlMs;
    assert [row][..0] == [];
    assert Fresh([row], cutoff) == [row] && Expired([row], cutoff) == [];
    assert SeqNos([]) == {};
    WithoutNone(c.queue, {});
    assert [row][..1] == [row];
  }

  lemma RunTwo(l: Link, cfg: Config, a: Action, b: Action)
    ensures Run(l, cfg, [a, b]) == Step(Step(l, cfg, a), cfg, b)
  {
    hide Step;
    RunAppend(l, cfg, [a], [b]);
    RunOne(l, cfg, a);
    RunOne(Step(l, cfg, a), cfg, b);
    assert [a] + [b] == [a, b];
  }

  lemma QueueFits(l: Link, cfg: Config)
    requires Inv(l, cfg)
    ensures |l.c.queue| <= Room(cfg)
  {
  }

  lemma {:induction false} QueueNotEvicted(l: Link, cfg: Config, r: Row)
    requires Inv(l, cfg) && r in l.c.queue
    ensures r !in l.c.log.overflow
  {
    Resident(l.c, r);
  }

  lemma {:induction false} AfterFates(l: Link, cfg: Config, r: Row)
    requires Inv(l, cfg) && r in l.c.log.pushed
    ensures Fates(l.c, r) == if Twice(l.c, r) then 2 else 1
  {
    FatesAre(l.c, r);
  }

  // ---- What each step takes -----------------------------------------------------------------

  /** An expiry takes exactly the peeked rows that are not money and were enqueued more than the ttl ago. */
  lemma {:induction false} ExpiryTakesOldRows(l: Link, cfg: Config, now: int, bytes: seq<Row> -> nat, r: Row)
    requires l.flight.Peeked?
    ensures var log := Step(l, cfg, Expire(now, bytes)).c.log;
      && |log.expired| >= |l.c.log.expired| && log.expired[..|l.c.log.expired|] == l.c.log.expired
      && (r in log.expired[|l.c.log.expired|..]
          <==> r in l.flight.rows && !r.money && r.enqueuedAt < now - cfg.eventTtlMs)
  {
    hide Without, Fresh, BatchOf;
    FreshMembers(l.flight.rows, now - cfg.eventTtlMs, r);
  }

  /** What each status of an answer does to the batch, the pause and the failure streak. */
  lemma {:induction false} AnswerByStatus(l: Link, cfg: Config, code: int)
    requires l.flight.Awaiting?
    ensures var c := l.c; var batch := l.flight.batch; var after := Step(l, cfg, Answer(Status(code))).c;
      && after.log.posts == c.log.posts + [batch]
      && (200 <= code < 300 ==> after.log.acked == c.log.acked + batch && after.streak == 0 && after.paused == c.paused)
      && (code == 401 || code == 403 ==> after.queue == c.queue && after.paused && after.streak == c.streak)
      && (code == 429 || code >= 500 ==>
            after.queue == c.queue && after.paused == c.paused && after.streak == c.streak + 1)
      && (!(200 <= code < 300) && code != 401 && code != 403 && code != 429 && code < 500 ==>
            after.log.refused == c.log.refused + batch && after.streak == 0 && after.paused == c.paused)
      && (forall r :: r in after.queue <==>
            r in c.queue && (code == 401 || code == 403 || code == 429 || code >= 500 || r.seqNo !in SeqNos(batch)))
  {
    forall r ensures r in Without(l.c.queue, SeqNos(l.flight.batch)) <==> r in l.c.queue && r.seqNo !in SeqNos(l.flight.batch) {
      WithoutMember(l.c.queue, SeqNos(l.flight.batch), r);
    }
    hide Without, SeqNos;
  }

  /** Without a fetch nothing is posted, and without a network nothing is settled. */
  lemma AnswerWithoutStatus(l: Link, cfg: Config)
    requires l.flight.Awaiting?
    ensures Step(l, cfg, Answer(NoFetch)).c == l.c
    ensures var after := Step(l, cfg, Answer(NetworkError)).c;
      after.queue == l.c.queue && after.paused == l.c.paused && after.streak == l.c.streak + 1
  {
  }

  /** A peek takes up to four batches' worth of the oldest rows, unless transport is paused. */
  lemma PeekTakesFourBatches(l: Link, cfg: Config)
    requires l.flight.Idle? && l.c.queue != [] && cfg.batchMaxEvents >= 1
    ensures var flight := Step(l, cfg, Peek).flight;
      if l.c.paused then flight == Idle
      else flight.Peeked? && flight.rows <= l.c.queue
           && |flight.rows| == Min(|l.c.queue|, 4 * cfg.batchMaxEvents)
  {
  }

  // ---- A drain goes on until it is done -------------------------------------------------------

  /** The loop stops early only at an answer that is no 2xx: acked all the way, a flush leaves nothing. */
  lemma {:induction false} DrainEmptiesQueue(c: Client, cfg: Config, rounds: nat -> Round, k: nat)
    requires cfg.batchMaxEvents >= 1 && Sound(c) && QuietFrom(rounds, 0)
    requires forall i :: rounds(i).response.Status? && 200 <= rounds(i).response.code < 300
    ensures Drain(c, cfg, rounds, 0, k).queue == []
    decreases |c.queue|
  {
    hide AfterRound, Sound, Quiet;
    var (after, more) := AfterRound(c, cfg, rounds(k));
    assert rounds(k).response.Status?;
    RoundSound(c, cfg, rounds(k));
    RoundShrinks(c, cfg, rounds(k));
    assert Quiet(rounds(k));
    if more {
      DrainEmptiesQueue(after, cfg, rounds, k + 1);
    } else {
      StopsWhenEmpty(c, cfg, rounds(k));
    }
  }

  lemma {:induction false} StopsWhenEmpty(c: Client, cfg: Config, r: Round)
    requires Quiet(r) && IsAck(r.response) && !AfterRound(c, cfg, r).1 && cfg.batchMaxEvents >= 1
    ensures AfterRound(c, cfg, r).0.queue == []
  {
    hide Without, Fresh, Expired, Grow;
  }

  // ---- What one round posts and removes ------------------------------------------------------

  lemma {:induction false} CapturedKeeps(c: Client, cfg: Config, events: seq<Arrival>)
    ensures var c' := Captured(c, cfg, events);
      c'.log.posts == c.log.posts && c'.paused == c.paused && c'.streak == c.streak
  {
    if events != [] {
      CapturedKeeps(c, cfg, events[..|events| - 1]);
    }
  }

  lemma SendFlags(c: Client, batch: seq<Row>, response: Response)
    ensures var after := AfterSend(c, batch, response);
      && after.log.posts == (if response.NoFetch? then c.log.posts else c.log.posts + [batch])
      && after.paused == (c.paused || IsAuthFailure(response))
      && after.streak == (if response.NoFetch? || IsAuthFailure(response) then c.streak
                          else if IsRetryable(response) then c.streak + 1 else 0)
  {
  }

  /**
   * Whatever is captured meanwhile, a round posts the longest prefix of the unexpired
   * peeked rows that fits both limits, but always one row; the answer sets the pause and
   * the failure streak.
   */
  lemma {:induction false} RoundPostsPrefix(c: Client, cfg: Config, r: Round)
    requires cfg.batchMaxEvents >= 1
    ensures var young := Fresh(Front(c.queue, cfg), r.now - cfg.eventTtlMs); var after := AfterRound(c, cfg, r).0;
      if young == [] || r.response.NoFetch? then
        after.log.posts == c.log.posts && after.paused == c.paused && after.streak == c.streak
      else
        && after.paused == (c.paused || IsAuthFailure(r.response))
        && after.streak == (if IsAuthFailure(r.response) then c.streak
                            else if IsRetryable(r.response) then c.streak + 1 else 0)
        && exists n :: 1 <= n <= |young| && after.log.posts == c.log.posts + [young[..n]] && GreedyFit(young, n, r, cfg)
  {
    hide Fresh, Expired, Grow, Captured, AfterSend, IsRetryable, Without, GreedyFit;
    var rows := Front(c.queue, cfg);
    var young := Fresh(rows, r.now - cfg.eventTtlMs);
    var c1 := Captured(c, cfg, r.whilePeeking);
    CapturedKeeps(c, cfg, r.whilePeeking);
    if rows == [] {
      assert young == [] by { FreshNone(r.now - cfg.eventTtlMs); }
    } else if young != [] {
      GrowIsGreedy(young, r, cfg);
      var n := Grow(young, 1, r.bytes, cfg.batchMaxBytes, cfg.batchMaxEvents);
      var c2 := AfterExpiry(c1, cfg, rows, r.now, r.bytes).c;
      CapturedKeeps(c2, cfg, r.whileSending);
      SendFlags(Captured(c2, cfg, r.whileSending), young[..n], r.response);
      CapturedKeeps(AfterSend(Captured(c2, cfg, r.whileSending), young[..n], r.response), cfg, r.afterwards);
    }
  }

  /** Every prefix up to `n` rows fits both limits, save that one row always goes; and the next does not. */
  predicate GreedyFit(rows: seq<Row>, n: nat, r: Round, cfg: Config)
    requires n <= |rows|
  {
    && n <= cfg.batchMaxEvents
    && (forall m :: 2 <= m <= n ==> r.bytes(rows[..m]) <= cfg.batchMaxBytes)
    && (n == |rows| || n == cfg.batchMaxEvents || r.bytes(rows[..n + 1]) > cfg.batchMaxBytes)
  }

  lemma {:induction false} GrowIsGreedy(rows: seq<Row>, r: Round, cfg: Config)
    requires rows != [] && cfg.batchMaxEvents >= 1
    ensures GreedyFit(rows, Grow(rows, 1, r.bytes, cfg.batchMaxBytes, cfg.batchMaxEvents), r, cfg)
  {
    GrowBounds(rows, 1, r.bytes, cfg.batchMaxBytes, cfg.batchMaxEvents);
  }

  lemma FreshNone(cutoff: int)
    ensures Fresh([], cutoff) == []
  {
  }

  /** With nothing captured meanwhile, what leaves is the expired rows and a prefix with a final answer. */
  lemma {:induction false} RoundRemoves(c: Client, cfg: Config, r: Round)
    requires cfg.batchMaxEvents >= 1 && Ordered(c.queue) && Quiet(r)
    ensures var young := Fresh(Front(c.queue, cfg), r.now - cfg.eventTtlMs); var after := AfterRound(c, cfg, r).0;
      var sent := if young == [] || !Settles(r.response) then 0 else |BatchOf(young, r.bytes, cfg)|;
      after.queue == young[sent..] + Rest(c.queue, cfg)
  {
    hide Fresh, Expired, Grow, Without, Ordered;
    var rows := Front(c.queue, cfg);
    var young := Fresh(rows, r.now - cfg.eventTtlMs);
    ExpiryQueue(c, cfg, r.now, r.bytes);
    if rows == [] {
      FreshNone(r.now - cfg.eventTtlMs);
    } else if young != [] {
      var batch := BatchOf(young, r.bytes, cfg);
      SendShape(young + Rest(c.queue, cfg), batch);
      assert (young + Rest(c.queue, cfg))[|batch|..] == young[|batch|..] + Rest(c.queue, cfg);
    }
  }

  // ---- A flush is a run of the protocol ----------------------------------------------------------

  function RoundActions(c: Client, cfg: Config, r: Round): seq<Action> {
    var rows := Front(c.queue, cfg);
    [Peek] + Captures(r.whilePeeking)
    + if rows == [] then []
      else [Expire(r.now, r.bytes)]
           + if Fresh(rows, r.now - cfg.eventTtlMs) == [] then []
             else Captures(r.whileSending) + [Answer(r.response)] + Captures(r.afterwards)
  }

  lemma {:induction false} RoundIsARun(c: Client, cfg: Config, r: Round)
    requires cfg.batchMaxEvents >= 1 && !c.paused
    ensures Run(Link(c, Idle), cfg, RoundActions(c, cfg, r)) == Link(AfterRound(c, cfg, r).0, Idle)
  {
    hide Fresh, Expired, Captured, AfterSend, Captures, Run, Left, BatchOf;
    var rows := Front(c.queue, cfg);
    var peeked := if rows == [] then Link(c, Idle) else Link(c, Peeked(rows));
    RunOne(Link(c, Idle), cfg, Peek);
    CapturesRun(peeked, cfg, r.whilePeeking);
    RunAppend(Link(c, Idle), cfg, [Peek], Captures(r.whilePeeking));
    var upTo := [Peek] + Captures(r.whilePeeking);
    var l1 := Link(Captured(c, cfg, r.whilePeeking), peeked.flight);
    assert Run(Link(c, Idle), cfg, upTo) == l1;
    if rows == [] {
      assert RoundActions(c, cfg, r) == upTo;
    } else {
      var l2 := AfterExpiry(l1.c, cfg, rows, r.now, r.bytes);
      RunOne(l1, cfg, Expire(r.now, r.bytes));
      if l2.flight.Idle? {
        RunAppend(Link(c, Idle), cfg, upTo, [Expire(r.now, r.bytes)]);
        assert RoundActions(c, cfg, r) == upTo + [Expire(r.now, r.bytes)];
      } else {
        var tail := Captures(r.whileSending) + [Answer(r.response)] + Captures(r.afterwards);
        RequestIsARun(l2, cfg, r);
        RunAppend(l1, cfg, [Expire(r.now, r.bytes)], tail);
        RunAppend(Link(c, Idle), cfg, upTo, [Expire(r.now, r.bytes)] + tail);
        assert RoundActions(c, cfg, r) == upTo + ([Expire(r.now, r.bytes)] + tail);
      }
    }
  }

  lemma {:induction false} RequestIsARun(l: Link, cfg: Config, r: Round)
    requires l.flight.Awaiting?
    ensures Run(l, cfg, Captures(r.whileSending) + [Answer(r.response)] + Captures(r.afterwards))
         == Link(Captured(AfterSend(Captured(l.c, cfg, r.whileSending), l.flight.batch, r.response),
                          cfg, r.afterwards), Idle)
  {
    hide Captured, AfterSend, Captures, Run;
    var sent := Link(Captured(l.c, cfg, r.whileSending), l.flight);
    var answered := Link(AfterSend(sent.c, l.flight.batch, r.response), Idle);
    CapturesRun(l, cfg, r.whileSending);
    RunOne(sent, cfg, Answer(r.response));
    RunAppend(l, cfg, Captures(r.whileSending), [Answer(r.response)]);
    CapturesRun(answered, cfg, r.afterwards);
    RunAppend(l, cfg, Captures(r.whileSending) + [Answer(r.response)], Captures(r.afterwards));
  }

  /** A round that goes on was acked or expired everything it peeked, so transport is not paused. */
  lemma {:induction false} GoesOnUnpaused(c: Client, cfg: Config, r: Round)
    requires cfg.batchMaxEvents >= 1 && !c.paused && AfterRound(c, cfg, r).1
    ensures !AfterRound(c, cfg, r).0.paused
  {
    hide Fresh, Expired, Captured, AfterSend, Grow, Without;
    var rows := Front(c.queue, cfg);
    var c1 := Captured(c, cfg, r.whilePeeking);
    CapturedKeeps(c, cfg, r.whilePeeking);
    var l2 := AfterExpiry(c1, cfg, rows, r.now, r.bytes);
    if !l2.flight.Idle? {
      var c3 := Captured(l2.c, cfg, r.whileSending);
      CapturedKeeps(l2.c, cfg, r.whileSending);
      SendFlags(c3, l2.flight.batch, r.response);
      CapturedKeeps(AfterSend(c3, l2.flight.batch, r.response), cfg, r.afterwards);
    }
  }

  ghost function DrainActions(c: Client, cfg: Config, rounds: nat -> Round, quiet: nat, k: nat): seq<Action>
    requires cfg.batchMaxEvents >= 1 && Sound(c) && QuietFrom(rounds, quiet)
    decreases if k < quiet then quiet - k else 0, |c.queue|
  {
    hide AfterRound, Sound, Quiet;
    RoundSound(c, cfg, rounds(k));
    RoundShrinks(c, cfg, rounds(k));
    var (after, more) := AfterRound(c, cfg, rounds(k));
    RoundActions(c, cfg, rounds(k)) + if more then DrainActions(after, cfg, rounds, quiet, k + 1) else []
  }

  lemma {:induction false} DrainIsARun(c: Client, cfg: Config, rounds: nat -> Round, quiet: nat, k: nat)
    requires cfg.batchMaxEvents >= 1 && Sound(c) && QuietFrom(rounds, quiet) && !c.paused
    ensures Run(Link(c, Idle), cfg, DrainActions(c, cfg, rounds, quiet, k))
         == Link(Drain(c, cfg, rounds, quiet, k), Idle)
    decreases if k < quiet then quiet - k else 0, |c.queue|
  {
    hide AfterRound, Sound, Quiet, RoundActions, Run;
    var (after, more) := AfterRound(c, cfg, rounds(k));
    var actions := RoundActions(c, cfg, rounds(k));
    RoundIsARun(c, cfg, rounds(k));
    RoundSound(c, cfg, rounds(k));
    RoundShrinks(c, cfg, rounds(k));
    if more {
      GoesOnUnpaused(c, cfg, rounds(k));
      DrainIsARun(after, cfg, rounds, quiet, k + 1);
      RunAppend(Link(c, Idle), cfg, actions, DrainActions(after, cfg, rounds, quiet, k + 1));
    } else {
      assert DrainActions(c, cfg, rounds, quiet, k) == actions + [] == actions;
    }
  }

  /** A flush with captures during its awaits is a run of the protocol, so what holds over every run holds of it. */
  lemma {:induction false} FlushIsARun(c: Client, cfg: Config, rounds: nat -> Round, quiet: nat)
    requires cfg.batchMaxEvents >= 1 && Sound(c) && QuietFrom(rounds, quiet)
    ensures Run(Link(c, Idle), cfg, if c.paused then [] else DrainActions(c, cfg, rounds, quiet, 0))
         == Link(Flushed(c, cfg, rounds, quiet), Idle)
  {
    if c.paused {
    } else {
      hide Run;
      DrainIsARun(c, cfg, rounds, quiet, 0);
    }
  }
}
