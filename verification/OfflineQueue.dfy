/**
 * The client's bounded FIFO of captured events: the memory storage adapter and the cap and
 * drop-counter policy over it.
 */
module OfflineQueue {
  import opened Basics

  datatype Row = Row(seqNo: nat, envelope: string, enqueuedAt: int, money: bool)

  // ---- Specification -----------------------------------------------------------

  /** How many rows a push evicts: all but `cap - 1`, and never more than there are. */
  function Evicted(size: nat, cap: nat): (n: nat)
    ensures n <= size
    ensures size - n < cap || size == n
    ensures n > 0 ==> size - n + 1 >= cap
  {
    if size < cap then 0 else if cap == 0 then size else size - cap + 1
  }

  function Pushed(queue: seq<Row>, row: Row, cap: nat): seq<Row> {
    queue[Evicted(|queue|, cap)..] + [row]
  }

  function SeqNos(rows: seq<Row>): set<nat> {
    set r | r in rows :: r.seqNo
  }

  function Handles(seqs: seq<nat>): set<nat> {
    set s | s in seqs
  }

  /** The rows whose handles are not in `drop`, in order. */
  function Without(queue: seq<Row>, drop: set<nat>): (r: seq<Row>)
    ensures |r| <= |queue|
  {
    if queue == [] then []
    else
      var n := |queue| - 1;
      Without(queue[..n], drop) + if queue[n].seqNo in drop then [] else [queue[n]]
  }

  /** Handles increase from the front to the back. */
  ghost predicate Ordered(queue: seq<Row>) {
    forall i, j :: 0 <= i < j < |queue| ==> queue[i].seqNo < queue[j].seqNo
  }

  // ---- The adapter and the queue -----------------------------------------------

  class MemoryAdapter {
    var queue: seq<Row>
    var nextSeq: nat

    constructor ()
      ensures queue == [] && nextSeq == 1
    {
      queue, nextSeq := [], 1;
    }

    method Push(envelope: string, enqueuedAt: int, money: bool, cap: nat) returns (dropped: nat)
      modifies this
      ensures dropped == Evicted(|old(queue)|, cap)
      ensures queue == Pushed(old(queue), Row(old(nextSeq), envelope, enqueuedAt, money), cap)
      ensures nextSeq == old(nextSeq) + 1
    {
      dropped := 0;
      while |queue| >= cap && |queue| > 0
        invariant dropped <= |old(queue)| && queue == old(queue)[dropped..]
        invariant dropped <= Evicted(|old(queue)|, cap)
        invariant nextSeq == old(nextSeq)
        decreases |queue|
      {
        queue := queue[1..];
        dropped := dropped + 1;
      }
      queue := queue + [Row(nextSeq, envelope, enqueuedAt, money)];
      nextSeq := nextSeq + 1;
    }

    method Peek(limit: nat) returns (rows: seq<Row>)
      ensures rows == if |queue| <= limit then queue else queue[..limit]
    {
      rows := if |queue| <= limit then queue else queue[..limit];
    }

    method Remove(seqs: seq<nat>)
      modifies this`queue
      ensures queue == Without(old(queue), Handles(seqs))
    {
      var drop := Handles(seqs);
      var kept: seq<Row> := [];
      var i := 0;
      while i < |queue|
        invariant 0 <= i <= |queue| && queue == old(queue)
        invariant kept == Without(queue[..i], drop)
      {
        assert queue[..i + 1][..i] == queue[..i];
        if queue[i].seqNo !in drop {
          kept := kept + [queue[i]];
        }
        i := i + 1;
      }
      assert queue[..|queue|] == queue;
      queue := kept;
    }

    method Size() returns (n: nat)
      ensures n == |queue|
    {
      n := |queue|;
    }
  }

  /** The longest suffix the store accepts, if it accepts any, the empty one included. */
  function LongestFit(queue: seq<Row>, fits: seq<Row> -> bool): Option<seq<Row>> {
    if fits(queue) then Some(queue) else if queue == [] then None else LongestFit(queue[1..], fits)
  }

  /** The same queue over a web store, which may refuse a write for want of quota. */
  class LocalStorageAdapter {
    var stored: seq<Row>
    var nextSeq: nat

    /** Handles resume above every surviving row. */
    constructor (surviving: seq<Row>)
      ensures stored == surviving
      ensures forall r :: r in surviving ==> r.seqNo < nextSeq
      ensures nextSeq == 1 || exists r :: r in surviving && r.seqNo + 1 == nextSeq
    {
      stored := surviving;
      var top := 0;
      var i := 0;
      while i < |surviving|
        invariant 0 <= i <= |surviving|
        invariant forall j :: 0 <= j < i ==> surviving[j].seqNo <= top
        invariant top == 0 || exists r :: r in surviving && r.seqNo == top
      {
        if surviving[i].seqNo > top {
          top := surviving[i].seqNo;
        }
        i := i + 1;
      }
      nextSeq := top + 1;
    }

    /** Evict to the cap, append, and evict further until the store accepts the write. */
    method Push(envelope: string, enqueuedAt: int, money: bool, cap: nat, fits: seq<Row> -> bool) returns (dropped: nat)
      modifies this
      ensures nextSeq == old(nextSeq) + 1
      ensures var fit := LongestFit(Pushed(old(stored), Row(old(nextSeq), envelope, enqueuedAt, money), cap), fits);
        && stored == (if fit.Some? then fit.value else old(stored))
        && dropped == |old(stored)| + 1 - (if fit.Some? then |fit.value| else 0)
    {
      var q := stored;
      dropped := 0;
      while |q| >= cap && |q| > 0
        invariant dropped <= |stored| && q == stored[dropped..]
        invariant dropped <= Evicted(|stored|, cap)
        decreases |q|
      {
        q := q[1..];
        dropped := dropped + 1;
      }
      q := q + [Row(nextSeq, envelope, enqueuedAt, money)];
      nextSeq := nextSeq + 1;
      ghost var all := q;
      while !fits(q) && |q| > 0
        invariant LongestFit(q, fits) == LongestFit(all, fits)
        invariant dropped + |q| == |stored| + 1
        decreases |q|
      {
        q := q[1..];
        dropped := dropped + 1;
      }
      if fits(q) {
        stored := q;
      }
    }
  }

  class OfflineQueue {
    const storage: MemoryAdapter
    const cap: nat
    var overflowDropped: nat
    var ttlDropped: nat

    constructor (storage: MemoryAdapter, cap: nat)
      ensures this.storage == storage && this.cap == cap && overflowDropped == 0 && ttlDropped == 0
    {
      this.storage, this.cap, overflowDropped, ttlDropped := storage, cap, 0, 0;
    }

    method Enqueue(envelope: string, money: bool, now: int)
      modifies this`overflowDropped, storage
      ensures overflowDropped == old(overflowDropped) + Evicted(|old(storage.queue)|, cap)
      ensures storage.queue == Pushed(old(storage.queue), Row(old(storage.nextSeq), envelope, now, money), cap)
      ensures storage.nextSeq == old(storage.nextSeq) + 1
    {
      var dropped := storage.Push(envelope, now, money, cap);
      overflowDropped := overflowDropped + dropped;
    }

    method CountTtlDropped(n: nat)
      modifies this`ttlDropped
      ensures ttlDropped == old(ttlDropped) + n
    {
      ttlDropped := ttlDropped + n;
    }
  }

  // ---- Laws ------------------------------------------------------------------------

  /** The cap bounds the queue for good; a cap of 0 still keeps the newest row. */
  lemma {:induction false} PushKeepsCap(queue: seq<Row>, row: Row, cap: nat)
    requires |queue| <= cap || |queue| <= 1
    ensures |Pushed(queue, row, cap)| <= cap || |Pushed(queue, row, cap)| <= 1
    ensures Evicted(|queue|, cap) > 0 <==> |queue| + 1 > cap && |queue| > 0
  {
  }

  /** A web store keeps the longest suffix that fits; nothing longer did. */
  lemma {:induction false} LongestFitIs(queue: seq<Row>, fits: seq<Row> -> bool, n: nat)
    requires n <= |queue|
    ensures var fit := LongestFit(queue, fits);
      && (fit.Some? ==> |fit.value| <= |queue| && fit.value == queue[|queue| - |fit.value|..] && fits(fit.value))
      && (fit.Some? && n < |queue| - |fit.value| ==> !fits(queue[n..]))
      && (fit.None? ==> !fits(queue[n..]))
    decreases |queue|
  {
    if !fits(queue) && queue != [] {
      LongestFitIs(queue[1..], fits, if n == 0 then 0 else n - 1);
      assert n > 0 ==> queue[1..][n - 1..] == queue[n..];
      assert queue[0..] == queue;
    } else {
      assert queue[0..] == queue;
    }
  }

  /**
   * The drop counter of a web store is right (stored plus dropped is what there was, plus
   * one) exactly when some suffix fits or nothing was stored: when even the empty queue is
   * refused, every row is counted as dropped while the old ones are still stored.
   */
  lemma {:induction false} LocalDropsCountIff(stored: seq<Row>, row: Row, cap: nat, fits: seq<Row> -> bool)
    ensures var all := Pushed(stored, row, cap);
      var fit := LongestFit(all, fits);
      var after := if fit.Some? then fit.value else stored;
      var dropped := |stored| + 1 - (if fit.Some? then |fit.value| else 0);
      |after| + dropped == |stored| + 1 <==> (exists n :: 0 <= n <= |all| && fits(all[n..])) || stored == []
  {
    var all := Pushed(stored, row, cap);
    var fit := LongestFit(all, fits);
    if fit.Some? {
      LongestFitIs(all, fits, 0);
      assert fits(all[|all| - |fit.value|..]);
    } else {
      forall n | 0 <= n <= |all| ensures !fits(all[n..]) {
        LongestFitIs(all, fits, n);
      }
    }
  }

  lemma {:induction false} WithoutAppend(a: seq<Row>, b: seq<Row>, drop: set<nat>)
    ensures Without(a + b, drop) == Without(a, drop) + Without(b, drop)
  {
    if b == [] {
      assert a + b == a;
    } else {
      var n := |b| - 1;
      WithoutAppend(a, b[..n], drop);
      assert (a + b)[..|a + b| - 1] == a + b[..n];
    }
  }

  lemma {:induction false} WithoutNone(rows: seq<Row>, drop: set<nat>)
    requires forall r :: r in rows ==> r.seqNo !in drop
    ensures Without(rows, drop) == rows
  {
    if rows != [] {
      assert rows[|rows| - 1] in rows;
      forall r | r in rows[..|rows| - 1] ensures r.seqNo !in drop {
      }
      WithoutNone(rows[..|rows| - 1], drop);
    }
  }

  lemma {:induction false} WithoutAll(rows: seq<Row>, drop: set<nat>)
    requires forall r :: r in rows ==> r.seqNo in drop
    ensures Without(rows, drop) == []
  {
    if rows != [] {
      WithoutAll(rows[..|rows| - 1], drop);
    }
  }

  /** Handles before a cut are smaller than handles after it. */
  lemma {:induction false} HandlesSplit(a: seq<Row>, b: seq<Row>, x: Row, y: Row)
    requires Ordered(a + b) && x in a && y in b
    ensures x.seqNo < y.seqNo
  {
    var i :| 0 <= i < |a| && a[i] == x;
    var j :| 0 <= j < |b| && b[j] == y;
    assert (a + b)[i] == x && (a + b)[|a| + j] == y;
  }

  /** Removing a prefix by its handles leaves exactly the rest. */
  lemma {:induction false} WithoutPrefix(a: seq<Row>, b: seq<Row>)
    requires Ordered(a + b)
    ensures Without(a + b, SeqNos(a)) == b
  {
    var drop := SeqNos(a);
    forall r | r in b ensures r.seqNo !in drop {
      if r.seqNo in drop {
        var q :| q in a && q.seqNo == r.seqNo;
        HandlesSplit(a, b, q, r);
      }
    }
    WithoutAppend(a, b, drop);
    WithoutAll(a, drop);
    WithoutNone(b, drop);
  }
}
