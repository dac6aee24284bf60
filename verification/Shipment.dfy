/**
 * The nightly shipment of sealed raw day-files: decode gate, upload, verify, record, delete.
 * Runs may overlap, fail or crash between any two steps; nothing is locked. The bucket may
 * store something other than what was sent. A checksum is taken to identify its bytes.
 */
module Shipment {
  import opened Basics
  import opened Sums
  import opened ObjectRef

  type Bytes = seq<int>

  datatype Key = Key(game: string, day: string)

  datatype Object = Object(bytes: Bytes, lastModified: int)

  /** An UPLOAD_BOOKKEEPING row. */
  datatype Row = Row(uploadedAt: int, integrity: Bytes, localDeletedAt: Option<int>)

  /** The decode check, the seal clock and the retention settings. */
  datatype Config = Config(
    decodes: Bytes -> bool, isSealed: (Key, int) -> bool,
    localRetention: int, rawRetention: int)

  /** Where one shipment of one file stands. */
  datatype Phase = Enumerated | HasBody(body: Bytes) | Passed(body: Bytes) | Uploaded(body: Bytes) | Verified(body: Bytes)

  datatype Job =
    | Ship(key: Key, now: int, phase: Phase)
    | Retire(key: Key, row: Row, now: int, removed: bool)

  /**
   * `held` and `expired` are history: what the bucket has held under each reference, and
   * the references a raw-retention sweep has removed.
   */
  datatype State = State(
    local: map<Key, Bytes>, bucket: map<string, Object>, rows: map<Key, Row>, jobs: map<int, Job>,
    held: set<(string, Bytes)>, expired: set<string>)

  datatype Action =
    | Append(key: Key, bytes: Bytes)
    | Enumerate(job: int, key: Key, now: int)
    | ReadBody(job: int)
    | Gate(job: int)
    | Put(job: int, stored: Bytes, at: int)
    | Verify(job: int)
    | Record(job: int)
    | RetireDue(job: int, key: Key, now: int)
    | RemoveLocal(job: int)
    | Stamp(job: int)
    | Crash(job: int)
    | ExpireRaw(game: string, now: int)

  // ---- Steps ---------------------------------------------------------------------

  function RefOf(k: Key): Option<string> {
    ObjectRefFor(k.game, k.day)
  }

  function Drop(s: State, w: int): State {
    s.(jobs := s.jobs - {w})
  }

  function Advance(s: State, w: int, phase: Phase): State
    requires w in s.jobs && s.jobs[w].Ship?
  {
    s.(jobs := s.jobs[w := s.jobs[w].(phase := phase)])
  }

  /** Is job `w` a shipment in the given phase? */
  predicate At(s: State, w: int) {
    w in s.jobs && s.jobs[w].Ship?
  }

  function DoReadBody(s: State, w: int): State
    requires At(s, w)
  {
    var k := s.jobs[w].key;
    if k in s.local then Advance(s, w, HasBody(s.local[k])) else Drop(s, w)
  }

  /** The gate decodes the file again; a truncated or corrupt one is neither shipped nor deleted. */
  function DoGate(cfg: Config, s: State, w: int): State
    requires At(s, w) && s.jobs[w].phase.HasBody?
  {
    var k := s.jobs[w].key;
    if k in s.local && cfg.decodes(s.local[k]) then Advance(s, w, Passed(s.jobs[w].phase.body)) else Drop(s, w)
  }

  function DoPut(s: State, w: int, stored: Bytes, at: int): State
    requires At(s, w) && s.jobs[w].phase.Passed?
  {
    match RefOf(s.jobs[w].key)
    case None => Drop(s, w)
    case Some(ref) =>
      Advance(s, w, Uploaded(s.jobs[w].phase.body)).(bucket := s.bucket[ref := Object(stored, at)],
                                                     held := s.held + {(ref, stored)})
  }

  function DoVerify(s: State, w: int): State
    requires At(s, w) && s.jobs[w].phase.Uploaded?
  {
    match RefOf(s.jobs[w].key)
    case None => Drop(s, w)
    case Some(ref) =>
      if ref in s.bucket && s.bucket[ref].bytes == s.jobs[w].phase.body then Advance(s, w, Verified(s.jobs[w].phase.body))
      else Drop(s, w)
  }

  function DoRecord(s: State, w: int): State
    requires At(s, w) && s.jobs[w].phase.Verified?
  {
    Drop(s, w).(rows := s.rows[s.jobs[w].key := Row(s.jobs[w].now, s.jobs[w].phase.body, None)])
  }

  predicate Due(cfg: Config, row: Row, now: int) {
    row.localDeletedAt.None? && now >= row.uploadedAt + cfg.localRetention
  }

  /** The references a sweep removes: under the prefix and last modified before the cutoff. */
  function SweptRefs(bucket: map<string, Object>, prefix: string, cutoff: int): set<string> {
    set ref | ref in bucket && prefix <= ref && bucket[ref].lastModified < cutoff
  }

  /** One step; an action that is not enabled does nothing. */
  function Step(cfg: Config, s: State, a: Action): State {
    match a
    case Append(k, bytes) => s.(local := s.local[k := (if k in s.local then s.local[k] else []) + bytes])
    case Enumerate(w, k, now) =>
      if k in s.local && cfg.isSealed(k, now) && k !in s.rows && w !in s.jobs then
        s.(jobs := s.jobs[w := Ship(k, now, Enumerated)])
      else s
    case ReadBody(w) => if At(s, w) && s.jobs[w].phase.Enumerated? then DoReadBody(s, w) else s
    case Gate(w) => if At(s, w) && s.jobs[w].phase.HasBody? then DoGate(cfg, s, w) else s
    case Put(w, stored, at) => if At(s, w) && s.jobs[w].phase.Passed? then DoPut(s, w, stored, at) else s
    case Verify(w) => if At(s, w) && s.jobs[w].phase.Uploaded? then DoVerify(s, w) else s
    case Record(w) => if At(s, w) && s.jobs[w].phase.Verified? then DoRecord(s, w) else s
    case RetireDue(w, k, now) =>
      if k in s.rows && Due(cfg, s.rows[k], now) && w !in s.jobs then
        s.(jobs := s.jobs[w := Retire(k, s.rows[k], now, false)])
      else s
    case RemoveLocal(w) =>
      if w in s.jobs && s.jobs[w].Retire? then
        s.(local := s.local - {s.jobs[w].key}, jobs := s.jobs[w := s.jobs[w].(removed := true)])
      else s
    case Stamp(w) =>
      if w in s.jobs && s.jobs[w].Retire? && s.jobs[w].removed then
        var j := s.jobs[w];
        Drop(s, w).(rows := s.rows[j.key := j.row.(localDeletedAt := Some(j.now))])
      else s
    case Crash(w) => Drop(s, w)
    case ExpireRaw(game, now) =>
      if cfg.rawRetention <= 0 then s
      else
        var gone := SweptRefs(s.bucket, GamePrefix(game), now - cfg.rawRetention);
        s.(bucket := s.bucket - gone, expired := s.expired + gone)
  }

  function Run(cfg: Config, s: State, actions: seq<Action>): State
    decreases |actions|
  {
    if actions == [] then s else Run(cfg, Step(cfg, s, actions[0]), actions[1..])
  }

  const EMPTY := State(map[], map[], map[], map[], {}, {})

  // ---- Safety whatever the bucket stores --------------------------------------------

  /** The bucket has held, under the key's own reference, exactly these bytes. */
  ghost predicate WasHeld(s: State, k: Key, bytes: Bytes) {
    RefOf(k).Some? && (RefOf(k).value, bytes) in s.held
  }

  ghost predicate RowsVerified(s: State) {
    forall k :: k in s.rows ==> WasHeld(s, k, s.rows[k].integrity)
  }

  ghost predicate JobVerified(s: State, j: Job) {
    match j
    case Ship(k, _, Verified(body)) => WasHeld(s, k, body)
    case Ship(_, _, _) => true
    case Retire(k, row, _, _) => k in s.rows && WasHeld(s, k, row.integrity)
  }

  ghost predicate JobsVerified(s: State) {
    forall w :: w in s.jobs ==> JobVerified(s, s.jobs[w])
  }

  ghost predicate BucketHeld(s: State) {
    forall ref :: ref in s.bucket ==> (ref, s.bucket[ref].bytes) in s.held
  }

  ghost predicate Verifiable(s: State) {
    RowsVerified(s) && JobsVerified(s) && BucketHeld(s)
  }

  /** How a step made job `w` what it is now, if it was not so before. */
  ghost predicate JobMoved(cfg: Config, s: State, a: Action, w: int, j: Job) {
    match a
    case Enumerate(v, k, now) => v == w && j == Ship(k, now, Enumerated)
    case ReadBody(v) =>
      v == w && At(s, w) && s.jobs[w].key in s.local && j == s.jobs[w].(phase := HasBody(s.local[s.jobs[w].key]))
    case Gate(v) => v == w && At(s, w) && s.jobs[w].phase.HasBody? && j == s.jobs[w].(phase := Passed(s.jobs[w].phase.body))
    case Put(v, _, _) => v == w && At(s, w) && s.jobs[w].phase.Passed? && j == s.jobs[w].(phase := Uploaded(s.jobs[w].phase.body))
    case Verify(v) =>
      && v == w && At(s, w) && s.jobs[w].phase.Uploaded? && RefOf(s.jobs[w].key).Some?
      && RefOf(s.jobs[w].key).value in s.bucket && s.bucket[RefOf(s.jobs[w].key).value].bytes == s.jobs[w].phase.body
      && j == s.jobs[w].(phase := Verified(s.jobs[w].phase.body))
    case RetireDue(v, k, now) => v == w && k in s.rows && j == Retire(k, s.rows[k], now, false)
    case RemoveLocal(v) => v == w && w in s.jobs && s.jobs[w].Retire? && j == s.jobs[w].(removed := true)
    case _ => false
  }

  lemma {:induction false} ShipJobMove(cfg: Config, s: State, a: Action, w: int)
    requires w in Step(cfg, s, a).jobs && (a.Enumerate? || a.ReadBody? || a.Gate?)
    ensures (w in s.jobs && Step(cfg, s, a).jobs[w] == s.jobs[w]) || JobMoved(cfg, s, a, w, Step(cfg, s, a).jobs[w])
  {
    hide ObjectRefFor, SweptRefs, RefOf;
    match a {
      case Enumerate(v, k, now) =>
      case ReadBody(v) =>
      case Gate(v) =>
      case _ =>
    }
  }

  lemma {:induction false} UploadJobMove(cfg: Config, s: State, a: Action, w: int)
    requires w in Step(cfg, s, a).jobs && (a.Put? || a.Verify? || a.Record?)
    ensures (w in s.jobs && Step(cfg, s, a).jobs[w] == s.jobs[w]) || JobMoved(cfg, s, a, w, Step(cfg, s, a).jobs[w])
  {
    hide ObjectRefFor, SweptRefs, RefOf;
    match a {
      case Put(v, stored, at) =>
      case Verify(v) =>
      case Record(v) =>
      case _ =>
    }
  }

  lemma {:induction false} RetireJobMove(cfg: Config, s: State, a: Action, w: int)
    requires w in Step(cfg, s, a).jobs && (a.RetireDue? || a.RemoveLocal? || a.Stamp?)
    ensures (w in s.jobs && Step(cfg, s, a).jobs[w] == s.jobs[w]) || JobMoved(cfg, s, a, w, Step(cfg, s, a).jobs[w])
  {
    hide ObjectRefFor, SweptRefs, RefOf;
    match a {
      case RetireDue(v, k, now) =>
      case RemoveLocal(v) =>
      case Stamp(v) =>
      case _ =>
    }
  }

  lemma {:induction false} JobMove(cfg: Config, s: State, a: Action, w: int)
    requires w in Step(cfg, s, a).jobs
    ensures (w in s.jobs && Step(cfg, s, a).jobs[w] == s.jobs[w]) || JobMoved(cfg, s, a, w, Step(cfg, s, a).jobs[w])
  {
    if a.Enumerate? || a.ReadBody? || a.Gate? {
      ShipJobMove(cfg, s, a, w);
    } else if a.Put? || a.Verify? || a.Record? {
      UploadJobMove(cfg, s, a, w);
    } else if a.RetireDue? || a.RemoveLocal? || a.Stamp? {
      RetireJobMove(cfg, s, a, w);
    } else {
      hide ObjectRefFor, SweptRefs, JobMoved;
      assert a.Append? || a.Crash? || a.ExpireRaw?;
    }
  }

  /** History and rows only grow, so what was held stays held. */
  lemma {:induction false} StepGrows(cfg: Config, s: State, a: Action)
    ensures s.held <= Step(cfg, s, a).held
    ensures s.rows.Keys <= Step(cfg, s, a).rows.Keys
  {
    hide ObjectRefFor, SweptRefs;
  }

  lemma {:induction false} StepRows(cfg: Config, s: State, a: Action)
    requires Verifiable(s)
    ensures RowsVerified(Step(cfg, s, a))
  {
    hide ObjectRefFor, SweptRefs, BucketHeld;
    StepGrows(cfg, s, a);
    var s' := Step(cfg, s, a);
    forall k | k in s'.rows ensures WasHeld(s', k, s'.rows[k].integrity) {
      if a.Record? && s'.rows != s.rows {
        assert JobVerified(s, s.jobs[a.job]);
      } else if a.Stamp? && s'.rows != s.rows {
        assert JobVerified(s, s.jobs[a.job]);
      }
    }
  }

  lemma {:induction false} StepBucket(cfg: Config, s: State, a: Action)
    requires BucketHeld(s)
    ensures BucketHeld(Step(cfg, s, a))
  {
    hide ObjectRefFor, SweptRefs;
  }

  lemma {:induction false} JobStaysVerified(s: State, s': State, j: Job)
    requires JobVerified(s, j) && s.held <= s'.held && s.rows.Keys <= s'.rows.Keys
    ensures JobVerified(s', j)
  {
    hide ObjectRefFor;
  }

  lemma {:induction false} StepJobs(cfg: Config, s: State, a: Action)
    requires Verifiable(s)
    ensures JobsVerified(Step(cfg, s, a))
  {
    StepGrows(cfg, s, a);
    hide Step, WasHeld;
    var s' := Step(cfg, s, a);
    forall w | w in s'.jobs ensures JobVerified(s', s'.jobs[w]) {
      JobMove(cfg, s, a, w);
      if w in s.jobs && s'.jobs[w] == s.jobs[w] {
        JobStaysVerified(s, s', s.jobs[w]);
      } else {
        MovedJobVerified(cfg, s, a, w, s'.jobs[w]);
        JobStaysVerified(s, s', s'.jobs[w]);
      }
    }
  }

  /** A verified upload was in the bucket under the file's reference; a retirement carries a row. */
  lemma {:induction false} MovedJobVerified(cfg: Config, s: State, a: Action, w: int, j: Job)
    requires Verifiable(s) && JobMoved(cfg, s, a, w, j)
    ensures JobVerified(s, j)
  {
    hide ObjectRefFor;
    if a.RemoveLocal? {
      assert JobVerified(s, s.jobs[w]);
    }
  }

  lemma {:induction false} StepVerifiable(cfg: Config, s: State, a: Action)
    requires Verifiable(s)
    ensures Verifiable(Step(cfg, s, a))
  {
    StepRows(cfg, s, a);
    StepJobs(cfg, s, a);
    StepBucket(cfg, s, a);
    hide Step;
  }

  lemma {:induction false} StepDeletes(cfg: Config, s: State, a: Action, k: Key)
    requires Verifiable(s) && k in s.local && k !in Step(cfg, s, a).local
    ensures a.RemoveLocal? && k in s.rows
  {
    hide ObjectRefFor, SweptRefs;
    assert JobVerified(s, s.jobs[a.job]);
  }

  lemma {:induction false} RunVerifiable(cfg: Config, s: State, actions: seq<Action>)
    requires Verifiable(s)
    ensures Verifiable(Run(cfg, s, actions))
    decreases |actions|
  {
    hide Verifiable, Step;
    if actions != [] {
      StepVerifiable(cfg, s, actions[0]);
      RunVerifiable(cfg, Step(cfg, s, actions[0]), actions[1..]);
    }
  }

  /**
   * Over every run, with overlaps, crashes and a bucket that may store anything: a row
   * exists only after the bucket held, under the file's own reference, bytes equal to
   * those the row vouches for.
   */
  lemma {:induction false} RecordedOnlyIfHeld(cfg: Config, actions: seq<Action>, k: Key)
    ensures var s := Run(cfg, EMPTY, actions); k in s.rows ==> WasHeld(s, k, s.rows[k].integrity)
  {
    RunVerifiable(cfg, EMPTY, actions);
    hide Run;
  }

  /** And at every step of every run a local file disappears only if its row exists. */
  lemma {:induction false} DeletedOnlyIfRecorded(cfg: Config, actions: seq<Action>, a: Action, k: Key)
    ensures var s := Run(cfg, EMPTY, actions);
      k in s.local && k !in Step(cfg, s, a).local ==>
        k in s.rows && a.RemoveLocal? && WasHeld(s, k, s.rows[k].integrity)
  {
    RunVerifiable(cfg, EMPTY, actions);
    var s := Run(cfg, EMPTY, actions);
    hide Run, Verifiable, Step;
    if k in s.local && k !in Step(cfg, s, a).local {
      StepDeletes(cfg, s, a, k);
      RecordedOnlyIfHeld(cfg, actions, k);
    }
  }

  // ---- When a local file goes --------------------------------------------------------------

  /** The row was written by a worker that had listed the file at that very clock. */
  ghost predicate RecordedAt(actions: seq<Action>, k: Key, at: int) {
    exists h, j :: RecordsAt(actions, h, j, k, at)
  }

  predicate RecordsAt(actions: seq<Action>, h: int, j: int, k: Key, at: int) {
    && 0 <= h < j < |actions|
    && actions[h].Enumerate? && actions[h].key == k && actions[h].now == at
    && actions[j] == Record(actions[h].job)
  }

  /** Worker `w` found this row unstamped, and its retention over. */
  ghost predicate FoundDue(cfg: Config, actions: seq<Action>, w: int, k: Key, row: Row) {
    exists i :: FindsDue(cfg, actions, i, w, k, row)
  }

  ghost predicate FindsDue(cfg: Config, actions: seq<Action>, i: int, w: int, k: Key, row: Row) {
    && 0 <= i < |actions|
    && actions[i].RetireDue? && actions[i].job == w && actions[i].key == k
    && k in Run(cfg, EMPTY, actions[..i]).rows && Run(cfg, EMPTY, actions[..i]).rows[k] == row
    && row.localDeletedAt.None? && actions[i].now >= row.uploadedAt + cfg.localRetention
  }

  ghost predicate JobKnown(cfg: Config, actions: seq<Action>, w: int, j: Job) {
    match j
    case Ship(k, now, _) => exists h :: 0 <= h < |actions| && actions[h] == Enumerate(w, k, now)
    case Retire(k, row, now, _) => FoundDue(cfg, actions, w, k, row) && RecordedAt(actions, k, row.uploadedAt)
  }

  /** Where every job and row of a run came from. */
  ghost predicate Known(cfg: Config, actions: seq<Action>) {
    var s := Run(cfg, EMPTY, actions);
    && (forall w :: w in s.jobs ==> JobKnown(cfg, actions, w, s.jobs[w]))
    && (forall k :: k in s.rows ==> RecordedAt(actions, k, s.rows[k].uploadedAt))
  }

  lemma {:induction false} KnownLater(cfg: Config, actions: seq<Action>, a: Action, w: int, j: Job)
    requires JobKnown(cfg, actions, w, j)
    ensures JobKnown(cfg, actions + [a], w, j)
  {
    var more := actions + [a];
    match j {
      case Ship(k, now, _) =>
        var h :| 0 <= h < |actions| && actions[h] == Enumerate(w, k, now);
        assert more[h] == actions[h];
      case Retire(k, row, now, _) =>
        var i :| FindsDue(cfg, actions, i, w, k, row);
        hide Run;
        assert more[i] == actions[i] && more[..i] == actions[..i];
        assert FindsDue(cfg, more, i, w, k, row);
        RecordedLater(actions, a, k, row.uploadedAt);
    }
  }

  lemma {:induction false} RecordedLater(actions: seq<Action>, a: Action, k: Key, at: int)
    requires RecordedAt(actions, k, at)
    ensures RecordedAt(actions + [a], k, at)
  {
    var h, j :| RecordsAt(actions, h, j, k, at);
    assert RecordsAt(actions + [a], h, j, k, at);
  }

  lemma {:induction false} RunSnoc(cfg: Config, s: State, actions: seq<Action>, a: Action)
    ensures Run(cfg, s, actions + [a]) == Step(cfg, Run(cfg, s, actions), a)
  {
    RunAppend(cfg, s, actions, [a]);
    RunOne(cfg, Run(cfg, s, actions), a);
  }

  /** Which rows a step changes. */
  lemma {:induction false} StepRow(cfg: Config, s: State, a: Action, k: Key)
    requires k in Step(cfg, s, a).rows && !(k in s.rows && Step(cfg, s, a).rows[k] == s.rows[k])
    ensures (a.Record? || a.Stamp?) && a.job in s.jobs && s.jobs[a.job].key == k
    ensures a.Record? ==> s.jobs[a.job].Ship? && Step(cfg, s, a).rows[k].uploadedAt == s.jobs[a.job].now
                          && Step(cfg, s, a).rows[k].localDeletedAt.None?
    ensures a.Stamp? ==> s.jobs[a.job].Retire? && s.jobs[a.job].removed
                         && Step(cfg, s, a).rows[k].uploadedAt == s.jobs[a.job].row.uploadedAt
  {
    hide ObjectRefFor, SweptRefs;
  }

  lemma {:induction false} KnownRow(cfg: Config, actions: seq<Action>, a: Action, k: Key)
    requires Known(cfg, actions) && k in Step(cfg, Run(cfg, EMPTY, actions), a).rows
    ensures RecordedAt(actions + [a], k, Step(cfg, Run(cfg, EMPTY, actions), a).rows[k].uploadedAt)
  {
    var s := Run(cfg, EMPTY, actions);
    hide Run, Step;
    if k in s.rows && Step(cfg, s, a).rows[k] == s.rows[k] {
      RecordedLater(actions, a, k, s.rows[k].uploadedAt);
    } else {
      StepRow(cfg, s, a, k);
      assert JobKnown(cfg, actions, a.job, s.jobs[a.job]);
      if a.Record? {
        var h :| 0 <= h < |actions| && actions[h] == Enumerate(a.job, k, s.jobs[a.job].now);
        assert RecordsAt(actions + [a], h, |actions|, k, s.jobs[a.job].now);
      } else {
        RecordedLater(actions, a, k, s.jobs[a.job].row.uploadedAt);
      }
    }
  }

  lemma {:induction false} KnownJob(cfg: Config, actions: seq<Action>, a: Action, w: int)
    requires Known(cfg, actions) && w in Step(cfg, Run(cfg, EMPTY, actions), a).jobs
    ensures JobKnown(cfg, actions + [a], w, Step(cfg, Run(cfg, EMPTY, actions), a).jobs[w])
  {
    var s := Run(cfg, EMPTY, actions);
    var more := actions + [a];
    JobMove(cfg, s, a, w);
    if a.RetireDue? && !(w in s.jobs && Step(cfg, s, a).jobs[w] == s.jobs[w]) {
      DueJob(cfg, s, a, w);
    }
    hide Run, Step, RefOf;
    var j := Step(cfg, s, a).jobs[w];
    if w in s.jobs && j == s.jobs[w] {
      KnownLater(cfg, actions, a, w, j);
    } else if a.Enumerate? {
      assert more[|actions|] == a;
    } else if a.RetireDue? {
      assert more[|actions|] == a && more[..|actions|] == actions;
      assert FindsDue(cfg, more, |actions|, w, a.key, j.row);
      RecordedLater(actions, a, a.key, j.row.uploadedAt);
    } else {
      KnownLater(cfg, actions, a, w, s.jobs[w]);
    }
  }

  lemma {:induction false} DueJob(cfg: Config, s: State, a: Action, w: int)
    requires a.RetireDue? && w in Step(cfg, s, a).jobs && !(w in s.jobs && Step(cfg, s, a).jobs[w] == s.jobs[w])
    ensures a.key in s.rows && w == a.job && Step(cfg, s, a).jobs[w] == Retire(a.key, s.rows[a.key], a.now, false)
    ensures s.rows[a.key].localDeletedAt.None? && a.now >= s.rows[a.key].uploadedAt + cfg.localRetention
  {
    hide ObjectRefFor;
  }

  lemma {:induction false} RunKnown(cfg: Config, actions: seq<Action>)
    ensures Known(cfg, actions)
    decreases |actions|
  {
    if actions != [] {
      var n := |actions| - 1;
      RunKnown(cfg, actions[..n]);
      RunSnoc(cfg, EMPTY, actions[..n], actions[n]);
      assert actions == actions[..n] + [actions[n]];
      var s := Run(cfg, EMPTY, actions);
      hide Run, Step, JobKnown, RecordedAt;
      forall w | w in s.jobs ensures JobKnown(cfg, actions, w, s.jobs[w]) {
        KnownJob(cfg, actions[..n], actions[n], w);
      }
      forall k | k in s.rows ensures RecordedAt(actions, k, s.rows[k].uploadedAt) {
        KnownRow(cfg, actions[..n], actions[n], k);
      }
    }
  }

  lemma {:induction false} StepRemoves(cfg: Config, s: State, a: Action, k: Key)
    requires k in s.local && k !in Step(cfg, s, a).local
    ensures a.RemoveLocal? && a.job in s.jobs && s.jobs[a.job].Retire? && s.jobs[a.job].key == k
  {
    hide ObjectRefFor, SweptRefs;
  }

  /**
   * Whenever a step of any run removes a local file or stamps its row, the worker had found
   * the row, in an earlier state, unstamped and at least the local retention after
   * `uploadedAt`; and `uploadedAt` is the clock of the worker that recorded the file.
   */
  lemma {:induction false} GoesOnlyWhenDue(cfg: Config, actions: seq<Action>, a: Action, k: Key)
    requires var s := Run(cfg, EMPTY, actions); var after := Step(cfg, s, a);
      || (k in s.local && k !in after.local)
      || (k in after.rows && after.rows[k].localDeletedAt.Some? && !(k in s.rows && s.rows[k] == after.rows[k]))
    ensures (a.RemoveLocal? || a.Stamp?) && exists row :: FoundDue(cfg, actions, a.job, k, row) && RecordedAt(actions, k, row.uploadedAt)
  {
    RunKnown(cfg, actions);
    var s := Run(cfg, EMPTY, actions);
    if k in s.local && k !in Step(cfg, s, a).local {
      StepRemoves(cfg, s, a, k);
    } else {
      StepRow(cfg, s, a, k);
    }
    hide Run, Step;
    assert JobKnown(cfg, actions, a.job, s.jobs[a.job]);
  }

  // ---- Files the gate rejects ----------------------------------------------------------

  /** A file whose content is final and does not decode. */
  ghost predicate Rejected(cfg: Config, s: State, k: Key, content: Bytes) {
    && !cfg.decodes(content)
    && k in s.local && s.local[k] == content
    && k !in s.rows
    && forall w :: w in s.jobs && s.jobs[w].key == k ==>
         s.jobs[w].Ship? && (s.jobs[w].phase.Enumerated? || s.jobs[w].phase.HasBody?)
  }

  predicate Untouched(actions: seq<Action>, k: Key) {
    forall i :: 0 <= i < |actions| ==> !(actions[i].Append? && actions[i].key == k)
  }

  lemma {:induction false} RejectedStep(cfg: Config, s: State, a: Action, k: Key, content: Bytes)
    requires Rejected(cfg, s, k, content) && !(a.Append? && a.key == k)
    ensures Rejected(cfg, Step(cfg, s, a), k, content)
  {
    hide ObjectRefFor, SweptRefs, RefOf;
  }

  lemma {:induction false} NotUploadedStep(cfg: Config, s: State, a: Action, k: Key, content: Bytes)
    requires Rejected(cfg, s, k, content) && RefOf(k).Some? && RefOf(k).value !in s.bucket
    ensures RefOf(k).value !in Step(cfg, s, a).bucket
  {
    hide ObjectRefFor, SweptRefs;
    if a.Put? && At(s, a.job) && s.jobs[a.job].phase.Passed? {
      KeysApart(s.jobs[a.job].key, k);
    }
  }

  lemma {:induction false} KeysApart(k1: Key, k2: Key)
    ensures RefOf(k1).Some? && RefOf(k1) == RefOf(k2) ==> k1 == k2
  {
    if RefOf(k1).Some? && RefOf(k1) == RefOf(k2) {
      ObjectRefInjective(k1.game, k1.day, k2.game, k2.day);
    }
  }

  /** A rejected file is never uploaded, never recorded and never deleted, over every run. */
  lemma {:induction false} RejectedStaysLocal(cfg: Config, s: State, actions: seq<Action>, k: Key, content: Bytes)
    requires Rejected(cfg, s, k, content) && Untouched(actions, k)
    ensures var after := Run(cfg, s, actions);
      && k in after.local && after.local[k] == content && k !in after.rows
      && (RefOf(k).Some? && RefOf(k).value !in s.bucket ==> RefOf(k).value !in after.bucket)
    decreases |actions|
  {
    hide Step;
    if actions != [] {
      RejectedStep(cfg, s, actions[0], k, content);
      if RefOf(k).Some? && RefOf(k).value !in s.bucket {
        NotUploadedStep(cfg, s, actions[0], k, content);
      }
      assert Untouched(actions[1..], k);
      RejectedStaysLocal(cfg, Step(cfg, s, actions[0]), actions[1..], k, content);
    }
  }

  // ---- Durability with a bucket that stores what it is sent --------------------------------

  ghost predicate InBucket(s: State, ref: string, content: Bytes) {
    ref in s.expired || (ref in s.bucket && s.bucket[ref].bytes == content)
  }

  /** What is known of a job on a file whose content is final. */
  ghost predicate JobSound(s: State, j: Job, ref: string, content: Bytes) {
    match j
    case Ship(_, _, Enumerated) => true
    case Ship(_, _, HasBody(body)) => body == content
    case Ship(_, _, Passed(body)) => body == content
    case Ship(_, _, Uploaded(body)) => body == content
    case Ship(_, _, Verified(body)) => body == content && InBucket(s, ref, content)
    case Retire(k, _, _, _) => k in s.rows
  }

  ghost predicate Durable(s: State, k: Key, ref: string, content: Bytes) {
    && (k in s.local ==> s.local[k] == content)
    && (k in s.local || k in s.rows)
    && (k in s.rows ==> InBucket(s, ref, content))
    && (forall w :: w in s.jobs && s.jobs[w].key == k ==> JobSound(s, s.jobs[w], ref, content))
  }

  /** An upload of the file that this step lands in the bucket. */
  predicate Lands(s: State, a: Action, k: Key) {
    a.Put? && At(s, a.job) && s.jobs[a.job].phase.Passed? && s.jobs[a.job].key == k
  }

  /** Someone already relies on the object: it is recorded, or verified and about to be. */
  ghost predicate Vouched(s: State, k: Key) {
    k in s.rows || exists w :: w in s.jobs && s.jobs[w].Ship? && s.jobs[w].key == k && s.jobs[w].phase.Verified?
  }

  /** Until then an upload may store anything; from then on it stores the body it is given. */
  ghost predicate NoLateCorruption(s: State, a: Action, k: Key) {
    Lands(s, a, k) && Vouched(s, k) ==> a.stored == s.jobs[a.job].phase.body
  }

  ghost predicate NeverCorruptedLate(cfg: Config, s: State, actions: seq<Action>, k: Key)
    decreases |actions|
  {
    actions == []
    || (NoLateCorruption(s, actions[0], k) && NeverCorruptedLate(cfg, Step(cfg, s, actions[0]), actions[1..], k))
  }

  /** Once vouched for, the object is touched by nothing but a sweep or an upload of the same content. */
  lemma {:induction false} BucketStays(cfg: Config, s: State, a: Action, k: Key, ref: string, content: Bytes)
    requires RefOf(k) == Some(ref) && NoLateCorruption(s, a, k)
    requires forall w :: w in s.jobs && s.jobs[w].key == k ==> JobSound(s, s.jobs[w], ref, content)
    ensures (Vouched(s, k) || !a.Put?) && InBucket(s, ref, content) ==> InBucket(Step(cfg, s, a), ref, content)
  {
    hide ObjectRefFor, SweptRefs, Vouched;
    if a.Put? && At(s, a.job) && s.jobs[a.job].phase.Passed? {
      KeysApart(s.jobs[a.job].key, k);
    }
  }

  /** The file itself, its row and its object after a step. */
  lemma {:induction false} FileStaysDurable(cfg: Config, s: State, a: Action, k: Key, ref: string, content: Bytes)
    requires Durable(s, k, ref, content) && RefOf(k) == Some(ref)
    requires !(a.Append? && a.key == k) && NoLateCorruption(s, a, k)
    ensures var s' := Step(cfg, s, a);
      && (k in s'.local ==> s'.local[k] == content)
      && (k in s'.local || k in s'.rows)
      && (k in s'.rows ==> InBucket(s', ref, content))
      && s.rows.Keys <= s'.rows.Keys
  {
    BucketStays(cfg, s, a, k, ref, content);
    hide ObjectRefFor, SweptRefs, RefOf, InBucket;
    match a {
      case RemoveLocal(w) =>
      case Record(w) =>
      case Stamp(w) =>
      case _ =>
    }
  }

  /** A job that moved is sound in the state it moved from, but for what it has just uploaded. */
  lemma {:induction false} MovedJobSound(cfg: Config, s: State, a: Action, k: Key, ref: string, content: Bytes,
                                         w: int, j: Job)
    requires Durable(s, k, ref, content) && RefOf(k) == Some(ref)
    requires JobMoved(cfg, s, a, w, j) && j.key == k
    ensures JobSound(s, j, ref, content)
  {
    hide ObjectRefFor, RefOf;
    if w in s.jobs && s.jobs[w].key == k {
      assert JobSound(s, s.jobs[w], ref, content);
    }
  }

  lemma {:induction false} SoundStays(s: State, s': State, j: Job, ref: string, content: Bytes)
    requires JobSound(s, j, ref, content) && s.rows.Keys <= s'.rows.Keys
    requires j.Ship? && j.phase.Verified? && InBucket(s, ref, content) ==> InBucket(s', ref, content)
    ensures JobSound(s', j, ref, content)
  {
    hide InBucket;
  }

  lemma {:induction false} DurableStep(cfg: Config, s: State, a: Action, k: Key, ref: string, content: Bytes)
    requires Durable(s, k, ref, content) && RefOf(k) == Some(ref)
    requires !(a.Append? && a.key == k) && NoLateCorruption(s, a, k)
    ensures Durable(Step(cfg, s, a), k, ref, content)
  {
    FileStaysDurable(cfg, s, a, k, ref, content);
    BucketStays(cfg, s, a, k, ref, content);
    var s' := Step(cfg, s, a);
    forall w | w in s'.jobs && s'.jobs[w].key == k ensures JobSound(s', s'.jobs[w], ref, content) {
      JobMove(cfg, s, a, w);
      if w in s.jobs && s'.jobs[w] == s.jobs[w] {
        assert s.jobs[w].Ship? && s.jobs[w].phase.Verified? ==> Vouched(s, k);
      } else {
        MovedJobSound(cfg, s, a, k, ref, content, w, s'.jobs[w]);
        assert s'.jobs[w].Ship? && s'.jobs[w].phase.Verified? ==> !a.Put?;
      }
      hide Step, JobSound, InBucket, JobMoved, Vouched;
      SoundStays(s, s', s'.jobs[w], ref, content);
    }
  }

  /**
   * No sealed file is lost: from the moment its content is final, over every run with
   * overlaps, failures and crashes anywhere, and uploads that store anything as long as
   * nobody vouches for the object yet, the content stays on local disk or in the bucket
   * until a raw-retention sweep removes the object.
   */
  lemma {:induction false} NeverLost(cfg: Config, s: State, actions: seq<Action>, k: Key, ref: string, content: Bytes)
    requires Durable(s, k, ref, content) && RefOf(k) == Some(ref)
    requires Untouched(actions, k) && NeverCorruptedLate(cfg, s, actions, k)
    ensures var after := Run(cfg, s, actions);
      && Durable(after, k, ref, content)
      && ((k in after.local && after.local[k] == content)
          || (ref in after.bucket && after.bucket[ref].bytes == content) || ref in after.expired)
    decreases |actions|
  {
    hide Step, NoLateCorruption;
    if actions != [] {
      DurableStep(cfg, s, actions[0], k, ref, content);
      assert Untouched(actions[1..], k);
      NeverLost(cfg, Step(cfg, s, actions[0]), actions[1..], k, ref, content);
    }
  }

  /** A file that is final, unrecorded and in no one's hands is durable to begin with. */
  lemma {:induction false} FinalFileIsDurable(s: State, k: Key, ref: string)
    requires k in s.local && k !in s.rows && forall w :: w in s.jobs ==> s.jobs[w].key != k
    ensures Durable(s, k, ref, s.local[k])
  {
  }

  /** A sweep only removes objects of its own game, older than the raw retention. */
  lemma {:induction false} SweepIsScoped(cfg: Config, s: State, game: string, now: int, k: Key)
    requires LegalSegment(game) && RefOf(k).Some? && RefOf(k).value in s.bucket
    requires RefOf(k).value !in Step(cfg, s, ExpireRaw(game, now)).bucket
    ensures k.game == game && cfg.rawRetention > 0
    ensures s.bucket[RefOf(k).value].lastModified < now - cfg.rawRetention
  {
    hide ObjectRefFor;
    PrefixScopesGame(k.game, k.day, game);
  }

  // ---- The service ---------------------------------------------------------------------------

  /** The store's answer to an upload: an error, or some stored bytes. */
  datatype PutOutcome = Throws | Stores(stored: Bytes, at: int)

  datatype Verdict = Shipped | Flagged | Failed

  /** One undisturbed shipment of a file. */
  function AfterShip(cfg: Config, s: State, k: Key, now: int, put: PutOutcome): State {
    if k !in s.local || !cfg.decodes(s.local[k]) || RefOf(k).None? || put.Throws? then s
    else
      var uploaded := Stored(s, RefOf(k).value, put.stored, put.at);
      if put.stored == s.local[k] then uploaded.(rows := s.rows[k := Row(now, s.local[k], None)]) else uploaded
  }

  function VerdictOf(cfg: Config, s: State, k: Key, put: PutOutcome): Verdict {
    if k !in s.local then Failed
    else if !cfg.decodes(s.local[k]) then Flagged
    else if RefOf(k).Some? && put.Stores? && put.stored == s.local[k] then Shipped
    else Failed
  }

  /** What fails in one pass: draining a writer, removing a local copy, saving its stamp. */
  datatype Faults = Faults(seals: set<Key>, removals: set<Key>, stamps: set<Key>)

  /** The files of a game whose local retention has run out. */
  function DueKeys(cfg: Config, rows: map<Key, Row>, game: string, now: int): set<Key> {
    set k | k in rows && k.game == game && Due(cfg, rows[k], now)
  }

  function Stamped(rows: map<Key, Row>, keys: set<Key>, now: int): map<Key, Row> {
    map k | k in rows :: if k in keys then rows[k].(localDeletedAt := Some(now)) else rows[k]
  }

  /** The files of a set that are removed and stamped. */
  function Completed(keys: set<Key>, faults: Faults): set<Key> {
    keys - faults.removals - faults.stamps
  }

  function Retired(s: State, keys: set<Key>, now: int, faults: Faults): State {
    s.(local := s.local - (keys - faults.removals), rows := Stamped(s.rows, Completed(keys, faults), now))
  }

  function RetiredFile(s: State, k: Key, now: int, faults: Faults): State
    requires k in s.rows
  {
    if k in faults.removals then s
    else if k in faults.stamps then s.(local := s.local - {k})
    else s.(local := s.local - {k}, rows := s.rows[k := s.rows[k].(localDeletedAt := Some(now))])
  }

  /** Handling one more key of the table. */
  lemma {:induction false} DueOne(cfg: Config, rows: map<Key, Row>, game: string, now: int, todo: set<Key>, k: Key)
    requires k in todo && k in rows
    ensures var all := DueKeys(cfg, rows, game, now);
      && all - (todo - {k}) == (if k in all then (all - todo) + {k} else all - todo)
      && k !in all - todo
      && (k in all <==> k.game == game && Due(cfg, rows[k], now))
  {
  }

  /** Retiring one more file. */
  lemma {:induction false} RetireOne(s: State, done: set<Key>, k: Key, now: int, faults: Faults)
    requires k in s.rows && k !in done
    ensures var before := Retired(s, done, now, faults);
      && k in before.rows && before.rows[k] == s.rows[k] && before.rows.Keys == s.rows.Keys
      && Retired(s, done + {k}, now, faults) == RetiredFile(before, k, now, faults)
      && Retired(s, done + {k}, now, faults).rows.Keys == s.rows.Keys
  {
    var gone := done - faults.removals;
    if k in faults.removals {
      assert (done + {k}) - faults.removals == gone;
    } else {
      assert (done + {k}) - faults.removals == gone + {k};
      assert s.local - (gone + {k}) == (s.local - gone) - {k};
      if k in faults.stamps {
        assert (gone + {k}) - faults.stamps == gone - faults.stamps;
      } else {
        assert (gone + {k}) - faults.stamps == (gone - faults.stamps) + {k};
      }
    }
  }

  lemma DueInTable(cfg: Config, rows: map<Key, Row>, game: string, now: int)
    ensures DueKeys(cfg, rows, game, now) - rows.Keys == {}
  {
  }

  lemma CountOne(done: set<Key>, k: Key, faults: Faults)
    requires k !in done
    ensures |Completed(done + {k}, faults)|
         == |Completed(done, faults)| + if k in faults.removals || k in faults.stamps then 0 else 1
  {
    assert Completed(done + {k}, faults)
        == if k in faults.removals || k in faults.stamps then Completed(done, faults) else Completed(done, faults) + {k};
  }

  lemma RetireNone(s: State, now: int, faults: Faults)
    ensures Retired(s, {}, now, faults) == s && Completed({}, faults) == {}
  {
    assert {} - faults.removals == {} && {} - faults.removals - faults.stamps == {};
    assert s.local - {} == s.local && Stamped(s.rows, {}, now) == s.rows;
  }

  /** Handling one more object of the bucket. */
  lemma {:induction false} SweepOne(bucket: map<string, Object>, prefix: string, cutoff: int, todo: set<string>,
                                    ref: string)
    requires ref in todo && ref in bucket
    ensures var all := SweptRefs(bucket, prefix, cutoff); var gone := all - todo;
      && all - (todo - {ref}) == (if ref in all then gone + {ref} else gone)
      && ref !in gone && (bucket - gone) - {ref} == bucket - (gone + {ref})
      && (ref in all <==> prefix <= ref && bucket[ref].lastModified < cutoff)
  {
  }

  lemma SweepIs(cfg: Config, s: State, game: string, now: int)
    ensures var gone := SweptRefs(s.bucket, GamePrefix(game), now - cfg.rawRetention);
      Step(cfg, s, ExpireRaw(game, now)) ==
        if cfg.rawRetention <= 0 then s else s.(bucket := s.bucket - gone, expired := s.expired + gone)
  {
  }

  lemma SweptInBucket(bucket: map<string, Object>, prefix: string, cutoff: int)
    ensures SweptRefs(bucket, prefix, cutoff) - bucket.Keys == {}
  {
  }

  function AfterRetention(cfg: Config, s: State, game: string, now: int, faults: Faults): State {
    Retired(s, DueKeys(cfg, s.rows, game, now), now, faults)
  }

  /** The files whose day is sealed and whose writer drained, or (`drained` false) did not. */
  function SealOutcome(cfg: Config, files: seq<Key>, now: int, faults: Faults, drained: bool): seq<Key> {
    if files == [] then []
    else
      var n := |files| - 1;
      SealOutcome(cfg, files[..n], now, faults, drained)
      + if cfg.isSealed(files[n], now) && (files[n] !in faults.seals) == drained then [files[n]] else []
  }

  /** Ship, in order, the files that have no row. */
  function AfterShips(cfg: Config, s: State, files: seq<Key>, now: int, puts: Key -> PutOutcome): State {
    if files == [] then s
    else
      var n := |files| - 1;
      var before := AfterShips(cfg, s, files[..n], now, puts);
      if files[n] in before.rows then before else AfterShip(cfg, before, files[n], now, puts(files[n]))
  }

  /** How many of the files met a given verdict. */
  function Tally(cfg: Config, s: State, files: seq<Key>, now: int, puts: Key -> PutOutcome, v: Verdict): nat {
    if files == [] then 0
    else
      var n := |files| - 1;
      var before := AfterShips(cfg, s, files[..n], now, puts);
      Tally(cfg, s, files[..n], now, puts, v)
      + if files[n] !in before.rows && VerdictOf(cfg, before, files[n], puts(files[n])) == v then 1 else 0
  }

  function AfterPass(cfg: Config, s: State, game: string, files: seq<Key>, now: int, puts: Key -> PutOutcome,
                     faults: Faults): State {
    var shipped := AfterShips(cfg, s, SealOutcome(cfg, files, now, faults, true), now, puts);
    Step(cfg, AfterRetention(cfg, shipped, game, now, faults), ExpireRaw(game, now))
  }

  /** What a retention pass does to one file, by its row alone. */
  ghost predicate FileAfterRetention(cfg: Config, before: State, after: State, game: string, now: int, faults: Faults,
                                     k: Key) {
    var due := && k in before.rows && k.game == game && before.rows[k].localDeletedAt.None?
               && now >= before.rows[k].uploadedAt + cfg.localRetention;
    && (k in after.rows <==> k in before.rows)
    && (!due || k in faults.removals ==>
          && (k in before.rows ==> after.rows[k] == before.rows[k])
          && (k in after.local <==> k in before.local) && (k in before.local ==> after.local[k] == before.local[k]))
    && (due && k !in faults.removals ==>
          && k !in after.local
          && after.rows[k] == if k in faults.stamps then before.rows[k]
                              else before.rows[k].(localDeletedAt := Some(now)))
  }

  /** Files whose time has not come are left alone, with their rows; all others are removed and stamped. */
  lemma {:induction false} RetentionByFile(cfg: Config, s: State, game: string, now: int, faults: Faults)
    ensures forall k :: FileAfterRetention(cfg, s, AfterRetention(cfg, s, game, now, faults), game, now, faults, k)
  {
  }

  class NightlyShipmentService {
    const cfg: Config
    var local: map<Key, Bytes>
    var bucket: map<string, Object>
    var rows: map<Key, Row>
    ghost var held: set<(string, Bytes)>
    ghost var expired: set<string>

    /** Between runs no job of this worker is in flight. */
    ghost function Snapshot(): State
      reads this
    {
      State(local, bucket, rows, map[], held, expired)
    }

    method DecodeGate(k: Key) returns (ok: bool)
      ensures ok == (k in local && cfg.decodes(local[k]))
    {
      if k !in local { return false; }
      ok := cfg.decodes(local[k]);
    }

    method VerifyObject(ref: string, expected: Bytes) returns (ok: bool)
      ensures ok == (ref in bucket && bucket[ref].bytes == expected)
    {
      if ref !in bucket { return false; }
      ok := bucket[ref].bytes == expected;
    }

    method ShipFile(k: Key, now: int, put: PutOutcome) returns (verdict: Verdict)
      modifies this
      ensures Snapshot() == AfterShip(cfg, old(Snapshot()), k, now, put)
      ensures verdict == VerdictOf(cfg, old(Snapshot()), k, put)
    {
      if k !in local { return Failed; }
      var body := local[k];
      var ok := DecodeGate(k);
      if !ok { return Flagged; }
      var ref := ObjectRefFor(k.game, k.day);
      if ref.None? || put.Throws? { return Failed; }
      bucket := bucket[ref.value := Object(put.stored, put.at)];
      held := held + {(ref.value, put.stored)};
      var verified := VerifyObject(ref.value, body);
      if !verified { return Failed; }
      rows := rows[k := Row(now, body, None)];
      verdict := Shipped;
    }

    /** Remove one local copy and stamp its row; a failure of either is isolated. */
    method RetireFile(k: Key, now: int, faults: Faults) returns (completed: bool)
      requires k in rows
      modifies this`local, this`rows
      ensures Snapshot() == RetiredFile(old(Snapshot()), k, now, faults)
      ensures completed == (k !in faults.removals && k !in faults.stamps)
    {
      if k in faults.removals { return false; }
      local := local - {k};
      if k in faults.stamps { return false; }
      rows := rows[k := rows[k].(localDeletedAt := Some(now))];
      completed := true;
    }

    /** Delete the local copies that are due, reading the row and never a flag of this run. */
    method RetentionPass(game: string, now: int, faults: Faults) returns (deleted: nat)
      modifies this`local, this`rows
      ensures Snapshot() == AfterRetention(cfg, old(Snapshot()), game, now, faults)
      ensures deleted == |Completed(DueKeys(cfg, old(rows), game, now), faults)|
      ensures forall k :: FileAfterRetention(cfg, old(Snapshot()), Snapshot(), game, now, faults, k)
    {
      RetentionByFile(cfg, Snapshot(), game, now, faults);
      hide DueKeys, Retired, RetiredFile, Completed, FileAfterRetention;
      deleted := 0;
      ghost var before := Snapshot();
      ghost var all := DueKeys(cfg, rows, game, now);
      ghost var done: set<Key> := {};
      var todo := rows.Keys;
      RetireNone(before, now, faults);
      DueInTable(cfg, rows, game, now);
      while todo != {}
        invariant todo <= before.rows.Keys && done == all - todo
        invariant Snapshot() == Retired(before, done, now, faults) && rows.Keys == before.rows.Keys
        invariant deleted == |Completed(done, faults)|
        decreases |todo|
      {
        var k :| k in todo;
        DueOne(cfg, before.rows, game, now, todo, k);
        RetireOne(before, done, k, now, faults);
        CountOne(done, k, faults);
        var row := rows[k];
        if k.game == game && row.localDeletedAt.None? && now >= row.uploadedAt + cfg.localRetention {
          var completed := RetireFile(k, now, faults);
          if completed { deleted := deleted + 1; }
          done := done + {k};
        }
        todo := todo - {k};
      }
      assert all - {} == all;
    }

    /** List the objects under a prefix and delete those older than the cutoff. */
    method ExpireOlderThan(prefix: string, cutoff: int) returns (deleted: set<string>)
      modifies this`bucket
      ensures deleted == SweptRefs(old(bucket), prefix, cutoff)
      ensures bucket == old(bucket) - deleted
    {
      hide SweptRefs;
      deleted := {};
      ghost var before := bucket;
      ghost var all := SweptRefs(before, prefix, cutoff);
      var todo := bucket.Keys;
      SweptInBucket(before, prefix, cutoff);
      while todo != {}
        invariant todo <= before.Keys && deleted == all - todo
        invariant bucket == before - deleted
        decreases |todo|
      {
        var ref :| ref in todo;
        SweepOne(before, prefix, cutoff, todo, ref);
        if prefix <= ref && bucket[ref].lastModified < cutoff {
          bucket := bucket - {ref};
          deleted := deleted + {ref};
        }
        todo := todo - {ref};
      }
    }

    /** The game's raw expiry; a retention of 0 or less keeps everything. */
    method ExpireOldRaw(game: string, now: int) returns (count: nat)
      modifies this`bucket, this`expired
      ensures Snapshot() == Step(cfg, old(Snapshot()), ExpireRaw(game, now))
      ensures count == if cfg.rawRetention <= 0 then 0 else |SweptRefs(old(bucket), GamePrefix(game), now - cfg.rawRetention)|
    {
      hide Step, SweptRefs, GamePrefix;
      SweepIs(cfg, Snapshot(), game, now);
      if cfg.rawRetention <= 0 { return 0; }
      var deleted := ExpireOlderThan(GamePrefix(game), now - cfg.rawRetention);
      expired := expired + deleted;
      count := |deleted|;
    }

    /** Drain the writers of the sealed days; a failure skips the file. */
    method SealFiles(files: seq<Key>, now: int, faults: Faults) returns (sealedFiles: seq<Key>, failed: nat)
      ensures sealedFiles == SealOutcome(cfg, files, now, faults, true)
      ensures failed == |SealOutcome(cfg, files, now, faults, false)|
    {
      sealedFiles, failed := [], 0;
      for i := 0 to |files|
        invariant sealedFiles == SealOutcome(cfg, files[..i], now, faults, true)
        invariant failed == |SealOutcome(cfg, files[..i], now, faults, false)|
      {
        var k := files[i];
        assert files[..i + 1][..i] == files[..i];
        if cfg.isSealed(k, now) {
          if k in faults.seals {
            failed := failed + 1;
          } else {
            sealedFiles := sealedFiles + [k];
          }
        }
      }
      assert files[..|files|] == files;
    }

    method ShipFiles(files: seq<Key>, now: int, puts: Key -> PutOutcome)
      returns (shipped: nat, flagged: nat, failed: nat)
      modifies this
      ensures Snapshot() == AfterShips(cfg, old(Snapshot()), files, now, puts)
      ensures shipped == Tally(cfg, old(Snapshot()), files, now, puts, Shipped)
      ensures flagged == Tally(cfg, old(Snapshot()), files, now, puts, Flagged)
      ensures failed == Tally(cfg, old(Snapshot()), files, now, puts, Failed)
    {
      hide AfterShip, VerdictOf;
      shipped, flagged, failed := 0, 0, 0;
      for i := 0 to |files|
        invariant Snapshot() == AfterShips(cfg, old(Snapshot()), files[..i], now, puts)
        invariant shipped == Tally(cfg, old(Snapshot()), files[..i], now, puts, Shipped)
        invariant flagged == Tally(cfg, old(Snapshot()), files[..i], now, puts, Flagged)
        invariant failed == Tally(cfg, old(Snapshot()), files[..i], now, puts, Failed)
      {
        var k := files[i];
        assert files[..i + 1][..i] == files[..i];
        if k !in rows {
          var verdict := ShipFile(k, now, puts(k));
          match verdict {
            case Shipped => shipped := shipped + 1;
            case Flagged => flagged := flagged + 1;
            case Failed => failed := failed + 1;
          }
        }
      }
      assert files[..|files|] == files;
    }

    /** One game's pass: seal and ship what has no row, then local retention, then raw expiry. */
    method RunGame(enabled: bool, game: string, files: seq<Key>, now: int, puts: Key -> PutOutcome, faults: Faults)
      returns (sealed: nat, shipped: nat, flagged: nat, failed: nat, deleted: nat, expiredCount: nat)
      modifies this
      ensures !enabled ==> Snapshot() == old(Snapshot())
      ensures !enabled ==> sealed == shipped == flagged == failed == deleted == expiredCount == 0
      ensures enabled ==> Snapshot() == AfterPass(cfg, old(Snapshot()), game, files, now, puts, faults)
      ensures enabled ==>
        var drained := SealOutcome(cfg, files, now, faults, true);
        var after := AfterShips(cfg, old(Snapshot()), drained, now, puts);
        && sealed == |drained|
        && shipped == Tally(cfg, old(Snapshot()), drained, now, puts, Shipped)
        && flagged == Tally(cfg, old(Snapshot()), drained, now, puts, Flagged)
        && failed == |SealOutcome(cfg, files, now, faults, false)|
                     + Tally(cfg, old(Snapshot()), drained, now, puts, Failed)
        && deleted == |Completed(DueKeys(cfg, after.rows, game, now), faults)|
        && expiredCount == if cfg.rawRetention <= 0 then 0
                           else |SweptRefs(after.bucket, GamePrefix(game), now - cfg.rawRetention)|
    {
      hide Retired, Step, Tally, AfterShips, SealOutcome, DueKeys, SweptRefs, GamePrefix, Completed;
      sealed, shipped, flagged, failed, deleted, expiredCount := 0, 0, 0, 0, 0, 0;
      if !enabled { return; }
      var sealedFiles, unsealed := SealFiles(files, now, faults);
      sealed := |sealedFiles|;
      shipped, flagged, failed := ShipFiles(sealedFiles, now, puts);
      failed := unsealed + failed;
      deleted := RetentionPass(game, now, faults);
      expiredCount := ExpireOldRaw(game, now);
    }
  }

  /** What a verdict means for the tables: only a shipped file gets a row, and a flagged one is not touched. */
  lemma {:induction false} VerdictsMean(cfg: Config, s: State, k: Key, now: int, put: PutOutcome)
    ensures var after := AfterShip(cfg, s, k, now, put);
      match VerdictOf(cfg, s, k, put)
      case Shipped =>
        && k in s.local && cfg.decodes(s.local[k]) && RefOf(k).Some?
        && RefOf(k).value in after.bucket && after.bucket[RefOf(k).value].bytes == s.local[k]
        && after.rows == s.rows[k := Row(now, s.local[k], None)]
      case Flagged => k in s.local && !cfg.decodes(s.local[k]) && after == s
      case Failed =>
        && after.rows == s.rows
        && (k in s.local ==>
              && cfg.decodes(s.local[k])
              && (RefOf(k).None? || put.Throws? || after.bucket[RefOf(k).value].bytes != s.local[k]))
  {
    hide ObjectRefFor;
  }

  /** What the counters add up to: a shipped file is a new row, and every distinct file without a row meets one verdict. */
  lemma {:induction false} TalliesAddUp(cfg: Config, s: State, files: seq<Key>, now: int, puts: Key -> PutOutcome)
    ensures |AfterShips(cfg, s, files, now, puts).rows| == |s.rows| + Tally(cfg, s, files, now, puts, Shipped)
    ensures Distinct(files) && (forall k :: k in files ==> k !in s.rows) ==>
      Tally(cfg, s, files, now, puts, Shipped) + Tally(cfg, s, files, now, puts, Flagged)
      + Tally(cfg, s, files, now, puts, Failed) == |files|
  {
    hide AfterShips, Tally;
    ShippedAreNewRows(cfg, s, files, now, puts);
    if Distinct(files) && (forall k :: k in files ==> k !in s.rows) {
      EachMeetsOneVerdict(cfg, s, files, now, puts);
    }
  }

  lemma {:induction false} ShippedAreNewRows(cfg: Config, s: State, files: seq<Key>, now: int, puts: Key -> PutOutcome)
    ensures |AfterShips(cfg, s, files, now, puts).rows| == |s.rows| + Tally(cfg, s, files, now, puts, Shipped)
    decreases |files|
  {
    hide AfterShip, VerdictOf;
    if files != [] {
      var n := |files| - 1;
      var before := AfterShips(cfg, s, files[..n], now, puts);
      ShippedAreNewRows(cfg, s, files[..n], now, puts);
      if files[n] !in before.rows {
        ShipRows(cfg, before, files[n], now, puts(files[n]));
      }
    }
  }

  lemma {:induction false} EachMeetsOneVerdict(cfg: Config, s: State, files: seq<Key>, now: int, puts: Key -> PutOutcome)
    requires Distinct(files) && forall k :: k in files ==> k !in s.rows
    ensures Tally(cfg, s, files, now, puts, Shipped) + Tally(cfg, s, files, now, puts, Flagged)
            + Tally(cfg, s, files, now, puts, Failed) == |files|
    decreases |files|
  {
    hide AfterShip, VerdictOf, AfterShips;
    if files != [] {
      var n := |files| - 1;
      EachMeetsOneVerdict(cfg, s, files[..n], now, puts);
      assert files[n] !in files[..n];
      if files[n] in AfterShips(cfg, s, files[..n], now, puts).rows {
        ShipsOnlyTheirRows(cfg, s, files[..n], now, puts, files[n]);
        assert false;
      }
    }
  }

  lemma {:induction false} ShipsOnlyTheirRows(cfg: Config, s: State, files: seq<Key>, now: int, puts: Key -> PutOutcome,
                                              k: Key)
    requires k in AfterShips(cfg, s, files, now, puts).rows
    ensures k in s.rows || k in files
    decreases |files|
  {
    hide AfterShip, VerdictOf;
    if files != [] {
      var n := |files| - 1;
      var before := AfterShips(cfg, s, files[..n], now, puts);
      if k in before.rows {
        ShipsOnlyTheirRows(cfg, s, files[..n], now, puts, k);
      } else {
        ShipRows(cfg, before, files[n], now, puts(files[n]));
      }
    }
  }

  lemma {:induction false} ShipRows(cfg: Config, s: State, k: Key, now: int, put: PutOutcome)
    requires k !in s.rows
    ensures var after := AfterShip(cfg, s, k, now, put);
      && after.rows.Keys == s.rows.Keys + (if VerdictOf(cfg, s, k, put) == Shipped then {k} else {})
      && |after.rows| == |s.rows| + if VerdictOf(cfg, s, k, put) == Shipped then 1 else 0
  {
    VerdictsMean(cfg, s, k, now, put);
    hide AfterShip, VerdictOf;
  }

  /** A sweep takes exactly the game's objects that were last modified before the raw retention. */
  lemma {:induction false} SweepIsExact(cfg: Config, s: State, game: string, now: int, k: Key)
    requires LegalSegment(game) && RefOf(k).Some? && RefOf(k).value in s.bucket
    ensures var ref := RefOf(k).value; var after := Step(cfg, s, ExpireRaw(game, now));
      && (ref !in after.bucket <==>
            k.game == game && cfg.rawRetention > 0 && s.bucket[ref].lastModified < now - cfg.rawRetention)
      && (ref in after.bucket ==> after.bucket[ref] == s.bucket[ref])
      && after.local == s.local && after.rows == s.rows
  {
    hide ObjectRefFor;
    PrefixScopesGame(k.game, k.day, game);
  }

  // ---- The service's operations are runs of the protocol ---------------------------------------

  function ShipActions(w: int, k: Key, now: int, put: PutOutcome): seq<Action> {
    [Enumerate(w, k, now), ReadBody(w), Gate(w)]
    + if put.Throws? then [Crash(w)] else [Put(w, put.stored, put.at), Verify(w), Record(w)]
  }

  lemma {:induction false} RunAppend(cfg: Config, s: State, a: seq<Action>, b: seq<Action>)
    ensures Run(cfg, s, a + b) == Run(cfg, Run(cfg, s, a), b)
    decreases |a|
  {
    hide Step;
    if a == [] {
      assert a + b == b;
    } else {
      assert (a + b)[1..] == a[1..] + b;
      RunAppend(cfg, Step(cfg, s, a[0]), a[1..], b);
    }
  }

  lemma RunUnfold(cfg: Config, s: State, actions: seq<Action>)
    ensures Run(cfg, s, actions) == if actions == [] then s else Run(cfg, Step(cfg, s, actions[0]), actions[1..])
  {
  }

  lemma {:induction false} RunThree(cfg: Config, s: State, a1: Action, a2: Action, a3: Action)
    ensures Run(cfg, s, [a1, a2, a3]) == Step(cfg, Step(cfg, Step(cfg, s, a1), a2), a3)
  {
    hide Step;
    var s1 := Step(cfg, s, a1);
    var s2 := Step(cfg, s1, a2);
    assert [a1, a2, a3][1..] == [a2, a3] && [a2, a3][1..] == [a3];
    RunUnfold(cfg, s, [a1, a2, a3]);
    RunUnfold(cfg, s1, [a2, a3]);
    RunOne(cfg, s2, a3);
  }

  lemma RunOne(cfg: Config, s: State, a: Action)
    ensures Run(cfg, s, [a]) == Step(cfg, s, a)
  {
    hide Step;
    assert [a][1..] == [];
  }

  /** Enumerate, read and gate: the job is ready to upload, or gone. */
  lemma {:induction false} GateIsARun(cfg: Config, s: State, w: int, k: Key, now: int)
    requires k in s.local && cfg.isSealed(k, now) && k !in s.rows && w !in s.jobs
    ensures Run(cfg, s, [Enumerate(w, k, now), ReadBody(w), Gate(w)])
         == if cfg.decodes(s.local[k]) then s.(jobs := s.jobs[w := Ship(k, now, Passed(s.local[k]))]) else s
  {
    hide ObjectRefFor, SweptRefs;
    RunThree(cfg, s, Enumerate(w, k, now), ReadBody(w), Gate(w));
    var body := s.local[k];
    var s1 := s.(jobs := s.jobs[w := Ship(k, now, Enumerated)]);
    var s2 := s.(jobs := s.jobs[w := Ship(k, now, HasBody(body))]);
    assert Step(cfg, s, Enumerate(w, k, now)) == s1;
    assert Step(cfg, s1, ReadBody(w)) == s2;
    hide Step;
    GateStep(cfg, s, w, k, now);
  }

  lemma {:induction false} GateStep(cfg: Config, s: State, w: int, k: Key, now: int)
    requires k in s.local && w !in s.jobs
    ensures var body := s.local[k];
      Step(cfg, s.(jobs := s.jobs[w := Ship(k, now, HasBody(body))]), Gate(w))
        == if cfg.decodes(body) then s.(jobs := s.jobs[w := Ship(k, now, Passed(body))]) else s
  {
    hide ObjectRefFor, SweptRefs;
    DropJob(s.jobs, w, Ship(k, now, HasBody(s.local[k])));
  }

  lemma DropJob(jobs: map<int, Job>, w: int, j: Job)
    requires w !in jobs
    ensures jobs[w := j] - {w} == jobs
  {
  }

  /** Verifying and recording after an upload. */
  lemma {:induction false} VerifyAndRecord(cfg: Config, s: State, w: int, k: Key, now: int, body: Bytes, ref: string)
    requires w !in s.jobs && RefOf(k) == Some(ref) && ref in s.bucket
    ensures Step(cfg, Step(cfg, s.(jobs := s.jobs[w := Ship(k, now, Uploaded(body))]), Verify(w)), Record(w))
         == if s.bucket[ref].bytes == body then s.(rows := s.rows[k := Row(now, body, None)]) else s
  {
    hide ObjectRefFor;
    DropJob(s.jobs, w, Ship(k, now, Uploaded(body)));
    DropJob(s.jobs, w, Ship(k, now, Verified(body)));
    var s5 := Step(cfg, s.(jobs := s.jobs[w := Ship(k, now, Uploaded(body))]), Verify(w));
    assert s5 == if s.bucket[ref].bytes == body then s.(jobs := s.jobs[w := Ship(k, now, Verified(body))]) else s;
  }

  /** Upload, verify and record: what an undisturbed shipment leaves. */
  lemma {:induction false} UploadIsARun(cfg: Config, s: State, w: int, k: Key, now: int, stored: Bytes, at: int)
    requires k in s.local && w !in s.jobs && cfg.decodes(s.local[k])
    ensures Run(cfg, s.(jobs := s.jobs[w := Ship(k, now, Passed(s.local[k]))]), [Put(w, stored, at), Verify(w), Record(w)])
         == AfterShip(cfg, s, k, now, Stores(stored, at))
  {
    hide ObjectRefFor, SweptRefs, RefOf;
    hide Step, Run;
    var body := s.local[k];
    var s3 := s.(jobs := s.jobs[w := Ship(k, now, Passed(body))]);
    RunThree(cfg, s3, Put(w, stored, at), Verify(w), Record(w));
    PutStep(cfg, s, w, k, now, body, stored, at);
    if RefOf(k).Some? {
      VerifyAndRecord(cfg, Stored(s, RefOf(k).value, stored, at), w, k, now, body, RefOf(k).value);
    } else {
      NoJobNoStep(cfg, s, w);
    }
  }

  function Stored(s: State, ref: string, stored: Bytes, at: int): State {
    s.(bucket := s.bucket[ref := Object(stored, at)], held := s.held + {(ref, stored)})
  }

  lemma {:induction false} PutStep(cfg: Config, s: State, w: int, k: Key, now: int, body: Bytes, stored: Bytes, at: int)
    requires w !in s.jobs
    ensures Step(cfg, s.(jobs := s.jobs[w := Ship(k, now, Passed(body))]), Put(w, stored, at))
         == match RefOf(k)
            case None => s
            case Some(ref) => Stored(s, ref, stored, at).(jobs := s.jobs[w := Ship(k, now, Uploaded(body))])
  {
    hide ObjectRefFor, SweptRefs, RefOf;
    DropJob(s.jobs, w, Ship(k, now, Passed(body)));
  }

  lemma NoJobNoStep(cfg: Config, s: State, w: int)
    requires w !in s.jobs
    ensures Step(cfg, s, Verify(w)) == s && Step(cfg, s, Record(w)) == s
  {
  }

  /** An undisturbed shipment is six steps of the protocol, or four when the upload fails. */
  lemma {:induction false} ShipIsARun(cfg: Config, s: State, w: int, k: Key, now: int, put: PutOutcome)
    requires k in s.local && cfg.isSealed(k, now) && k !in s.rows && w !in s.jobs
    ensures Run(cfg, s, ShipActions(w, k, now, put)) == AfterShip(cfg, s, k, now, put)
  {
    hide ObjectRefFor, Run, SweptRefs;
    var gate := [Enumerate(w, k, now), ReadBody(w), Gate(w)];
    GateIsARun(cfg, s, w, k, now);
    if put.Throws? {
      RunAppend(cfg, s, gate, [Crash(w)]);
      RunOne(cfg, Run(cfg, s, gate), Crash(w));
      assert s.jobs[w := Ship(k, now, Passed(s.local[k]))] - {w} == s.jobs && s.jobs - {w} == s.jobs;
    } else {
      var tail := [Put(w, put.stored, put.at), Verify(w), Record(w)];
      RunAppend(cfg, s, gate, tail);
      if cfg.decodes(s.local[k]) {
        UploadIsARun(cfg, s, w, k, now, put.stored, put.at);
      } else {
        RunThree(cfg, s, tail[0], tail[1], tail[2]);
      }
    }
  }

  function RetireActions(w: int, k: Key, now: int, faults: Faults): seq<Action> {
    [RetireDue(w, k, now)]
    + if k in faults.removals then [Crash(w)]
      else [RemoveLocal(w), if k in faults.stamps then Crash(w) else Stamp(w)]
  }

  /** Retiring one due file is three steps of the protocol, or two when its removal fails. */
  lemma {:induction false} RetireIsARun(cfg: Config, s: State, w: int, k: Key, now: int, faults: Faults)
    requires k in s.rows && Due(cfg, s.rows[k], now) && w !in s.jobs
    ensures Run(cfg, s, RetireActions(w, k, now, faults)) == RetiredFile(s, k, now, faults)
  {
    hide ObjectRefFor, Run, SweptRefs;
    var row := s.rows[k];
    DropJob(s.jobs, w, Retire(k, row, now, false));
    var s1 := Step(cfg, s, RetireDue(w, k, now));
    assert s1 == s.(jobs := s.jobs[w := Retire(k, row, now, false)]);
    if k in faults.removals {
      RunAppend(cfg, s, [RetireDue(w, k, now)], [Crash(w)]);
      RunOne(cfg, s, RetireDue(w, k, now));
      RunOne(cfg, s1, Crash(w));
    } else {
      var last := if k in faults.stamps then Crash(w) else Stamp(w);
      assert RetireActions(w, k, now, faults) == [RetireDue(w, k, now), RemoveLocal(w), last];
      RunThree(cfg, s, RetireDue(w, k, now), RemoveLocal(w), last);
      DropJob(s.jobs, w, Retire(k, row, now, true));
      var s2 := Step(cfg, s1, RemoveLocal(w));
      assert s2 == s.(local := s.local - {k}, jobs := s.jobs[w := Retire(k, row, now, true)]);
    }
  }

  function Elements(keys: seq<Key>): set<Key> {
    set k | k in keys
  }

  predicate Distinct(keys: seq<Key>) {
    forall i, j :: 0 <= i < j < |keys| ==> keys[i] != keys[j]
  }

  function RetentionActions(w: int, keys: seq<Key>, now: int, faults: Faults): seq<Action> {
    if keys == [] then []
    else
      var n := |keys| - 1;
      RetentionActions(w, keys[..n], now, faults) + RetireActions(w, keys[n], now, faults)
  }

  lemma {:induction false} RetirementsAreARun(cfg: Config, s: State, w: int, keys: seq<Key>, now: int, faults: Faults)
    requires Distinct(keys) && w !in s.jobs
    requires forall k :: k in keys ==> k in s.rows && Due(cfg, s.rows[k], now)
    ensures Run(cfg, s, RetentionActions(w, keys, now, faults)) == Retired(s, Elements(keys), now, faults)
    decreases |keys|
  {
    hide Step, RetireActions, Due, Retired, RetiredFile;
    if keys == [] {
      RetireNone(s, now, faults);
      assert Elements(keys) == {};
    } else {
      var n := |keys| - 1;
      var k := keys[n];
      var done := Elements(keys[..n]);
      assert Elements(keys) == done + {k} by {
        assert keys == keys[..n] + [k];
      }
      assert k !in done;
      RetirementsAreARun(cfg, s, w, keys[..n], now, faults);
      RetireOne(s, done, k, now, faults);
      assert Retired(s, done, now, faults).jobs == s.jobs by { RetiredJobs(s, done, now, faults); }
      RetireIsARun(cfg, Retired(s, done, now, faults), w, k, now, faults);
      RunAppend(cfg, s, RetentionActions(w, keys[..n], now, faults), RetireActions(w, k, now, faults));
    }
  }

  lemma RetiredJobs(s: State, keys: set<Key>, now: int, faults: Faults)
    ensures Retired(s, keys, now, faults).jobs == s.jobs
  {
  }

  function ShipsActions(cfg: Config, s: State, w: int, files: seq<Key>, now: int, puts: Key -> PutOutcome): seq<Action> {
    if files == [] then []
    else
      var n := |files| - 1;
      var before := AfterShips(cfg, s, files[..n], now, puts);
      ShipsActions(cfg, s, w, files[..n], now, puts)
      + if files[n] in before.local && files[n] !in before.rows then ShipActions(w, files[n], now, puts(files[n])) else []
  }

  lemma {:induction false} ShipsAreARun(cfg: Config, s: State, w: int, files: seq<Key>, now: int, puts: Key -> PutOutcome)
    requires w !in s.jobs && forall k :: k in files ==> cfg.isSealed(k, now)
    ensures Run(cfg, s, ShipsActions(cfg, s, w, files, now, puts)) == AfterShips(cfg, s, files, now, puts)
    ensures AfterShips(cfg, s, files, now, puts).jobs == s.jobs
    decreases |files|
  {
    hide Step, ShipActions, ObjectRefFor, Run;
    if files == [] {
      RunUnfold(cfg, s, []);
    } else {
      var n := |files| - 1;
      var k := files[n];
      var before := AfterShips(cfg, s, files[..n], now, puts);
      var done := ShipsActions(cfg, s, w, files[..n], now, puts);
      ShipsAreARun(cfg, s, w, files[..n], now, puts);
      if k in before.local && k !in before.rows {
        ShipIsARun(cfg, before, w, k, now, puts(k));
        RunAppend(cfg, s, done, ShipActions(w, k, now, puts(k)));
      } else {
        assert done + [] == done;
      }
    }
  }

  lemma {:induction false} OutcomeIsSealed(cfg: Config, files: seq<Key>, now: int, faults: Faults, drained: bool)
    ensures forall k :: k in SealOutcome(cfg, files, now, faults, drained) <==>
              k in files && cfg.isSealed(k, now) && (k !in faults.seals) == drained
    decreases |files|
  {
    if files != [] {
      var n := |files| - 1;
      OutcomeIsSealed(cfg, files[..n], now, faults, drained);
      assert files == files[..n] + [files[n]];
    }
  }

  /**
   * A whole undisturbed pass of one game, with any faults, is a run of the protocol, so
   * what holds over every run holds of it: `due` lists the due files in any order.
   */
  lemma {:induction false} PassIsARun(cfg: Config, s: State, w: int, game: string, files: seq<Key>, now: int,
                                      puts: Key -> PutOutcome, faults: Faults, due: seq<Key>)
    requires w !in s.jobs && Distinct(due)
    requires var drained := SealOutcome(cfg, files, now, faults, true);
      Elements(due) == DueKeys(cfg, AfterShips(cfg, s, drained, now, puts).rows, game, now)
    ensures Run(cfg, s, ShipsActions(cfg, s, w, SealOutcome(cfg, files, now, faults, true), now, puts)
                        + RetentionActions(w, due, now, faults) + [ExpireRaw(game, now)])
         == AfterPass(cfg, s, game, files, now, puts, faults)
  {
    var drained := SealOutcome(cfg, files, now, faults, true);
    var ships := ShipsActions(cfg, s, w, drained, now, puts);
    var retires := RetentionActions(w, due, now, faults);
    var shipped := AfterShips(cfg, s, drained, now, puts);
    OutcomeIsSealed(cfg, files, now, faults, true);
    ShipsAreARun(cfg, s, w, drained, now, puts);
    assert forall k :: k in due ==> k in Elements(due);
    RetirementsAreARun(cfg, shipped, w, due, now, faults);
    hide Step, Run, Retired, SealOutcome, AfterShips, ShipsActions, RetentionActions;
    RunAppend(cfg, s, ships + retires, [ExpireRaw(game, now)]);
    RunAppend(cfg, s, ships, retires);
    RunOne(cfg, AfterRetention(cfg, shipped, game, now, faults), ExpireRaw(game, now));
  }

  // ---- Where the hypotheses are needed -----------------------------------------------------------

  /**
   * An append that reaches a file after it was shipped is lost with the local copy: the
   * row stops it from being shipped again, and retention deletes it all the same.
   */
  lemma {:induction false} LateAppendIsLost(cfg: Config, s: State, k: Key, late: Bytes, now: int, at: int)
    requires k in s.local && k !in s.rows && RefOf(k).Some? && 0 !in s.jobs && 1 !in s.jobs
    requires cfg.decodes(s.local[k]) && cfg.isSealed(k, now) && cfg.localRetention >= 0 && late != []
    ensures var shipped := ShipActions(0, k, now, Stores(s.local[k], at));
      var after := Run(cfg, s, shipped + [Append(k, late), RetireDue(1, k, now + cfg.localRetention), RemoveLocal(1)]);
      && k !in after.local && k in after.rows
      && RefOf(k).value in after.bucket && after.bucket[RefOf(k).value].bytes == s.local[k] != s.local[k] + late
      && forall w, t :: w !in after.jobs ==> Step(cfg, after, Enumerate(w, k, t)) == after
  {
    hide ObjectRefFor, Run, SweptRefs;
    var shipped := ShipActions(0, k, now, Stores(s.local[k], at));
    var tail := [Append(k, late), RetireDue(1, k, now + cfg.localRetention), RemoveLocal(1)];
    RunAppend(cfg, s, shipped, tail);
    ShipIsARun(cfg, s, 0, k, now, Stores(s.local[k], at));
    RunThree(cfg, Run(cfg, s, shipped), tail[0], tail[1], tail[2]);
    assert |s.local[k] + late| > |s.local[k]|;
  }

  /** The bytes of the last upload of the file that landed in a run. */
  function LastLanded(cfg: Config, s: State, actions: seq<Action>, k: Key): Option<Bytes>
    decreases |actions|
  {
    if actions == [] then None
    else
      var later := LastLanded(cfg, Step(cfg, s, actions[0]), actions[1..], k);
      if later.Some? then later else if Lands(s, actions[0], k) then Some(actions[0].stored) else None
  }

  /** No sweep of the file's own game. */
  predicate Unswept(actions: seq<Action>, k: Key) {
    forall i :: 0 <= i < |actions| && actions[i].ExpireRaw? ==> LegalSegment(actions[i].game) && actions[i].game != k.game
  }

  predicate HoldsContent(s: State, ref: string, content: Bytes) {
    ref in s.bucket && s.bucket[ref].bytes == content
  }

  lemma {:induction false} ObjectAfterStep(cfg: Config, s: State, a: Action, k: Key, ref: string, content: Bytes)
    requires RefOf(k) == Some(ref)
    requires a.ExpireRaw? ==> LegalSegment(a.game) && a.game != k.game
    ensures HoldsContent(Step(cfg, s, a), ref, content)
       <==> if Lands(s, a, k) then a.stored == content else HoldsContent(s, ref, content)
  {
    hide ObjectRefFor, SweptRefs;
    if a.Put? && At(s, a.job) && s.jobs[a.job].phase.Passed? {
      KeysApart(s.jobs[a.job].key, k);
    }
    if a.ExpireRaw? && ref in s.bucket && ref !in Step(cfg, s, a).bucket {
      SweepIsScoped(cfg, s, a.game, a.now, k);
    }
  }

  lemma {:induction false} ObjectAfterRun(cfg: Config, s: State, actions: seq<Action>, k: Key, ref: string, content: Bytes)
    requires RefOf(k) == Some(ref) && Unswept(actions, k)
    ensures HoldsContent(Run(cfg, s, actions), ref, content)
       <==> match LastLanded(cfg, s, actions, k)
            case Some(stored) => stored == content
            case None => HoldsContent(s, ref, content)
    decreases |actions|
  {
    hide Step, HoldsContent, Lands;
    if actions != [] {
      ObjectAfterStep(cfg, s, actions[0], k, ref, content);
      assert Unswept(actions[1..], k);
      ObjectAfterRun(cfg, Step(cfg, s, actions[0]), actions[1..], k, ref, content);
    }
  }

  lemma {:induction false} LocalStays(cfg: Config, s: State, actions: seq<Action>, k: Key, content: Bytes)
    requires Untouched(actions, k) && (k in s.local ==> s.local[k] == content)
    ensures k in Run(cfg, s, actions).local ==> Run(cfg, s, actions).local[k] == content
    decreases |actions|
  {
    if actions != [] {
      LocalAfterStep(cfg, s, actions[0], k, content);
      hide Step;
      assert Untouched(actions[1..], k);
      LocalStays(cfg, Step(cfg, s, actions[0]), actions[1..], k, content);
    }
  }

  lemma {:induction false} LocalAfterStep(cfg: Config, s: State, a: Action, k: Key, content: Bytes)
    requires !(a.Append? && a.key == k) && (k in s.local ==> s.local[k] == content)
    ensures k in Step(cfg, s, a).local ==> Step(cfg, s, a).local[k] == content
  {
    hide ObjectRefFor, SweptRefs, RefOf;
  }

  ghost predicate Lost(s: State, k: Key, ref: string, content: Bytes) {
    !(k in s.local && s.local[k] == content) && !HoldsContent(s, ref, content)
  }

  /**
   * Exactly when content is lost, over every run without a sweep of its game: the local
   * copy is gone and the last upload to land stored something else, or none landed and the
   * bucket did not hold it before.
   */
  lemma {:induction false} LostIff(cfg: Config, s: State, actions: seq<Action>, k: Key, ref: string, content: Bytes)
    requires RefOf(k) == Some(ref) && Untouched(actions, k) && Unswept(actions, k)
    requires k in s.local ==> s.local[k] == content
    ensures var after := Run(cfg, s, actions);
      Lost(after, k, ref, content) <==>
        && k !in after.local
        && match LastLanded(cfg, s, actions, k)
           case Some(stored) => stored != content
           case None => !HoldsContent(s, ref, content)
  {
    hide Run, LastLanded;
    ObjectAfterRun(cfg, s, actions, k, ref, content);
    LocalStays(cfg, s, actions, k, content);
  }

  /** Uploads leave rows, files and the other jobs alone. */
  lemma {:induction false} PutsOnlyUpload(cfg: Config, s: State, puts: seq<Action>, v: int)
    requires forall i :: 0 <= i < |puts| ==> puts[i].Put?
    requires v !in s.jobs
    ensures var after := Run(cfg, s, puts); after.rows == s.rows && after.local == s.local && v !in after.jobs
    decreases |puts|
  {
    if puts != [] {
      assert puts[0].Put?;
      var s' := Step(cfg, s, puts[0]);
      assert s'.rows == s.rows && s'.local == s.local && v !in s'.jobs by {
        hide ObjectRefFor;
      }
      hide Step;
      assert forall i :: 0 <= i < |puts[1..]| ==> puts[1..][i] == puts[i + 1];
      PutsOnlyUpload(cfg, s', puts[1..], v);
    }
  }

  lemma {:induction false} LastLandedAppend(cfg: Config, s: State, puts: seq<Action>, tail: seq<Action>, k: Key)
    requires forall i :: 0 <= i < |tail| ==> !tail[i].Put?
    ensures LastLanded(cfg, s, puts + tail, k) == LastLanded(cfg, s, puts, k)
    decreases |puts| + |tail|
  {
    hide Step;
    if puts != [] {
      assert (puts + tail)[1..] == puts[1..] + tail;
      LastLandedAppend(cfg, Step(cfg, s, puts[0]), puts[1..], tail, k);
    } else if tail != [] {
      assert puts + tail == tail && !tail[0].Put?;
      LastLandedAppend(cfg, Step(cfg, s, tail[0]), [], tail[1..], k);
      assert [] + tail[1..] == tail[1..];
    }
  }

  /**
   * Overlapping runs that passed the gate may still upload after the row is written. For a
   * recorded file that is due, retirement then loses the content exactly when an upload
   * that stored something else was the last to land.
   */
  lemma {:induction false} RetirementLosesIff(cfg: Config, s: State, puts: seq<Action>, v: int, k: Key, ref: string, now: int)
    requires forall i :: 0 <= i < |puts| ==> puts[i].Put?
    requires RefOf(k) == Some(ref) && v !in s.jobs
    requires k in s.local && k in s.rows && Due(cfg, s.rows[k], now) && HoldsContent(s, ref, s.local[k])
    ensures var after := Run(cfg, s, puts + [RetireDue(v, k, now), RemoveLocal(v)]);
      var last := LastLanded(cfg, s, puts, k);
      && k !in after.local
      && (Lost(after, k, ref, s.local[k]) <==> last.Some? && last.value != s.local[k])
  {
    var tail := [RetireDue(v, k, now), RemoveLocal(v)];
    var uploaded := Run(cfg, s, puts);
    PutsOnlyUpload(cfg, s, puts, v);
    RunAppend(cfg, s, puts, tail);
    LastLandedAppend(cfg, s, puts, tail, k);
    RetirementRemoves(cfg, uploaded, v, k, now);
    hide Run, LastLanded, Step;
    LostIff(cfg, s, puts + tail, k, ref, s.local[k]);
  }

  lemma {:induction false} RetirementRemoves(cfg: Config, s: State, v: int, k: Key, now: int)
    requires k in s.rows && Due(cfg, s.rows[k], now) && v !in s.jobs
    ensures k !in Run(cfg, s, [RetireDue(v, k, now), RemoveLocal(v)]).local
  {
    var s1 := Step(cfg, s, RetireDue(v, k, now));
    assert s1.jobs[v] == Retire(k, s.rows[k], now, false);
    RunUnfold(cfg, s, [RetireDue(v, k, now), RemoveLocal(v)]);
    assert [RetireDue(v, k, now), RemoveLocal(v)][1..] == [RemoveLocal(v)];
    RunOne(cfg, s1, RemoveLocal(v));
  }

  /** Two overlapping workers that have passed the gate with the same content; the first one records it. */
  function OverlapActions(k: Key, content: Bytes, now: int): seq<Action> {
    [Append(k, content)]
    + [Enumerate(1, k, now), ReadBody(1), Gate(1)]
    + [Enumerate(0, k, now), ReadBody(0), Gate(0)]
    + [Put(0, content, 0), Verify(0), Record(0)]
  }

  lemma {:induction false} OverlapRecords(cfg: Config, k: Key, ref: string, content: Bytes, now: int)
    requires RefOf(k) == Some(ref) && cfg.isSealed(k, now) && cfg.decodes(content)
    ensures Run(cfg, EMPTY, OverlapActions(k, content, now))
         == State(map[k := content], map[ref := Object(content, 0)], map[k := Row(now, content, None)],
                  map[1 := Ship(k, now, Passed(content))], {(ref, content)}, {})
  {
    hide RefOf;
    var s1 := EMPTY.(local := map[k := content]);
    assert Step(cfg, EMPTY, Append(k, content)) == s1 by { assert [] + content == content; }
    var s2 := s1.(jobs := map[1 := Ship(k, now, Passed(content))]);
    var s3 := s2.(jobs := s2.jobs[0 := Ship(k, now, Passed(content))]);
    var append, read1 := [Append(k, content)], [Enumerate(1, k, now), ReadBody(1), Gate(1)];
    var read0, upload := [Enumerate(0, k, now), ReadBody(0), Gate(0)], [Put(0, content, 0), Verify(0), Record(0)];
    hide Step, Run;
    RunOne(cfg, EMPTY, Append(k, content));
    GateIsARun(cfg, s1, 1, k, now);
    GateIsARun(cfg, s2, 0, k, now);
    UploadIsARun(cfg, s2, 0, k, now, content, 0);
    RunAppend(cfg, EMPTY, append, read1);
    RunAppend(cfg, EMPTY, append + read1, read0);
    RunAppend(cfg, EMPTY, append + read1 + read0, upload);
  }

  /**
   * A run from the start in which that loses a file: the second worker's upload stores
   * something else, and the retention pass removes the local copy.
   */
  lemma {:induction false} OverlapLosesAFile(cfg: Config, k: Key, ref: string, content: Bytes, other: Bytes, now: int)
    requires RefOf(k) == Some(ref) && cfg.isSealed(k, now) && cfg.decodes(content) && other != content
    ensures var later := now + cfg.localRetention;
      Lost(Run(cfg, EMPTY, OverlapActions(k, content, now) + [Put(1, other, 0), RetireDue(2, k, later), RemoveLocal(2)]),
           k, ref, content)
  {
    var later := now + cfg.localRetention;
    var tail := [Put(1, other, 0), RetireDue(2, k, later), RemoveLocal(2)];
    OverlapRecords(cfg, k, ref, content, now);
    RunAppend(cfg, EMPTY, OverlapActions(k, content, now), tail);
    var s := Run(cfg, EMPTY, OverlapActions(k, content, now));
    assert [Put(1, other, 0)][1..] == [] && Lands(s, Put(1, other, 0), k);
    assert LastLanded(cfg, s, [Put(1, other, 0)], k) == Some(other);
    hide Run, Step, LastLanded, RefOf, Lost;
    RetirementLosesIff(cfg, s, [Put(1, other, 0)], 2, k, ref, later);
    assert [Put(1, other, 0)] + [RetireDue(2, k, later), RemoveLocal(2)] == tail;
  }

  // ---- Exactly when a late append is safe ------------------------------------------------------

  predicate HasPassed(s: State, k: Key) {
    exists v :: v in s.jobs && s.jobs[v].Ship? && s.jobs[v].key == k && s.jobs[v].phase.Passed?
  }

  predicate Awaiting(s: State, k: Key) {
    k in s.rows && s.rows[k].localDeletedAt.None?
  }

  /**
   * A job that can no longer record, or remove, anything but `content`. A shipment that has
   * read other bytes is stopped only by a gate the new content fails; one that has uploaded
   * them, only if the object is not those bytes and nobody can upload them again.
   */
  ghost predicate JobSafe(cfg: Config, s: State, j: Job, ref: string, content: Bytes) {
    match j
    case Ship(_, _, Enumerated) => true
    case Ship(_, _, HasBody(body)) => body == content || !cfg.decodes(content)
    case Ship(_, _, Passed(body)) => body == content
    case Ship(k, _, Uploaded(body)) =>
      body == content
      || (!HoldsContent(s, ref, body) && (k in s.rows || (!cfg.decodes(content) && !HasPassed(s, k))))
    case Ship(_, _, Verified(_)) => HoldsContent(s, ref, content)
    case Retire(_, _, _, _) => HoldsContent(s, ref, content)
  }

  /** What a writer can look up before it appends: the row, the object and the jobs on the file. */
  ghost predicate AppendSafe(cfg: Config, s: State, k: Key, ref: string, content: Bytes) {
    && (Awaiting(s, k) ==> HoldsContent(s, ref, content))
    && forall w :: w in s.jobs && s.jobs[w].key == k ==> JobSafe(cfg, s, s.jobs[w], ref, content)
  }

  /** The content is final and nothing puts it at risk. */
  ghost predicate Kept(cfg: Config, s: State, k: Key, ref: string, content: Bytes) {
    && AppendSafe(cfg, s, k, ref, content)
    && (k in s.local ==> s.local[k] == content)
    && (k !in s.local ==> k in s.rows && HoldsContent(s, ref, content))
    && forall w :: w in s.jobs && s.jobs[w].key == k && s.jobs[w].Retire? ==> k in s.rows
  }

  /** Nobody writes the file again or sweeps its game, and no upload corrupts an object that is vouched for. */
  ghost predicate Undisturbed(cfg: Config, s: State, actions: seq<Action>, k: Key) {
    Untouched(actions, k) && Unswept(actions, k) && NeverCorruptedLate(cfg, s, actions, k)
  }

  ghost predicate Gentle(s: State, a: Action, k: Key) {
    && !(a.Append? && a.key == k)
    && (a.ExpireRaw? ==> LegalSegment(a.game) && a.game != k.game)
    && NoLateCorruption(s, a, k)
  }

  /** An upload of the file stores the content, or nobody relies on the object yet. */
  lemma {:induction false} KeptUpload(cfg: Config, s: State, a: Action, k: Key, ref: string, content: Bytes)
    requires Kept(cfg, s, k, ref, content) && Gentle(s, a, k) && Lands(s, a, k)
    ensures s.jobs[a.job].phase.body == content && HasPassed(s, k)
    ensures a.stored == content || !Vouched(s, k)
  {
    hide HoldsContent;
    assert JobSafe(cfg, s, s.jobs[a.job], ref, content);
  }

  lemma {:induction false} KeptObject(cfg: Config, s: State, a: Action, k: Key, ref: string, content: Bytes)
    requires Kept(cfg, s, k, ref, content) && Gentle(s, a, k) && RefOf(k) == Some(ref)
    ensures HoldsContent(s, ref, content) && Vouched(s, k) ==> HoldsContent(Step(cfg, s, a), ref, content)
    ensures HoldsContent(s, ref, content) && !a.Put? ==> HoldsContent(Step(cfg, s, a), ref, content)
  {
    ObjectAfterStep(cfg, s, a, k, ref, content);
    if Lands(s, a, k) {
      KeptUpload(cfg, s, a, k, ref, content);
    }
    hide Step, Kept, HoldsContent, Vouched;
  }

  /** Other bytes that are not in the bucket, and that nobody can upload, stay out of it. */
  lemma {:induction false} OtherBytesStayOut(cfg: Config, s: State, a: Action, k: Key, ref: string, content: Bytes,
                                             body: Bytes)
    requires Kept(cfg, s, k, ref, content) && Gentle(s, a, k) && RefOf(k) == Some(ref)
    requires body != content && !HoldsContent(s, ref, body) && (k in s.rows || !HasPassed(s, k))
    ensures !HoldsContent(Step(cfg, s, a), ref, body)
  {
    ObjectAfterStep(cfg, s, a, k, ref, body);
    if Lands(s, a, k) {
      KeptUpload(cfg, s, a, k, ref, content);
      hide Kept, Step, HoldsContent;
    }
  }

  /** The file and its row after a step. */
  lemma {:induction false} KeptFile(cfg: Config, s: State, a: Action, k: Key, ref: string, content: Bytes)
    requires Kept(cfg, s, k, ref, content) && Gentle(s, a, k) && RefOf(k) == Some(ref)
    ensures var s' := Step(cfg, s, a);
      && (k in s'.local ==> s'.local[k] == content)
      && (k !in s'.local ==> k in s'.rows && HoldsContent(s', ref, content))
      && (Awaiting(s', k) ==> HoldsContent(s', ref, content))
      && s.rows.Keys <= s'.rows.Keys
  {
    KeptObject(cfg, s, a, k, ref, content);
    hide ObjectRefFor, SweptRefs, RefOf, HoldsContent, HasPassed, NoLateCorruption;
    if a.RemoveLocal? && a.job in s.jobs && s.jobs[a.job].key == k {
      assert JobSafe(cfg, s, s.jobs[a.job], ref, content);
    } else if (a.Record? || a.Stamp?) && a.job in s.jobs && s.jobs[a.job].key == k {
      assert JobSafe(cfg, s, s.jobs[a.job], ref, content);
    }
  }

  /** Nobody passes the gate but with content that decodes. */
  lemma {:induction false} NobodyPasses(cfg: Config, s: State, a: Action, k: Key, ref: string, content: Bytes)
    requires Kept(cfg, s, k, ref, content) && !cfg.decodes(content) && !HasPassed(s, k)
    ensures !HasPassed(Step(cfg, s, a), k)
  {
    var s' := Step(cfg, s, a);
    hide Step, HoldsContent, ObjectRefFor;
    forall v | v in s'.jobs && s'.jobs[v].Ship? && s'.jobs[v].key == k ensures !s'.jobs[v].phase.Passed? {
      JobMove(cfg, s, a, v);
      if a.Gate? && v == a.job && At(s, v) && s.jobs[v].key == k && s.jobs[v].phase.HasBody? {
        GateStops(cfg, s, v);
      }
    }
  }

  lemma {:induction false} GateStops(cfg: Config, s: State, w: int)
    requires At(s, w) && s.jobs[w].phase.HasBody?
    requires s.jobs[w].key in s.local ==> !cfg.decodes(s.local[s.jobs[w].key])
    ensures w !in Step(cfg, s, Gate(w)).jobs
  {
    hide ObjectRefFor, SweptRefs;
  }

  lemma {:induction false} JobStaysSafe(cfg: Config, s: State, a: Action, k: Key, ref: string, content: Bytes, w: int)
    requires Kept(cfg, s, k, ref, content) && Gentle(s, a, k) && RefOf(k) == Some(ref)
    requires w in s.jobs && s.jobs[w].key == k
    ensures JobSafe(cfg, Step(cfg, s, a), s.jobs[w], ref, content)
  {
    var j := s.jobs[w];
    assert JobSafe(cfg, s, j, ref, content);
    StepGrows(cfg, s, a);
    KeptObject(cfg, s, a, k, ref, content);
    hide Step, HoldsContent, HasPassed, Gentle;
    match j {
      case Ship(_, _, Uploaded(body)) =>
        if body != content {
          OtherBytesStayOut(cfg, s, a, k, ref, content, body);
          if k !in s.rows {
            NobodyPasses(cfg, s, a, k, ref, content);
          }
        }
      case Ship(_, _, Verified(_)) => assert Vouched(s, k);
      case Retire(_, _, _, _) => assert Vouched(s, k);
      case _ =>
    }
  }

  lemma {:induction false} RetiresDue(cfg: Config, s: State, a: Action, w: int)
    requires a.RetireDue? && w in Step(cfg, s, a).jobs && !(w in s.jobs && Step(cfg, s, a).jobs[w] == s.jobs[w])
    ensures Awaiting(s, a.key)
  {
    hide ObjectRefFor;
  }

  lemma {:induction false} MovedJobSafe(cfg: Config, s: State, a: Action, k: Key, ref: string, content: Bytes, w: int)
    requires Kept(cfg, s, k, ref, content) && Gentle(s, a, k) && RefOf(k) == Some(ref)
    requires w in Step(cfg, s, a).jobs && Step(cfg, s, a).jobs[w].key == k
    requires !(w in s.jobs && Step(cfg, s, a).jobs[w] == s.jobs[w])
    ensures JobSafe(cfg, Step(cfg, s, a), Step(cfg, s, a).jobs[w], ref, content)
    ensures Step(cfg, s, a).jobs[w].Retire? ==> k in s.rows
  {
    var j := Step(cfg, s, a).jobs[w];
    JobMove(cfg, s, a, w);
    KeptObject(cfg, s, a, k, ref, content);
    if a.RetireDue? {
      RetiresDue(cfg, s, a, w);
    } else if w in s.jobs && s.jobs[w].key == k {
      assert JobSafe(cfg, s, s.jobs[w], ref, content);
      if a.Gate? && At(s, w) && s.jobs[w].phase.HasBody? && !cfg.decodes(content) {
        GateStops(cfg, s, w);
      }
    }
    hide Step, Gentle, HasPassed, RefOf;
  }

  lemma {:induction false} KeptStep(cfg: Config, s: State, a: Action, k: Key, ref: string, content: Bytes)
    requires Kept(cfg, s, k, ref, content) && Gentle(s, a, k) && RefOf(k) == Some(ref)
    ensures Kept(cfg, Step(cfg, s, a), k, ref, content)
  {
    var s' := Step(cfg, s, a);
    KeptFile(cfg, s, a, k, ref, content);
    forall w | w in s'.jobs && s'.jobs[w].key == k
      ensures JobSafe(cfg, s', s'.jobs[w], ref, content) && (s'.jobs[w].Retire? ==> k in s'.rows)
    {
      if w in s.jobs && s'.jobs[w] == s.jobs[w] {
        JobStaysSafe(cfg, s, a, k, ref, content, w);
      } else {
        MovedJobSafe(cfg, s, a, k, ref, content, w);
      }
    }
    hide Step, JobSafe, HoldsContent, Gentle, RefOf;
  }

  lemma {:induction false} KeptRun(cfg: Config, s: State, actions: seq<Action>, k: Key, ref: string, content: Bytes)
    requires Kept(cfg, s, k, ref, content) && RefOf(k) == Some(ref) && Undisturbed(cfg, s, actions, k)
    ensures !Lost(Run(cfg, s, actions), k, ref, content)
    decreases |actions|
  {
    if actions != [] {
      UndisturbedStep(cfg, s, actions, k);
      hide Step, Kept, Undisturbed, Gentle, RefOf, Lost;
      KeptStep(cfg, s, actions[0], k, ref, content);
      KeptRun(cfg, Step(cfg, s, actions[0]), actions[1..], k, ref, content);
    } else {
      hide AppendSafe, HoldsContent;
    }
  }

  lemma {:induction false} UndisturbedStep(cfg: Config, s: State, actions: seq<Action>, k: Key)
    requires actions != [] && Undisturbed(cfg, s, actions, k)
    ensures Gentle(s, actions[0], k) && Undisturbed(cfg, Step(cfg, s, actions[0]), actions[1..], k)
  {
    hide Step, NoLateCorruption;
  }

  // ---- And otherwise some continuation loses it ------------------------------------------------

  ghost predicate Loses(cfg: Config, s: State, more: seq<Action>, k: Key, ref: string, content: Bytes) {
    Undisturbed(cfg, s, more, k) && Lost(Run(cfg, s, more), k, ref, content)
  }

  /** The content is only on local disk. */
  predicate OnDisk(s: State, k: Key, content: Bytes) {
    k in s.local && s.local[k] == content
  }

  lemma {:induction false} LosesAfter(cfg: Config, s: State, a: Action, more: seq<Action>, k: Key, ref: string,
                                      content: Bytes)
    requires Gentle(s, a, k) && !a.ExpireRaw? && Loses(cfg, Step(cfg, s, a), more, k, ref, content)
    ensures Loses(cfg, s, [a] + more, k, ref, content)
  {
    hide Step, NoLateCorruption, Lost;
    assert ([a] + more)[1..] == more;
  }

  lemma {:induction false} LosesNow(cfg: Config, s: State, k: Key, ref: string, content: Bytes)
    requires Lost(s, k, ref, content)
    ensures Loses(cfg, s, [], k, ref, content)
  {
  }

  /** A retirement in hand removes the only copy. */
  lemma {:induction false} RetireLoses(cfg: Config, s: State, k: Key, ref: string, content: Bytes, w: int)
    returns (more: seq<Action>)
    requires OnDisk(s, k, content) && !HoldsContent(s, ref, content)
    requires w in s.jobs && s.jobs[w].Retire? && s.jobs[w].key == k
    ensures Loses(cfg, s, more, k, ref, content)
  {
    hide ObjectRefFor, NoLateCorruption;
    assert NoLateCorruption(s, RemoveLocal(w), k) by { OnlyPutsCorrupt(s, RemoveLocal(w), k); }
    var s' := Step(cfg, s, RemoveLocal(w));
    assert s'.bucket == s.bucket && k !in s'.local;
    hide Step;
    LosesNow(cfg, s', k, ref, content);
    LosesAfter(cfg, s, RemoveLocal(w), [], k, ref, content);
    more := [RemoveLocal(w)] + [];
  }

  lemma OnlyPutsCorrupt(s: State, a: Action, k: Key)
    requires !a.Put?
    ensures NoLateCorruption(s, a, k)
  {
  }

  /** A recorded file comes due some day. */
  lemma {:induction false} AwaitingLoses(cfg: Config, s: State, k: Key, ref: string, content: Bytes)
    returns (more: seq<Action>)
    requires OnDisk(s, k, content) && !HoldsContent(s, ref, content) && Awaiting(s, k)
    ensures Loses(cfg, s, more, k, ref, content)
  {
    hide ObjectRefFor, NoLateCorruption;
    var v := AboveAll(s.jobs.Keys);
    var a := RetireDue(v, k, s.rows[k].uploadedAt + cfg.localRetention);
    OnlyPutsCorrupt(s, a, k);
    var s' := Step(cfg, s, a);
    assert s' == s.(jobs := s.jobs[v := Retire(k, s.rows[k], a.now, false)]);
    hide Step;
    more := RetireLoses(cfg, s', k, ref, content, v);
    LosesAfter(cfg, s, a, more, k, ref, content);
    more := [a] + more;
  }

  lemma {:induction false} VerifiedLoses(cfg: Config, s: State, k: Key, ref: string, content: Bytes, w: int)
    returns (more: seq<Action>)
    requires OnDisk(s, k, content) && !HoldsContent(s, ref, content)
    requires At(s, w) && s.jobs[w].key == k && s.jobs[w].phase.Verified?
    ensures Loses(cfg, s, more, k, ref, content)
  {
    hide ObjectRefFor, NoLateCorruption;
    OnlyPutsCorrupt(s, Record(w), k);
    var s' := Step(cfg, s, Record(w));
    assert s'.local == s.local && s'.bucket == s.bucket && Awaiting(s', k);
    hide Step;
    more := AwaitingLoses(cfg, s', k, ref, content);
    LosesAfter(cfg, s, Record(w), more, k, ref, content);
    more := [Record(w)] + more;
  }

  /** Other bytes that are in the bucket as uploaded are verified and recorded. */
  lemma {:induction false} UploadedLoses(cfg: Config, s: State, k: Key, ref: string, content: Bytes, w: int)
    returns (more: seq<Action>)
    requires OnDisk(s, k, content) && RefOf(k) == Some(ref)
    requires At(s, w) && s.jobs[w].key == k && s.jobs[w].phase.Uploaded?
    requires s.jobs[w].phase.body != content && HoldsContent(s, ref, s.jobs[w].phase.body)
    ensures Loses(cfg, s, more, k, ref, content)
  {
    hide ObjectRefFor, RefOf, NoLateCorruption;
    OnlyPutsCorrupt(s, Verify(w), k);
    var s' := Step(cfg, s, Verify(w));
    assert s' == Advance(s, w, Verified(s.jobs[w].phase.body));
    hide Step;
    more := VerifiedLoses(cfg, s', k, ref, content, w);
    LosesAfter(cfg, s, Verify(w), more, k, ref, content);
    more := [Verify(w)] + more;
  }

  /** Job `v` uploads, faithfully or before anyone vouches for the object, the bytes that job `w` has. */
  lemma {:induction false} PutLoses(cfg: Config, s: State, k: Key, ref: string, content: Bytes, v: int, w: int,
                                    body: Bytes)
    returns (more: seq<Action>)
    requires OnDisk(s, k, content) && RefOf(k) == Some(ref) && body != content
    requires At(s, v) && s.jobs[v].key == k && s.jobs[v].phase.Passed?
    requires s.jobs[v].phase.body == body || !Vouched(s, k)
    requires if v == w then s.jobs[v].phase.body == body else At(s, w) && s.jobs[w].key == k && s.jobs[w].phase == Uploaded(body)
    ensures Loses(cfg, s, more, k, ref, content)
  {
    hide ObjectRefFor, RefOf, Vouched;
    var a := Put(v, body, 0);
    var s' := Step(cfg, s, a);
    assert s' == Stored(s, ref, body, 0).(jobs := s.jobs[v := s.jobs[v].(phase := Uploaded(s.jobs[v].phase.body))]);
    assert Gentle(s, a, k);
    hide Step;
    more := UploadedLoses(cfg, s', k, ref, content, w);
    LosesAfter(cfg, s, a, more, k, ref, content);
    more := [a] + more;
  }

  lemma {:induction false} ReadLoses(cfg: Config, s: State, k: Key, ref: string, content: Bytes, w: int)
    returns (more: seq<Action>)
    requires OnDisk(s, k, content) && RefOf(k) == Some(ref) && cfg.decodes(content)
    requires At(s, w) && s.jobs[w].key == k && s.jobs[w].phase.HasBody? && s.jobs[w].phase.body != content
    ensures Loses(cfg, s, more, k, ref, content)
  {
    hide ObjectRefFor, RefOf, NoLateCorruption;
    OnlyPutsCorrupt(s, Gate(w), k);
    var s' := Step(cfg, s, Gate(w));
    assert s' == Advance(s, w, Passed(s.jobs[w].phase.body));
    hide Step;
    more := PutLoses(cfg, s', k, ref, content, w, w, s.jobs[w].phase.body);
    LosesAfter(cfg, s, Gate(w), more, k, ref, content);
    more := [Gate(w)] + more;
  }

  predicate Quiet(a: Action) {
    !a.Append? && !a.ExpireRaw? && !a.Put?
  }

  lemma {:induction false} LosesAfterRun(cfg: Config, s: State, quiet: seq<Action>, more: seq<Action>, k: Key,
                                         ref: string, content: Bytes)
    requires (forall i :: 0 <= i < |quiet| ==> Quiet(quiet[i])) && Loses(cfg, Run(cfg, s, quiet), more, k, ref, content)
    ensures Loses(cfg, s, quiet + more, k, ref, content)
    decreases |quiet|
  {
    hide Step, Loses, NoLateCorruption;
    if quiet == [] {
      assert quiet + more == more;
    } else {
      var a := quiet[0];
      assert forall i :: 0 <= i < |quiet[1..]| ==> quiet[1..][i] == quiet[i + 1];
      LosesAfterRun(cfg, Step(cfg, s, a), quiet[1..], more, k, ref, content);
      OnlyPutsCorrupt(s, a, k);
      LosesAfter(cfg, s, a, quiet[1..] + more, k, ref, content);
      assert [a] + (quiet[1..] + more) == quiet + more;
    }
  }

  lemma {:induction false} OneCrash(jobs: map<int, Job>, few: set<int>, w: int)
    requires w in jobs && w !in few
    ensures (jobs - {w}).Keys - few == (jobs.Keys - few) - {w}
    ensures (jobs - {w}) - ((jobs - {w}).Keys - few) == jobs - (jobs.Keys - few)
  {
    assert (jobs - {w}).Keys == jobs.Keys - {w};
  }

  lemma NoCrash(jobs: map<int, Job>)
    ensures jobs - {} == jobs
  {
  }

  /** Every job but a few crashes. */
  lemma {:induction false} CrashOthers(cfg: Config, s: State, few: set<int>) returns (crashes: seq<Action>)
    ensures Run(cfg, s, crashes) == s.(jobs := s.jobs - (s.jobs.Keys - few))
    ensures forall i :: 0 <= i < |crashes| ==> Quiet(crashes[i])
    decreases |s.jobs.Keys - few|
  {
    hide Step;
    var others := s.jobs.Keys - few;
    SomeInt(others);
    if others == {} {
      NoCrash(s.jobs);
      crashes := [];
    } else {
      var w :| w in others;
      var s' := Drop(s, w);
      CrashDrops(cfg, s, w);
      OneCrash(s.jobs, few, w);
      var rest := CrashOthers(cfg, s', few);
      crashes := [Crash(w)] + rest;
      hide Run;
      RunUnfold(cfg, s, crashes);
      assert crashes[1..] == rest;
    }
  }

  lemma CrashDrops(cfg: Config, s: State, w: int)
    ensures Step(cfg, s, Crash(w)) == Drop(s, w)
  {
  }

  /** With the others gone, a job that passed the gate uploads what `w` had uploaded before. */
  lemma {:induction false} ReuploadLoses(cfg: Config, s: State, k: Key, ref: string, content: Bytes, v: int, w: int)
    returns (more: seq<Action>)
    requires OnDisk(s, k, content) && RefOf(k) == Some(ref) && k !in s.rows
    requires At(s, w) && s.jobs[w].key == k && s.jobs[w].phase.Uploaded? && s.jobs[w].phase.body != content
    requires At(s, v) && s.jobs[v].key == k && s.jobs[v].phase.Passed?
    ensures Loses(cfg, s, more, k, ref, content)
  {
    hide RefOf, Step, Run, Loses;
    var crashes := CrashOthers(cfg, s, {v, w});
    var alone := s.(jobs := s.jobs - (s.jobs.Keys - {v, w}));
    more := PutLoses(cfg, alone, k, ref, content, v, w, s.jobs[w].phase.body);
    LosesAfterRun(cfg, s, crashes, more, k, ref, content);
    more := crashes + more;
  }

  /** Or a new run of the worker, which ships the file all over, does. */
  lemma {:induction false} ReshipLoses(cfg: Config, s: State, k: Key, ref: string, content: Bytes, w: int)
    returns (more: seq<Action>)
    requires OnDisk(s, k, content) && RefOf(k) == Some(ref) && k !in s.rows && cfg.decodes(content)
    requires At(s, w) && s.jobs[w].key == k && s.jobs[w].phase.Uploaded? && s.jobs[w].phase.body != content
    requires cfg.isSealed(k, s.jobs[w].now)
    ensures Loses(cfg, s, more, k, ref, content)
  {
    hide RefOf, Step, Run, Loses;
    var now := s.jobs[w].now;
    var v := AboveAll(s.jobs.Keys);
    var ship := [Enumerate(v, k, now), ReadBody(v), Gate(v)];
    GateIsARun(cfg, s, v, k, now);
    more := ReuploadLoses(cfg, s.(jobs := s.jobs[v := Ship(k, now, Passed(content))]), k, ref, content, v, w);
    LosesAfterRun(cfg, s, ship, more, k, ref, content);
    more := ship + more;
  }

  /** Every shipment is of a day that was sealed at the worker's clock. */
  ghost predicate SealedJobs(cfg: Config, s: State) {
    forall w :: w in s.jobs && s.jobs[w].Ship? ==> cfg.isSealed(s.jobs[w].key, s.jobs[w].now)
  }

  lemma {:induction false} StepSealed(cfg: Config, s: State, a: Action)
    requires SealedJobs(cfg, s)
    ensures SealedJobs(cfg, Step(cfg, s, a))
  {
    var s' := Step(cfg, s, a);
    forall w | w in s'.jobs && s'.jobs[w].Ship? ensures cfg.isSealed(s'.jobs[w].key, s'.jobs[w].now) {
      JobMove(cfg, s, a, w);
      if a.Enumerate? {
        EnumeratesSealed(cfg, s, a, w);
      }
      hide Step, RefOf;
    }
  }

  lemma {:induction false} EnumeratesSealed(cfg: Config, s: State, a: Action, w: int)
    requires a.Enumerate? && w in Step(cfg, s, a).jobs
    ensures (w in s.jobs && Step(cfg, s, a).jobs[w] == s.jobs[w]) || cfg.isSealed(a.key, a.now)
  {
    hide ObjectRefFor;
  }

  lemma {:induction false} RunSealed(cfg: Config, s: State, actions: seq<Action>)
    requires SealedJobs(cfg, s)
    ensures SealedJobs(cfg, Run(cfg, s, actions))
    decreases |actions|
  {
    hide SealedJobs, Step;
    if actions != [] {
      StepSealed(cfg, s, actions[0]);
      RunSealed(cfg, Step(cfg, s, actions[0]), actions[1..]);
    }
  }

  /** A job that is not safe loses the content. */
  lemma {:induction false} UnsafeJobLoses(cfg: Config, s: State, k: Key, ref: string, content: Bytes, w: int)
    returns (more: seq<Action>)
    requires OnDisk(s, k, content) && RefOf(k) == Some(ref) && SealedJobs(cfg, s)
    requires w in s.jobs && s.jobs[w].key == k && !JobSafe(cfg, s, s.jobs[w], ref, content)
    ensures Loses(cfg, s, more, k, ref, content)
  {
    hide RefOf, Loses, HoldsContent;
    match s.jobs[w] {
      case Ship(_, _, HasBody(body)) => more := ReadLoses(cfg, s, k, ref, content, w);
      case Ship(_, _, Passed(body)) => more := PutLoses(cfg, s, k, ref, content, w, w, body);
      case Ship(_, _, Uploaded(body)) =>
        if HoldsContent(s, ref, body) {
          more := UploadedLoses(cfg, s, k, ref, content, w);
        } else if v :| v in s.jobs && s.jobs[v].Ship? && s.jobs[v].key == k && s.jobs[v].phase.Passed? {
          more := ReuploadLoses(cfg, s, k, ref, content, v, w);
        } else {
          more := ReshipLoses(cfg, s, k, ref, content, w);
        }
      case Ship(_, _, Verified(_)) => more := VerifiedLoses(cfg, s, k, ref, content, w);
      case Retire(_, _, _, _) => more := RetireLoses(cfg, s, k, ref, content, w);
    }
  }

  /** Appending changes nothing that safety depends on. */
  lemma {:induction false} AppendKeepsSafety(cfg: Config, s: State, k: Key, late: Bytes, ref: string, content: Bytes)
    ensures AppendSafe(cfg, s, k, ref, content) <==> AppendSafe(cfg, Step(cfg, s, Append(k, late)), k, ref, content)
  {
    var s' := s.(local := s.local[k := (if k in s.local then s.local[k] else []) + late]);
    assert Step(cfg, s, Append(k, late)) == s';
    hide Step;
    forall w | w in s.jobs ensures JobSafe(cfg, s, s.jobs[w], ref, content) <==> JobSafe(cfg, s', s.jobs[w], ref, content) {
      assert HasPassed(s, s.jobs[w].key) <==> HasPassed(s', s.jobs[w].key);
      hide HasPassed;
    }
    hide JobSafe;
  }

  /**
   * In every reachable state, a late append is safe exactly when a writer can see, before
   * it appends, that no row awaits deletion and no job is past reading the file, but for
   * jobs that the new content or the object itself stops. Otherwise some continuation, in
   * which nobody writes the file again and every object that is vouched for is left alone,
   * loses the content.
   */
  lemma {:induction false} AppendSafeIff(cfg: Config, actions: seq<Action>, k: Key, ref: string, late: Bytes)
    requires RefOf(k) == Some(ref) && k in Run(cfg, EMPTY, actions).local
    ensures var s := Run(cfg, EMPTY, actions); var content := s.local[k] + late;
      var s' := Step(cfg, s, Append(k, late));
      AppendSafe(cfg, s, k, ref, content) <==>
        forall more: seq<Action> :: Undisturbed(cfg, s', more, k) ==> !Lost(Run(cfg, s', more), k, ref, content)
  {
    RunVerifiable(cfg, EMPTY, actions);
    RunSealed(cfg, EMPTY, actions);
    var s := Run(cfg, EMPTY, actions);
    var content := s.local[k] + late;
    var s' := Step(cfg, s, Append(k, late));
    assert s' == s.(local := s.local[k := content]);
    AppendKeepsSafety(cfg, s, k, late, ref, content);
    RetiresAreRecorded(s, k);
    hide Run, Step, Verifiable, JobSafe, Lost, Undisturbed, RefOf, HoldsContent, Awaiting;
    if AppendSafe(cfg, s', k, ref, content) {
      forall more: seq<Action> | Undisturbed(cfg, s', more, k) ensures !Lost(Run(cfg, s', more), k, ref, content) {
        KeptRun(cfg, s', more, k, ref, content);
      }
    } else {
      var more := UnsafeLoses(cfg, s', k, ref, content);
    }
  }

  lemma {:induction false} UnsafeLoses(cfg: Config, s: State, k: Key, ref: string, content: Bytes)
    returns (more: seq<Action>)
    requires OnDisk(s, k, content) && RefOf(k) == Some(ref) && SealedJobs(cfg, s)
    requires !AppendSafe(cfg, s, k, ref, content)
    ensures Loses(cfg, s, more, k, ref, content)
  {
    hide RefOf, Loses, HoldsContent, JobSafe, Awaiting, SealedJobs;
    if Awaiting(s, k) && !HoldsContent(s, ref, content) {
      more := AwaitingLoses(cfg, s, k, ref, content);
    } else {
      var w :| w in s.jobs && s.jobs[w].key == k && !JobSafe(cfg, s, s.jobs[w], ref, content);
      more := UnsafeJobLoses(cfg, s, k, ref, content, w);
    }
  }

  lemma RetiresAreRecorded(s: State, k: Key)
    requires Verifiable(s)
    ensures forall w :: w in s.jobs && s.jobs[w].key == k && s.jobs[w].Retire? ==> k in s.rows
  {
    forall w | w in s.jobs && s.jobs[w].key == k && s.jobs[w].Retire? ensures k in s.rows {
      assert JobVerified(s, s.jobs[w]);
    }
  }

  /**
   * The racing case, from the start: what arrives after a shipment has read the file, and
   * before it is recorded, can be lost too.
   */
  lemma {:induction false} RacingAppendIsLost(cfg: Config, k: Key, ref: string, first: Bytes, late: Bytes, now: int)
    requires RefOf(k) == Some(ref) && cfg.isSealed(k, now) && cfg.decodes(first + late) && late != []
    ensures var s := Run(cfg, EMPTY, [Append(k, first), Enumerate(0, k, now), ReadBody(0), Append(k, late)]);
      exists more :: Loses(cfg, s, more, k, ref, first + late)
  {
    var s1 := Step(cfg, EMPTY, Append(k, first));
    assert s1 == EMPTY.(local := map[k := first]) by { assert [] + first == first; }
    var s2 := Step(cfg, s1, Enumerate(0, k, now));
    assert s2 == s1.(jobs := map[0 := Ship(k, now, Enumerated)]);
    var s3 := Step(cfg, s2, ReadBody(0));
    assert s3 == s1.(jobs := map[0 := Ship(k, now, HasBody(first))]);
    var s4 := Step(cfg, s3, Append(k, late));
    assert s4.local == map[k := first + late] && s4.jobs == s3.jobs;
    hide Step, Run, Loses, RefOf;
    var actions := [Append(k, first), Enumerate(0, k, now), ReadBody(0), Append(k, late)];
    RunThree(cfg, EMPTY, actions[0], actions[1], actions[2]);
    RunAppend(cfg, EMPTY, [actions[0], actions[1], actions[2]], [actions[3]]);
    RunOne(cfg, s3, actions[3]);
    assert actions == [actions[0], actions[1], actions[2]] + [actions[3]];
    assert |first + late| > |first|;
    var more := ReadLoses(cfg, s4, k, ref, first + late, 0);
  }

  // ---- Before the first deletion -----------------------------------------------------------------

  function BodyOf(j: Job): Bytes {
    match j
    case Ship(_, _, HasBody(body)) => body
    case Ship(_, _, Passed(body)) => body
    case Ship(_, _, Uploaded(body)) => body
    case Ship(_, _, Verified(body)) => body
    case _ => []
  }

  /** Until the file is recorded every job holds a beginning of what is on disk. */
  ghost predicate BodiesBegin(s: State) {
    forall w :: w in s.jobs && s.jobs[w].Ship? && s.jobs[w].key !in s.rows ==>
      s.jobs[w].key in s.local && BodyOf(s.jobs[w]) <= s.local[s.jobs[w].key]
  }

  lemma {:induction false} FileGrows(cfg: Config, s: State, a: Action, k: Key)
    requires Verifiable(s) && k !in s.rows && k in s.local
    ensures k in Step(cfg, s, a).local && s.local[k] <= Step(cfg, s, a).local[k]
  {
    if k !in Step(cfg, s, a).local {
      StepDeletes(cfg, s, a, k);
    }
    hide ObjectRefFor;
  }

  lemma {:induction false} StepBodies(cfg: Config, s: State, a: Action)
    requires Verifiable(s) && BodiesBegin(s)
    ensures BodiesBegin(Step(cfg, s, a))
  {
    var s' := Step(cfg, s, a);
    StepGrows(cfg, s, a);
    forall w | w in s'.jobs && s'.jobs[w].Ship? && s'.jobs[w].key !in s'.rows
      ensures s'.jobs[w].key in s'.local && BodyOf(s'.jobs[w]) <= s'.local[s'.jobs[w].key]
    {
      var k := s'.jobs[w].key;
      JobMove(cfg, s, a, w);
      if a.Enumerate? {
        EnumeratesLocal(cfg, s, a, w);
      }
      if k in s.local {
        FileGrows(cfg, s, a, k);
      }
      hide Step, Verifiable, RefOf;
    }
  }

  lemma {:induction false} EnumeratesLocal(cfg: Config, s: State, a: Action, w: int)
    requires a.Enumerate? && w in Step(cfg, s, a).jobs
    ensures (w in s.jobs && Step(cfg, s, a).jobs[w] == s.jobs[w]) || a.key in s.local
  {
    hide ObjectRefFor;
  }

  lemma {:induction false} RunBodies(cfg: Config, s: State, actions: seq<Action>)
    requires Verifiable(s) && BodiesBegin(s)
    ensures BodiesBegin(Run(cfg, s, actions))
    decreases |actions|
  {
    hide Verifiable, BodiesBegin, Step;
    if actions != [] {
      StepVerifiable(cfg, s, actions[0]);
      StepBodies(cfg, s, actions[0]);
      RunBodies(cfg, Step(cfg, s, actions[0]), actions[1..]);
    }
  }

  /** The plain guard: no row awaits deletion, and every job on the file still has to read it. */
  predicate Unread(s: State, k: Key) {
    !Awaiting(s, k) && forall w :: w in s.jobs && s.jobs[w].key == k ==> s.jobs[w].Ship? && s.jobs[w].phase.Enumerated?
  }

  /**
   * The plain guard is always enough. It is also needed for a file whose local copy was
   * never deleted, when the content decodes and the bucket does not happen to hold it.
   */
  lemma {:induction false} AppendSafeBeforeDeletionIff(cfg: Config, actions: seq<Action>, k: Key, ref: string,
                                                       late: Bytes)
    requires RefOf(k) == Some(ref) && k in Run(cfg, EMPTY, actions).local
    ensures var s := Run(cfg, EMPTY, actions); var content := s.local[k] + late;
      var s' := Step(cfg, s, Append(k, late));
      var safe := forall more: seq<Action> ::
        Undisturbed(cfg, s', more, k) ==> !Lost(Run(cfg, s', more), k, ref, content);
      && (Unread(s, k) ==> safe)
      && (late != [] && cfg.decodes(content) && !HoldsContent(s, ref, content) && (k in s.rows ==> Awaiting(s, k)) ==>
            (Unread(s, k) <==> safe))
  {
    AppendSafeIff(cfg, actions, k, ref, late);
    assert Verifiable(EMPTY) && BodiesBegin(EMPTY);
    RunBodies(cfg, EMPTY, actions);
    var s := Run(cfg, EMPTY, actions);
    var content := s.local[k] + late;
    hide Run, Step, Undisturbed, Lost, RefOf;
    UnreadIsSafe(cfg, s, k, ref, content);
    if late != [] && cfg.decodes(content) && !HoldsContent(s, ref, content) && k !in s.rows {
      SafeIsUnread(cfg, s, k, ref, late);
    }
    hide JobSafe, HoldsContent;
  }

  lemma UnreadIsSafe(cfg: Config, s: State, k: Key, ref: string, content: Bytes)
    ensures Unread(s, k) ==> AppendSafe(cfg, s, k, ref, content)
  {
    hide HoldsContent, HasPassed;
  }

  lemma {:induction false} SafeIsUnread(cfg: Config, s: State, k: Key, ref: string, late: Bytes)
    requires BodiesBegin(s) && k !in s.rows && k in s.local && late != []
    requires cfg.decodes(s.local[k] + late) && !HoldsContent(s, ref, s.local[k] + late)
    ensures AppendSafe(cfg, s, k, ref, s.local[k] + late) ==> Unread(s, k)
  {
    if AppendSafe(cfg, s, k, ref, s.local[k] + late) {
      forall w | w in s.jobs && s.jobs[w].key == k ensures s.jobs[w].Ship? && s.jobs[w].phase.Enumerated? {
        assert JobSafe(cfg, s, s.jobs[w], ref, s.local[k] + late);
        NewBytes(s, k, late, w);
        hide HoldsContent, HasPassed;
      }
    }
  }

  lemma {:induction false} NewBytes(s: State, k: Key, late: Bytes, w: int)
    requires BodiesBegin(s) && k !in s.rows && k in s.local && late != [] && w in s.jobs && s.jobs[w].key == k
    ensures s.jobs[w].Ship? ==> BodyOf(s.jobs[w]) != s.local[k] + late
  {
    assert |s.local[k] + late| > |s.local[k]|;
  }
}
