/**
 * The two session hooks as the kernel calls them for one record: step 7 writes the spine
 * and hands a token to step 8, which updates the hot hashes `sess`, `act` and `ret`.
 */
module SessionHooks {
  import opened Basics
  import opened LogicalDay
  import opened SessionTime
  import opened Spine
  import opened Sums
  import Retention
  import SpineRescan

  datatype Provenance = Client | Server

  /** `userId` is empty when the envelope carries none. */
  datatype Record = Record(provenance: Provenance, userId: string, session: TrustedSession, receivedDay: int)

  datatype Token = Token(created: bool, bitTransition: bool, cohort: int, offset: Option<int>)

  /** Only a client session with a user touches the spine and the active set. */
  predicate Anchored(r: Record) {
    r.provenance == Client && r.userId != ""
  }

  // ---- Step 7 ----------------------------------------------------------------

  datatype DurableOutcome = DurableOutcome(spine: map<string, Row>, negativeOffsets: map<int, int>, token: Option<Token>)

  /** Step 7 as one function; no token when the bit update throws. */
  function AfterWrite(spine: map<string, Row>, negativeOffsets: map<int, int>, r: Record, span: nat): DurableOutcome {
    if !Anchored(r) then DurableOutcome(spine, negativeOffsets, Some(Token(false, false, r.session.startDay, None)))
    else
      var created := r.userId !in spine;
      var seeded := Spine.SeedFirstSeen(spine, r.userId, r.session.startDay, span);
      var row := seeded[r.userId];
      var offset := r.session.startDay - row.cohort;
      if offset < 0 then
        DurableOutcome(seeded, Incr(negativeOffsets, r.receivedDay, 1), Some(Token(created, false, row.cohort, None)))
      else if offset >= span then
        DurableOutcome(seeded, negativeOffsets, Some(Token(created, false, row.cohort, None)))
      else if offset >= |row.bitmap| then DurableOutcome(seeded, negativeOffsets, None)
      else
        DurableOutcome(if row.bitmap[offset] then seeded else Spine.SetActivityBit(seeded, r.userId, offset),
                       negativeOffsets, Some(Token(created, !row.bitmap[offset], row.cohort, Some(offset))))
  }

  class SessionDurableHook {
    var spine: map<string, Row>
    /** EXCEPTION_TALLY `negative_offset` per arrival day. */
    var negativeOffsets: map<int, int>

    method SeedFirstSeen(user: string, startDay: int, span: nat) returns (created: bool, cohort: int)
      modifies this`spine
      ensures spine == Spine.SeedFirstSeen(old(spine), user, startDay, span)
      ensures created == (user !in old(spine)) && cohort == spine[user].cohort
    {
      created := user !in spine;
      if created {
        spine := spine[user := Row(startDay, seq(span, _ => false))];
      }
      cohort := spine[user].cohort;
    }

    method SetActivityBit(user: string, offset: nat) returns (transition: Option<bool>)
      requires user in spine
      modifies this`spine
      ensures offset >= |old(spine)[user].bitmap| ==> transition == None && spine == old(spine)
      ensures offset < |old(spine)[user].bitmap| ==>
        && transition == Some(!old(spine)[user].bitmap[offset])
        && spine == if old(spine)[user].bitmap[offset] then old(spine)
                    else Spine.SetActivityBit(old(spine), user, offset)
    {
      var row := spine[user];
      if offset >= |row.bitmap| {
        return None;
      }
      if !row.bitmap[offset] {
        spine := spine[user := row.(bitmap := row.bitmap[offset := true])];
      }
      return Some(!row.bitmap[offset]);
    }

    method Write(r: Record, span: nat) returns (token: Option<Token>)
      modifies this
      ensures DurableOutcome(spine, negativeOffsets, token)
           == AfterWrite(old(spine), old(negativeOffsets), r, span)
    {
      if !Anchored(r) {
        return Some(Token(false, false, r.session.startDay, None));
      }
      var created, cohort := SeedFirstSeen(r.userId, r.session.startDay, span);
      var offset := r.session.startDay - cohort;
      if offset < 0 {
        negativeOffsets := Incr(negativeOffsets, r.receivedDay, 1);
        return Some(Token(created, false, cohort, None));
      }
      if offset >= span {
        return Some(Token(created, false, cohort, None));
      }
      var transition := SetActivityBit(r.userId, offset);
      if transition == None {
        return None;
      }
      return Some(Token(created, transition.value, cohort, Some(offset)));
    }
  }

  /** The increments of the `ret` hashes a token asks for, in the hook's order. */
  function Owed(t: Token): seq<Counter> {
    (if t.created then [CohortSize(t.cohort)] else [])
    + (if t.bitTransition && t.offset.Some? && t.offset.value >= 0 then [RetentionCell(t.cohort, t.offset.value)] else [])
  }

  /** Step 7 is the protocol's Begin and SetBit: same spine, and the token owes the same counters. */
  lemma {:induction false} WriteIsProtocolStep7(s: Retention.State, negativeOffsets: map<int, int>, w: int,
                                                r: Record, span: nat)
    requires w !in s.workers && Anchored(r)
    ensures var out := AfterWrite(s.spine, negativeOffsets, r, span);
            var t := Retention.Step(Retention.Step(s, Retention.Begin(w, r.userId, r.session.startDay, span)),
                                    Retention.SetBit(w));
      && t.spine == out.spine
      && (out.token.Some? <==> w in t.workers)
      && (w in t.workers ==> t.workers[w] == Retention.Event(r.userId, r.session.startDay - t.spine[r.userId].cohort,
                                                             Retention.Start, Owed(out.token.value)))
      && t.hot == s.hot && t.durable == s.durable
  {
    hide Retention.Step;
    StepsAre(s, w, r.userId, r.session.startDay, span);
  }

  lemma {:induction false} StepsAre(s: Retention.State, w: int, user: string, startDay: int, span: nat)
    requires w !in s.workers
    ensures var begun := Retention.AfterBegin(s, w, user, startDay, span);
      Retention.Step(Retention.Step(s, Retention.Begin(w, user, startDay, span)), Retention.SetBit(w))
        == if begun.workers[w].phase.BitPending? then Retention.AfterSetBit(begun, w) else begun
  {
    hide Retention.AfterIncrement, Retention.AfterRescanWrite, Retention.FlushRows, Retention.RetFloor, Retention.Seeded;
    hide Retention.AfterSetBit;
    var begun := Retention.AfterBegin(s, w, user, startDay, span);
    assert Retention.Step(s, Retention.Begin(w, user, startDay, span)) == begun;
  }

  /** The token's offset is counted from its cohort to the event's own start day. */
  predicate TokenFits(t: Token, r: Record) {
    t.bitTransition && t.offset.Some? ==> t.offset.value >= 0 && t.cohort + t.offset.value == r.session.startDay
  }

  lemma {:induction false} WrittenTokenFits(spine: map<string, Row>, negativeOffsets: map<int, int>, r: Record,
                                            span: nat)
    ensures var token := AfterWrite(spine, negativeOffsets, r, span).token; token.Some? ==> TokenFits(token.value, r)
  {
  }

  // ---- Step 8 ----------------------------------------------------------------

  datatype SessDay = SessDay(count: int, touching: int, duration: int)

  const NO_SESSIONS := SessDay(0, 0, 0)

  function SessOf(sess: map<int, SessDay>, day: int): SessDay {
    if day in sess then sess[day] else NO_SESSIONS
  }

  /** Rehydrate on a miss, then add: one `sess:{day}` hash. */
  function Booked(sess: map<int, SessDay>, floor: map<int, SessDay>, day: int, sessions: int,
                  duration: int): map<int, SessDay> {
    var d := if day in sess then sess[day] else SessOf(floor, day);
    sess[day := SessDay(d.count + sessions, d.touching + 1, d.duration + duration)]
  }

  function AfterSess(sess: map<int, SessDay>, floor: map<int, SessDay>, s: TrustedSession,
                     offset: int): map<int, SessDay> {
    var interval := Interval(s.correctedStart, s.trustedEnd);
    var started := Booked(sess, floor, s.startDay, 1, DurOnDay(interval, s.startDay, offset));
    if s.endDay.None? then started
    else Booked(started, floor, s.endDay.value, 0, DurOnDay(interval, s.endDay.value, offset))
  }

  function AfterAct(act: map<int, set<string>>, floor: map<int, set<string>>, r: Record): map<int, set<string>> {
    if !Anchored(r) then act
    else
      var day := r.session.startDay;
      var members := if day in act then act[day] else if day in floor then floor[day] else {};
      act[day := members + {r.userId}]
  }

  function AfterRet(ret: map<int, Retention.Bucket>, durable: map<Counter, int>,
                    owed: seq<Counter>): map<int, Retention.Bucket>
    decreases |owed|
  {
    if owed == [] then ret else AfterRet(Retention.Bump(ret, durable, owed[0]), durable, owed[1..])
  }

  /** What the floors are read from. */
  datatype Tables = Tables(sessionDay: map<int, SessDay>, activeUserDay: map<int, set<string>>, retention: map<Counter, int>)

  class SessionHotHook {
    var sess: map<int, SessDay>
    var act: map<int, set<string>>
    var ret: map<int, Retention.Bucket>

    method SeedSess(day: int, floor: SessDay)
      modifies this`sess
      ensures sess == if day in old(sess) then old(sess) else old(sess)[day := floor]
    {
      if day !in sess {
        sess := sess[day := floor];
      }
    }

    method SeedRet(day: int, floor: map<Retention.Field, int>)
      modifies this`ret
      ensures ret == if Retention.BucketOf(old(ret), day).seeded then old(ret)
                     else old(ret)[day := Retention.Seeded(Retention.BucketOf(old(ret), day), floor)]
    {
      var b := Retention.BucketOf(ret, day);
      if !b.seeded {
        ret := ret[day := Retention.Bucket(floor + b.fields, true)];
      }
    }

    method IncrementRet(day: int, k: Counter, durable: map<Counter, int>)
      requires day == ActivityDay(k)
      modifies this`ret
      ensures ret == Retention.Bump(old(ret), durable, k)
    {
      SeedRet(day, Retention.RetFloor(durable, day));
      var b := ret[day];
      var field := Retention.FieldOf(k);
      var value := if field in b.fields then b.fields[field] else 0;
      ret := ret[day := b.(fields := b.fields[field := value + 1])];
    }

    /** Seed on a miss, then the HINCRBYs; a zero duration is not written. */
    method BookDay(day: int, floor: map<int, SessDay>, sessions: nat, duration: nat)
      modifies this`sess
      ensures sess == Booked(old(sess), floor, day, sessions, duration)
    {
      SeedSess(day, SessOf(floor, day));
      var d := sess[day];
      if sessions > 0 {
        d := d.(count := d.count + sessions);
      }
      d := d.(touching := d.touching + 1);
      if duration > 0 {
        d := d.(duration := d.duration + duration);
      }
      sess := sess[day := d];
    }

    /** The start day takes the count; a second day only what reaches into it. */
    method UpdateSess(s: TrustedSession, floor: map<int, SessDay>, offset: int)
      modifies this`sess
      ensures sess == AfterSess(old(sess), floor, s, offset)
    {
      hide DurOnDay, Booked;
      var interval := Interval(s.correctedStart, s.trustedEnd);
      DurationIsNatural(interval, s.startDay, offset);
      BookDay(s.startDay, floor, 1, DurOnDay(interval, s.startDay, offset));
      if s.endDay.Some? {
        DurationIsNatural(interval, s.endDay.value, offset);
        BookDay(s.endDay.value, floor, 0, DurOnDay(interval, s.endDay.value, offset));
      }
    }

    method UpdateAct(r: Record, floor: map<int, set<string>>)
      modifies this`act
      ensures act == AfterAct(old(act), floor, r)
    {
      if r.provenance == Client && r.userId != "" {
        var day := r.session.startDay;
        if day !in act {
          act := act[day := if day in floor then floor[day] else {}];
        }
        act := act[day := act[day] + {r.userId}];
      }
    }

    method Update(r: Record, token: Token, tables: Tables, offset: int)
      requires TokenFits(token, r)
      modifies this
      ensures sess == AfterSess(old(sess), tables.sessionDay, r.session, offset)
      ensures act == AfterAct(old(act), tables.activeUserDay, r)
      ensures ret == AfterRet(old(ret), tables.retention, Owed(token))
    {
      hide AfterSess, AfterAct, Retention.Bump;
      UpdateSess(r.session, tables.sessionDay, offset);
      UpdateAct(r, tables.activeUserDay);
      if token.created {
        IncrementRet(token.cohort, CohortSize(token.cohort), tables.retention);
      }
      ghost var middle := ret;
      if token.bitTransition && token.offset.Some? {
        var k := RetentionCell(token.cohort, token.offset.value);
        IncrementRet(r.session.startDay, k, tables.retention);
        assert AfterRet(middle, tables.retention, [k]) == ret;
        assert token.created ==> Owed(token)[1..] == [k];
      }
    }
  }

  lemma {:induction false} DurationIsNatural(interval: Interval, day: int, offset: int)
    ensures DurOnDay(interval, day, offset) >= 0
  {
  }

  /**
   * Steps 7 and 8 for one record: an event whose spine write throws books nothing hot, and
   * any other books what its own token owes.
   */
  method HandleSession(durable: SessionDurableHook, hot: SessionHotHook, r: Record, span: nat, tables: Tables,
                       offset: int)
    returns (counted: bool)
    modifies durable, hot
    ensures var out := AfterWrite(old(durable.spine), old(durable.negativeOffsets), r, span);
      && durable.spine == out.spine && durable.negativeOffsets == out.negativeOffsets && counted == out.token.Some?
      && hot.sess == (if counted then AfterSess(old(hot.sess), tables.sessionDay, r.session, offset) else old(hot.sess))
      && hot.act == (if counted then AfterAct(old(hot.act), tables.activeUserDay, r) else old(hot.act))
      && hot.ret == (if counted then AfterRet(old(hot.ret), tables.retention, Owed(out.token.value)) else old(hot.ret))
  {
    hide AfterWrite, AfterSess, AfterAct, AfterRet, TokenFits;
    WrittenTokenFits(durable.spine, durable.negativeOffsets, r, span);
    var token := durable.Write(r, span);
    if token.None? { return false; }
    hot.Update(r, token.value, tables, offset);
    counted := true;
  }

  /**
   * The active set takes every anchored session and forgets nobody. The bitmap has its day exactly when the
   * day lies in the cohort's span, or the bit was set before under a wider one: a session
   * from before the cohort day, or from the horizon on, is active without a bit.
   */
  lemma {:induction false} ActMarkVersusBitmap(spine: map<string, Row>, negativeOffsets: map<int, int>, r: Record,
                                               span: nat,
                                               act: map<int, set<string>>, floor: map<int, set<string>>)
    requires r.provenance == Client && r.userId != "" && AfterWrite(spine, negativeOffsets, r, span).token.Some?
    ensures var out := AfterWrite(spine, negativeOffsets, r, span); var day := r.session.startDay;
      var row := Spine.SeedFirstSeen(spine, r.userId, day, span)[r.userId];
      var off := day - row.cohort;
      && AfterAct(act, floor, r).Keys == act.Keys + {day}
      && AfterAct(act, floor, r)[day] == {r.userId} + (if day in act then act[day] else if day in floor then floor[day] else {})
      && (forall other :: other in act && other != day ==> AfterAct(act, floor, r)[other] == act[other])
      && (r.userId in SpineRescan.ActiveOn(out.spine, day)
          <==> 0 <= off && (off < span || (off < |row.bitmap| && row.bitmap[off])))
      && (out.token.value.offset.Some? <==> 0 <= off < span)
  {
  }

  function HotStepsTimes(w: int, n: nat): seq<Retention.Action> {
    if n == 0 then [] else Retention.HotSteps(w) + HotStepsTimes(w, n - 1)
  }

  /** What step 8 does to the `ret` hashes is what the protocol's worker does, counter by counter, undisturbed. */
  lemma {:induction false} RetIsProtocolStep8(s: Retention.State, w: int)
    requires w in s.workers && s.workers[w].phase.Start?
    ensures var e := s.workers[w];
      Retention.Run(s, HotStepsTimes(w, |e.todo|))
        == s.(hot := AfterRet(s.hot, s.durable, e.todo), workers := s.workers[w := e.(todo := [])])
    decreases |s.workers[w].todo|
  {
    hide Retention.Run, Retention.Bump, Retention.HotSteps;
    var e := s.workers[w];
    if e.todo == [] {
      Retention.RunNothing(s);
      assert s.workers[w := e] == s.workers;
    } else {
      Retention.HotStepsAreOneBump(s, w);
      var next := Retention.Run(s, Retention.HotSteps(w));
      RetIsProtocolStep8(next, w);
      Retention.RunAppend(s, Retention.HotSteps(w), HotStepsTimes(w, |e.todo| - 1));
      assert s.workers[w := e.(todo := e.todo[1..])][w := e.(todo := [])] == s.workers[w := e.(todo := [])];
    }
  }

  /**
   * The bit's increment goes to the hash of the event's own day, from that hash's value or,
   * when the day is not seeded, the durable one; no other day's hash changes.
   */
  lemma {:induction false} CellLandsOnItsDay(ret: map<int, Retention.Bucket>, durable: map<Counter, int>, t: Token,
                                             r: Record)
    requires TokenFits(t, r) && t.bitTransition && t.offset.Some? && !t.created
    ensures var day := r.session.startDay; var cell := Retention.Cell(t.cohort, day - t.cohort);
      var k := RetentionCell(t.cohort, day - t.cohort);
      var b := if day in ret then ret[day] else Retention.Bucket(map[], false);
      var after := AfterRet(ret, durable, Owed(t));
      && after.Keys == ret.Keys + {day} && (forall other :: other in ret && other != day ==> after[other] == ret[other])
      && after[day].seeded && cell in after[day].fields
      && after[day].fields[cell] == 1 + if cell in b.fields then b.fields[cell]
                                       else if !b.seeded && k in durable then durable[k] else 0
  {
    var day := r.session.startDay;
    var k := RetentionCell(t.cohort, t.offset.value);
    assert Owed(t) == [k] && [k][1..] == [];
    assert AfterRet(ret, durable, [k]) == Retention.Bump(ret, durable, k);
    FloorField(durable, day, k);
    hide Retention.RetFloor, AfterRet;
  }

  lemma FloorField(durable: map<Counter, int>, day: int, k: Counter)
    requires ActivityDay(k) == day
    ensures var floor := Retention.RetFloor(durable, day);
      && (Retention.FieldOf(k) in floor <==> k in durable)
      && (k in durable ==> floor[Retention.FieldOf(k)] == durable[k])
  {
  }

  /** A server session, or one without a user, reaches neither the spine nor the active set, and owes nothing. */
  lemma OthersAreNotTracked(spine: map<string, Row>, negativeOffsets: map<int, int>, r: Record, span: nat,
                            act: map<int, set<string>>, floor: map<int, set<string>>)
    requires r.provenance != Client || r.userId == ""
    ensures AfterWrite(spine, negativeOffsets, r, span)
         == DurableOutcome(spine, negativeOffsets, Some(Token(false, false, r.session.startDay, None)))
    ensures AfterAct(act, floor, r) == act && Owed(Token(false, false, r.session.startDay, None)) == []
  {
  }

  /** Before the cohort day nothing is tracked but a tally of the arrival day. */
  lemma {:induction false} EarlySessionIsTallied(spine: map<string, Row>, negativeOffsets: map<int, int>, r: Record,
                                                 span: nat)
    requires r.provenance == Client && r.userId in spine && r.userId != "" && r.session.startDay < spine[r.userId].cohort
    ensures var out := AfterWrite(spine, negativeOffsets, r, span);
      && out.spine == spine
      && out.negativeOffsets == negativeOffsets[r.receivedDay :=
           (if r.receivedDay in negativeOffsets then negativeOffsets[r.receivedDay] else 0) + 1]
      && out.token == Some(Token(false, false, spine[r.userId].cohort, None))
  {
  }

  /** What one `sess:{day}` hash starts from: itself, or on a miss the day's durable row. */
  function DayBefore(sess: map<int, SessDay>, floor: map<int, SessDay>, day: int): SessDay {
    if day in sess then sess[day] else if day in floor then floor[day] else SessDay(0, 0, 0)
  }

  /** The session is counted on its start day only, touches the second day too, and leaves each its share. */
  lemma {:induction false} SessionIsBooked(sess: map<int, SessDay>, floor: map<int, SessDay>, s: TrustedSession,
                                           offset: int, day: int)
    requires s.endDay != Some(s.startDay)
    ensures var after := AfterSess(sess, floor, s, offset); var before := DayBefore(sess, floor, day);
      var share := DurOnDay(Interval(s.correctedStart, s.trustedEnd), day, offset);
      && after.Keys == sess.Keys + {s.startDay} + (if s.endDay.Some? then {s.endDay.value} else {})
      && (day == s.startDay ==>
            after[day] == SessDay(before.count + 1, before.touching + 1, before.duration + share))
      && (s.endDay == Some(day) ==> after[day] == SessDay(before.count, before.touching + 1, before.duration + share))
      && (day in sess && day != s.startDay && s.endDay != Some(day) ==> after[day] == sess[day])
  {
    hide DurOnDay;
  }

  /** From an empty spine: a user's session at or beyond the horizon of the first one never gets a bit. */
  lemma {:induction false} BeyondHorizonHasNoBit(first: Record, later: Record, span: nat, act: map<int, set<string>>,
                                                 floor: map<int, set<string>>)
    requires first.provenance == later.provenance == Client && first.userId == later.userId != "" && span > 0
    requires later.session.startDay >= first.session.startDay + span
    ensures var begun := AfterWrite(map[], map[], first, span);
      var out := AfterWrite(begun.spine, begun.negativeOffsets, later, span); var day := later.session.startDay;
      && begun.token.Some? && out.token == Some(Token(false, false, first.session.startDay, None))
      && later.userId in AfterAct(act, floor, later)[day]
      && later.userId !in SpineRescan.ActiveOn(out.spine, day)
  {
    var begun := AfterWrite(map[], map[], first, span);
    assert begun.spine[first.userId].cohort == first.session.startDay && |begun.spine[first.userId].bitmap| == span;
    ActMarkVersusBitmap(begun.spine, begun.negativeOffsets, later, span, act, floor);
  }

  // ---- Duration and counts over a loss-free run ------------------------------

  function Durations(sess: map<int, SessDay>): map<int, int> { map d | d in sess :: sess[d].duration }
  function CountsOf(sess: map<int, SessDay>): map<int, int> { map d | d in sess :: sess[d].count }
  function Touchings(sess: map<int, SessDay>): map<int, int> { map d | d in sess :: sess[d].touching }

  lemma {:induction false} BookedTotals(sess: map<int, SessDay>, floor: map<int, SessDay>, day: int, sessions: int,
                                        duration: int)
    requires floor.Keys <= sess.Keys
    ensures var t := Booked(sess, floor, day, sessions, duration);
      && t.Keys == sess.Keys + {day}
      && Total(Durations(t)) == Total(Durations(sess)) + duration
      && Total(CountsOf(t)) == Total(CountsOf(sess)) + sessions
      && Total(Touchings(t)) == Total(Touchings(sess)) + 1
  {
    hide Total, Booked, Durations, CountsOf, Touchings;
    BookedFields(sess, floor, day, sessions, duration);
    TotalIncr(Durations(sess), day, duration);
    TotalIncr(CountsOf(sess), day, sessions);
    TotalIncr(Touchings(sess), day, 1);
  }

  lemma {:induction false} BookedFields(sess: map<int, SessDay>, floor: map<int, SessDay>, day: int, sessions: int,
                                        duration: int)
    requires floor.Keys <= sess.Keys
    ensures var t := Booked(sess, floor, day, sessions, duration);
      && t.Keys == sess.Keys + {day}
      && Durations(t) == Incr(Durations(sess), day, duration)
      && CountsOf(t) == Incr(CountsOf(sess), day, sessions)
      && Touchings(t) == Incr(Touchings(sess), day, 1)
  {
  }

  function IntervalOf(s: TrustedSession): Interval {
    Interval(s.correctedStart, s.trustedEnd)
  }

  /** What derivation makes of any session. */
  ghost predicate Derived(s: TrustedSession, offset: int) {
    && s.trustedDuration >= 0 && s.trustedEnd == s.correctedStart + s.trustedDuration
    && s.startDay == DayOf(s.correctedStart, offset) && s.endDay == EndDay(IntervalOf(s), offset)
  }

  lemma {:induction false} DeriveIsDerived(rawStart: int, rawEnd: int, clientSent: int, serverReceived: int,
                                           knobs: Knobs, offset: int)
    requires knobs.minDurationMs >= 0
    ensures Derived(DeriveTrustedSession(rawStart, rawEnd, clientSent, serverReceived, knobs, offset), offset)
  {
  }

  lemma {:induction false} SessionTotals(sess: map<int, SessDay>, floor: map<int, SessDay>, s: TrustedSession,
                                         offset: int)
    requires floor.Keys <= sess.Keys && Derived(s, offset)
    ensures var t := AfterSess(sess, floor, s, offset);
      && sess.Keys <= t.Keys
      && Total(Durations(t)) == Total(Durations(sess)) + DaySplit(IntervalOf(s), offset)
      && Total(CountsOf(t)) == Total(CountsOf(sess)) + 1
      && Total(Touchings(t)) == Total(Touchings(sess)) + (if s.endDay.Some? then 2 else 1)
  {
    hide DurOnDay, EndDay, Total, Durations, CountsOf, Touchings, Booked;
    var startDur := DurOnDay(IntervalOf(s), s.startDay, offset);
    BookedTotals(sess, floor, s.startDay, 1, startDur);
    if s.endDay.Some? {
      BookedTotals(Booked(sess, floor, s.startDay, 1, startDur), floor, s.endDay.value, 0,
                   DurOnDay(IntervalOf(s), s.endDay.value, offset));
    }
  }

  /** One booked session and the durable floor it may have read (never ahead of the hash). */
  function Fold(sess: map<int, SessDay>, floors: seq<map<int, SessDay>>, sessions: seq<TrustedSession>,
                offset: int): map<int, SessDay>
    requires |floors| == |sessions|
    decreases |sessions|
  {
    if sessions == [] then sess
    else Fold(AfterSess(sess, floors[0], sessions[0], offset), floors[1..], sessions[1..], offset)
  }

  ghost predicate FloorsBehind(sess: map<int, SessDay>, floors: seq<map<int, SessDay>>,
                               sessions: seq<TrustedSession>, offset: int)
    requires |floors| == |sessions|
    decreases |sessions|
  {
    sessions != [] ==>
      && floors[0].Keys <= sess.Keys
      && FloorsBehind(AfterSess(sess, floors[0], sessions[0], offset), floors[1..], sessions[1..], offset)
  }

  function SumDurations(sessions: seq<TrustedSession>): int {
    if sessions == [] then 0 else sessions[0].trustedDuration + SumDurations(sessions[1..])
  }

  function TwoDaySessions(sessions: seq<TrustedSession>): nat {
    if sessions == [] then 0
    else (if sessions[0].endDay.Some? then 1 else 0) + TwoDaySessions(sessions[1..])
  }

  /**
   * Over a loss-free run, whatever the offset and however long the sessions: the day counts
   * add up to the sessions, touching exceeds them by the two-day sessions, and the duration
   * sums never exceed the trusted durations and reach them exactly when every session
   * splits fully.
   */
  lemma {:induction false} SessionsConserved(sess: map<int, SessDay>, floors: seq<map<int, SessDay>>,
                                             sessions: seq<TrustedSession>, offset: int)
    requires |floors| == |sessions| && FloorsBehind(sess, floors, sessions, offset)
    requires MIN_OFFSET <= offset <= MAX_OFFSET && forall s :: s in sessions ==> Derived(s, offset)
    ensures var t := Fold(sess, floors, sessions, offset);
      && Total(Durations(t)) <= Total(Durations(sess)) + SumDurations(sessions)
      && (Total(Durations(t)) == Total(Durations(sess)) + SumDurations(sessions)
          <==> forall s :: s in sessions ==> SplitsFully(IntervalOf(s), offset))
      && Total(CountsOf(t)) == Total(CountsOf(sess)) + |sessions|
      && Total(Touchings(t)) - Total(CountsOf(t))
         == Total(Touchings(sess)) - Total(CountsOf(sess)) + TwoDaySessions(sessions)
    decreases |sessions|
  {
    hide Total, Durations, CountsOf, Touchings, AfterSess, DaySplit, SplitsFully, DayOf, EndDay;
    if sessions != [] {
      var rest := sessions[1..];
      SessionTotals(sess, floors[0], sessions[0], offset);
      DaySplitConservesIff(IntervalOf(sessions[0]), offset);
      SessionsConserved(AfterSess(sess, floors[0], sessions[0], offset), floors[1..], rest, offset);
      assert sessions == [sessions[0]] + rest;
    }
  }
}
