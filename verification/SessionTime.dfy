/**
 * Trusted session time: skew-correct the client's interval, recompute the duration on the
 * server, and split it over the logical days it touches.
 */
module SessionTime {
  import opened Basics
  import opened LogicalDay

  const SKEW_DEAD_BAND_MS := 60_000

  datatype Knobs = Knobs(maxDurationCapMin: int, minDurationMs: int)
  datatype Corrected = Corrected(start: int, end: int)
  datatype Interval = Interval(start: int, end: int)
  datatype TrustedSession = TrustedSession(
    correctedStart: int, correctedEnd: int, trustedDuration: int, trustedEnd: int,
    startDay: int, endDay: Option<int>)


  // ---- Interval correction ---------------------------------------------------

  function Shift(clientSent: int, serverReceived: int): int {
    var skew := serverReceived - clientSent;
    if Abs(skew) > SKEW_DEAD_BAND_MS then skew else 0
  }

  function CorrectInterval(rawStart: int, rawEnd: int, clientSent: int, serverReceived: int): Corrected {
    var shift := Shift(clientSent, serverReceived);
    var start := rawStart + shift;
    var end := rawEnd + shift;
    var overshoot := end - serverReceived;
    var (start', end') :=
      if overshoot <= 0 then (start, end)
      else if rawEnd > clientSent then (start, serverReceived)
      else (start - overshoot, end - overshoot);
    Corrected(Min(start', serverReceived), end')
  }

  /** The client claims an end after its own send time, and the claim is in the server's future. */
  predicate FutureClaim(rawEnd: int, clientSent: int, serverReceived: int) {
    rawEnd > clientSent && rawEnd + Shift(clientSent, serverReceived) > serverReceived
  }

  /**
   * For every clock offset: neither end is after the server's receipt, no span grows, and
   * an ordered interval keeps its exact span unless its end is a future claim.
   */
  lemma {:induction false} CorrectionKeepsSpan(rawStart: int, rawEnd: int, clientSent: int, serverReceived: int)
    ensures var c := CorrectInterval(rawStart, rawEnd, clientSent, serverReceived);
      && c.start <= serverReceived && c.end <= serverReceived
      && Max(0, c.end - c.start) <= Max(0, rawEnd - rawStart)
      && (rawStart <= rawEnd ==>
          (c.end - c.start == rawEnd - rawStart
           <==> rawStart == rawEnd || !FutureClaim(rawEnd, clientSent, serverReceived)))
  {
  }

  /**
   * Where a corrected interval lies. Within a minute of skew it stays where the client put
   * it, and beyond it keeps its distance from the message: as long before receipt as the
   * client says it was before sending. An end that would then lie in the server's future is
   * moved back to receipt, and the whole interval with it unless the client's own clock was
   * already past its send time.
   */
  lemma {:induction false} CorrectionPlaces(rawStart: int, rawEnd: int, clientSent: int, serverReceived: int)
    requires rawStart <= rawEnd
    ensures var c := CorrectInterval(rawStart, rawEnd, clientSent, serverReceived);
      var near := -60_000 <= serverReceived - clientSent <= 60_000;
      && (near && rawEnd <= serverReceived ==> c == Corrected(rawStart, rawEnd))
      && (!near && rawEnd <= clientSent ==>
            serverReceived - c.end == clientSent - rawEnd && serverReceived - c.start == clientSent - rawStart)
      && (near && serverReceived < rawEnd <= clientSent ==>
            c.end == serverReceived && c.end - c.start == rawEnd - rawStart)
      && (rawEnd > clientSent && (!near || rawEnd > serverReceived) ==>
            c.end == serverReceived
            && c.start == (var start := if near then rawStart else rawStart + serverReceived - clientSent;
                           if start <= serverReceived then start else serverReceived))
  {
  }

  // ---- Duration on one day ---------------------------------------------------

  /** The instant the day bounds are rebuilt from: it adds the offset instead of removing it. */
  function Probe(day: int, offset: int): int {
    day * MS_PER_DAY + offset * MS_PER_MINUTE + MS_PER_MINUTE
  }

  function DurOnDay(interval: Interval, day: int, offset: int): int {
    var dStart := DayStartUtcMs(Probe(day, offset), offset);
    var dEnd := DayEndUtcMs(Probe(day, offset), offset);
    Max(0, Min(interval.end, dEnd) - Max(interval.start, dStart))
  }

  /** The part of `interval` that really lies in logical day `day`. */
  function Overlap(interval: Interval, day: int, offset: int): int {
    var dStart := day * MS_PER_DAY - offset * MS_PER_MINUTE;
    Max(0, Min(interval.end, dStart + MS_PER_DAY) - Max(interval.start, dStart))
  }

  /** Over the contract's offsets the probe lands in the day, the day before, or the day after. */
  function ProbedDay(day: int, offset: int): int {
    if offset < 0 then day - 1 else if offset < 720 then day else day + 1
  }

  lemma {:induction false} ProbeLands(day: int, offset: int)
    requires MIN_OFFSET <= offset <= MAX_OFFSET
    ensures DayOf(Probe(day, offset), offset) == ProbedDay(day, offset)
    ensures DayOf(Probe(day, offset), offset) == day <==> 0 <= offset < 720
  {
    assert Probe(day, offset) + offset * MS_PER_MINUTE == day * MS_PER_DAY + (2 * offset + 1) * MS_PER_MINUTE;
  }

  lemma {:induction false} DurOnDayIsOverlap(interval: Interval, day: int, offset: int)
    requires MIN_OFFSET <= offset <= MAX_OFFSET
    ensures DurOnDay(interval, day, offset) == Overlap(interval, ProbedDay(day, offset), offset)
  {
    ProbeLands(day, offset);
    OffsetAppliedOnce(Probe(day, offset), offset);
  }

  // ---- Derivation ------------------------------------------------------------

  function TrustedDuration(span: int, knobs: Knobs): int {
    Max(Min(Max(0, span), knobs.maxDurationCapMin * MS_PER_MINUTE), knobs.minDurationMs)
  }

  function EndDay(interval: Interval, offset: int): Option<int> {
    var startDay := DayOf(interval.start, offset);
    var endInstant := if interval.end > interval.start then interval.end else interval.start;
    var endDay := DayOf(endInstant, offset);
    if endDay != startDay && DurOnDay(interval, endDay, offset) > 0 then Some(endDay) else None
  }

  function DeriveTrustedSession(rawStart: int, rawEnd: int, clientSent: int, serverReceived: int,
                                knobs: Knobs, offset: int): TrustedSession
  {
    var c := CorrectInterval(rawStart, rawEnd, clientSent, serverReceived);
    var duration := TrustedDuration(c.end - c.start, knobs);
    var interval := Interval(c.start, c.start + duration);
    TrustedSession(c.start, c.end, duration, interval.end, DayOf(c.start, offset), EndDay(interval, offset))
  }

  /** A duration is a span, cut at the cap and then raised to the minimum. */
  ghost predicate CappedThenFloored(duration: int, span: int, knobs: Knobs) {
    var cap := knobs.maxDurationCapMin * 60_000;
    && duration >= knobs.minDurationMs
    && (duration <= cap || duration == knobs.minDurationMs)
    && (knobs.minDurationMs <= span <= cap ==> duration == span)
    && (span > cap >= knobs.minDurationMs ==> duration == cap)
    && (span < knobs.minDurationMs ==> duration == knobs.minDurationMs)
  }

  /**
   * The trusted duration is the corrected span, and for a coherent session the raw span,
   * capped then floored; a trusted end after the server's receipt can only come from the
   * minimum-duration floor.
   */
  lemma {:induction false} TrustedDurationFromRawSpan(rawStart: int, rawEnd: int, clientSent: int,
                                                      serverReceived: int, knobs: Knobs, offset: int)
    ensures var s := DeriveTrustedSession(rawStart, rawEnd, clientSent, serverReceived, knobs, offset);
      var span := if s.correctedEnd >= s.correctedStart then s.correctedEnd - s.correctedStart else 0;
      && CappedThenFloored(s.trustedDuration, span, knobs)
      && (rawStart <= rawEnd <= clientSent ==> CappedThenFloored(s.trustedDuration, rawEnd - rawStart, knobs))
      && s.trustedEnd == s.correctedStart + s.trustedDuration
    ensures var s := DeriveTrustedSession(rawStart, rawEnd, clientSent, serverReceived, knobs, offset);
      && (rawStart <= rawEnd <= clientSent ==> s.trustedDuration == TrustedDuration(rawEnd - rawStart, knobs))
      && s.trustedDuration <= TrustedDuration(rawEnd - rawStart, knobs)
      && (s.trustedEnd > serverReceived ==>
          s.trustedDuration == knobs.minDurationMs > Min(Max(0, s.correctedEnd - s.correctedStart),
                                                         knobs.maxDurationCapMin * MS_PER_MINUTE))
  {
    CorrectionKeepsSpan(rawStart, rawEnd, clientSent, serverReceived);
  }

  // ---- Day split -------------------------------------------------------------

  /** What the hot path books: the start day's share, plus the end day's if there is one. */
  function DaySplit(interval: Interval, offset: int): int {
    var tail := EndDay(interval, offset);
    DurOnDay(interval, DayOf(interval.start, offset), offset)
    + (if tail.Some? then DurOnDay(interval, tail.value, offset) else 0)
  }

  /**
   * For offsets 0..719 the session ends before the second day after its start is over; any
   * other offset spares only empty sessions and, west of UTC, those ending exactly when
   * their day does.
   */
  predicate SplitsFully(interval: Interval, offset: int) {
    var dayEnd := DayEndUtcMs(interval.start, offset);
    if 0 <= offset < 720 then interval.end < dayEnd + MS_PER_DAY
    else interval.start == interval.end || (offset < 0 && interval.end == dayEnd)
  }

  /** The split never books more than the trusted duration, and all of it exactly under this condition. */
  lemma {:induction false} DaySplitConservesIff(interval: Interval, offset: int)
    requires MIN_OFFSET <= offset <= MAX_OFFSET && interval.start <= interval.end
    ensures DaySplit(interval, offset) <= interval.end - interval.start
    ensures DaySplit(interval, offset) == interval.end - interval.start <==> SplitsFully(interval, offset)
  {
    var first, last := DayOf(interval.start, offset), DayOf(interval.end, offset);
    DayBoundsBracket(interval.start, interval.end, offset);
    DayBoundsBracket(interval.end, interval.start, offset);
    OffsetAppliedOnce(interval.start, offset);
    OffsetAppliedOnce(interval.end, offset);
    DurOnDayIsOverlap(interval, first, offset);
    DurOnDayIsOverlap(interval, last, offset);
  }

  /** A session of at most a day is conserved, and touches a second day iff it reaches into it. */
  lemma {:induction false} ShortSessionSplits(interval: Interval, offset: int)
    requires 0 <= offset < 720
    requires interval.start <= interval.end <= interval.start + MS_PER_DAY
    ensures DaySplit(interval, offset) == interval.end - interval.start
    ensures EndDay(interval, offset) ==
      if interval.end > DayEndUtcMs(interval.start, offset) then Some(DayOf(interval.start, offset) + 1) else None
  {
    DaySplitConservesIff(interval, offset);
    DayBoundsBracket(interval.start, interval.end, offset);
    DayBoundsBracket(interval.end, interval.start, offset);
    OffsetAppliedOnce(interval.start, offset);
    OffsetAppliedOnce(interval.end, offset);
    DurOnDayIsOverlap(interval, DayOf(interval.end, offset), offset);
  }

  /** One minute west of UTC a ten-minute session inside one day books no duration at all. */
  lemma {:induction false} WestOfUtcLosesDuration()
    ensures DaySplit(Interval(43_200_000, 43_800_000), -1) == 0
  {
  }
}
