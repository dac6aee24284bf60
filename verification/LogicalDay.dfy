/**
 * The platform's logical day and the seal clock. Instants are UTC epoch milliseconds,
 * a day is its index (midnight divided by the length of a day), offsets are minutes.
 */
module LogicalDay {
  const MS_PER_MINUTE := 60_000
  const MS_PER_DAY := 86_400_000
  const DEFAULT_GRACE_WINDOW_MS := 172_800_000

  /** Bounds the configuration contract puts on the reporting offset. */
  const MIN_OFFSET := -720
  const MAX_OFFSET := 840

  // ---- Day of an instant -----------------------------------------------------

  /** Flooring division, also for instants before the epoch. */
  function UtcDay(epochMs: int): int {
    epochMs / MS_PER_DAY
  }

  function DayOf(epochMs: int, offset: int): int {
    UtcDay(epochMs + offset * MS_PER_MINUTE)
  }

  function DayStartUtcMs(epochMs: int, offset: int): int {
    var shifted := epochMs + offset * MS_PER_MINUTE;
    shifted / MS_PER_DAY * MS_PER_DAY - offset * MS_PER_MINUTE
  }

  function DayEndUtcMs(epochMs: int, offset: int): int {
    DayStartUtcMs(epochMs, offset) + MS_PER_DAY
  }

  /** The bounds bracket the instant, and bracket exactly the instants of the same day. */
  lemma {:induction false} DayBoundsBracket(epochMs: int, other: int, offset: int)
    ensures DayStartUtcMs(epochMs, offset) <= epochMs < DayEndUtcMs(epochMs, offset)
    ensures DayOf(other, offset) == DayOf(epochMs, offset)
       <==> DayStartUtcMs(epochMs, offset) <= other < DayEndUtcMs(epochMs, offset)
    ensures DayOf(DayEndUtcMs(epochMs, offset), offset) == DayOf(epochMs, offset) + 1
  {
  }

  /** The offset is a rigid shift: shifting the instant instead gives the same day. */
  lemma {:induction false} OffsetAppliedOnce(epochMs: int, offset: int)
    ensures DayOf(epochMs, offset) == DayOf(epochMs + offset * MS_PER_MINUTE, 0)
    ensures DayStartUtcMs(epochMs, offset) == DayOf(epochMs, offset) * MS_PER_DAY - offset * MS_PER_MINUTE
  {
  }

  // ---- Seal clock ------------------------------------------------------------

  datatype SealState = Open | Grace | Sealed

  function Rank(state: SealState): nat {
    match state
    case Open => 0
    case Grace => 1
    case Sealed => 2
  }

  function CheckSealState(correctedTime: int, now: int, offset: int, graceWindowMs: int): SealState {
    var dayEnd := DayEndUtcMs(correctedTime, offset);
    if now >= dayEnd + graceWindowMs then Sealed
    else if now >= dayEnd then Grace
    else Open
  }

  /**
   * One seal clock per day: all its instants share the state, the state only advances, and
   * a day never outlives a later day. It is open exactly until the day is over, and sealed
   * exactly from a grace window later.
   */
  lemma {:induction false} SealClock(t1: int, t2: int, now1: int, now2: int, offset: int, graceWindowMs: int)
    requires graceWindowMs >= 0 && now1 <= now2
    ensures DayOf(t1, offset) == DayOf(t2, offset) ==>
      CheckSealState(t1, now1, offset, graceWindowMs) == CheckSealState(t2, now1, offset, graceWindowMs)
    ensures Rank(CheckSealState(t1, now1, offset, graceWindowMs))
         <= Rank(CheckSealState(t1, now2, offset, graceWindowMs))
    ensures DayOf(t1, offset) <= DayOf(t2, offset) ==>
      Rank(CheckSealState(t2, now1, offset, graceWindowMs))
      <= Rank(CheckSealState(t1, now1, offset, graceWindowMs))
    ensures CheckSealState(t1, t1, offset, graceWindowMs) == Open
    ensures CheckSealState(t1, now1, offset, graceWindowMs) == Open <==> DayOf(now1, offset) <= DayOf(t1, offset)
    ensures CheckSealState(t1, now1, offset, graceWindowMs) == Sealed
       <==> DayOf(now1 - graceWindowMs, offset) > DayOf(t1, offset)
  {
    DayBoundsBracket(t1, now1, offset);
    DayBoundsBracket(t1, now1 - graceWindowMs, offset);
    OffsetAppliedOnce(now1, offset);
    OffsetAppliedOnce(now1 - graceWindowMs, offset);
    DayBoundsBracket(t1, t2, offset);
    OffsetAppliedOnce(t1, offset);
    OffsetAppliedOnce(t2, offset);
  }

  // ---- The two callers that start from a day string --------------------------

  /** Shipment's representative instant of a day: one millisecond after its UTC start. */
  function LogicalDayInstant(day: int, offset: int): int {
    day * MS_PER_DAY - offset * MS_PER_MINUTE + 1
  }

  predicate ShipmentIsSealed(day: int, now: int, offset: int) {
    CheckSealState(LogicalDayInstant(day, offset), now, offset, DEFAULT_GRACE_WINDOW_MS) == Sealed
  }

  /** The purchase join computes the boundary itself and compares strictly. */
  predicate PurchaseDayIsSealed(day: int, now: int, offset: int) {
    var dayEndMs := day * MS_PER_DAY + MS_PER_DAY - offset * MS_PER_MINUTE;
    now > dayEndMs + DEFAULT_GRACE_WINDOW_MS
  }

  function SealInstant(day: int, offset: int): int {
    (day + 1) * MS_PER_DAY - offset * MS_PER_MINUTE + DEFAULT_GRACE_WINDOW_MS
  }

  /**
   * For every offset the probe lands in its own day, so shipment agrees with the kernel's
   * check of any event of that day; the purchase join differs at the seal instant only.
   */
  lemma {:induction false} SealTestsAgree(day: int, eventTime: int, now: int, offset: int)
    ensures DayOf(LogicalDayInstant(day, offset), offset) == day
    ensures ShipmentIsSealed(day, now, offset) <==> now >= SealInstant(day, offset)
    ensures SealInstant(day, offset) == (day + 3) * 24 * 60 * 60_000 - offset * 60_000
    ensures DayOf(eventTime, offset) == day ==>
      (ShipmentIsSealed(day, now, offset)
       <==> CheckSealState(eventTime, now, offset, DEFAULT_GRACE_WINDOW_MS) == Sealed)
    ensures PurchaseDayIsSealed(day, now, offset)
       <==> ShipmentIsSealed(day, now, offset) && now != SealInstant(day, offset)
  {
    OffsetAppliedOnce(LogicalDayInstant(day, offset), offset);
    OffsetAppliedOnce(eventTime, offset);
  }
}
