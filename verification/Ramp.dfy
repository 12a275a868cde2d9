/** Warm-up ramp and daily reset (apps/core/src/scheduler/scheduler.service.ts:381-423). */
module Ramp {
  import opened Prelude
  import opened Shared

  /** The cap of a ramp day; past the end of the curve its last value holds, and a flow may lower it (0 is no cap). */
  function DailyCapForRamp(rampDay: int, curve: seq<int>, flowCap: Option<int>): int {
    if rampDay <= 0 || curve == [] then 0
    else
      var i := if rampDay - 1 < |curve| - 1 then rampDay - 1 else |curve| - 1;
      if flowCap.Some? && flowCap.value != 0 && flowCap.value < curve[i] then flowCap.value else curve[i]
  }

  predicate NeedsReset(c: Chip, midnight: int) {
    && (c.status == Warming || c.status == Active || c.status == Cooldown)
    && (c.lastReset.None? || c.lastReset.value < midnight)
  }

  function ResetChip(c: Chip, curve: seq<int>, activeAfter: int, midnight: int, now: int): Chip {
    if !NeedsReset(c, midnight) then c
    else
      c.(sent := 0, rampDay := c.rampDay + 1, cap := DailyCapForRamp(c.rampDay + 1, curve, None),
         lastReset := Some(now),
         status := if c.status == Warming && c.rampDay + 1 >= activeAfter then Active else c.status)
  }

  /** The ramp only rises on a rising curve, and never above its top. */
  lemma RampIsMonotone(day: int, later: int, curve: seq<int>, flowCap: Option<int>)
    requires day <= later
    requires forall i :: 0 <= i < |curve| ==> 0 <= curve[i] && (i > 0 ==> curve[i - 1] <= curve[i])
    requires flowCap.Some? ==> 0 <= flowCap.value
    ensures DailyCapForRamp(day, curve, flowCap) <= DailyCapForRamp(later, curve, flowCap)
    ensures curve != [] ==> DailyCapForRamp(later, curve, flowCap) <= curve[|curve| - 1]
    ensures flowCap.Some? ==>
      var plain := DailyCapForRamp(day, curve, None);
      DailyCapForRamp(day, curve, flowCap) == if 0 < flowCap.value < plain then flowCap.value else plain
  {
    Sorted(curve);
  }

  lemma Sorted(s: seq<int>)
    requires forall i :: 0 < i < |s| ==> s[i - 1] <= s[i]
    ensures forall i, j :: 0 <= i <= j < |s| ==> s[i] <= s[j]
  {
    if s != [] {
      var n := |s| - 1;
      Sorted(s[..n]);
      forall i, j | 0 <= i <= j < |s| ensures s[i] <= s[j] {
        if i < j == n {
          assert s[..n][i] <= s[..n][n - 1];
        } else if j < n {
          assert s[..n][i] <= s[..n][j];
        }
      }
    }
  }

  /** A second reset on the same day does nothing. */
  lemma ResetOncePerDay(c: Chip, curve: seq<int>, activeAfter: int, midnight: int, now: int, again: int)
    requires midnight <= now
    ensures var c' := ResetChip(c, curve, activeAfter, midnight, now);
      ResetChip(c', curve, activeAfter, midnight, again) == c'
  {
  }

  /** The resets of a chip that is left alone, one on each of `days` (given as their midnights). */
  function AfterDays(c: Chip, curve: seq<int>, activeAfter: int, days: seq<int>): Chip {
    if days == [] then c
    else
      var n := |days| - 1;
      ResetChip(AfterDays(c, curve, activeAfter, days[..n]), curve, activeAfter, days[n], days[n])
  }

  predicate Rising(last: int, days: seq<int>) {
    days == [] || (Rising(last, days[..|days| - 1]) && (if |days| == 1 then last else days[|days| - 2]) < days[|days| - 1])
  }

  /**
   A whole warm-up: a chip that warms up, works or cools down and is reset on so many days is that many ramp days
   on, counts from zero and has the curve's cap of its day. A warming one is ACTIVE exactly from ramp day
   `activeAfter` on; the others keep their status, so the ramp of a cooled-down chip rises while it rests.
   */
  lemma {:induction false} WarmUp(c: Chip, curve: seq<int>, activeAfter: int, last: int, days: seq<int>)
    requires c.status == Warming || c.status == Active || c.status == Cooldown
    requires c.lastReset == Some(last) && Rising(last, days) && days != []
    requires c.rampDay >= 0 && curve != []
    ensures var c', day := AfterDays(c, curve, activeAfter, days), c.rampDay + |days|;
      && c'.rampDay == day && c'.sent == 0 && c'.score == c.score && c'.fails == c.fails
      && c'.lastReset == Some(days[|days| - 1])
      && c'.cap == (if day <= |curve| then curve[day - 1] else curve[|curve| - 1])
      && c'.status == (if c.status == Warming && day >= activeAfter then Active else c.status)
  {
    var n := |days| - 1;
    if n > 0 {
      WarmUp(c, curve, activeAfter, last, days[..n]);
    } else {
      assert AfterDays(c, curve, activeAfter, days[..0]) == c;
    }
  }

  /** A chip that is new, paused or retired is left alone, however many days pass. */
  lemma {:induction false} OthersAreNotReset(c: Chip, curve: seq<int>, activeAfter: int, days: seq<int>)
    requires c.status == New || c.status == Paused || c.status == Retired
    ensures AfterDays(c, curve, activeAfter, days) == c
  {
    if days != [] {
      OthersAreNotReset(c, curve, activeAfter, days[..|days| - 1]);
    }
  }

  function ResetAll(chips: map<ChipId, Chip>, ids: seq<ChipId>, curve: seq<int>, activeAfter: int,
                    midnight: int, now: int): map<ChipId, Chip> {
    map id | id in chips :: if id in ids then ResetChip(chips[id], curve, activeAfter, midnight, now) else chips[id]
  }

  class DailyReset {
    const db: Database

    constructor (db: Database)
      ensures this.db == db
    {
      this.db := db;
    }

    /** `resetDailyIfNeeded` over the table in the order of `order`: every row that is due, none other. */
    method ResetDailyIfNeeded(order: seq<ChipId>, curve: seq<int>, activeAfter: int, midnight: int, now: int)
      requires midnight <= now
      modifies db`chips
      ensures db.chips == ResetAll(old(db.chips), order, curve, activeAfter, midnight, now)
      ensures db.chips.Keys == old(db.chips).Keys
      ensures forall id :: id in old(db.chips) ==>
        var c, c' := old(db.chips)[id], db.chips[id];
        if && id in order && c.status != New && c.status != Paused && c.status != Retired
           && (c.lastReset.Some? ==> c.lastReset.value < midnight)
        then c'.lastReset == Some(now) && c'.sent == 0 && c'.rampDay == c.rampDay + 1 && c'.score == c.score
        else c' == c
    {
      ghost var was := db.chips;
      var i := 0;
      while i < |order|
        invariant i <= |order|
        invariant db.chips == ResetAll(was, order[..i], curve, activeAfter, midnight, now)
      {
        var id := order[i];
        assert order[..i + 1] == order[..i] + [id];
        if id in db.chips && NeedsReset(db.chips[id], midnight) {
          var c := db.chips[id];
          var newRamp := c.rampDay + 1;
          var promote := c.status == Warming && newRamp >= activeAfter;
          ResetOncePerDay(was[id], curve, activeAfter, midnight, now, now);
          db.chips := db.chips[id := c.(
            sent := 0, rampDay := newRamp, cap := DailyCapForRamp(newRamp, curve, None), lastReset := Some(now),
            status := if promote then Active else c.status)];
        }
        i := i + 1;
      }
      assert order[..i] == order;
    }
  }
}
