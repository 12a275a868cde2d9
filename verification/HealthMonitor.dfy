/**
 Health score and kill switch of one chip (apps/core/src/health-monitor/health-monitor.service.ts).
 The functions give what one undisturbed call does to a row and which commands it sends; the class runs
 the source's statements in order. HealthChain interleaves the same statements.
 */
module HealthMonitor {
  import opened Prelude
  import opened Shared

  const RECOVERY_PER_HOUR := 2.0
  const COOLDOWN_RAMP_CAP := 5
  const COOLDOWN_MINUTES := 60
  const MS_PER_HOUR := 3_600_000.0
  const SWEEP_BONUS := 25.0

  function Clamp(n: real, lo: real, hi: real): real {
    var low := if n < hi then n else hi;
    if lo < low then low else lo
  }

  /** Passive healing by silence; a bad signal never heals. */
  function Healed(last: Option<int>, now: int, weight: real): real {
    if weight < 0.0 then 0.0
    else
      var hours := if last.Some? then (now - last.value) as real / MS_PER_HOUR else 0.0;
      if hours * RECOVERY_PER_HOUR < 100.0 then hours * RECOVERY_PER_HOUR else 100.0
  }

  function NewScore(c: Chip, kind: SignalKind, now: int): real {
    Clamp(c.score + Healed(c.lastSignal, now, Weight(kind)) + Weight(kind), 0.0, 100.0)
  }

  function NewFails(c: Chip, kind: SignalKind): nat {
    match kind
    case SendFail => c.fails + 1
    case Recovered => 0
    case _ => c.fails
  }

  function HalvedCap(cap: int): int {
    if cap / 2 < 1 then 1 else cap / 2
  }

  /** What a call leaves: the row, and the commands it put on the queue. */
  datatype Outcome = Outcome(chip: Chip, commands: seq<ControlType>)

  datatype Verdict = RetireIt | CoolDown | StayCool | SlowDown | RecoverIt | LeaveIt

  function Judge(status: ChipStatus, score: real, fails: nat): Verdict {
    if score < RETIRE_THRESHOLD || fails >= MAX_CONSEC_FAILS then RetireIt
    else if score < COOLDOWN_THRESHOLD then (if status == Cooldown then StayCool else CoolDown)
    else if score < SOFT_THRESHOLD then SlowDown
    else if status == Cooldown then RecoverIt
    else LeaveIt
  }

  /** `cap` is the row's cap as `process` read it. */
  function Enforce(c: Chip, verdict: Verdict, cap: int): Outcome {
    match verdict
    case RetireIt => Outcome(c.(status := Retired), [Retire])
    case CoolDown => Outcome(c.(status := Cooldown), [Stop])
    case SlowDown => Outcome(if HalvedCap(cap) < cap then c.(cap := HalvedCap(cap)) else c, [])
    case RecoverIt => Outcome(c.(status := Warming, cap := COOLDOWN_RAMP_CAP, fails := 0), [Start])
    case _ => Outcome(c, [])
  }

  /** `process`, with the policy it applies. */
  function Process(c: Chip, kind: SignalKind, now: int): Outcome {
    if c.status == Retired then Outcome(c, [])
    else
      var score, fails := NewScore(c, kind, now), NewFails(c, kind);
      Enforce(c.(score := score, fails := fails, lastSignal := Some(now)), Judge(c.status, score, fails), c.cap)
  }

  predicate SilentSince(c: Chip, cutoff: int) {
    c.lastSignal.Some? && c.lastSignal.value < cutoff
  }

  /** The rows `sweepCooldowns` selects at `now`. */
  predicate Sweepable(c: Chip, now: int) {
    c.status == Cooldown && SilentSince(c, now - COOLDOWN_MINUTES * 60_000)
  }

  function SweepChip(c: Chip, now: int): Outcome {
    Enforce(c.(score := Clamp(c.score + SWEEP_BONUS, SOFT_THRESHOLD, 100.0), lastSignal := Some(now)), RecoverIt, c.cap)
  }

  // ---------------------------------------------------------------- the lifecycle of one row

  /**
   What holds of every chip between calls: one not retired has a score of at least 30 and fewer than five
   failures in a row, and one cooling down is below the soft threshold and has a last signal to age from.
   */
  predicate Lively(c: Chip) {
    && (c.status != Retired ==> RETIRE_THRESHOLD <= c.score <= 100.0 && c.fails < MAX_CONSEC_FAILS)
    && (c.status == Cooldown ==> c.score < SOFT_THRESHOLD && c.lastSignal.Some?)
  }

  lemma ProcessKeepsLively(c: Chip, kind: SignalKind, now: int)
    requires Lively(c)
    ensures Lively(Process(c, kind, now).chip)
  {
  }

  lemma SweepKeepsLively(c: Chip, now: int)
    requires Lively(c) && c.status == Cooldown
    ensures var c' := SweepChip(c, now).chip;
      && Lively(c') && c'.status == Warming && c'.cap == 5 && c'.fails == 0 && c'.lastSignal == Some(now)
      && c'.score == (if c.score < 45.0 then 70.0 else c.score + 25.0)
  {
  }

  /** The status of a row changes exactly when a command goes out, and the command tells the new status. */
  lemma CommandsFollowStatus(c: Chip, kind: SignalKind, now: int)
    ensures var o := Process(c, kind, now);
      && |o.commands| <= 1
      && (o.commands == [] <==> o.chip.status == c.status)
      && (o.commands == [Retire] <==> c.status != Retired && o.chip.status == Retired)
      && (o.commands == [Stop] <==> c.status != Cooldown && o.chip.status == Cooldown)
      && (o.commands == [Start] ==> c.status == Cooldown && o.chip.status == Warming)
  {
  }

  /** A bad signal costs its whole weight or retires the chip: it never heals and never lifts a cooldown. */
  lemma BadSignalHurts(c: Chip, kind: SignalKind, now: int)
    requires Lively(c) && kind != Recovered && c.status != Retired
    ensures var c' := Process(c, kind, now).chip;
      c'.status == Retired || (c'.score == c.score + Weight(kind) && c'.fails == NewFails(c, kind))
  {
  }

  // ---------------------------------------------------------------- the signals and the policy, in numbers

  /** What each bad signal takes off a chip, however long the silence before it. */
  lemma BadSignalCosts(c: Chip, kind: SignalKind, now: int)
    requires Lively(c) && c.status != Retired && kind != Recovered
    ensures var c' := Process(c, kind, now).chip;
      && c.score - c'.score == (match kind
                                case SendFail => 12.0
                                case NoDelivery => 6.0
                                case NoRead => 4.0
                                case ReplyDrop => 15.0
                                case _ => 5.0)
      && c'.fails == (if kind == SendFail then c.fails + 1 else c.fails)
      && c'.lastSignal == Some(now)
  {
  }

  /** The points a chip has won back by silence, two an hour and a hundred at most. */
  function WonBack(c: Chip, now: int): real {
    if c.lastSignal.None? then 0.0
    else if now - c.lastSignal.value >= 180_000_000 then 100.0
    else (now - c.lastSignal.value) as real / 1_800_000.0
  }

  /**
   RECOVERED heals: eight points and what silence has won back, up to a hundred in all, and no failures in a
   row. It never retires a chip and never costs it a point.
   */
  lemma RecoveredHeals(c: Chip, now: int)
    requires Lively(c) && c.status != Retired
    requires c.lastSignal.Some? ==> c.lastSignal.value <= now
    ensures var c' := Process(c, Recovered, now).chip;
      && c'.score == (if c.score + 8.0 + WonBack(c, now) < 100.0 then c.score + 8.0 + WonBack(c, now) else 100.0)
      && c'.fails == 0 && c'.lastSignal == Some(now) && c'.status != Retired
      && c.score <= c'.score && 0.0 <= WonBack(c, now) <= 100.0
  {
    HealedIsWonBack(c, now);
  }

  lemma HealedIsWonBack(c: Chip, now: int)
    requires c.lastSignal.Some? ==> c.lastSignal.value <= now
    ensures Healed(c.lastSignal, now, 8.0) == WonBack(c, now) && 0.0 <= WonBack(c, now) <= 100.0
  {
    if c.lastSignal.Some? {
      var ms := (now - c.lastSignal.value) as real;
      assert ms / 3_600_000.0 * 2.0 == ms / 1_800_000.0;
    }
  }

  /** The policy, band by band: below 30 or at five failures, below 50, below 70, and above. */
  lemma PolicyInNumbers(c: Chip, kind: SignalKind, now: int)
    requires c.status != Retired
    ensures var c', commands := Process(c, kind, now).chip, Process(c, kind, now).commands;
      var fails := match kind case SendFail => c.fails + 1 case Recovered => 0 case _ => c.fails;
      if c'.score < 30.0 || fails >= 5 then
        c'.status == Retired && c'.cap == c.cap && commands == [Retire]
      else if c'.score < 50.0 then
        c'.status == Cooldown && c'.cap == c.cap && commands == (if c.status == Cooldown then [] else [Stop])
      else if c'.score < 70.0 then
        c'.status == c.status && c'.cap == (if c.cap >= 2 then c.cap / 2 else c.cap) && commands == []
      else if c.status == Cooldown then
        c'.status == Warming && c'.cap == 5 && c'.fails == 0 && commands == [Start]
      else
        c'.status == c.status && c'.cap == c.cap && commands == []
  {
  }

  // ---------------------------------------------------------------- the service

  function ToCommands(kinds: seq<ControlType>, chip: ChipId): seq<Command> {
    seq(|kinds|, i requires 0 <= i < |kinds| => Command(kinds[i], chip))
  }

  /** The ids in table order that a query at `now` selects. */
  function Selected(chips: map<ChipId, Chip>, order: seq<ChipId>, now: int): seq<ChipId> {
    if order == [] then []
    else
      var n := |order| - 1;
      Selected(chips, order[..n], now) +
      (if order[n] in chips && Sweepable(chips[order[n]], now) then [order[n]] else [])
  }

  function SweptChips(chips: map<ChipId, Chip>, ids: seq<ChipId>, now: int): map<ChipId, Chip> {
    map id | id in chips :: if id in ids then SweepChip(chips[id], now).chip else chips[id]
  }

  lemma {:induction false} SelectedExactly(chips: map<ChipId, Chip>, order: seq<ChipId>, now: int)
    ensures forall id :: id in Selected(chips, order, now) <==> id in order && id in chips && Sweepable(chips[id], now)
  {
    if order != [] {
      var n := |order| - 1;
      SelectedExactly(chips, order[..n], now);
      assert order == order[..n] + [order[n]];
    }
  }

  predicate Distinct(ids: seq<ChipId>) {
    forall i, j :: 0 <= i < j < |ids| ==> ids[i] != ids[j]
  }

  lemma {:induction false} SelectedDistinct(chips: map<ChipId, Chip>, order: seq<ChipId>, now: int)
    requires Distinct(order)
    ensures Distinct(Selected(chips, order, now))
  {
    if order != [] {
      var n := |order| - 1;
      var before := Selected(chips, order[..n], now);
      SelectedDistinct(chips, order[..n], now);
      SelectedExactly(chips, order[..n], now);
      forall i | 0 <= i < |before| ensures before[i] != order[n] {
        assert before[i] in before;
      }
    }
  }

  /** A row as a query returned it. */
  predicate ReadOf(chips: map<ChipId, Chip>, read: (ChipId, real), id: ChipId) {
    read.0 == id && id in chips && read.1 == chips[id].score
  }

  class HealthMonitorService {
    const db: Database

    constructor (db: Database)
      ensures this.db == db
    {
      this.db := db;
    }

    method HandleSignal(chipId: ChipId, kind: SignalKind, now: int)
      modifies db
      ensures chipId !in old(db.chips) ==> db.chips == old(db.chips) && db.control == old(db.control)
      ensures chipId in old(db.chips) ==>
        var o := Process(old(db.chips)[chipId], kind, now);
        db.chips == old(db.chips)[chipId := o.chip] && db.control == old(db.control) + ToCommands(o.commands, chipId)
    {
      if chipId !in db.chips {
        return;
      }
      var chip := db.chips[chipId];
      if chip.status == Retired {
        return;
      }
      var weight := Weight(kind);
      var healed := Healed(chip.lastSignal, now, weight);
      var score := Clamp(chip.score + healed + weight, 0.0, 100.0);
      var fails := chip.fails;
      if kind == SendFail {
        fails := fails + 1;
      } else if kind == Recovered {
        fails := 0;
      }
      db.chips := db.chips[chipId := chip.(score := score, fails := fails, lastSignal := Some(now))];
      ApplyPolicy(chipId, chip.status, score, fails, chip.cap);
    }

    method ApplyPolicy(id: ChipId, status: ChipStatus, score: real, fails: nat, cap: int)
      requires id in db.chips
      modifies db
      ensures var o := Enforce(old(db.chips)[id], Judge(status, score, fails), cap);
        db.chips == old(db.chips)[id := o.chip] && db.control == old(db.control) + ToCommands(o.commands, id)
    {
      var row := db.chips[id];
      if score < RETIRE_THRESHOLD || fails >= MAX_CONSEC_FAILS {
        db.chips := db.chips[id := row.(status := Retired)];
        db.control := db.control + [Command(Retire, id)];
      } else if score < COOLDOWN_THRESHOLD {
        if status != Cooldown {
          db.chips := db.chips[id := row.(status := Cooldown)];
          db.control := db.control + [Command(Stop, id)];
        }
      } else if score < SOFT_THRESHOLD {
        var newCap := if cap / 2 < 1 then 1 else cap / 2;
        if newCap < cap {
          db.chips := db.chips[id := row.(cap := newCap)];
        }
      } else if status == Cooldown {
        Recover(id);
      }
    }

    method Recover(id: ChipId)
      requires id in db.chips
      modifies db
      ensures var o := Enforce(old(db.chips)[id], RecoverIt, old(db.chips)[id].cap);
        db.chips == old(db.chips)[id := o.chip] && db.control == old(db.control) + [Command(Start, id)]
    {
      db.chips := db.chips[id := db.chips[id].(status := Warming, cap := COOLDOWN_RAMP_CAP, fails := 0)];
      db.control := db.control + [Command(Start, id)];
    }

    /** The query of `sweepCooldowns`: the silent cooled-down rows in table order, with their scores. */
    method FindSilent(order: seq<ChipId>, now: int) returns (found: seq<(ChipId, real)>)
      ensures |found| == |Selected(db.chips, order, now)|
      ensures forall i :: 0 <= i < |found| ==> ReadOf(db.chips, found[i], Selected(db.chips, order, now)[i])
    {
      found := [];
      var k := 0;
      while k < |order|
        invariant k <= |order|
        invariant |found| == |Selected(db.chips, order[..k], now)|
        invariant forall i :: 0 <= i < |found| ==> ReadOf(db.chips, found[i], Selected(db.chips, order[..k], now)[i])
      {
        if order[k] in db.chips && Sweepable(db.chips[order[k]], now) {
          found := found + [(order[k], db.chips[order[k]].score)];
        }
        assert order[..k + 1][..k] == order[..k];
        k := k + 1;
      }
      assert order[..k] == order;
    }

    /** `sweepCooldowns`: read the silent cooled-down rows, then lift them one by one. */
    method SweepCooldowns(order: seq<ChipId>, now: int)
      requires Distinct(order)
      modifies db
      ensures var ids := Selected(old(db.chips), order, now);
        && db.chips == SweptChips(old(db.chips), ids, now)
        && db.control == old(db.control) + seq(|ids|, i requires 0 <= i < |ids| => Command(Start, ids[i]))
    {
      ghost var was, sent, ids := db.chips, db.control, Selected(db.chips, order, now);
      SelectedDistinct(was, order, now);
      var found := FindSilent(order, now);
      var j := 0;
      while j < |found|
        invariant j <= |found|
        invariant db.chips == SweptChips(was, ids[..j], now)
        invariant db.control == sent + seq(j, i requires 0 <= i < j => Command(Start, ids[i]))
      {
        var id, score := found[j].0, Clamp(found[j].1 + SWEEP_BONUS, SOFT_THRESHOLD, 100.0);
        assert ReadOf(was, found[j], ids[j]) && id !in ids[..j];
        db.chips := db.chips[id := db.chips[id].(score := score, lastSignal := Some(now))];
        Recover(id);
        assert ids[..j + 1] == ids[..j] + [id];
        j := j + 1;
      }
      assert ids[..j] == ids;
    }
  }
}
