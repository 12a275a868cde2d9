/**
 Every writer of chip status together with the worker that acts on it: the health monitor, manual control
 and registration (apps/core/src/chips/chips.service.ts), the daily reset, pairing, and the Supervisor's
 session map fed by the CONTROL queue (apps/session-worker/src/supervisor/supervisor.ts). Each core
 operation is one step with its enqueue; commands are consumed one at a time, first in first out.
 */
module Fleet {
  import opened Prelude
  import opened Shared
  import opened HealthMonitor
  import Ramp

  datatype Fleet = Fleet(
    chips: map<ChipId, Chip>,
    control: seq<Command>,
    sessions: set<ChipId>,
    recovering: seq<ChipId>)

  datatype Event =
    | Signal(chip: ChipId, kind: SignalKind, now: int)
    | Sweep(order: seq<ChipId>, now: int)
    | Manual(chip: ChipId, command: ControlType)
    | Register(chip: ChipId)
    | Connected(chip: ChipId, now: int)
    | DailyReset(chip: ChipId, curve: seq<int>, activeAfter: int, midnight: int, now: int)
    | Configure(chip: ChipId, rampDay: int, cap: int)
    | Deliver(startOk: bool)
    | Boot(rows: seq<ChipId>)
    | RecoverNext(startOk: bool)

  // ---------------------------------------------------------------- what each writer does to a row

  /** `sendControl`: the status a manual command leaves. PAIR goes through `pair`, which leaves it alone. */
  function Controlled(status: ChipStatus, command: ControlType): ChipStatus {
    match command
    case Stop => if status == Retired then Retired else Paused
    case Retire => Retired
    case Start => if status == Paused || status == Cooldown then Warming else status
    case Pair => status
  }

  /** `create` on a row that exists: only a retired one is taken back. */
  function Reregistered(c: Chip): Chip {
    if c.status == Retired then c.(status := New, rampDay := 0, cap := 0, sent := 0, score := 100.0, fails := 0) else c
  }

  /** The CONNECTED branch of `publishPairState`. */
  function OnConnected(c: Chip, now: int): Chip {
    (if c.status == New then c.(status := Warming, rampDay := 1, cap := 5, lastReset := Some(now)) else c)
    .(lastSignal := Some(now))
  }

  function Only<T>(s: seq<T>, p: T -> bool): seq<T> {
    if s == [] then [] else Only(s[..|s| - 1], p) + (if p(s[|s| - 1]) then [s[|s| - 1]] else [])
  }

  function Recoverable(chips: map<ChipId, Chip>): ChipId -> bool {
    id => id in chips && (chips[id].status == Active || chips[id].status == Warming)
  }

  // ---------------------------------------------------------------- the worker's session map

  /** `startSession`: keeps a session it has, and starts none for a chip unknown or retired. */
  function Starts(chips: map<ChipId, Chip>, sessions: set<ChipId>, id: ChipId, ok: bool): set<ChipId> {
    if id in sessions || id !in chips || chips[id].status == Retired || !ok then sessions else sessions + {id}
  }

  /** `onControl`. */
  function Obeys(chips: map<ChipId, Chip>, sessions: set<ChipId>, c: Command, ok: bool): set<ChipId> {
    match c.kind
    case Pair | Start => Starts(chips, sessions, c.chip, ok)
    case Stop | Retire => sessions - {c.chip}
  }

  function Put(f: Fleet, id: ChipId, o: Outcome): Fleet {
    f.(chips := f.chips[id := o.chip], control := f.control + ToCommands(o.commands, id))
  }

  function Apply(f: Fleet, e: Event): Fleet {
    match e
    case Signal(id, kind, now) => if id in f.chips then Put(f, id, Process(f.chips[id], kind, now)) else f
    case Sweep(order, now) =>
      var ids := Selected(f.chips, order, now);
      f.(chips := SweptChips(f.chips, ids, now),
         control := f.control + seq(|ids|, i requires 0 <= i < |ids| => Command(Start, ids[i])))
    case Manual(id, command) =>
      if id in f.chips
      then Put(f, id, Outcome(f.chips[id].(status := Controlled(f.chips[id].status, command)), [command]))
      else f
    case Register(id) => f.(chips := f.chips[id := if id in f.chips then Reregistered(f.chips[id]) else FRESH_CHIP])
    case Connected(id, now) => if id in f.chips then f.(chips := f.chips[id := OnConnected(f.chips[id], now)]) else f
    case DailyReset(id, curve, activeAfter, midnight, now) =>
      if id in f.chips then f.(chips := f.chips[id := Ramp.ResetChip(f.chips[id], curve, activeAfter, midnight, now)]) else f
    case Configure(id, rampDay, cap) =>
      if id in f.chips then f.(chips := f.chips[id := f.chips[id].(rampDay := rampDay, cap := cap)]) else f
    case Deliver(ok) =>
      if f.control == [] then f
      else f.(control := f.control[1..], sessions := Obeys(f.chips, f.sessions, f.control[0], ok))
    case Boot(rows) => f.(sessions := {}, recovering := Only(rows, Recoverable(f.chips)))
    case RecoverNext(ok) =>
      if f.recovering == [] then f
      else f.(recovering := f.recovering[1..], sessions := Starts(f.chips, f.sessions, f.recovering[0], ok))
  }

  function Run(f: Fleet, es: seq<Event>): Fleet
    decreases |es|
  {
    if es == [] then f else Run(Apply(f, es[0]), es[1..])
  }

  /** A system with no chips yet. */
  const EMPTY := Fleet(map[], [], {}, [])

  // ---------------------------------------------------------------- the lifecycle invariant

  ghost predicate AllLively(f: Fleet) {
    forall id :: id in f.chips ==> Lively(f.chips[id])
  }

  lemma ApplyKeepsLively(f: Fleet, e: Event)
    requires AllLively(f)
    ensures AllLively(Apply(f, e))
  {
    match e
    case Signal(id, kind, now) => if id in f.chips { ProcessKeepsLively(f.chips[id], kind, now); }
    case Sweep(order, now) =>
      forall id | id in f.chips && id in Selected(f.chips, order, now) ensures Lively(SweepChip(f.chips[id], now).chip) {
        SelectedExactly(f.chips, order, now);
        SweepKeepsLively(f.chips[id], now);
      }
    case _ =>
  }

  lemma {:induction false} RunKeepsLively(f: Fleet, es: seq<Event>)
    requires AllLively(f)
    ensures AllLively(Run(f, es))
    decreases |es|
  {
    if es != [] {
      ApplyKeepsLively(f, es[0]);
      RunKeepsLively(Apply(f, es[0]), es[1..]);
    }
  }

  /** In every run from the empty system, every chip is lively. */
  lemma LifecycleHolds(es: seq<Event>, id: ChipId)
    requires id in Run(EMPTY, es).chips
    ensures Lively(Run(EMPTY, es).chips[id])
  {
    RunKeepsLively(EMPTY, es);
  }

  /** No chip is lost, and only registering it again takes a chip out of RETIRED. */
  lemma RetiredIsTerminal(f: Fleet, e: Event, id: ChipId)
    requires id in f.chips && f.chips[id].status == Retired
    ensures id in Apply(f, e).chips
    ensures Apply(f, e).chips[id].status == if e == Register(id) then New else Retired
  {
    if e.Sweep? {
      SelectedExactly(f.chips, e.order, e.now);
    }
  }

  /**
   A cooldown cannot become a dead end: in any run, a sweep over the whole table leaves no chip cooling
   down that has been silent for the full hour, and each one it lifts is WARMING at 70 or more.
   */
  lemma SweepLiftsEverySilentChip(es: seq<Event>, order: seq<ChipId>, now: int, id: ChipId)
    requires var f := Run(EMPTY, es);
      id in f.chips && id in order && f.chips[id].status == Cooldown
    ensures var f := Run(EMPTY, es);
      var c, c' := f.chips[id], Apply(f, Sweep(order, now)).chips[id];
      c.lastSignal.Some? &&
      if c.lastSignal.value < now - COOLDOWN_MINUTES * 60_000
      then c'.status == Warming && c'.score >= SOFT_THRESHOLD && c'.lastSignal == Some(now)
           && Command(Start, id) in Apply(f, Sweep(order, now)).control
      else c' == c
  {
    var f := Run(EMPTY, es);
    LifecycleHolds(es, id);
    SelectedExactly(f.chips, order, now);
    var ids := Selected(f.chips, order, now);
    if id in ids {
      var i: nat :| i < |ids| && ids[i] == id;
      assert Apply(f, Sweep(order, now)).control[|f.control| + i] == Command(Start, id);
    }
  }

  // ---------------------------------------------------------------- the retirement bound

  function BadSignalTo(id: ChipId): Event -> bool {
    (e: Event) => e.Signal? && e.chip == id && Weight(e.kind) < 0.0
  }

  function SendFailTo(id: ChipId): Event -> bool {
    (e: Event) => e.Signal? && e.chip == id && e.kind == SendFail
  }

  /** What a bad signal to `id` takes off its score. */
  function DamageBy(e: Event, id: ChipId): real {
    if BadSignalTo(id)(e) then -Weight(e.kind) else 0.0
  }

  function Damage(es: seq<Event>, id: ChipId): real {
    if es == [] then 0.0 else DamageBy(es[0], id) + Damage(es[1..], id)
  }

  /** Neither relief of `id` nor its registration anew. */
  predicate NoRelief(e: Event, id: ChipId) {
    && (e.Signal? && e.chip == id ==> e.kind != Recovered)
    && (e.Sweep? ==> id !in e.order)
    && e != Register(id)
  }

  lemma StepHurts(f: Fleet, e: Event, id: ChipId)
    requires AllLively(f) && id in f.chips && NoRelief(e, id)
    ensures id in Apply(f, e).chips
    ensures var c, c' := f.chips[id], Apply(f, e).chips[id];
      c'.status == Retired ||
      (&& c.status != Retired
       && c'.score <= c.score - DamageBy(e, id)
       && c'.fails >= c.fails + (if SendFailTo(id)(e) then 1 else 0))
  {
    if f.chips[id].status == Retired {
      RetiredIsTerminal(f, e, id);
    } else if e.Signal? && e.chip == id {
      BadSignalHurts(f.chips[id], e.kind, e.now);
    } else if e.Sweep? {
      SelectedExactly(f.chips, e.order, e.now);
    }
  }

  lemma {:induction false} RunHurts(f: Fleet, es: seq<Event>, id: ChipId)
    requires AllLively(f) && id in f.chips
    requires forall e :: e in es ==> NoRelief(e, id)
    ensures id in Run(f, es).chips
    ensures var c, c' := f.chips[id], Run(f, es).chips[id];
      c'.status == Retired ||
      (&& c'.score <= c.score - Damage(es, id)
       && c'.fails >= c.fails + Count(es, SendFailTo(id)))
    decreases |es|
  {
    if es != [] {
      var head, rest := [es[0]], es[1..];
      assert head + rest == es && head == [] + [es[0]];
      assert es[0] in es;
      CountConcat(head, rest, SendFailTo(id));
      CountAppend([], es[0], SendFailTo(id));
      StepHurts(f, es[0], id);
      ApplyKeepsLively(f, es[0]);
      RunHurts(Apply(f, es[0]), rest, id);
      if Apply(f, es[0]).chips[id].status == Retired {
        StaysRetired(Apply(f, es[0]), rest, id);
      }
    }
  }

  lemma {:induction false} StaysRetired(f: Fleet, es: seq<Event>, id: ChipId)
    requires id in f.chips && f.chips[id].status == Retired
    requires forall e :: e in es ==> NoRelief(e, id)
    ensures id in Run(f, es).chips && Run(f, es).chips[id].status == Retired
    decreases |es|
  {
    if es != [] {
      assert NoRelief(es[0], id);
      RetiredIsTerminal(f, es[0], id);
      StaysRetired(Apply(f, es[0]), es[1..], id);
    }
  }

  /**
   Retirement bound: bad signals to a chip whose weights add up to more than 70, or five failed sends, retire it,
   whatever else happens to it or to others among them, short of a RECOVERED signal, a sweep of it or its
   registration anew.
   */
  lemma RetirementBound(before: seq<Event>, es: seq<Event>, id: ChipId)
    requires id in Run(EMPTY, before).chips
    requires forall e :: e in es ==> NoRelief(e, id)
    requires Damage(es, id) > 70.0 || Count(es, SendFailTo(id)) >= 5
    ensures var f := Run(Run(EMPTY, before), es); id in f.chips && f.chips[id].status == Retired
  {
    var f := Run(EMPTY, before);
    RunKeepsLively(EMPTY, before);
    RunKeepsLively(f, es);
    RunHurts(f, es, id);
    if f.chips[id].status == Retired {
      StaysRetired(f, es, id);
    }
  }

  lemma {:induction false} FourPointsEach(es: seq<Event>, id: ChipId)
    ensures Damage(es, id) >= 4.0 * Count(es, BadSignalTo(id)) as real
  {
    if es != [] {
      var head, rest := [es[0]], es[1..];
      assert head + rest == es && head == [] + [es[0]];
      CountConcat(head, rest, BadSignalTo(id));
      CountAppend([], es[0], BadSignalTo(id));
      FourPointsEach(rest, id);
    }
  }

  /** So eighteen of any kind are enough. */
  lemma EighteenSuffice(before: seq<Event>, es: seq<Event>, id: ChipId)
    requires id in Run(EMPTY, before).chips
    requires forall e :: e in es ==> NoRelief(e, id)
    requires Count(es, BadSignalTo(id)) >= 18
    ensures var f := Run(Run(EMPTY, before), es); id in f.chips && f.chips[id].status == Retired
  {
    FourPointsEach(es, id);
    RetirementBound(before, es, id);
  }

  function NoReads(c: Chip, n: nat, now: int): Chip {
    if n == 0 then c else Process(NoReads(c, n - 1, now), NoRead, now).chip
  }

  lemma NoReadCostsFour(c: Chip, now: int)
    requires c.status != Retired && 30.0 <= c.score <= 100.0 && c.fails == 0
    ensures var c' := Process(c, NoRead, now).chip;
      c'.score == c.score - 4.0 && c'.fails == 0 && (c'.status == Retired <==> c.score < 34.0)
  {
  }

  /** The bound is tight: a fresh chip survives seventeen bad signals, and the eighteenth retires it. */
  lemma {:induction false} SeventeenDoNotSuffice(n: nat, now: int)
    requires n <= 18
    ensures var c := NoReads(FRESH_CHIP, n, now);
      c.score == 100.0 - 4.0 * n as real && c.fails == 0 && (c.status == Retired <==> n == 18)
  {
    if n > 0 {
      SeventeenDoNotSuffice(n - 1, now);
      NoReadCostsFour(NoReads(FRESH_CHIP, n - 1, now), now);
    }
  }

  // ---------------------------------------------------------------- recovery signals

  /**
   RECOVERED in any run, wherever it is taken and the clock not running backwards: it never takes a point, never
   retires and clears the failures in a row. It does cool a chip down, when and only when the healed score is
   still below 50 (or a cooldown is not lifted below 70).
   */
  lemma RecoveredNeverHurts(before: seq<Event>, id: ChipId, now: int)
    requires var f := Run(EMPTY, before);
      id in f.chips && f.chips[id].status != Retired
      && (f.chips[id].lastSignal.Some? ==> f.chips[id].lastSignal.value <= now)
    ensures var f := Run(EMPTY, before);
      var c, c' := f.chips[id], Apply(f, Signal(id, Recovered, now)).chips[id];
      && c.score <= c'.score && (c'.score == 100.0 || c'.score >= c.score + 8.0)
      && c'.fails == 0 && c'.status != Retired
      && (c'.status == Cooldown <==> c'.score < 50.0 || (c.status == Cooldown && c'.score < 70.0))
      && (c'.status != Cooldown && c.status != Cooldown ==> c'.status == c.status)
      && (c'.status != Cooldown && c.status == Cooldown ==> c'.status == Warming)
  {
    LifecycleHolds(before, id);
    var c := Run(EMPTY, before).chips[id];
    RecoveredHeals(c, now);
    PolicyInNumbers(c, Recovered, now);
  }

  /** The failed sends to `id` since its last RECOVERED. */
  function SendFailsInARow(es: seq<Event>, id: ChipId): nat {
    if es == [] then 0
    else
      var e, before := es[|es| - 1], SendFailsInARow(es[..|es| - 1], id);
      if e.Signal? && e.chip == id && e.kind == Recovered then 0
      else if e.Signal? && e.chip == id && e.kind == SendFail then before + 1
      else before
  }

  lemma {:induction false} RunAppend(f: Fleet, es: seq<Event>, e: Event)
    ensures Run(f, es + [e]) == Apply(Run(f, es), e)
    decreases |es|
  {
    if es == [] {
      assert es + [e] == [e] && [e][1..] == [];
    } else {
      assert (es + [e])[1..] == es[1..] + [e];
      RunAppend(Apply(f, es[0]), es[1..], e);
    }
  }

  /**
   A RECOVERED splits a row of failures: in every run a chip that is not retired counts at most the failed sends
   since its last RECOVERED.
   */
  lemma {:induction false} FailuresAreInARow(es: seq<Event>, id: ChipId)
    ensures var f := Run(EMPTY, es);
      id in f.chips && f.chips[id].status != Retired ==> f.chips[id].fails <= SendFailsInARow(es, id)
  {
    if es != [] {
      var n := |es| - 1;
      FailuresAreInARow(es[..n], id);
      RunAppend(EMPTY, es[..n], es[n]);
      assert es == es[..n] + [es[n]];
      var f := Run(EMPTY, es[..n]);
      if es[n].Sweep? {
        SelectedExactly(f.chips, es[n].order, es[n].now);
      } else if id in f.chips && f.chips[id].status == Retired && es[n] != Register(id) {
        RetiredIsTerminal(f, es[n], id);
      }
    }
  }

  // ---------------------------------------------------------------- the kill switch

  /** Statuses for which no session may exist. */
  predicate Benched(status: ChipStatus) {
    status == Paused || status == Cooldown || status == Retired
  }

  predicate Halts(c: Command, id: ChipId) {
    c.chip == id && (c.kind == Stop || c.kind == Retire)
  }

  /** Whether chip `id`, at this status, has a session after `c` if every start succeeds. */
  function After(c: Command, id: ChipId, status: ChipStatus, present: bool): bool {
    if c.chip != id then present
    else if Halts(c, id) then false
    else present || status != Retired
  }

  /** The same once the whole queue is drained. */
  function Ends(queue: seq<Command>, id: ChipId, status: ChipStatus, present: bool): bool {
    if queue == [] then present
    else After(queue[|queue| - 1], id, status, Ends(queue[..|queue| - 1], id, status, present))
  }

  ghost predicate SafeAt(f: Fleet, id: ChipId) {
    id in f.chips && Benched(f.chips[id].status) ==> !Ends(f.control, id, f.chips[id].status, id in f.sessions)
  }

  /** Draining the queue as it is would leave no session where none may be. */
  ghost predicate Safe(f: Fleet) {
    (forall id :: SafeAt(f, id)) && f.sessions <= f.chips.Keys
  }

  lemma {:induction false} EndsConcat(a: seq<Command>, b: seq<Command>, id: ChipId, status: ChipStatus, present: bool)
    ensures Ends(a + b, id, status, present) == Ends(b, id, status, Ends(a, id, status, present))
  {
    if b == [] {
      assert a + b == a;
    } else {
      var n := |b| - 1;
      assert (a + b)[..|a| + n] == a + b[..n];
      EndsConcat(a, b[..n], id, status, present);
    }
  }

  lemma {:induction false} OthersDoNotMatter(queue: seq<Command>, id: ChipId, status: ChipStatus, present: bool)
    requires forall c :: c in queue ==> c.chip != id
    ensures Ends(queue, id, status, present) == present
  {
    if queue != [] {
      OthersDoNotMatter(queue[..|queue| - 1], id, status, present);
    }
  }

  lemma {:induction false} EndsMonotone(queue: seq<Command>, id: ChipId, status: ChipStatus)
    ensures Ends(queue, id, status, false) ==> Ends(queue, id, status, true)
  {
    if queue != [] {
      EndsMonotone(queue[..|queue| - 1], id, status);
    }
  }

  /** A chip not retired and present stays present exactly when nothing queued halts it or a start follows. */
  lemma {:induction false} HaltsDecide(queue: seq<Command>, id: ChipId, status: ChipStatus)
    requires status != Retired
    ensures (exists c :: c in queue && Halts(c, id)) ==> Ends(queue, id, status, true) == Ends(queue, id, status, false)
    ensures !(exists c :: c in queue && Halts(c, id)) ==> Ends(queue, id, status, true)
  {
    if queue != [] {
      var n := |queue| - 1;
      HaltsDecide(queue[..n], id, status);
      assert queue == queue[..n] + [queue[n]];
    }
  }

  // ---------------------------------------------------------------- which steps keep the fleet safe

  predicate OnHold(f: Fleet, id: ChipId) {
    id in f.chips && (f.chips[id].status == Paused || f.chips[id].status == Cooldown)
  }

  /**
   The two branches that can start a session behind the core's back: pairing a chip on hold, and boot
   recovery reaching a chip that was put on hold after the recovery list was read, its STOP already consumed.
   */
  predicate Guarded(f: Fleet, e: Event) {
    match e
    case Manual(id, Pair) => !OnHold(f, id)
    case RecoverNext(true) =>
      f.recovering != [] ==>
        var id := f.recovering[0];
        id in f.sessions || !OnHold(f, id) || exists c :: c in f.control && Halts(c, id)
    case _ => true
  }

  lemma PutIsSafe(f: Fleet, id: ChipId, o: Outcome)
    requires Safe(f) && id in f.chips && |o.commands| <= 1
    requires Benched(o.chip.status) ==>
      || (o.commands != [] && (o.commands[0] == Stop || o.commands[0] == Retire))
      || (o.chip.status == f.chips[id].status && (o.commands == [] || o.chip.status == Retired))
    ensures Safe(Put(f, id, o))
  {
    var f', sent := Put(f, id, o), ToCommands(o.commands, id);
    forall i ensures SafeAt(f', i) {
      assert SafeAt(f, i);
      if i in f.chips {
        EndsConcat(f.control, sent, i, f'.chips[i].status, i in f.sessions);
        if i != id {
          OthersDoNotMatter(sent, i, f'.chips[i].status, Ends(f.control, i, f'.chips[i].status, i in f.sessions));
        } else if |sent| == 1 {
          assert sent[..0] == [];
        }
      }
    }
  }

  lemma SweepIsSafe(f: Fleet, order: seq<ChipId>, now: int)
    requires Safe(f)
    ensures Safe(Apply(f, Sweep(order, now)))
  {
    var ids, f' := Selected(f.chips, order, now), Apply(f, Sweep(order, now));
    var sent := seq(|ids|, i requires 0 <= i < |ids| => Command(Start, ids[i]));
    SelectedExactly(f.chips, order, now);
    forall id ensures SafeAt(f', id) {
      assert SafeAt(f, id);
      if id in f.chips && id !in ids {
        EndsConcat(f.control, sent, id, f.chips[id].status, id in f.sessions);
        OthersDoNotMatter(sent, id, f.chips[id].status, Ends(f.control, id, f.chips[id].status, id in f.sessions));
      }
    }
  }

  lemma DeliverIsSafe(f: Fleet, ok: bool)
    requires Safe(f)
    ensures Safe(Apply(f, Deliver(ok)))
  {
    if f.control != [] {
      var f', c, rest := Apply(f, Deliver(ok)), f.control[0], f.control[1..];
      assert [c] + rest == f.control;
      forall id ensures SafeAt(f', id) {
        assert SafeAt(f, id);
        if id in f.chips {
          var status := f.chips[id].status;
          EndsConcat([c], rest, id, status, id in f.sessions);
          assert [c][..0] == [];
          assert Ends([c], id, status, id in f.sessions) == After(c, id, status, id in f.sessions);
          EndsMonotone(rest, id, status);
        }
      }
    }
  }

  lemma RecoverIsSafeExactlyWhenGuarded(f: Fleet, ok: bool)
    requires Safe(f)
    ensures Safe(Apply(f, RecoverNext(ok))) <==> Guarded(f, RecoverNext(ok))
  {
    if f.recovering != [] {
      var f', id := Apply(f, RecoverNext(ok)), f.recovering[0];
      forall i | i != id ensures SafeAt(f', i) {
        assert SafeAt(f, i);
      }
      assert SafeAt(f, id);
      if id in f.chips && f.chips[id].status != Retired {
        HaltsDecide(f.control, id, f.chips[id].status);
      }
      assert SafeAt(f', id) <==> Guarded(f, RecoverNext(ok));
    }
  }

  lemma PairIsSafeExactlyWhenGuarded(f: Fleet, id: ChipId)
    requires Safe(f)
    ensures Safe(Apply(f, Manual(id, Pair))) <==> Guarded(f, Manual(id, Pair))
  {
    if id in f.chips {
      var c := f.chips[id];
      var o := Outcome(c.(status := Controlled(c.status, Pair)), [Pair]);
      if OnHold(f, id) {
        var f' := Apply(f, Manual(id, Pair));
        EndsConcat(f.control, [Command(Pair, id)], id, c.status, id in f.sessions);
        assert [Command(Pair, id)][..0] == [] && ToCommands([Pair], id) == [Command(Pair, id)];
        assert !SafeAt(f', id);
      } else {
        PutIsSafe(f, id, o);
      }
    }
  }

  /** A step from a safe state leaves a safe state exactly when it is guarded. */
  lemma SafeExactlyWhenGuarded(f: Fleet, e: Event)
    requires Safe(f)
    ensures Safe(Apply(f, e)) <==> Guarded(f, e)
  {
    match e
    case Signal(id, kind, now) =>
      if id in f.chips {
        CommandsFollowStatus(f.chips[id], kind, now);
        PutIsSafe(f, id, Process(f.chips[id], kind, now));
      }
    case Sweep(order, now) => SweepIsSafe(f, order, now);
    case Manual(id, command) =>
      if command == Pair {
        PairIsSafeExactlyWhenGuarded(f, id);
      } else if id in f.chips {
        PutIsSafe(f, id, Outcome(f.chips[id].(status := Controlled(f.chips[id].status, command)), [command]));
      }
    case Deliver(ok) => DeliverIsSafe(f, ok);
    case RecoverNext(ok) => RecoverIsSafeExactlyWhenGuarded(f, ok);
    case _ =>
      var f' := Apply(f, e);
      forall id ensures SafeAt(f', id) {
        assert SafeAt(f, id);
        if id in f.chips {
          EndsMonotone(f.control, id, f.chips[id].status);
        }
      }
  }

  ghost predicate AlwaysSafe(f: Fleet, es: seq<Event>)
    decreases |es|
  {
    Safe(f) && (es != [] ==> AlwaysSafe(Apply(f, es[0]), es[1..]))
  }

  ghost predicate AlwaysGuarded(f: Fleet, es: seq<Event>)
    decreases |es|
  {
    es != [] ==> Guarded(f, es[0]) && AlwaysGuarded(Apply(f, es[0]), es[1..])
  }

  /** Over whole runs: the fleet is safe throughout exactly when every step is guarded where it is taken. */
  lemma {:induction false} KillSwitchExactly(f: Fleet, es: seq<Event>)
    requires Safe(f)
    ensures AlwaysSafe(f, es) <==> AlwaysGuarded(f, es)
    decreases |es|
  {
    if es != [] {
      SafeExactlyWhenGuarded(f, es[0]);
      if Guarded(f, es[0]) {
        KillSwitchExactly(Apply(f, es[0]), es[1..]);
      }
    }
  }

  lemma {:induction false} SafeAtTheEnd(f: Fleet, es: seq<Event>)
    requires AlwaysSafe(f, es)
    ensures Safe(Run(f, es))
    decreases |es|
  {
    if es != [] {
      SafeAtTheEnd(Apply(f, es[0]), es[1..]);
    }
  }

  /** The kill switch, end to end: with the queue drained, no paused, cooled-down or retired chip has a session. */
  lemma KillSwitch(es: seq<Event>, id: ChipId)
    requires AlwaysGuarded(EMPTY, es)
    requires var f := Run(EMPTY, es); f.control == [] && id in f.sessions
    ensures var f := Run(EMPTY, es); id in f.chips && !Benched(f.chips[id].status)
  {
    KillSwitchExactly(EMPTY, es);
    SafeAtTheEnd(EMPTY, es);
    assert SafeAt(Run(EMPTY, es), id);
  }

  /** The worker consumes all that is queued, every start succeeding. */
  function Drained(f: Fleet): Fleet
    decreases |f.control|
  {
    if f.control == [] then f else Drained(Apply(f, Deliver(true)))
  }

  lemma {:induction false} DrainingEnds(f: Fleet, id: ChipId)
    requires id in f.chips
    ensures Drained(f).chips == f.chips && Drained(f).control == []
    ensures id in Drained(f).sessions <==> Ends(f.control, id, f.chips[id].status, id in f.sessions)
    decreases |f.control|
  {
    if f.control != [] {
      var c, rest, status, present := f.control[0], f.control[1..], f.chips[id].status, id in f.sessions;
      DrainingEnds(Apply(f, Deliver(true)), id);
      assert [c] + rest == f.control && [c][..0] == [];
      EndsConcat([c], rest, id, status, present);
      assert Ends([c], id, status, present) == After(c, id, status, present);
    }
  }

  /** At every point of every guarded run: consuming what is queued then leaves no session where none may be. */
  lemma DrainingIsSafe(es: seq<Event>, id: ChipId)
    requires AlwaysGuarded(EMPTY, es) && id in Run(EMPTY, es).chips && Benched(Run(EMPTY, es).chips[id].status)
    ensures id !in Drained(Run(EMPTY, es)).sessions
  {
    KillSwitchExactly(EMPTY, es);
    SafeAtTheEnd(EMPTY, es);
    assert SafeAt(Run(EMPTY, es), id);
    DrainingEnds(Run(EMPTY, es), id);
  }

  /** Whatever the state and the step, no session is ever started for a retired chip. */
  lemma NeverStartsRetired(f: Fleet, e: Event, id: ChipId)
    requires id !in f.sessions && id in Apply(f, e).sessions
    ensures id in f.chips && f.chips[id].status != Retired
    ensures e.Deliver? || e.RecoverNext?
  {
  }

  /** Two chips paired and warming. */
  function TwoWarming(a: ChipId, b: ChipId): Fleet {
    var c := OnConnected(FRESH_CHIP, 0);
    Fleet(map[a := c, b := c], [], {}, [])
  }

  lemma TwoArePaired(a: ChipId, b: ChipId)
    requires a != b
    ensures Run(EMPTY, [Register(a), Register(b), Connected(a, 0), Connected(b, 0)]) == TwoWarming(a, b)
  {
    var c := OnConnected(FRESH_CHIP, 0);
    var es3, es2 := [Connected(b, 0)], [Connected(a, 0), Connected(b, 0)];
    var es1 := [Register(b), Connected(a, 0), Connected(b, 0)];
    var f1 := Apply(EMPTY, Register(a));
    var f2 := Apply(f1, Register(b));
    assert f2.chips == map[a := FRESH_CHIP, b := FRESH_CHIP];
    var f3 := Apply(f2, Connected(a, 0));
    assert f3.chips == map[a := c, b := FRESH_CHIP];
    assert Apply(f3, Connected(b, 0)) == TwoWarming(a, b);
    assert es3[1..] == [] && es2[1..] == es3 && es1[1..] == es2;
    assert Run(f3, es3) == TwoWarming(a, b) && Run(f2, es2) == TwoWarming(a, b) && Run(f1, es1) == TwoWarming(a, b);
    assert [Register(a), Register(b), Connected(a, 0), Connected(b, 0)][1..] == es1;
  }

  lemma OnlyBoth(x: ChipId, y: ChipId, p: ChipId -> bool)
    requires p(x) && p(y)
    ensures Only([x, y], p) == [x, y]
  {
    assert [x, y][..1] == [x] && [x][..0] == [];
    assert Only([x], p) == [x];
  }

  lemma RunStep(f: Fleet, e: Event, rest: seq<Event>)
    ensures Run(f, [e] + rest) == Run(Apply(f, e), rest)
  {
    assert ([e] + rest)[1..] == rest;
  }

  lemma {:induction false} RunConcat(f: Fleet, a: seq<Event>, b: seq<Event>)
    ensures Run(f, a + b) == Run(Run(f, a), b)
    decreases |a|
  {
    if a == [] {
      assert a + b == b;
    } else {
      assert a + b == [a[0]] + (a[1..] + b);
      RunStep(f, a[0], a[1..] + b);
      RunConcat(Apply(f, a[0]), a[1..], b);
    }
  }

  /** The worker restarts, and reconnects one of the two. */
  lemma HalfRecovered(a: ChipId, b: ChipId)
    requires a != b
    ensures Run(TwoWarming(a, b), [Boot([a, b]), RecoverNext(true)])
         == TwoWarming(a, b).(sessions := {a}, recovering := [b])
  {
    var f := TwoWarming(a, b);
    OnlyBoth(a, b, Recoverable(f.chips));
    RunStep(f, Boot([a, b]), [RecoverNext(true)]);
    RunStep(Apply(f, Boot([a, b])), RecoverNext(true), []);
    assert [Boot([a, b])] + [RecoverNext(true)] == [Boot([a, b]), RecoverNext(true)];
    assert [RecoverNext(true)] + [] == [RecoverNext(true)];
  }

  /** Meanwhile the other is paused, its STOP consumed, and its turn comes. */
  lemma PausedTooEarly(a: ChipId, b: ChipId)
    requires a != b
    ensures
      var half := TwoWarming(a, b).(sessions := {a}, recovering := [b]);
      var f := Run(half, [Manual(b, Stop), Deliver(true), RecoverNext(true)]);
      f.control == [] && b in f.sessions && b in f.chips && f.chips[b].status == Paused
  {
    var f := TwoWarming(a, b).(sessions := {a}, recovering := [b]);
    var paused := f.chips[b := f.chips[b].(status := Paused)];
    assert Apply(f, Manual(b, Stop)) == Fleet(paused, [Command(Stop, b)], {a}, [b]);
    assert Apply(Fleet(paused, [Command(Stop, b)], {a}, [b]), Deliver(true)) == Fleet(paused, [], {a}, [b]);
    RunStep(f, Manual(b, Stop), [Deliver(true), RecoverNext(true)]);
    RunStep(Fleet(paused, [Command(Stop, b)], {a}, [b]), Deliver(true), [RecoverNext(true)]);
    RunStep(Fleet(paused, [], {a}, [b]), RecoverNext(true), []);
    assert [Manual(b, Stop)] + [Deliver(true), RecoverNext(true)] == [Manual(b, Stop), Deliver(true), RecoverNext(true)];
    assert [Deliver(true)] + [RecoverNext(true)] == [Deliver(true), RecoverNext(true)];
    assert [RecoverNext(true)] + [] == [RecoverNext(true)];
  }

  function PausedDuringRecovery(a: ChipId, b: ChipId): seq<Event> {
    [Register(a), Register(b), Connected(a, 0), Connected(b, 0)]
    + ([Boot([a, b]), RecoverNext(true)] + [Manual(b, Stop), Deliver(true), RecoverNext(true)])
  }

  /**
   Boot recovery does break the kill switch without its guard: the list is read once and worked off with
   pauses, so a chip paused meanwhile, its STOP consumed before its turn, gets a session all the same.
   */
  lemma RecoveryCanReviveAPausedChip(a: ChipId, b: ChipId)
    requires a != b
    ensures var f := Run(EMPTY, PausedDuringRecovery(a, b));
      f.control == [] && b in f.sessions && b in f.chips && f.chips[b].status == Paused
  {
    TwoArePaired(a, b);
    HalfRecovered(a, b);
    PausedTooEarly(a, b);
    var recovery, pause := [Boot([a, b]), RecoverNext(true)], [Manual(b, Stop), Deliver(true), RecoverNext(true)];
    RunConcat(EMPTY, [Register(a), Register(b), Connected(a, 0), Connected(b, 0)], recovery + pause);
    RunConcat(TwoWarming(a, b), recovery, pause);
  }

  // ---------------------------------------------------------------- how long a pause lasts

  predicate IsPaused(f: Fleet, id: ChipId) {
    id in f.chips && f.chips[id].status == Paused
  }

  /** Off by hand, or for good. */
  predicate IsOff(f: Fleet, id: ChipId) {
    id in f.chips && (f.chips[id].status == Paused || f.chips[id].status == Retired)
  }

  /** A signal that takes the score of a paused chip below the cooldown threshold and not below the retirement one. */
  predicate Cools(f: Fleet, e: Event, id: ChipId) {
    && e.Signal? && e.chip == id && IsPaused(f, id)
    && RETIRE_THRESHOLD <= NewScore(f.chips[id], e.kind, e.now) < COOLDOWN_THRESHOLD
    && NewFails(f.chips[id], e.kind) < MAX_CONSEC_FAILS
  }

  predicate ByHand(e: Event, id: ChipId) {
    e == Manual(id, Start) || e == Register(id)
  }

  lemma StepKeepsOffExactly(f: Fleet, e: Event, id: ChipId)
    requires IsOff(f, id) && !ByHand(e, id)
    ensures IsOff(Apply(f, e), id) <==> !Cools(f, e, id)
    ensures Cools(f, e, id) ==> Apply(f, e).chips[id].status == Cooldown
  {
    if e.Sweep? {
      SelectedExactly(f.chips, e.order, e.now);
    }
  }

  ghost predicate AlwaysOff(f: Fleet, es: seq<Event>, id: ChipId)
    decreases |es|
  {
    IsOff(f, id) && (es != [] ==> AlwaysOff(Apply(f, es[0]), es[1..], id))
  }

  ghost predicate NeverCools(f: Fleet, es: seq<Event>, id: ChipId)
    decreases |es|
  {
    es != [] ==> !Cools(f, es[0], id) && NeverCools(Apply(f, es[0]), es[1..], id)
  }

  /**
   A manual pause, over whole runs without a manual START: the chip stays off throughout exactly when no signal
   takes its score into the cooldown band. One that does turns the pause into a cooldown.
   */
  lemma {:induction false} PauseHoldsExactly(f: Fleet, es: seq<Event>, id: ChipId)
    requires IsOff(f, id) && forall e :: e in es ==> !ByHand(e, id)
    ensures AlwaysOff(f, es, id) <==> NeverCools(f, es, id)
    decreases |es|
  {
    if es != [] {
      assert es[0] in es;
      StepKeepsOffExactly(f, es[0], id);
      if !Cools(f, es[0], id) {
        PauseHoldsExactly(Apply(f, es[0]), es[1..], id);
      }
    }
  }

  /** And a cooldown ends by itself: an hour of silence later the sweep restarts the chip nobody has unpaused. */
  lemma PausedChipIsRestarted(f: Fleet, id: ChipId, kind: SignalKind, now: int, order: seq<ChipId>, later: int)
    requires IsPaused(f, id) && id in order && now < later - COOLDOWN_MINUTES * 60_000
    ensures var f' := Apply(Apply(f, Signal(id, kind, now)), Sweep(order, later));
      Cools(f, Signal(id, kind, now), id) ==>
        id in f'.chips && f'.chips[id].status == Warming && Command(Start, id) in f'.control
  {
    var f1 := Apply(f, Signal(id, kind, now));
    SelectedExactly(f1.chips, order, later);
    var ids := Selected(f1.chips, order, later);
    if id in ids {
      var i: nat :| i < |ids| && ids[i] == id;
      assert Apply(f1, Sweep(order, later)).control[|f1.control| + i] == Command(Start, id);
    }
  }

  /** `n` NO_READ signals at once. */
  function Unread(id: ChipId, n: nat): seq<Event> {
    if n == 0 then [] else [Signal(id, NoRead, 0)] + Unread(id, n - 1)
  }

  lemma {:induction false} UnreadWears(f: Fleet, id: ChipId, n: nat)
    requires id in f.chips && f.chips[id].status == Warming && f.chips[id].fails == 0
    requires 50.0 + 4.0 * n as real <= f.chips[id].score <= 100.0
    ensures var f' := Run(f, Unread(id, n));
      id in f'.chips && f'.chips[id].status == Warming && f'.chips[id].fails == 0
      && f'.chips[id].score == f.chips[id].score - 4.0 * n as real
    decreases n
  {
    if n > 0 {
      NoReadLeavesWarming(f.chips[id], 0);
      RunStep(f, Signal(id, NoRead, 0), Unread(id, n - 1));
      UnreadWears(Apply(f, Signal(id, NoRead, 0)), id, n - 1);
    }
  }

  lemma NoReadLeavesWarming(c: Chip, now: int)
    requires c.status == Warming && c.fails == 0 && 54.0 <= c.score <= 100.0
    ensures var c' := Process(c, NoRead, now).chip;
      c'.status == Warming && c'.fails == 0 && c'.score == c.score - 4.0
  {
  }

  /** A chip is paired, and twelve unread messages take it down to 52 points. */
  function WearingDown(id: ChipId): seq<Event> {
    [Register(id)] + ([Connected(id, 0)] + Unread(id, 12))
  }

  /** One more, an hour of silence, and a sweep. */
  function Lifting(id: ChipId): seq<Event> {
    [Signal(id, NoRead, 0)] + ([Sweep([id], 3_600_001)] + [])
  }

  lemma WornDown(id: ChipId)
    ensures var f := Run(EMPTY, WearingDown(id));
      id in f.chips && f.chips[id].status == Warming && f.chips[id].score == 52.0 && f.chips[id].fails == 0
  {
    var f1 := Apply(EMPTY, Register(id));
    var f2 := Apply(f1, Connected(id, 0));
    assert f2.chips == map[id := OnConnected(FRESH_CHIP, 0)];
    UnreadWears(f2, id, 12);
    RunStep(f1, Connected(id, 0), Unread(id, 12));
    RunStep(EMPTY, Register(id), [Connected(id, 0)] + Unread(id, 12));
  }

  lemma PauseIsLifted(f: Fleet, id: ChipId)
    requires id in f.chips && f.chips[id].status == Paused && f.chips[id].score == 52.0 && f.chips[id].fails == 0
    ensures var f' := Run(f, Lifting(id));
      id in f'.chips && f'.chips[id].status == Warming && Command(Start, id) in f'.control
  {
    var f1 := Apply(f, Signal(id, NoRead, 0));
    RunStep(f1, Sweep([id], 3_600_001), []);
    RunStep(f, Signal(id, NoRead, 0), [Sweep([id], 3_600_001)] + []);
    PausedChipIsRestarted(f, id, NoRead, 0, [id], 3_600_001);
  }

  /** The code can be given that: a chip is paused by hand, nobody starts it, and it ends WARMING with a START queued. */
  lemma PauseEndsByItself(id: ChipId)
    ensures var f := Run(EMPTY, WearingDown(id) + ([Manual(id, Stop)] + []));
      IsPaused(f, id) &&
      var f' := Run(f, Lifting(id));
      id in f'.chips && f'.chips[id].status == Warming && Command(Start, id) in f'.control
    ensures forall e :: e in Lifting(id) ==> !ByHand(e, id)
  {
    WornDown(id);
    var f := Run(EMPTY, WearingDown(id));
    RunConcat(EMPTY, WearingDown(id), [Manual(id, Stop)] + []);
    RunStep(f, Manual(id, Stop), []);
    PauseIsLifted(Apply(f, Manual(id, Stop)), id);
  }

  // ---------------------------------------------------------------- a restart that undoes itself

  lemma {:induction false} UnreadTakes(f: Fleet, id: ChipId, n: nat)
    requires id in f.chips && f.chips[id].status != Retired && f.chips[id].fails == 0
    requires 30.0 + 4.0 * n as real <= f.chips[id].score <= 100.0
    ensures var f' := Run(f, Unread(id, n));
      id in f'.chips && f'.chips[id].status != Retired && f'.chips[id].fails == 0
      && f'.chips[id].score == f.chips[id].score - 4.0 * n as real
    decreases n
  {
    if n > 0 {
      NoReadCostsFour(f.chips[id], 0);
      RunStep(f, Signal(id, NoRead, 0), Unread(id, n - 1));
      UnreadTakes(Apply(f, Signal(id, NoRead, 0)), id, n - 1);
    }
  }

  /** A chip is paired, worn down to 40 points and below, and started again by hand. */
  function StartedByHand(id: ChipId): seq<Event> {
    [Register(id)] + ([Connected(id, 0)] + (Unread(id, 15) + ([Signal(id, NoRead, 0)] + ([Manual(id, Start)] + []))))
  }

  lemma CooledAndStarted(f: Fleet, id: ChipId)
    requires id in f.chips && f.chips[id].status != Retired && f.chips[id].fails == 0 && f.chips[id].score == 40.0
    requires f.chips[id].lastSignal == Some(0)
    ensures var f' := Run(f, [Signal(id, NoRead, 0)] + ([Manual(id, Start)] + []));
      id in f'.chips && f'.chips[id].status == Warming && f'.chips[id].score == 36.0 && f'.chips[id].fails == 0
      && f'.chips[id].lastSignal == Some(0)
  {
    var f1 := Apply(f, Signal(id, NoRead, 0));
    RunStep(f, Signal(id, NoRead, 0), [Manual(id, Start)] + []);
    RunStep(f1, Manual(id, Start), []);
  }

  lemma {:induction false} UnreadKeepsTime(f: Fleet, id: ChipId, n: nat)
    requires id in f.chips && f.chips[id].lastSignal == Some(0)
    ensures var f' := Run(f, Unread(id, n)); id in f'.chips && f'.chips[id].lastSignal == Some(0)
    decreases n
  {
    if n > 0 {
      RunStep(f, Signal(id, NoRead, 0), Unread(id, n - 1));
      UnreadKeepsTime(Apply(f, Signal(id, NoRead, 0)), id, n - 1);
    }
  }

  /**
   The code can be given that: the session of a chip started by hand connects, and the RECOVERED it reports cools
   the chip down and stops the session again.
   */
  lemma RecoveredCanCoolDown(id: ChipId)
    ensures var f := Run(EMPTY, StartedByHand(id));
      id in f.chips && f.chips[id].status == Warming && f.chips[id].score == 36.0 &&
      var f' := Apply(f, Signal(id, Recovered, 0));
      f'.chips[id].status == Cooldown && f'.chips[id].score == 44.0 && f'.control == f.control + [Command(Stop, id)]
  {
    var f1 := Apply(EMPTY, Register(id));
    var f2 := Apply(f1, Connected(id, 0));
    var rest := [Signal(id, NoRead, 0)] + ([Manual(id, Start)] + []);
    assert f2.chips == map[id := OnConnected(FRESH_CHIP, 0)];
    UnreadTakes(f2, id, 15);
    UnreadKeepsTime(f2, id, 15);
    CooledAndStarted(Run(f2, Unread(id, 15)), id);
    RunConcat(f2, Unread(id, 15), rest);
    RunStep(f1, Connected(id, 0), Unread(id, 15) + rest);
    RunStep(EMPTY, Register(id), [Connected(id, 0)] + (Unread(id, 15) + rest));
    RecoveredHeals(Run(EMPTY, StartedByHand(id)).chips[id], 0);
    PolicyInNumbers(Run(EMPTY, StartedByHand(id)).chips[id], Recovered, 0);
  }

  // ---------------------------------------------------------------- whom boot recovery reconnects

  lemma {:induction false} OnlyExactly<T>(s: seq<T>, p: T -> bool)
    ensures forall x :: x in Only(s, p) <==> x in s && p(x)
  {
    if s != [] {
      var n := |s| - 1;
      OnlyExactly(s[..n], p);
      assert s == s[..n] + [s[n]];
    }
  }

  /** The list a process start reads: every stored chip that is ACTIVE or WARMING, and nothing else. */
  lemma BootListsLiveChips(f: Fleet, rows: seq<ChipId>, id: ChipId)
    ensures var f' := Apply(f, Boot(rows));
      && f'.sessions == {} && f'.chips == f.chips && f'.control == f.control
      && (id in f'.recovering <==>
            id in rows && id in f.chips && (f.chips[id].status == Active || f.chips[id].status == Warming))
  {
    OnlyExactly(rows, Recoverable(f.chips));
  }

  /** The list worked off without a pause, every start succeeding. */
  function WorkedOff(f: Fleet): Fleet
    decreases |f.recovering|
  {
    if f.recovering == [] then f else WorkedOff(Apply(f, RecoverNext(true)))
  }

  lemma {:induction false} WorkingOffStarts(f: Fleet, id: ChipId)
    ensures WorkedOff(f).chips == f.chips
    ensures id in WorkedOff(f).sessions <==>
      id in f.sessions || (id in f.recovering && id in f.chips && f.chips[id].status != Retired)
    decreases |f.recovering|
  {
    if f.recovering != [] {
      WorkingOffStarts(Apply(f, RecoverNext(true)), id);
      assert f.recovering == [f.recovering[0]] + f.recovering[1..];
    }
  }

  /** After a restart left alone, exactly the stored ACTIVE and WARMING chips have their sessions back. */
  lemma RestartReconnectsExactly(f: Fleet, rows: seq<ChipId>, id: ChipId)
    ensures id in WorkedOff(Apply(f, Boot(rows))).sessions <==>
      id in rows && id in f.chips && (f.chips[id].status == Active || f.chips[id].status == Warming)
  {
    BootListsLiveChips(f, rows, id);
    WorkingOffStarts(Apply(f, Boot(rows)), id);
  }

  /** A step of a run in which the worker is not restarted, starts succeed, and nothing queued halts `id`. */
  predicate LetsRun(f: Fleet, e: Event, id: ChipId) {
    && !e.Boot? && e != RecoverNext(false) && e != Register(id)
    && (e.Deliver? && f.control != [] ==> !Halts(f.control[0], id))
  }

  ghost predicate AlwaysLetsRun(f: Fleet, es: seq<Event>, id: ChipId)
    decreases |es|
  {
    es != [] ==> LetsRun(f, es[0], id) && AlwaysLetsRun(Apply(f, es[0]), es[1..], id)
  }

  lemma {:induction false} NotRetiredBefore(f: Fleet, es: seq<Event>, id: ChipId)
    requires id in f.chips && AlwaysLetsRun(f, es, id)
    ensures id in Run(f, es).chips
    ensures Run(f, es).chips[id].status != Retired ==> f.chips[id].status != Retired
    decreases |es|
  {
    if es != [] {
      ChipsStay(f, es[0], id);
      NotRetiredBefore(Apply(f, es[0]), es[1..], id);
      if f.chips[id].status == Retired {
        RetiredIsTerminal(f, es[0], id);
      }
    }
  }

  lemma ChipsStay(f: Fleet, e: Event, id: ChipId)
    requires id in f.chips
    ensures id in Apply(f, e).chips
  {
  }

  lemma StepReconnects(f: Fleet, e: Event, id: ChipId)
    requires id in f.chips && f.chips[id].status != Retired && LetsRun(f, e, id)
    requires id in f.sessions || id in f.recovering
    ensures id in Apply(f, e).sessions || id in Apply(f, e).recovering
  {
    if e.RecoverNext? && f.recovering != [] {
      assert f.recovering == [f.recovering[0]] + f.recovering[1..];
    }
  }

  /**
   Recovery reaches everyone, whatever interleaves: once the list is worked off, every chip of it that is not
   retired and that no queued command stopped meanwhile has a session.
   */
  lemma {:induction false} RecoveryReaches(f: Fleet, es: seq<Event>, id: ChipId)
    requires id in f.chips && (id in f.sessions || id in f.recovering) && AlwaysLetsRun(f, es, id)
    requires Run(f, es).recovering == []
    ensures id in Run(f, es).chips
    ensures Run(f, es).chips[id].status != Retired ==> id in Run(f, es).sessions
    decreases |es|
  {
    NotRetiredBefore(f, es, id);
    if es != [] && Run(f, es).chips[id].status != Retired {
      ChipsStay(f, es[0], id);
      StepReconnects(f, es[0], id);
      RecoveryReaches(Apply(f, es[0]), es[1..], id);
    }
  }

  /** And it starts no others: without a command consumed, a session appears only for a chip of the list. */
  lemma {:induction false} RecoveryStartsNoOthers(f: Fleet, es: seq<Event>, id: ChipId)
    requires id !in f.sessions && id !in f.recovering
    requires forall e :: e in es ==> !e.Boot? && !e.Deliver?
    ensures id !in Run(f, es).sessions
    decreases |es|
  {
    if es != [] {
      assert es[0] in es;
      RecoveryStartsNoOthers(Apply(f, es[0]), es[1..], id);
    }
  }

  // ---------------------------------------------------------------- rows, in numbers

  /** A chip that connects for the first time enters the ramp at its first day; any other only shows a sign of life. */
  lemma ConnectedInNumbers(f: Fleet, id: ChipId, now: int)
    requires id in f.chips
    ensures var c, c' := f.chips[id], Apply(f, Connected(id, now)).chips[id];
      && c'.lastSignal == Some(now) && c'.score == c.score && c'.fails == c.fails && c'.sent == c.sent
      && (if c.status == New then c'.status == Warming && c'.rampDay == 1 && c'.cap == 5 && c'.lastReset == Some(now)
          else c' == c.(lastSignal := Some(now)))
  {
  }

  // ---------------------------------------------------------------- the services

  class ChipsService {
    const db: Database

    constructor (db: Database)
      ensures this.db == db
    {
      this.db := db;
    }

    method SendControl(id: ChipId, kind: ControlType) returns (found: bool)
      modifies db
      ensures found == (id in old(db.chips))
      ensures var f := Apply(Fleet(old(db.chips), old(db.control), {}, []), Manual(id, kind));
        db.chips == f.chips && db.control == f.control
      ensures db.control == old(db.control) + if found then [Command(kind, id)] else []
      ensures forall other :: other in old(db.chips) && other != id ==>
        other in db.chips && db.chips[other] == old(db.chips)[other]
      ensures found ==>
        var was := old(db.chips)[id].status;
        && id in db.chips && db.chips[id] == old(db.chips)[id].(status := db.chips[id].status)
        && (was == Retired ==> db.chips[id].status == Retired)
        && (was != Retired && kind == Stop ==> db.chips[id].status == Paused)
        && (kind == Retire ==> db.chips[id].status == Retired)
        && (kind == Start && (was == Paused || was == Cooldown) ==> db.chips[id].status == Warming)
        && (kind == Start && was != Paused && was != Cooldown ==> db.chips[id].status == was)
    {
      if id !in db.chips {
        return false;
      }
      var chip := db.chips[id];
      if kind == Stop {
        if chip.status != Retired {
          db.chips := db.chips[id := chip.(status := Paused)];
        }
      } else if kind == Retire {
        db.chips := db.chips[id := chip.(status := Retired)];
      } else if kind == Start {
        if chip.status == Paused || chip.status == Cooldown {
          db.chips := db.chips[id := chip.(status := Warming)];
        }
      }
      db.control := db.control + [Command(kind, id)];
      return true;
    }

    /** `create` for the row of a phone: new, taken back if retired, otherwise refused. */
    method Create(id: ChipId) returns (accepted: bool)
      modifies db
      ensures accepted == (id in old(db.chips) ==> old(db.chips)[id].status == Retired)
      ensures db.chips == Apply(Fleet(old(db.chips), old(db.control), {}, []), Register(id)).chips
      ensures accepted ==>
        && id in db.chips && db.chips[id].status == New && db.chips[id].score == 100.0 && db.chips[id].fails == 0
        && db.chips[id].rampDay == 0 && db.chips[id].cap == 0 && db.chips[id].sent == 0
      ensures db.control == old(db.control)
    {
      if id in db.chips {
        var existing := db.chips[id];
        if existing.status != Retired {
          return false;
        }
        db.chips := db.chips[id := existing.(status := New, rampDay := 0, cap := 0, sent := 0, score := 100.0, fails := 0)];
      } else {
        db.chips := db.chips[id := FRESH_CHIP];
      }
      return true;
    }
  }

  class Supervisor {
    const db: Database
    var sessions: set<ChipId>
    var recovering: seq<ChipId>

    ghost function State(): Fleet
      reads this, db
    {
      Fleet(db.chips, db.control, sessions, recovering)
    }

    constructor (db: Database)
      ensures this.db == db && sessions == {} && recovering == []
    {
      this.db := db;
      sessions, recovering := {}, [];
    }

    /** One job of the CONTROL worker; `ok` tells whether `session.start` succeeds. */
    method ConsumeControl(ok: bool)
      requires db.control != []
      modifies this`sessions, db`control
      ensures State() == Apply(old(State()), Deliver(ok))
    {
      var cmd := db.control[0];
      db.control := db.control[1..];
      if cmd.kind == Pair || cmd.kind == Start {
        StartSession(cmd.chip, ok);
      } else {
        StopSession(cmd.chip);
      }
    }

    method StartSession(id: ChipId, ok: bool)
      modifies this`sessions
      ensures sessions == Starts(db.chips, old(sessions), id, ok)
      ensures id in sessions <==> id in old(sessions) || (ok && id in db.chips && db.chips[id].status != Retired)
      ensures sessions - {id} == old(sessions) - {id}
    {
      if id in sessions || id !in db.chips || db.chips[id].status == Retired {
        return;
      }
      sessions := sessions + {id};
      if !ok {
        sessions := sessions - {id};
      }
    }

    method StopSession(id: ChipId)
      modifies this`sessions
      ensures sessions == old(sessions) - {id}
    {
      if id in sessions {
        sessions := sessions - {id};
      }
    }

    /** A process start: the map is empty, and the rows to reconnect are read once. */
    method BeginRecovery(rows: seq<ChipId>)
      modifies this
      ensures State() == Apply(old(State()), Boot(rows))
      ensures forall id :: id in recovering <==>
        id in rows && id in db.chips && (db.chips[id].status == Active || db.chips[id].status == Warming)
    {
      sessions, recovering := {}, [];
      var i := 0;
      while i < |rows|
        invariant i <= |rows| && sessions == {}
        invariant recovering == Only(rows[..i], Recoverable(db.chips))
      {
        if rows[i] in db.chips && (db.chips[rows[i]].status == Active || db.chips[rows[i]].status == Warming) {
          recovering := recovering + [rows[i]];
        }
        assert rows[..i + 1][..i] == rows[..i];
        i := i + 1;
      }
      assert rows[..i] == rows;
      OnlyExactly(rows, Recoverable(db.chips));
    }

    /** One turn of the recovery loop; the pause after it lets other work in. */
    method RecoverOne(ok: bool)
      requires recovering != []
      modifies this
      ensures State() == Apply(old(State()), RecoverNext(ok))
    {
      var id := recovering[0];
      recovering := recovering[1..];
      if id !in sessions {
        StartSession(id, ok);
      }
    }
  }
}
