/**
 Many `ingestSignal` calls at once (apps/core/src/health-monitor/health-monitor.service.ts:36-126).

 Each call is a task that waits for the promise the `chain` map held when it arrived, then runs `process`
 one awaited operation at a time; any of those may throw, which settles its promise as well. The
 main theorem: whatever the interleaving, every chip's row and commands are those of running its signals
 one after another in arrival order.
 */
module HealthChain {
  import opened Prelude
  import opened Shared
  import opened HealthMonitor

  // ---------------------------------------------------------------- one call as a list of operations

  datatype Operation =
    | LogEvent(kind: SignalKind)
    | SetHealth(score: real, fails: nat, now: int)
    | SetStatus(status: ChipStatus)
    | SetCap(cap: int)
    | SetRecovered
    | Send(command: ControlType)

  /** The operations `process` and its policy await, as decided by the row it read. */
  function Plan(row: Option<Chip>, kind: SignalKind, now: int): seq<Operation> {
    if row.None? || row.value.status == Retired then []
    else
      var c := row.value;
      var score, fails := NewScore(c, kind, now), NewFails(c, kind);
      [LogEvent(kind), SetHealth(score, fails, now)] + Measures(Judge(c.status, score, fails), c.cap)
  }

  function Measures(verdict: Verdict, cap: int): seq<Operation> {
    match verdict
    case RetireIt => [SetStatus(Retired), Send(Retire)]
    case CoolDown => [SetStatus(Cooldown), Send(Stop)]
    case SlowDown => if HalvedCap(cap) < cap then [SetCap(HalvedCap(cap))] else []
    case RecoverIt => [SetRecovered, Send(Start)]
    case _ => []
  }

  /** What one chip looks like from outside: its row, and the commands sent about it. */
  datatype Face = Face(row: Option<Chip>, commands: seq<ControlType>)

  /** An operation updates named columns of the current row, whatever the other columns hold by then. */
  function Perform(f: Face, op: Operation): Face {
    match op
    case LogEvent(_) => f
    case Send(k) => f.(commands := f.commands + [k])
    case _ =>
      if f.row.None? then f
      else
        var c := f.row.value;
        f.(row := Some(match op
                       case SetHealth(score, fails, now) => c.(score := score, fails := fails, lastSignal := Some(now))
                       case SetStatus(status) => c.(status := status)
                       case SetCap(cap) => c.(cap := cap)
                       case _ => c.(status := Warming, cap := COOLDOWN_RAMP_CAP, fails := 0)))
  }

  function PerformAll(f: Face, ops: seq<Operation>): Face {
    if ops == [] then f else Perform(PerformAll(f, ops[..|ops| - 1]), ops[|ops| - 1])
  }

  /** `process` with nothing in between, on the face of its chip. */
  function ProcessFace(f: Face, kind: SignalKind, now: int): Face {
    if f.row.None? then f
    else
      var o := Process(f.row.value, kind, now);
      Face(Some(o.chip), f.commands + o.commands)
  }

  lemma {:induction false} PerformConcat(f: Face, a: seq<Operation>, b: seq<Operation>)
    ensures PerformAll(f, a + b) == PerformAll(PerformAll(f, a), b)
  {
    if b == [] {
      assert a + b == a;
    } else {
      var n := |b| - 1;
      assert (a + b)[..|a| + n] == a + b[..n];
      PerformConcat(f, a, b[..n]);
    }
  }

  lemma PerformOne(f: Face, op: Operation)
    ensures PerformAll(f, [op]) == Perform(f, op)
  {
    assert [op][..0] == [];
  }

  lemma MeasuresEnforce(c: Chip, commands: seq<ControlType>, verdict: Verdict)
    ensures PerformAll(Face(Some(c), commands), Measures(verdict, c.cap)) ==
            Face(Some(Enforce(c, verdict, c.cap).chip), commands + Enforce(c, verdict, c.cap).commands)
  {
    var f, ops := Face(Some(c), commands), Measures(verdict, c.cap);
    if |ops| == 2 {
      assert ops == [ops[0]] + [ops[1]];
      PerformConcat(f, [ops[0]], [ops[1]]);
      PerformOne(f, ops[0]);
      PerformOne(Perform(f, ops[0]), ops[1]);
    } else if |ops| == 1 {
      PerformOne(f, ops[0]);
    }
  }

  /** All the operations of a call together are the undisturbed call. */
  lemma PlanIsProcess(f: Face, kind: SignalKind, now: int)
    ensures PerformAll(f, Plan(f.row, kind, now)) == ProcessFace(f, kind, now)
  {
    if f.row.Some? && f.row.value.status != Retired {
      var c := f.row.value;
      var score, fails := NewScore(c, kind, now), NewFails(c, kind);
      var measured := c.(score := score, fails := fails, lastSignal := Some(now));
      var log, put, rest := LogEvent(kind), SetHealth(score, fails, now), Measures(Judge(c.status, score, fails), c.cap);
      PerformConcat(f, [log, put], rest);
      assert [log, put] == [log] + [put];
      PerformConcat(f, [log], [put]);
      PerformOne(f, log);
      PerformOne(f, put);
      MeasuresEnforce(measured, f.commands, Judge(c.status, score, fails));
    }
  }

  // ---------------------------------------------------------------- the machine

  datatype Phase = Waiting | Running(plan: seq<Operation>) | Settled(ok: bool)

  /** One call: its signal, the earlier call whose promise it waits for, and how many operations took effect. */
  datatype Task = Task(chip: ChipId, kind: SignalKind, now: int, prev: Option<nat>, phase: Phase, done: nat)

  /** The operations a call decides on once it has read its row: `Plan`, which no step looks into. */
  type Planner = (Option<Chip>, SignalKind, int) -> seq<Operation>

  datatype Monitor = Monitor(
    plan: Planner,
    chips: map<ChipId, Chip>,
    control: seq<Command>,
    chain: map<ChipId, nat>,
    tasks: seq<Task>)

  datatype Event =
    | Ingest(chip: ChipId, kind: SignalKind, now: int)
    | Begin(task: nat)
    | Advance(task: nat)
    | Finish(task: nat)
    | Throw(task: nat)

  predicate IsWaiting(m: Monitor, i: nat) { i < |m.tasks| && m.tasks[i].phase.Waiting? }
  predicate IsRunning(m: Monitor, i: nat) { i < |m.tasks| && m.tasks[i].phase.Running? }
  predicate IsSettled(m: Monitor, i: nat) { i < |m.tasks| && m.tasks[i].phase.Settled? }

  /** The promise a task was chained to has settled; `catch` makes a rejection as good as a fulfilment. */
  predicate MayStart(m: Monitor, i: nat) {
    IsWaiting(m, i) && (m.tasks[i].prev.Some? ==> IsSettled(m, m.tasks[i].prev.value))
  }

  predicate Enabled(m: Monitor, e: Event) {
    match e
    case Ingest(_, _, _) => true
    case Begin(i) => MayStart(m, i)
    case Advance(i) => IsRunning(m, i) && m.tasks[i].done < |m.tasks[i].phase.plan|
    case Finish(i) => IsRunning(m, i) && m.tasks[i].done == |m.tasks[i].phase.plan|
    case Throw(i) => MayStart(m, i) || (IsRunning(m, i) && m.tasks[i].done < |m.tasks[i].phase.plan|)
  }

  function RowOf(m: Monitor, chip: ChipId): Option<Chip> {
    if chip in m.chips then Some(m.chips[chip]) else None
  }

  /** One operation carried out on the table and the queue. */
  function Carry(m: Monitor, chip: ChipId, op: Operation): Monitor {
    var f := Perform(Face(RowOf(m, chip), []), op);
    m.(chips := if f.row.Some? then m.chips[chip := f.row.value] else m.chips,
       control := m.control + ToCommands(f.commands, chip))
  }

  function Step(m: Monitor, e: Event): Monitor
    requires Enabled(m, e)
  {
    match e
    case Ingest(chip, kind, now) =>
      var prev := if chip in m.chain then Some(m.chain[chip]) else None;
      m.(tasks := m.tasks + [Task(chip, kind, now, prev, Waiting, 0)], chain := m.chain[chip := |m.tasks|])
    case Begin(i) =>
      var t := m.tasks[i];
      m.(tasks := m.tasks[i := t.(phase := Running(m.plan(RowOf(m, t.chip), t.kind, t.now)))])
    case Advance(i) =>
      var t := m.tasks[i];
      Carry(m, t.chip, t.phase.plan[t.done]).(tasks := m.tasks[i := t.(done := t.done + 1)])
    case Finish(i) => m.(tasks := m.tasks[i := m.tasks[i].(phase := Settled(true))])
    case Throw(i) => m.(tasks := m.tasks[i := m.tasks[i].(phase := Settled(false))])
  }

  ghost predicate Possible(m: Monitor, es: seq<Event>)
    decreases |es|
  {
    es == [] || (Enabled(m, es[0]) && Possible(Step(m, es[0]), es[1..]))
  }

  ghost function Run(m: Monitor, es: seq<Event>): Monitor
    requires Possible(m, es)
    decreases |es|
  {
    if es == [] then m else Run(Step(m, es[0]), es[1..])
  }

  function Started(chips: map<ChipId, Chip>): Monitor {
    Monitor(Plan, chips, [], map[], [])
  }

  // ---------------------------------------------------------------- the serial order

  function CommandsTo(control: seq<Command>, chip: ChipId): seq<ControlType> {
    if control == [] then []
    else
      var n := |control| - 1;
      CommandsTo(control[..n], chip) + (if control[n].chip == chip then [control[n].kind] else [])
  }

  function FaceOf(m: Monitor, chip: ChipId): Face {
    Face(RowOf(m, chip), CommandsTo(m.control, chip))
  }

  function Min(a: nat, b: nat): nat { if a < b then a else b }

  /** One call cut off after `done` operations. */
  function CutShort(plan: Planner, f: Face, t: Task): Face {
    var ops := plan(f.row, t.kind, t.now);
    PerformAll(f, ops[..Min(t.done, |ops|)])
  }

  /** The calls about `chip`, in arrival order and one after another, each as far as it got. */
  function Serial(plan: Planner, f: Face, tasks: seq<Task>, chip: ChipId): Face {
    if tasks == [] then f
    else
      var before, t := Serial(plan, f, tasks[..|tasks| - 1], chip), tasks[|tasks| - 1];
      if t.chip == chip then CutShort(plan, before, t) else before
  }

  /** Folding the undisturbed call over the signals about `chip`. */
  function Folded(f: Face, tasks: seq<Task>, chip: ChipId): Face {
    if tasks == [] then f
    else
      var before, t := Folded(f, tasks[..|tasks| - 1], chip), tasks[|tasks| - 1];
      if t.chip == chip then ProcessFace(before, t.kind, t.now) else before
  }

  function StartFace(chips: map<ChipId, Chip>, chip: ChipId): Face {
    Face(if chip in chips then Some(chips[chip]) else None, [])
  }

  /** Task `i` waits for the latest earlier task of its chip. */
  ghost predicate LinkedAt(m: Monitor, i: nat)
    requires i < |m.tasks|
  {
    var prev, chip := m.tasks[i].prev, m.tasks[i].chip;
    && (prev.Some? ==> prev.value < i && m.tasks[prev.value].chip == chip)
    && (forall j :: 0 <= j < i && m.tasks[j].chip == chip ==> prev.Some? && j <= prev.value)
  }

  /** `chain` holds the last task of each chip that has one. */
  ghost predicate ChainedAt(m: Monitor, chip: ChipId) {
    && (chip in m.chain ==> m.chain[chip] < |m.tasks| && m.tasks[m.chain[chip]].chip == chip)
    && (forall i :: 0 <= i < |m.tasks| && m.tasks[i].chip == chip ==> chip in m.chain && i <= m.chain[chip])
  }

  ghost predicate Linked(m: Monitor) {
    (forall i :: 0 <= i < |m.tasks| ==> LinkedAt(m, i)) && (forall c :: ChainedAt(m, c))
  }

  /** A task that has begun found every earlier task of its chip settled. */
  ghost predicate InTurn(m: Monitor) {
    forall i, j :: 0 <= j < i < |m.tasks| && m.tasks[j].chip == m.tasks[i].chip && !m.tasks[i].phase.Waiting? ==>
      m.tasks[j].phase.Settled?
  }

  /** The operations task `i` decides on when everything before it is over. */
  function Due(chips: map<ChipId, Chip>, m: Monitor, i: nat): seq<Operation>
    requires i < |m.tasks|
  {
    var t := m.tasks[i];
    m.plan(Serial(m.plan, StartFace(chips, t.chip), m.tasks[..i], t.chip).row, t.kind, t.now)
  }

  ghost predicate Progressed(chips: map<ChipId, Chip>, m: Monitor, i: nat)
    requires i < |m.tasks|
  {
    var t := m.tasks[i];
    match t.phase
    case Waiting => t.done == 0
    case Running(p) => p == Due(chips, m, i) && t.done <= |p|
    case Settled(ok) => t.done <= |Due(chips, m, i)| && (ok ==> t.done == |Due(chips, m, i)|)
  }

  ghost predicate AllProgressed(chips: map<ChipId, Chip>, m: Monitor) {
    forall i :: 0 <= i < |m.tasks| ==> Progressed(chips, m, i)
  }

  ghost predicate SerialAt(chips: map<ChipId, Chip>, m: Monitor, chip: ChipId) {
    FaceOf(m, chip) == Serial(m.plan, StartFace(chips, chip), m.tasks, chip)
  }

  ghost predicate AllSerial(chips: map<ChipId, Chip>, m: Monitor) {
    forall c :: SerialAt(chips, m, c)
  }

  ghost predicate Inv(chips: map<ChipId, Chip>, m: Monitor) {
    Linked(m) && InTurn(m) && AllProgressed(chips, m) && AllSerial(chips, m)
  }

  // ---------------------------------------------------------------- the serial order under updates

  /** Only the signal and the number of operations of a task matter to the serial order. */
  lemma {:induction false} SerialIgnoresPhase(plan: Planner, f: Face, tasks: seq<Task>, i: nat, phase: Phase, chip: ChipId)
    requires i < |tasks|
    ensures Serial(plan, f, tasks[i := tasks[i].(phase := phase)], chip) == Serial(plan, f, tasks, chip)
  {
    var n, changed := |tasks| - 1, tasks[i := tasks[i].(phase := phase)];
    if i == n {
      assert changed[..n] == tasks[..n];
    } else {
      assert changed[..n] == tasks[..n][i := tasks[i].(phase := phase)];
      SerialIgnoresPhase(plan, f, tasks[..n], i, phase, chip);
    }
  }

  lemma {:induction false} SerialOtherChip(plan: Planner, f: Face, tasks: seq<Task>, i: nat, t: Task, chip: ChipId)
    requires i < |tasks| && tasks[i].chip == t.chip != chip
    ensures Serial(plan, f, tasks[i := t], chip) == Serial(plan, f, tasks, chip)
  {
    var n := |tasks| - 1;
    if i == n {
      assert tasks[i := t][..n] == tasks[..n];
    } else {
      assert tasks[i := t][..n] == tasks[..n][i := t];
      SerialOtherChip(plan, f, tasks[..n], i, t, chip);
    }
  }

  /** Tasks that have done nothing yet do not show: the latest one that has is the last to count. */
  lemma {:induction false} SerialUpTo(plan: Planner, f: Face, tasks: seq<Task>, i: nat)
    requires i < |tasks|
    requires forall j :: i < j < |tasks| && tasks[j].chip == tasks[i].chip ==> tasks[j].done == 0
    ensures Serial(plan, f, tasks, tasks[i].chip) == CutShort(plan, Serial(plan, f, tasks[..i], tasks[i].chip), tasks[i])
  {
    var n := |tasks| - 1;
    if i < n {
      SerialUpTo(plan, f, tasks[..n], i);
      assert tasks[..n][..i] == tasks[..i];
    }
  }

  lemma {:induction false} CommandsToConcat(a: seq<Command>, kinds: seq<ControlType>, about: ChipId, chip: ChipId)
    ensures CommandsTo(a + ToCommands(kinds, about), chip) == CommandsTo(a, chip) + (if about == chip then kinds else [])
  {
    if kinds == [] {
      assert a + ToCommands(kinds, about) == a;
    } else {
      var n := |kinds| - 1;
      var all := a + ToCommands(kinds, about);
      assert all[..|all| - 1] == a + ToCommands(kinds[..n], about);
      CommandsToConcat(a, kinds[..n], about, chip);
      assert kinds == kinds[..n] + [kinds[n]];
    }
  }

  lemma CarryShowsOnItsChip(m: Monitor, chip: ChipId, op: Operation, c: ChipId)
    ensures FaceOf(Carry(m, chip, op), c) == if c == chip then Perform(FaceOf(m, chip), op) else FaceOf(m, c)
  {
    var f := Perform(Face(RowOf(m, chip), []), op);
    CommandsToConcat(m.control, f.commands, chip, c);
  }

  // ---------------------------------------------------------------- every step keeps the invariant

  lemma IngestKeepsLinks(m: Monitor, e: Event)
    requires Linked(m) && InTurn(m) && e.Ingest?
    ensures Linked(Step(m, e)) && InTurn(Step(m, e))
  {
    var m' := Step(m, e);
    assert ChainedAt(m, e.chip);
    forall i | 0 <= i < |m'.tasks| ensures LinkedAt(m', i) {
      assert i < |m.tasks| ==> LinkedAt(m, i);
    }
    forall c ensures ChainedAt(m', c) {
      assert ChainedAt(m, c);
    }
  }

  /** A step that touches neither the chips of the tasks nor their links keeps both. */
  lemma SameLinks(m: Monitor, m': Monitor)
    requires Linked(m) && |m'.tasks| == |m.tasks| && m'.chain == m.chain
    requires forall i :: 0 <= i < |m.tasks| ==> m'.tasks[i].chip == m.tasks[i].chip && m'.tasks[i].prev == m.tasks[i].prev
    ensures Linked(m')
  {
    forall i | 0 <= i < |m.tasks| ensures LinkedAt(m', i) {
      assert LinkedAt(m, i);
    }
    forall c ensures ChainedAt(m', c) {
      assert ChainedAt(m, c);
    }
  }

  lemma IngestKeepsInv(chips: map<ChipId, Chip>, m: Monitor, e: Event)
    requires Inv(chips, m) && e.Ingest?
    ensures Inv(chips, Step(m, e))
  {
    var m' := Step(m, e);
    var n := |m.tasks|;
    assert m'.tasks[..n] == m.tasks;
    IngestKeepsLinks(m, e);
    forall i | 0 <= i < n + 1 ensures Progressed(chips, m', i) {
      assert m'.tasks[..i] == m.tasks[..i];
      assert i < n ==> Progressed(chips, m, i) && Due(chips, m, i) == Due(chips, m', i);
    }
    forall c ensures SerialAt(chips, m', c) {
      assert SerialAt(chips, m, c);
      assert FaceOf(m', c) == FaceOf(m, c);
    }
  }

  /** Moving task `i` to another phase. */
  function Moved(m: Monitor, i: nat, phase: Phase): Monitor
    requires i < |m.tasks|
  {
    m.(tasks := m.tasks[i := m.tasks[i].(phase := phase)])
  }

  lemma MoveKeepsTurns(m: Monitor, i: nat, phase: Phase)
    requires Linked(m) && InTurn(m) && i < |m.tasks| && !phase.Waiting? && !m.tasks[i].phase.Settled?
    requires m.tasks[i].phase.Waiting? ==> MayStart(m, i)
    ensures Linked(Moved(m, i, phase)) && InTurn(Moved(m, i, phase))
  {
    SameLinks(m, Moved(m, i, phase));
    assert LinkedAt(m, i);
    if m.tasks[i].phase.Waiting? && m.tasks[i].prev.Some? {
      var p := m.tasks[i].prev.value;
      forall j | 0 <= j < i && m.tasks[j].chip == m.tasks[i].chip ensures m.tasks[j].phase.Settled? {
        assert j <= p && m.tasks[p].phase.Settled?;
      }
    }
  }

  lemma MoveKeepsDue(chips: map<ChipId, Chip>, m: Monitor, i: nat, phase: Phase, k: nat)
    requires i < |m.tasks| && k < |m.tasks|
    ensures Due(chips, Moved(m, i, phase), k) == Due(chips, m, k)
  {
    var m' := Moved(m, i, phase);
    if i < k {
      assert m'.tasks[..k] == m.tasks[..k][i := m.tasks[i].(phase := phase)];
      SerialIgnoresPhase(m.plan, StartFace(chips, m.tasks[k].chip), m.tasks[..k], i, phase, m.tasks[k].chip);
    } else {
      assert m'.tasks[..k] == m.tasks[..k];
    }
  }

  lemma MoveKeepsSerial(chips: map<ChipId, Chip>, m: Monitor, i: nat, phase: Phase)
    requires AllSerial(chips, m) && i < |m.tasks|
    ensures AllSerial(chips, Moved(m, i, phase))
  {
    var m' := Moved(m, i, phase);
    forall c ensures SerialAt(chips, m', c) {
      assert SerialAt(chips, m, c);
      assert FaceOf(m', c) == FaceOf(m, c);
      SerialIgnoresPhase(m.plan, StartFace(chips, c), m.tasks, i, phase, c);
    }
  }

  /** A task that begins finds exactly what the tasks before it left. */
  lemma BeginSeesSerial(chips: map<ChipId, Chip>, m: Monitor, i: nat)
    requires Inv(chips, m) && MayStart(m, i)
    ensures m.plan(RowOf(m, m.tasks[i].chip), m.tasks[i].kind, m.tasks[i].now) == Due(chips, m, i)
  {
    var chip := m.tasks[i].chip;
    LaterTasksWait(chips, m, i);
    assert SerialAt(chips, m, chip);
    assert Progressed(chips, m, i);
    SerialUpTo(m.plan, StartFace(chips, chip), m.tasks, i);
  }

  lemma LaterTasksWait(chips: map<ChipId, Chip>, m: Monitor, i: nat)
    requires InTurn(m) && AllProgressed(chips, m) && i < |m.tasks| && !m.tasks[i].phase.Settled?
    ensures forall j :: i < j < |m.tasks| && m.tasks[j].chip == m.tasks[i].chip ==>
      m.tasks[j].phase.Waiting? && m.tasks[j].done == 0
  {
    forall j | i < j < |m.tasks| && m.tasks[j].chip == m.tasks[i].chip
      ensures m.tasks[j].phase.Waiting? && m.tasks[j].done == 0
    {
      assert Progressed(chips, m, j);
    }
  }

  lemma MoveKeepsInv(chips: map<ChipId, Chip>, m: Monitor, i: nat, phase: Phase)
    requires Inv(chips, m) && i < |m.tasks| && !m.tasks[i].phase.Settled? && !phase.Waiting?
    requires m.tasks[i].phase.Waiting? ==> MayStart(m, i)
    requires phase.Running? ==> m.tasks[i].phase.Waiting? && phase.plan == Due(chips, m, i)
    requires phase == Settled(true) ==> m.tasks[i].phase.Running? && m.tasks[i].done == |m.tasks[i].phase.plan|
    ensures Inv(chips, Moved(m, i, phase))
  {
    var m' := Moved(m, i, phase);
    MoveKeepsTurns(m, i, phase);
    forall k | 0 <= k < |m.tasks| ensures Progressed(chips, m', k) {
      assert Progressed(chips, m, k);
      MoveKeepsDue(chips, m, i, phase, k);
    }
    MoveKeepsSerial(chips, m, i, phase);
  }

  lemma AdvanceKeepsDue(chips: map<ChipId, Chip>, m: Monitor, i: nat, k: nat)
    requires Enabled(m, Advance(i)) && k < |m.tasks|
    requires k <= i || m.tasks[k].chip != m.tasks[i].chip
    ensures Due(chips, Step(m, Advance(i)), k) == Due(chips, m, k)
  {
    var m', t := Step(m, Advance(i)), m.tasks[i];
    if k <= i {
      assert m'.tasks[..k] == m.tasks[..k];
    } else {
      assert m'.tasks[..k] == m.tasks[..k][i := t.(done := t.done + 1)];
      SerialOtherChip(m.plan, StartFace(chips, m.tasks[k].chip), m.tasks[..k], i, t.(done := t.done + 1), m.tasks[k].chip);
    }
  }

  lemma OneMoreOperation(plan: Planner, before: Face, t: Task)
    requires t.done < |plan(before.row, t.kind, t.now)|
    ensures CutShort(plan, before, t.(done := t.done + 1)) ==
            Perform(CutShort(plan, before, t), plan(before.row, t.kind, t.now)[t.done])
  {
    var ops := plan(before.row, t.kind, t.now);
    assert ops[..t.done + 1][..t.done] == ops[..t.done];
  }

  lemma AdvanceShowsInTurn(chips: map<ChipId, Chip>, m: Monitor, i: nat)
    requires Inv(chips, m) && Enabled(m, Advance(i))
    ensures var f, t := StartFace(chips, m.tasks[i].chip), m.tasks[i];
      Serial(m.plan, f, Step(m, Advance(i)).tasks, t.chip)
      == Perform(Serial(m.plan, f, m.tasks, t.chip), t.phase.plan[t.done])
  {
    var m', t := Step(m, Advance(i)), m.tasks[i];
    var f := StartFace(chips, t.chip);
    LaterTasksWait(chips, m, i);
    assert Progressed(chips, m, i);
    SerialUpTo(m.plan, f, m.tasks, i);
    SerialUpTo(m.plan, f, m'.tasks, i);
    assert m'.tasks[..i] == m.tasks[..i];
    OneMoreOperation(m.plan, Serial(m.plan, f, m.tasks[..i], t.chip), t);
  }

  lemma AdvanceShowsOnItsChip(m: Monitor, i: nat, chip: ChipId)
    requires Enabled(m, Advance(i))
    ensures var t := m.tasks[i];
      FaceOf(Step(m, Advance(i)), chip) ==
      if chip == t.chip then Perform(FaceOf(m, chip), t.phase.plan[t.done]) else FaceOf(m, chip)
  {
    var t := m.tasks[i];
    var op := t.phase.plan[t.done];
    CarryShowsOnItsChip(m, t.chip, op, chip);
    assert FaceOf(Step(m, Advance(i)), chip) == FaceOf(Carry(m, t.chip, op), chip);
  }

  lemma AdvanceKeepsSerial(chips: map<ChipId, Chip>, m: Monitor, i: nat, chip: ChipId)
    requires Inv(chips, m) && Enabled(m, Advance(i))
    ensures SerialAt(chips, Step(m, Advance(i)), chip)
  {
    var t := m.tasks[i];
    assert SerialAt(chips, m, chip);
    AdvanceShowsOnItsChip(m, i, chip);
    if chip == t.chip {
      AdvanceShowsInTurn(chips, m, i);
    } else {
      SerialOtherChip(m.plan, StartFace(chips, chip), m.tasks, i, t.(done := t.done + 1), chip);
    }
  }

  lemma AdvanceKeepsInv(chips: map<ChipId, Chip>, m: Monitor, i: nat)
    requires Inv(chips, m) && Enabled(m, Advance(i))
    ensures Inv(chips, Step(m, Advance(i)))
  {
    var m' := Step(m, Advance(i));
    SameLinks(m, m');
    assert InTurn(m');
    LaterTasksWait(chips, m, i);
    forall k | 0 <= k < |m.tasks| ensures Progressed(chips, m', k) {
      assert Progressed(chips, m, k);
      if k <= i || m.tasks[k].chip != m.tasks[i].chip {
        AdvanceKeepsDue(chips, m, i, k);
      }
    }
    forall c ensures SerialAt(chips, m', c) {
      AdvanceKeepsSerial(chips, m, i, c);
    }
  }

  lemma StepKeepsInv(chips: map<ChipId, Chip>, m: Monitor, e: Event)
    requires Inv(chips, m) && Enabled(m, e)
    ensures Inv(chips, Step(m, e))
  {
    match e
    case Ingest(_, _, _) => IngestKeepsInv(chips, m, e);
    case Begin(i) =>
      BeginSeesSerial(chips, m, i);
      MoveKeepsInv(chips, m, i, Running(Due(chips, m, i)));
    case Advance(i) => AdvanceKeepsInv(chips, m, i);
    case Finish(i) => MoveKeepsInv(chips, m, i, Settled(true));
    case Throw(i) => MoveKeepsInv(chips, m, i, Settled(false));
  }

  lemma StartedHasInv(chips: map<ChipId, Chip>)
    ensures Inv(chips, Started(chips))
  {
  }

  lemma {:induction false} RunKeepsInv(chips: map<ChipId, Chip>, m: Monitor, es: seq<Event>)
    requires Inv(chips, m) && Possible(m, es)
    ensures Inv(chips, Run(m, es))
    decreases |es|
  {
    if es != [] {
      StepKeepsInv(chips, m, es[0]);
      RunKeepsInv(chips, Step(m, es[0]), es[1..]);
    }
  }

  // ---------------------------------------------------------------- the theorems

  /** At most one call per chip is past its start and not settled. */
  lemma OneAtATime(chips: map<ChipId, Chip>, es: seq<Event>, i: nat, j: nat)
    requires Possible(Started(chips), es)
    requires var m := Run(Started(chips), es); IsRunning(m, i) && IsRunning(m, j) && m.tasks[i].chip == m.tasks[j].chip
    ensures i == j
  {
    RunKeepsInv(chips, Started(chips), es);
  }

  /** No step replaces the code the calls run. */
  lemma {:induction false} RunKeepsPlan(m: Monitor, es: seq<Event>)
    requires Possible(m, es)
    ensures Run(m, es).plan == m.plan
    decreases |es|
  {
    if es != [] {
      RunKeepsPlan(Step(m, es[0]), es[1..]);
    }
  }

  /** At every moment, failures included, each chip shows its calls in arrival order, each as far as it got. */
  lemma AlwaysSerial(chips: map<ChipId, Chip>, es: seq<Event>, chip: ChipId)
    requires Possible(Started(chips), es)
    ensures var m := Run(Started(chips), es);
      FaceOf(m, chip) == Serial(Plan, StartFace(chips, chip), m.tasks, chip)
  {
    StartedHasInv(chips);
    RunKeepsInv(chips, Started(chips), es);
    RunKeepsPlan(Started(chips), es);
    assert SerialAt(chips, Run(Started(chips), es), chip);
  }

  lemma {:induction false} CompleteSerialIsFolded(f: Face, tasks: seq<Task>, chip: ChipId)
    requires forall i :: 0 <= i < |tasks| && tasks[i].chip == chip ==>
      |Plan(Serial(Plan, f, tasks[..i], chip).row, tasks[i].kind, tasks[i].now)| <= tasks[i].done
    ensures Serial(Plan, f, tasks, chip) == Folded(f, tasks, chip)
  {
    if tasks != [] {
      var n := |tasks| - 1;
      forall i | 0 <= i < n ensures tasks[..n][..i] == tasks[..i] {}
      CompleteSerialIsFolded(f, tasks[..n], chip);
      if tasks[n].chip == chip {
        var before := Serial(Plan, f, tasks[..n], chip);
        var ops := Plan(before.row, tasks[n].kind, tasks[n].now);
        assert ops[..Min(tasks[n].done, |ops|)] == ops;
        PlanIsProcess(before, tasks[n].kind, tasks[n].now);
      }
    }
  }

  /** Every call about `chip` has come back, and none has thrown. */
  ghost predicate AllDone(m: Monitor, chip: ChipId) {
    forall i :: 0 <= i < |m.tasks| && m.tasks[i].chip == chip ==> m.tasks[i].phase == Settled(true)
  }

  /**
   Per-chip serialisability: when every call about `chip` has come back without throwing, its row and the
   commands sent about it are those of folding the undisturbed `process` over its signals in arrival order.
   */
  lemma Serialisable(chips: map<ChipId, Chip>, es: seq<Event>, chip: ChipId)
    requires Possible(Started(chips), es) && AllDone(Run(Started(chips), es), chip)
    ensures FaceOf(Run(Started(chips), es), chip) ==
            Folded(StartFace(chips, chip), Run(Started(chips), es).tasks, chip)
  {
    var m := Run(Started(chips), es);
    StartedHasInv(chips);
    RunKeepsInv(chips, Started(chips), es);
    RunKeepsPlan(Started(chips), es);
    DoneIsFolded(chips, m, chip);
  }

  lemma DoneIsFolded(chips: map<ChipId, Chip>, m: Monitor, chip: ChipId)
    requires Inv(chips, m) && AllDone(m, chip) && m.plan == Plan
    ensures FaceOf(m, chip) == Folded(StartFace(chips, chip), m.tasks, chip)
  {
    forall i | 0 <= i < |m.tasks| && m.tasks[i].chip == chip ensures |Due(chips, m, i)| == m.tasks[i].done {
      assert Progressed(chips, m, i);
    }
    assert SerialAt(chips, m, chip);
    CompleteSerialIsFolded(StartFace(chips, chip), m.tasks, chip);
  }

  /** The chain never gets stuck, whatever throws: while a call is open, some call can take a step. */
  lemma {:induction false} NeverStuck(chips: map<ChipId, Chip>, m: Monitor, i: nat) returns (e: Event)
    requires Inv(chips, m) && i < |m.tasks| && !m.tasks[i].phase.Settled?
    ensures !e.Ingest? && !e.Throw? && Enabled(m, e)
    decreases i
  {
    var t := m.tasks[i];
    assert Progressed(chips, m, i) && LinkedAt(m, i);
    if t.phase.Running? {
      e := if t.done < |t.phase.plan| then Advance(i) else Finish(i);
    } else if t.prev.Some? && !m.tasks[t.prev.value].phase.Settled? {
      e := NeverStuck(chips, m, t.prev.value);
    } else {
      e := Begin(i);
    }
  }

  /** What an open call still has to do once it runs. */
  function Left(t: Task): nat {
    if t.phase.Running? && t.done <= |t.phase.plan| then |t.phase.plan| - t.done + 1 else 0
  }

  function TotalLeft(tasks: seq<Task>): nat {
    if tasks == [] then 0 else TotalLeft(tasks[..|tasks| - 1]) + Left(tasks[|tasks| - 1])
  }

  lemma {:induction false} LeftAfterUpdate(tasks: seq<Task>, i: nat, t: Task)
    requires i < |tasks|
    ensures TotalLeft(tasks[i := t]) + Left(tasks[i]) == TotalLeft(tasks) + Left(t)
  {
    var n := |tasks| - 1;
    if i == n {
      assert tasks[i := t][..n] == tasks[..n];
    } else {
      assert tasks[i := t][..n] == tasks[..n][i := t];
      LeftAfterUpdate(tasks[..n], i, t);
    }
  }

  predicate Waits(t: Task) { t.phase.Waiting? }

  function Waiters(m: Monitor): nat {
    Count(m.tasks, Waits)
  }

  /** A step that neither begins a call from outside nor throws brings the end closer. */
  lemma StepGetsCloser(m: Monitor, e: Event)
    requires Enabled(m, e) && !e.Ingest? && !e.Throw?
    ensures var m' := Step(m, e);
      |m'.tasks| == |m.tasks| &&
      (Waiters(m') < Waiters(m) || (Waiters(m') == Waiters(m) && TotalLeft(m'.tasks) < TotalLeft(m.tasks)))
  {
    var m' := Step(m, e);
    var i := e.task;
    assert m'.tasks == m.tasks[i := m'.tasks[i]];
    CountUpdate(m.tasks, i, m'.tasks[i], Waits);
    LeftAfterUpdate(m.tasks, i, m'.tasks[i]);
  }

  predicate AllSettled(m: Monitor) {
    forall i :: 0 <= i < |m.tasks| ==> m.tasks[i].phase.Settled?
  }

  /**
   The chain drains: from every reachable state, whatever threw before, a finite run without new signals and
   without a further throw brings back every call.
   */
  lemma {:induction false} EveryCallSettles(chips: map<ChipId, Chip>, m: Monitor) returns (es: seq<Event>)
    requires Inv(chips, m)
    ensures forall e :: e in es ==> !e.Ingest? && !e.Throw?
    ensures Possible(m, es) && AllSettled(Run(m, es)) && |Run(m, es).tasks| == |m.tasks|
    decreases Waiters(m), TotalLeft(m.tasks)
  {
    if AllSettled(m) {
      es := [];
    } else {
      var i :| 0 <= i < |m.tasks| && !m.tasks[i].phase.Settled?;
      var e := NeverStuck(chips, m, i);
      StepGetsCloser(m, e);
      StepKeepsInv(chips, m, e);
      var rest := EveryCallSettles(chips, Step(m, e));
      es := [e] + rest;
      assert es[1..] == rest;
    }
  }

  // ---------------------------------------------------------------- the service

  /** The `chain` map with the calls made so far, and the row and queue updates they await. */
  class SignalChain {
    var chips: map<ChipId, Chip>
    var control: seq<Command>
    var chain: map<ChipId, nat>
    var tasks: seq<Task>

    ghost function State(): Monitor
      reads this
    {
      Monitor(Plan, chips, control, chain, tasks)
    }

    constructor (rows: map<ChipId, Chip>)
      ensures State() == Started(rows)
    {
      chips, control, chain, tasks := rows, [], map[], [];
    }

    /** `ingestSignal`: chained behind the call the map holds for the chip, and held there in its place. */
    method IngestSignal(chip: ChipId, kind: SignalKind, now: int)
      modifies this
      ensures State() == Step(old(State()), Ingest(chip, kind, now))
    {
      var prev := None;
      if chip in chain {
        prev := Some(chain[chip]);
      }
      chain := chain[chip := |tasks|];
      tasks := tasks + [Task(chip, kind, now, prev, Waiting, 0)];
    }

    /** The predecessor's promise has settled: `process` reads the row and decides. */
    method BeginProcess(i: nat)
      requires MayStart(State(), i)
      modifies this`tasks
      ensures State() == Step(old(State()), Begin(i))
    {
      var t := tasks[i];
      var row := None;
      if t.chip in chips {
        row := Some(chips[t.chip]);
      }
      tasks := tasks[i := t.(phase := Running(Plan(row, t.kind, t.now)))];
    }

    /** The next awaited operation of a call takes effect. */
    method CarryOut(i: nat)
      requires Enabled(State(), Advance(i))
      modifies this
      ensures State() == Step(old(State()), Advance(i))
    {
      var t := tasks[i];
      var op := t.phase.plan[t.done];
      if op.Send? {
        control := control + [Command(op.command, t.chip)];
      } else if !op.LogEvent? && t.chip in chips {
        var row := chips[t.chip];
        if op.SetHealth? {
          row := row.(score := op.score, fails := op.fails, lastSignal := Some(op.now));
        } else if op.SetStatus? {
          row := row.(status := op.status);
        } else if op.SetCap? {
          row := row.(cap := op.cap);
        } else {
          row := row.(status := Warming, cap := COOLDOWN_RAMP_CAP, fails := 0);
        }
        chips := chips[t.chip := row];
      }
      tasks := tasks[i := t.(done := t.done + 1)];
    }

    /** The promise of a call settles: every operation carried out, or one of them thrown. */
    method Settle(i: nat, ok: bool)
      requires Enabled(State(), if ok then Finish(i) else Throw(i))
      modifies this`tasks
      ensures State() == Step(old(State()), if ok then Finish(i) else Throw(i))
    {
      tasks := tasks[i := tasks[i].(phase := Settled(ok))];
    }
  }
}
