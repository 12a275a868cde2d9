/**
 Daily cap and pacing of openings (apps/core/src/scheduler/scheduler.service.ts:121-209, 253-265, 308-347).

 A tick resets rows, reads every row once, and then works through its dispatches on that reading: it picks a
 chip whose reading has room and whose Redis key is due, queues an opening, counts it and arms the key. Time
 passes and other writers change caps anywhere in between. Ticks do not overlap, and a dispatch that fails
 does so before its opening is queued. Nothing else is assumed of ticks and delays.
 */
module Pacing {
  import opened Prelude
  import opened SendConfig

  type ChipId = seq<CodeUnit>

  const TTL_MS := 86_400_000

  datatype Row = Row(cap: nat, sent: nat)

  datatype Key = Key(value: int, expires: int)

  datatype Current = Free | Picked | Enqueued | Counted

  datatype Phase =
    | Idle
    | Ticking(started: int, rows: map<ChipId, Row>, current: Current, chip: ChipId, jitter: Jitter)

  /** One opening: when it was queued and the jitter settings of its dispatch. */
  datatype Sent = Sent(chip: ChipId, at: int, jitter: Jitter)

  /**
   The clock, the rows, the Redis keys and the tick, with an observer's record: for each chip the largest
   cap and the number of openings since its last reset, and the log of all openings.
   */
  datatype Sched = Sched(
    now: int,
    chips: map<ChipId, Row>,
    next: map<ChipId, Key>,
    phase: Phase,
    peak: map<ChipId, nat>,
    openings: map<ChipId, nat>,
    log: seq<Sent>)

  datatype Event =
    | Wait(ms: nat)
    | StartTick(resets: map<ChipId, nat>)
    | Pick(chip: ChipId, jitter: Jitter)
    | Abandon
    | Enqueue
    | CountSent
    | Arm(u: real)
    | EndTick
    | SetCap(chip: ChipId, cap: nat)
    | AddChip(chip: ChipId)

  /** `dueBySchedule`: no key, an expired key, or one whose time has come. */
  predicate Due(s: Sched, chip: ChipId) {
    chip !in s.next || s.next[chip].expires <= s.now || s.next[chip].value <= s.now
  }

  predicate In(s: Sched, current: Current) {
    s.phase.Ticking? && s.phase.current == current
  }

  /** What the code allows. */
  predicate Enabled(s: Sched, e: Event) {
    match e
    case StartTick(resets) => s.phase.Idle? && resets.Keys <= s.chips.Keys
    case Pick(c, _) =>
      In(s, Free) && c in s.phase.rows && s.phase.rows[c].sent < s.phase.rows[c].cap && Due(s, c)
    case Abandon => In(s, Picked)
    case Enqueue => In(s, Picked)
    case CountSent => In(s, Enqueued)
    case Arm(u) => In(s, Counted) && 0.0 <= u < 1.0
    case EndTick => In(s, Free)
    case SetCap(c, _) => c in s.chips
    case AddChip(c) => c !in s.chips
    case Wait(_) => true
  }

  function Max(a: nat, b: nat): nat { if a < b then b else a }

  function ArmedFor(s: Sched, u: real): int
    requires In(s, Counted)
  {
    Delay(s.phase.jitter, Factor(s.phase.chip), u)
  }

  function Apply(s: Sched, e: Event): Sched
    requires Enabled(s, e)
  {
    match e
    case Wait(ms) => s.(now := s.now + ms)
    case StartTick(resets) =>
      var rows := map c | c in s.chips :: if c in resets then Row(resets[c], 0) else s.chips[c];
      s.(chips := rows,
         peak := map c | c in s.peak :: if c in resets then resets[c] else s.peak[c],
         openings := map c | c in s.openings :: if c in resets then 0 else s.openings[c],
         phase := Ticking(s.now, rows, Free, [], Jitter(0.0, 0.0)))
    case Pick(c, j) => s.(phase := s.phase.(current := Picked, chip := c, jitter := j))
    case Abandon => s.(phase := s.phase.(current := Free))
    case Enqueue =>
      var c := s.phase.chip;
      s.(phase := s.phase.(current := Enqueued),
         openings := if c in s.openings then s.openings[c := s.openings[c] + 1] else s.openings,
         log := s.log + [Sent(c, s.now, s.phase.jitter)])
    case CountSent =>
      var c := s.phase.chip;
      s.(phase := s.phase.(current := Counted),
         chips := if c in s.chips then s.chips[c := s.chips[c].(sent := s.chips[c].sent + 1)] else s.chips)
    case Arm(u) =>
      s.(phase := s.phase.(current := Free),
         next := s.next[s.phase.chip := Key(s.now + ArmedFor(s, u), s.now + TTL_MS)])
    case EndTick => s.(phase := Idle)
    case SetCap(c, cap) =>
      s.(chips := s.chips[c := s.chips[c].(cap := cap)],
         peak := if c in s.peak then s.peak[c := Max(s.peak[c], cap)] else s.peak)
    case AddChip(c) =>
      s.(chips := s.chips[c := Row(0, 0)], peak := s.peak[c := 0], openings := s.openings[c := 0])
  }

  ghost predicate AllEnabled(s: Sched, es: seq<Event>)
    decreases |es|
  {
    es == [] || (Enabled(s, es[0]) && AllEnabled(Apply(s, es[0]), es[1..]))
  }

  ghost function Run(s: Sched, es: seq<Event>): Sched
    requires AllEnabled(s, es)
    decreases |es|
  {
    if es == [] then s else Run(Apply(s, es[0]), es[1..])
  }

  /** A scheduler that has not ticked yet, with no chips. */
  function Begun(now: int): Sched {
    Sched(now, map[], map[], Idle, map[], map[], [])
  }

  predicate BusyWith(s: Sched, c: ChipId) {
    s.phase.Ticking? && !s.phase.current.Free? && s.phase.chip == c
  }

  // ---------------------------------------------------------------- the cap

  /** An operator's view of one chip: how long a tick may take, and the jitter settings of the flows that use it. */
  datatype Setting = Setting(tick: nat, chip: ChipId, flows: set<Jitter>)

  predicate Fits(s: Sched, e: Event, o: Setting) {
    match e
    case Wait(ms) => s.phase.Ticking? ==> s.now + ms <= s.phase.started + o.tick
    case Pick(c, j) => c == o.chip ==> j in o.flows
    case _ => true
  }

  /** A run in which no tick takes longer and the chip serves no other flows. */
  ghost predicate Fitting(s: Sched, es: seq<Event>, o: Setting)
    requires AllEnabled(s, es)
    decreases |es|
  {
    es == [] || (Fits(s, es[0], o) && Fitting(Apply(s, es[0]), es[1..], o))
  }

  /** Every delay the chip may be armed with outlasts a tick, and so does its key. */
  predicate Outlasts(o: Setting) {
    forall j :: j in o.flows ==> o.tick < LeastDelay(j, o.chip) && o.tick < TTL_MS
  }

  /** Openings of the period are the counted ones and the one being counted, and never above the peak cap. */
  predicate CountedAt(s: Sched, c: ChipId) {
    c in s.chips ==>
      && c in s.peak && c in s.openings
      && s.openings[c] == s.chips[c].sent + (if BusyWith(s, c) && s.phase.current == Enqueued then 1 else 0)
      && s.chips[c].cap <= s.peak[c]
      && s.openings[c] <= s.peak[c]
  }

  /** The chip's key keeps it from being picked again in this tick. */
  predicate Blocked(s: Sched, o: Setting)
    requires s.phase.Ticking?
  {
    && o.chip in s.next
    && s.next[o.chip].value > s.phase.started + o.tick && s.next[o.chip].expires > s.phase.started + o.tick
  }

  /** The tick's reading of the chip is still right unless the chip is being counted or blocked. */
  predicate ReadAt(s: Sched, o: Setting)
    requires s.phase.Ticking?
  {
    var c := o.chip;
    c in s.phase.rows ==>
      && c in s.chips && c in s.peak
      && s.phase.rows[c].cap <= s.peak[c]
      && ((BusyWith(s, c) && s.phase.current == Counted)
          || s.phase.rows[c].sent == s.chips[c].sent
          || (Blocked(s, o) && !BusyWith(s, c)))
  }

  predicate Capped(s: Sched, o: Setting) {
    && s.peak.Keys == s.openings.Keys == s.chips.Keys
    && CountedAt(s, o.chip)
    && (s.phase.Ticking? ==>
          && s.phase.started <= s.now <= s.phase.started + o.tick
          && s.phase.rows.Keys <= s.chips.Keys
          && ReadAt(s, o)
          && (BusyWith(s, o.chip) ==>
                && s.phase.jitter in o.flows
                && o.chip in s.phase.rows && s.phase.rows[o.chip].sent < s.phase.rows[o.chip].cap))
  }

  lemma ArmKeepsCapped(s: Sched, u: real, o: Setting)
    requires Capped(s, o) && Outlasts(o) && Enabled(s, Arm(u))
    ensures Capped(Apply(s, Arm(u)), o)
  {
    if s.phase.chip == o.chip {
      LeastDelayIsLeast(s.phase.jitter, o.chip, u);
    }
  }

  lemma SendKeepsCapped(s: Sched, e: Event, o: Setting)
    requires Capped(s, o) && Enabled(s, e) && (e.Pick? || e.Abandon? || e.Enqueue? || e.CountSent?) && Fits(s, e, o)
    ensures Capped(Apply(s, e), o)
  {
  }

  lemma ApplyKeepsCapped(s: Sched, e: Event, o: Setting)
    requires Capped(s, o) && Outlasts(o) && Enabled(s, e) && Fits(s, e, o)
    ensures Capped(Apply(s, e), o)
  {
    if e.Arm? {
      ArmKeepsCapped(s, e.u, o);
    } else if e.Pick? || e.Abandon? || e.Enqueue? || e.CountSent? {
      SendKeepsCapped(s, e, o);
    }
  }

  lemma {:induction false} RunKeepsCapped(s: Sched, es: seq<Event>, o: Setting)
    requires Capped(s, o) && Outlasts(o) && AllEnabled(s, es) && Fitting(s, es, o)
    ensures Capped(Run(s, es), o)
    decreases |es|
  {
    if es != [] {
      ApplyKeepsCapped(s, es[0], o);
      RunKeepsCapped(Apply(s, es[0]), es[1..], o);
    }
  }

  predicate WithinCap(s: Sched, c: ChipId) {
    c in s.openings && c in s.peak ==> s.openings[c] <= s.peak[c]
  }

  /**
   Daily cap: when every delay of the chip outlasts a tick, then at every point of every run its openings since
   the last reset are at most the largest cap it has held since then.
   */
  lemma DailyCapHolds(now: int, es: seq<Event>, o: Setting)
    requires Outlasts(o) && AllEnabled(Begun(now), es) && Fitting(Begun(now), es, o)
    ensures WithinCap(Run(Begun(now), es), o.chip)
  {
    RunKeepsCapped(Begun(now), es, o);
  }

  // ---------------------------------------------------------------- the cap, exactly

  /** A scheduler with one chip of cap 1, in a tick that read it unused; `sent` openings are counted, `queued` queued. */
  function Scene(now: int, phase: Phase, c: ChipId, sent: nat, queued: nat, next: map<ChipId, Key>, log: seq<Sent>): Sched {
    Sched(now, map[c := Row(1, sent)], next, phase, map[c := 1], map[c := queued], log)
  }

  function Reading(c: ChipId, started: int, current: Current, busy: ChipId, j: Jitter): Phase {
    Ticking(started, map[c := Row(1, 0)], current, busy, j)
  }

  /** What leads from an empty scheduler to a tick with that chip. */
  function OneChip(c: ChipId): seq<Event> {
    [AddChip(c), SetCap(c, 1), StartTick(map[])]
  }

  lemma RunOne(s: Sched, e: Event, es: seq<Event>, o: Setting)
    requires Enabled(s, e) && Fits(s, e, o)
    requires AllEnabled(Apply(s, e), es) && Fitting(Apply(s, e), es, o)
    ensures AllEnabled(s, [e] + es) && Fitting(s, [e] + es, o) && Run(s, [e] + es) == Run(Apply(s, e), es)
  {
    assert ([e] + es)[1..] == es;
  }

  lemma {:induction false} RunConcat(s: Sched, a: seq<Event>, b: seq<Event>, o: Setting)
    requires AllEnabled(s, a) && Fitting(s, a, o)
    requires AllEnabled(Run(s, a), b) && Fitting(Run(s, a), b, o)
    ensures AllEnabled(s, a + b) && Fitting(s, a + b, o) && Run(s, a + b) == Run(Run(s, a), b)
    decreases |a|
  {
    if a == [] {
      assert a + b == b;
    } else {
      RunConcat(Apply(s, a[0]), a[1..], b, o);
      RunOne(s, a[0], a[1..] + b, o);
      assert [a[0]] + (a[1..] + b) == a + b;
    }
  }

  lemma TickBegins(c: ChipId, now: int, o: Setting)
    ensures AllEnabled(Begun(now), OneChip(c)) && Fitting(Begun(now), OneChip(c), o)
    ensures Run(Begun(now), OneChip(c)) == Scene(now, Reading(c, now, Free, [], Jitter(0.0, 0.0)), c, 0, 0, map[], [])
  {
    var s0, tail, last := Begun(now), [SetCap(c, 1), StartTick(map[])], [StartTick(map[])];
    var s1 := Apply(s0, AddChip(c));
    assert s1.chips == map[c := Row(0, 0)] && s1.peak == map[c := 0] && s1.openings == map[c := 0];
    var s2 := Apply(s1, SetCap(c, 1));
    assert s2.chips == map[c := Row(1, 0)] && s2.peak == map[c := 1];
    var s3 := Apply(s2, StartTick(map[]));
    assert s3.chips == map[c := Row(1, 0)] && s3.peak == map[c := 1] && s3.openings == map[c := 0];
    assert last[1..] == [] && tail[1..] == last && OneChip(c)[1..] == tail;
    assert AllEnabled(s3, []) && AllEnabled(s2, last) && AllEnabled(s1, tail);
    assert Fitting(s2, last, o) && Fitting(s1, tail, o);
    assert Run(s2, last) == s3 && Run(s1, tail) == s3;
  }

  /** What follows the choice of a chip. */
  function Serving(): seq<Event> {
    [Enqueue] + ([CountSent] + [Arm(0.0)])
  }

  /** One dispatch of a tick, some time after the one before. */
  function Dispatch(c: ChipId, j: Jitter, pause: nat): seq<Event> {
    [Wait(pause)] + ([Pick(c, j)] + Serving())
  }

  lemma ArmScene(now: int, c: ChipId, j: Jitter, started: int, sent: nat, next: map<ChipId, Key>, log: seq<Sent>, o: Setting)
    ensures var s := Scene(now, Reading(c, started, Counted, c, j), c, sent, sent, next, log);
      && AllEnabled(s, [Arm(0.0)]) && Fitting(s, [Arm(0.0)], o)
      && Run(s, [Arm(0.0)]) == Scene(now, Reading(c, started, Free, c, j), c, sent, sent,
                                     next[c := Key(now + LeastDelay(j, c), now + TTL_MS)], log)
  {
    var s := Scene(now, Reading(c, started, Counted, c, j), c, sent, sent, next, log);
    assert [Arm(0.0)][1..] == [] && AllEnabled(Apply(s, Arm(0.0)), []);
  }

  lemma CountScene(s: Sched, c: ChipId, sent: nat, phase: Phase, o: Setting)
    requires phase.Ticking? && phase.current == Enqueued && phase.chip == c
    requires s == Scene(s.now, phase, c, sent, sent + 1, s.next, s.log)
    ensures Enabled(s, CountSent) && Fits(s, CountSent, o)
    ensures Apply(s, CountSent) == Scene(s.now, phase.(current := Counted), c, sent + 1, sent + 1, s.next, s.log)
  {
    assert Apply(s, CountSent).chips == map[c := Row(1, sent + 1)];
  }

  lemma EnqueueScene(s: Sched, c: ChipId, sent: nat, phase: Phase, o: Setting)
    requires phase.Ticking? && phase.current == Picked && phase.chip == c
    requires s == Scene(s.now, phase, c, sent, sent, s.next, s.log)
    ensures Enabled(s, Enqueue) && Fits(s, Enqueue, o)
    ensures Apply(s, Enqueue) == Scene(s.now, phase.(current := Enqueued), c, sent, sent + 1, s.next,
                                       s.log + [Sent(c, s.now, phase.jitter)])
  {
    assert Apply(s, Enqueue).openings == map[c := sent + 1];
  }

  lemma PickedIsServed(s: Sched, c: ChipId, j: Jitter, sent: nat, started: int, o: Setting)
    requires s == Scene(s.now, Reading(c, started, Picked, c, j), c, sent, sent, s.next, s.log)
    ensures AllEnabled(s, Serving()) && Fitting(s, Serving(), o)
    ensures Run(s, Serving()) == Scene(s.now, Reading(c, started, Free, c, j), c, sent + 1, sent + 1,
                                       s.next[c := Key(s.now + LeastDelay(j, c), s.now + TTL_MS)],
                                       s.log + [Sent(c, s.now, j)])
  {
    EnqueueScene(s, c, sent, s.phase, o);
    var s1 := Apply(s, Enqueue);
    CountScene(s1, c, sent, s1.phase, o);
    var s2 := Apply(s1, CountSent);
    ArmScene(s2.now, c, j, started, sent + 1, s2.next, s2.log, o);
    RunOne(s1, CountSent, [Arm(0.0)], o);
    RunOne(s, Enqueue, [CountSent] + [Arm(0.0)], o);
  }

  /** In a tick that read the chip unused, a due chip is served whatever it has sent since. */
  lemma DispatchServes(s: Sched, c: ChipId, j: Jitter, pause: nat, sent: nat, phase: Phase, o: Setting)
    requires phase.Ticking? && phase == Reading(c, phase.started, Free, phase.chip, phase.jitter)
    requires s == Scene(s.now, phase, c, sent, sent, s.next, s.log)
    requires o.chip == c && j in o.flows && s.now + pause <= phase.started + o.tick && Due(s.(now := s.now + pause), c)
    ensures var now, es := s.now + pause, Dispatch(c, j, pause);
      && AllEnabled(s, es) && Fitting(s, es, o)
      && Run(s, es) == Scene(now, Reading(c, phase.started, Free, c, j), c, sent + 1, sent + 1,
                             s.next[c := Key(now + LeastDelay(j, c), now + TTL_MS)],
                             s.log + [Sent(c, now, j)])
  {
    var s1 := Apply(s, Wait(pause));
    PickedIsServed(Apply(s1, Pick(c, j)), c, j, sent, phase.started, o);
    RunOne(s1, Pick(c, j), Serving(), o);
    RunOne(s, Wait(pause), [Pick(c, j)] + Serving(), o);
  }

  /** `n` dispatches of one tick, each but the first after a pause. */
  function Dispatches(c: ChipId, j: Jitter, pause: nat, n: nat): seq<Event> {
    if n == 0 then OneChip(c) else Dispatches(c, j, pause, n - 1) + Dispatch(c, j, if n == 1 then 0 else pause)
  }

  function Elapsed(pause: nat, n: nat): nat {
    if n <= 1 then 0 else Elapsed(pause, n - 1) + pause
  }

  /** After a pause that is no shorter than the least delay, or the key's lifetime, the chip is due again. */
  predicate TooShort(j: Jitter, c: ChipId, pause: nat) {
    LeastDelay(j, c) <= pause || TTL_MS <= pause
  }

  /** The chip is as its last dispatch of the tick left it. */
  predicate Overdrawn(s: Sched, now: int, c: ChipId, j: Jitter, pause: nat, n: nat) {
    && s.now == now + Elapsed(pause, n)
    && s.phase.Ticking? && s.phase == Reading(c, now, Free, s.phase.chip, s.phase.jitter)
    && s == Scene(s.now, s.phase, c, n, n, s.next, s.log)
    && (if n == 0 then s.next == map[]
        else c in s.next && s.next[c] == Key(s.now + LeastDelay(j, c), s.now + TTL_MS))
  }

  /** One tick on a stale reading: a chip with a cap of one is served as often as its delay fits into the tick. */
  lemma {:induction false} StaleTickServes(now: int, c: ChipId, j: Jitter, pause: nat, n: nat, o: Setting)
    requires o.chip == c && j in o.flows && TooShort(j, c, pause) && Elapsed(pause, n) <= o.tick
    ensures var es := Dispatches(c, j, pause, n);
      && AllEnabled(Begun(now), es) && Fitting(Begun(now), es, o)
      && Overdrawn(Run(Begun(now), es), now, c, j, pause, n)
  {
    if n == 0 {
      TickBegins(c, now, o);
    } else {
      StaleTickServes(now, c, j, pause, n - 1, o);
      var before := Dispatches(c, j, pause, n - 1);
      var s, wait := Run(Begun(now), before), if n == 1 then 0 else pause;
      DispatchServes(s, c, j, wait, n - 1, s.phase, o);
      RunConcat(Begun(now), before, Dispatch(c, j, wait), o);
    }
  }

  /**
   The daily cap, exactly: for any bound on ticks and any jitter settings of a chip's flows, every run keeps
   the chip within its cap if and only if the least delay of each flow, and the key's lifetime, outlast a tick.
   */
  lemma CapHoldsExactly(now: int, o: Setting)
    ensures var s := Begun(now);
      (forall es :: AllEnabled(s, es) && Fitting(s, es, o) ==> WithinCap(Run(s, es), o.chip)) <==> Outlasts(o)
  {
    if Outlasts(o) {
      forall es | AllEnabled(Begun(now), es) && Fitting(Begun(now), es, o) ensures WithinCap(Run(Begun(now), es), o.chip) {
        DailyCapHolds(now, es, o);
      }
    } else {
      var j :| j in o.flows && !(o.tick < LeastDelay(j, o.chip) && o.tick < TTL_MS);
      StaleTickServes(now, o.chip, j, o.tick, 2, o);
      assert !WithinCap(Run(Begun(now), Dispatches(o.chip, j, o.tick, 2)), o.chip);
    }
  }

  const NO_JITTER := Jitter(0.0, 0.0)

  lemma NoGap(c: ChipId)
    ensures LeastDelay(NO_JITTER, c) == 0
  {
    assert Drawn(0.0, 1.0) == 0.0;
    assert 0.0 * Factor(c) == 0.0;
  }

  lemma {:induction false} NoTimePasses(n: nat)
    ensures Elapsed(0, n) == 0
  {
    if n > 1 {
      NoTimePasses(n - 1);
    }
  }

  /** Zero is an accepted minimum, and then no time at all is needed: one tick queues any number on a cap of one. */
  lemma ZeroJitterBreaksTheCap(now: int, c: ChipId, n: nat)
    ensures var es := Dispatches(c, NO_JITTER, 0, n);
      && AllEnabled(Begun(now), es)
      && var s := Run(Begun(now), es); s.now == now && s.openings == map[c := n] && s.peak == map[c := 1]
  {
    NoGap(c);
    NoTimePasses(n);
    StaleTickServes(now, c, NO_JITTER, 0, n, Setting(0, c, {NO_JITTER}));
  }

  // ---------------------------------------------------------------- the pace

  predicate Unarmed(s: Sched) {
    In(s, Enqueued) || In(s, Counted)
  }

  function Min(a: int, b: int): int { if a < b then a else b }

  /** When the chip's least delay after an opening is over, or its key gone. */
  function FreeAt(sent: Sent): int {
    sent.at + Min(LeastDelay(sent.jitter, sent.chip), TTL_MS)
  }

  /** The gap after opening `i` is over, or its chip's key is good until it is, or that key is about to be set. */
  predicate SpacedAt(s: Sched, i: nat)
    requires i < |s.log|
  {
    var sent := s.log[i];
    && sent.at <= s.now
    && (|| FreeAt(sent) <= s.now
        || (sent.chip in s.next && FreeAt(sent) <= s.next[sent.chip].value && FreeAt(sent) <= s.next[sent.chip].expires
            && !BusyWith(s, sent.chip))
        || (Unarmed(s) && i == |s.log| - 1))
  }

  /** Openings are logged as they happen, and two of one chip with the gap between. */
  predicate InOrder(a: Sent, b: Sent) {
    a.at <= b.at && (a.chip == b.chip ==> FreeAt(a) <= b.at)
  }

  predicate Paced(s: Sched) {
    && (forall i :: 0 <= i < |s.log| ==> SpacedAt(s, i))
    && (forall i, j :: 0 <= i < j < |s.log| ==> InOrder(s.log[i], s.log[j]))
    && (Unarmed(s) ==>
          && s.log != []
          && s.log[|s.log| - 1].chip == s.phase.chip
          && s.log[|s.log| - 1].jitter == s.phase.jitter)
  }

  lemma SpacingStays(s: Sched, e: Event, i: nat)
    requires Paced(s) && Enabled(s, e) && i < |Apply(s, e).log|
    ensures SpacedAt(Apply(s, e), i)
  {
    if e.Arm? {
      LeastDelayIsLeast(s.phase.jitter, s.phase.chip, e.u);
    }
    if i < |s.log| {
      assert SpacedAt(s, i);
    }
  }

  lemma ApplyKeepsPaced(s: Sched, e: Event)
    requires Paced(s) && Enabled(s, e)
    ensures Paced(Apply(s, e))
  {
    var s' := Apply(s, e);
    forall i | 0 <= i < |s'.log| ensures SpacedAt(s', i) {
      SpacingStays(s, e, i);
    }
    forall i, j | 0 <= i < j < |s'.log| ensures InOrder(s'.log[i], s'.log[j]) {
      assert SpacedAt(s, i);
    }
  }

  lemma {:induction false} RunKeepsPaced(s: Sched, es: seq<Event>)
    requires Paced(s) && AllEnabled(s, es)
    ensures Paced(Run(s, es))
    decreases |es|
  {
    if es != [] {
      ApplyKeepsPaced(s, es[0]);
      RunKeepsPaced(Apply(s, es[0]), es[1..]);
    }
  }

  /**
   Pacing: in every run, however long its ticks and short its delays, any two openings of one chip are at least
   the chip's own least delay under the earlier dispatch's settings apart; a day is enough where that outlives
   the key.
   */
  lemma OpeningsArePaced(now: int, es: seq<Event>, i: nat, j: nat)
    requires AllEnabled(Begun(now), es)
    requires var log := Run(Begun(now), es).log; i < j < |log| && log[i].chip == log[j].chip
    ensures var log := Run(Begun(now), es).log;
      && log[i].at <= log[j].at
      && log[j].at - log[i].at >= Min(LeastDelay(log[i].jitter, log[i].chip), TTL_MS)
  {
    RunKeepsPaced(Begun(now), es);
    var log := Run(Begun(now), es).log;
    assert InOrder(log[i], log[j]);
  }

  /** Whatever the chip, that is three quarters of the configured minimum at least, rounded as the code rounds. */
  lemma OpeningsAreMinGapApart(now: int, es: seq<Event>, i: nat, j: nat)
    requires AllEnabled(Begun(now), es)
    requires var log := Run(Begun(now), es).log; i < j < |log| && log[i].chip == log[j].chip
    ensures var log := Run(Begun(now), es).log; log[j].at - log[i].at >= Min(MinGap(log[i].jitter), TTL_MS)
  {
    OpeningsArePaced(now, es, i, j);
    var sent := Run(Begun(now), es).log[i];
    DelayIsAtLeastMinGap(sent.jitter, sent.chip, 0.0);
  }

  // ---------------------------------------------------------------- the Redis keys of the scheduler

  class SendKeys {
    var next: map<ChipId, Key>

    constructor ()
      ensures next == map[]
    {
      next := map[];
    }

    method DueBySchedule(chip: ChipId, now: int) returns (due: bool)
      ensures due == Due(Begun(now).(next := next), chip)
      ensures due <==> chip !in next || next[chip].expires <= now || next[chip].value <= now
    {
      if chip !in next || next[chip].expires <= now {
        return true;
      }
      due := next[chip].value <= now;
    }

    /** `armNextSend`: a flow's jitter where it sets one, the defaults elsewhere. */
    method ArmNextSend(chip: ChipId, flowMin: Option<real>, flowMax: Option<real>, defaults: Jitter, u: real, now: int)
      requires 0.0 <= u < 1.0
      modifies this
      ensures var j := Jitter(flowMin.GetOr(defaults.min), flowMax.GetOr(defaults.max));
        && next == old(next)[chip := Key(now + Delay(j, Factor(chip), u), now + TTL_MS)]
        && next[chip].expires == now + 24 * 3_600_000
        && (MinGap(j) <= 0 || now + MinGap(j) <= next[chip].value)
        && (j.max - j.min > 1.0 ==> next[chip].value <= now + Round(j.max * Factor(chip)))
        && (j.max - j.min <= 1.0 ==> next[chip].value == now + Round(j.min * Factor(chip)))
    {
      var j := Jitter(flowMin.GetOr(defaults.min), flowMax.GetOr(defaults.max));
      var delay := DrawDelay(j, chip, u);
      next := next[chip := Key(now + delay, now + TTL_MS)];
    }
  }
}
