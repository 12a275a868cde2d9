/**
 Answering inbound messages (apps/core/src/conversation/conversation.service.ts:105-174, 248-329, 403-492).

 The INBOUND queue is worked off by four handlers at once and retries a handler that throws; a redelivery or
 a retry is simply one more handler for the same event. A handler is cut at its awaits: the duplicate check,
 the reading of the conversation and then of its messages, the insert under the unique index on chip and message id
 (prisma/schema.prisma:252), the enqueue of the reply and the marking of the released link.
 */
module Inbound {
  import opened Prelude

  type ChipId = string
  type ConvId = string
  type MessageId = string

  datatype Direction = In | Out

  /** An event with the conversation it belongs to; the message id can be missing. */
  datatype Event = Event(chip: ChipId, message: Option<MessageId>, conv: ConvId)

  /** A conversation: whether its link went out, the inbound messages recorded, and what its flow asks for first. */
  datatype Conv = Conv(linkSent: bool, inbound: nat, minTurns: int)

  /** Which way the turn goes once the text is judged. */
  datatype Plan = AskedOut | Handoff | Answer

  datatype Stage =
    | Arrived
    | Checked
    | Read(linkSent: bool)
    | Ready(plan: Plan, release: bool)
    | Recorded(release: bool)
    | Enqueued(release: bool)
    | Over

  datatype Handler = Handler(event: Event, stage: Stage)

  /** A reply job, with the inbound messages recorded for its conversation when it was queued. */
  datatype Job = Job(event: Event, link: bool, recorded: nat)

  type Key = (ChipId, MessageId)

  datatype World = World(
    keys: map<Key, Direction>,
    convs: map<ConvId, Conv>,
    handlers: seq<Handler>,
    jobs: seq<Job>)

  datatype Step =
    | Arrive(event: Event)
    | CheckDup(handler: nat)
    | ReadConv(handler: nat)
    | ReadHistory(handler: nat, plan: Plan, wanted: bool)
    | Record(handler: nat)
    | Enqueue(handler: nat)
    | Mark(handler: nat)
    | Fail(handler: nat)
    | Receipt(chip: ChipId, message: MessageId)

  // ---------------------------------------------------------------- the steps

  /** The duplicate check looks for the message id alone, whichever chip heard it. */
  ghost predicate Seen(w: World, message: Option<MessageId>) {
    message.Some? && exists chip :: (chip, message.value) in w.keys && w.keys[(chip, message.value)] == In
  }

  predicate Blocked(w: World, e: Event) {
    e.message.Some? && (e.chip, e.message.value) in w.keys
  }

  /**
   `shouldReleaseLink` on the history as read, this message included, and the link not sent when the
   conversation was read; `wanted` stands for an intent keyword in the text and a link to send.
   */
  predicate Releases(c: Conv, linkSent: bool, plan: Plan, wanted: bool) {
    plan == Answer && wanted && c.inbound + 1 >= c.minTurns && !linkSent
  }

  function SetStage(w: World, i: nat, stage: Stage): World
    requires i < |w.handlers|
  {
    w.(handlers := w.handlers[i := w.handlers[i].(stage := stage)])
  }

  function Insert(keys: map<Key, Direction>, e: Event): map<Key, Direction> {
    if e.message.Some? then keys[(e.chip, e.message.value) := In] else keys
  }

  ghost function Apply(w: World, s: Step): World {
    match s
    case Arrive(e) => w.(handlers := w.handlers + [Handler(e, Arrived)])
    case CheckDup(i) =>
      if i < |w.handlers| && w.handlers[i].stage.Arrived?
      then SetStage(w, i, if Seen(w, w.handlers[i].event.message) then Over else Checked)
      else w
    case ReadConv(i) =>
      if i < |w.handlers| && w.handlers[i].stage.Checked?
      then
        var conv := w.handlers[i].event.conv;
        SetStage(w, i, if conv in w.convs then Read(w.convs[conv].linkSent) else Over)
      else w
    case ReadHistory(i, plan, wanted) =>
      if i < |w.handlers| && w.handlers[i].stage.Read?
      then
        var h := w.handlers[i];
        SetStage(w, i, if h.event.conv in w.convs
                       then Ready(plan, Releases(w.convs[h.event.conv], h.stage.linkSent, plan, wanted))
                       else Over)
      else w
    case Record(i) =>
      if i < |w.handlers| && w.handlers[i].stage.Ready?
      then
        var h := w.handlers[i];
        if Blocked(w, h.event) || h.event.conv !in w.convs then SetStage(w, i, Over)
        else
          var c := w.convs[h.event.conv];
          SetStage(w, i, if h.stage.plan == AskedOut then Over else Recorded(h.stage.release))
          .(keys := Insert(w.keys, h.event), convs := w.convs[h.event.conv := c.(inbound := c.inbound + 1)])
      else w
    case Enqueue(i) =>
      if i < |w.handlers| && w.handlers[i].stage.Recorded? && w.handlers[i].event.conv in w.convs
      then
        var h := w.handlers[i];
        SetStage(w, i, Enqueued(h.stage.release))
        .(jobs := w.jobs + [Job(h.event, h.stage.release, w.convs[h.event.conv].inbound)])
      else w
    case Mark(i) =>
      if i < |w.handlers| && w.handlers[i].stage.Enqueued? && w.handlers[i].event.conv in w.convs
      then
        var h := w.handlers[i];
        SetStage(w, i, Over)
        .(convs := if h.stage.release
                   then w.convs[h.event.conv := w.convs[h.event.conv].(linkSent := true)]
                   else w.convs)
      else w
    case Fail(i) => if i < |w.handlers| then SetStage(w, i, Over) else w
    case Receipt(chip, message) =>
      if (chip, message) in w.keys then w else w.(keys := w.keys[(chip, message) := Out])
  }

  ghost function Run(w: World, steps: seq<Step>): World
    decreases |steps|
  {
    if steps == [] then w else Run(Apply(w, steps[0]), steps[1..])
  }

  /** Before any inbound message. */
  function Begun(convs: map<ConvId, Conv>): World {
    World(map[], convs, [], [])
  }

  lemma StageCounts(w: World, i: nat, stage: Stage, p: Handler -> bool)
    requires i < |w.handlers|
    ensures Count(SetStage(w, i, stage).handlers, p) + (if p(w.handlers[i]) then 1 else 0)
         == Count(w.handlers, p) + (if p(w.handlers[i].(stage := stage)) then 1 else 0)
  {
    CountUpdate(w.handlers, i, w.handlers[i].(stage := stage), p);
  }

  /** The stage a step leaves handler `i` in. */
  ghost function StageAfter(w: World, s: Step, i: nat): Stage
    requires i < |w.handlers|
  {
    Apply(w, s).handlers[i].stage
  }

  /** A step changes at most the stage of the handler it names, and appends at most one job or handler. */
  lemma OneHandlerMoves(w: World, s: Step, i: nat)
    requires !s.Arrive? && !s.Receipt? && i == s.handler
    ensures i < |w.handlers| ==>
      && |Apply(w, s).handlers| == |w.handlers|
      && Apply(w, s).handlers == SetStage(w, i, StageAfter(w, s, i)).handlers
    ensures i >= |w.handlers| ==> Apply(w, s) == w
  {
    if i < |w.handlers| {
      var same := w.handlers[i := w.handlers[i].(stage := w.handlers[i].stage)];
      assert same == w.handlers;
    }
  }

  // ---------------------------------------------------------------- at most one reply per message

  function ReplyTo(key: Key): Job -> bool {
    (j: Job) => j.event.chip == key.0 && j.event.message == Some(key.1)
  }

  function RecordedFor(key: Key): Handler -> bool {
    (h: Handler) => h.stage.Recorded? && h.event.chip == key.0 && h.event.message == Some(key.1)
  }

  /** A reply queued, or about to be, presupposes the one row the index allows. */
  ghost predicate Once(w: World, key: Key) {
    Count(w.jobs, ReplyTo(key)) + Count(w.handlers, RecordedFor(key)) <= (if key in w.keys then 1 else 0)
  }

  lemma EnqueueKeepsOnce(w: World, i: nat, key: Key)
    requires Once(w, key)
    ensures Once(Apply(w, Enqueue(i)), key)
  {
    if i < |w.handlers| {
      var h := w.handlers[i];
      if h.stage.Recorded? && h.event.conv in w.convs {
        StageCounts(w, i, Enqueued(h.stage.release), RecordedFor(key));
        CountAppend(w.jobs, Job(h.event, h.stage.release, w.convs[h.event.conv].inbound), ReplyTo(key));
      }
    }
  }

  lemma ApplyKeepsOnce(w: World, s: Step, key: Key)
    requires Once(w, key)
    ensures Once(Apply(w, s), key)
  {
    if s.Enqueue? {
      EnqueueKeepsOnce(w, s.handler, key);
    } else if s.Arrive? {
      CountAppend(w.handlers, Handler(s.event, Arrived), RecordedFor(key));
    } else if !s.Receipt? && s.handler < |w.handlers| {
      OneHandlerMoves(w, s, s.handler);
      StageCounts(w, s.handler, StageAfter(w, s, s.handler), RecordedFor(key));
    }
  }

  /**
   Inbound is at-most-once: for any handlers, retries and failures in any interleaving, at most one reply
   job is ever queued for a message that has an id.
   */
  lemma {:induction false} AtMostOneReply(w: World, steps: seq<Step>, key: Key)
    requires Once(w, key)
    ensures Count(Run(w, steps).jobs, ReplyTo(key)) <= 1
    decreases |steps|
  {
    if steps != [] {
      ApplyKeepsOnce(w, steps[0], key);
      AtMostOneReply(Apply(w, steps[0]), steps[1..], key);
    }
  }

  lemma AtMostOnce(convs: map<ConvId, Conv>, steps: seq<Step>, key: Key)
    ensures Count(Run(Begun(convs), steps).jobs, ReplyTo(key)) <= 1
  {
    AtMostOneReply(Begun(convs), steps, key);
  }

  // ---------------------------------------------------------------- the link

  /** A conversation only gains: messages are never taken back, and a sent link stays sent. */
  lemma ConvsOnlyGain(w: World, s: Step, conv: ConvId)
    requires conv in w.convs
    ensures conv in Apply(w, s).convs
    ensures var c, c' := w.convs[conv], Apply(w, s).convs[conv];
      c.inbound <= c'.inbound && (c.linkSent ==> c'.linkSent) && c'.minTurns == c.minTurns
  {
  }

  /** A turn that will release, or has queued, a link has the messages its flow asks for. */
  ghost predicate Earned(w: World, conv: ConvId) {
    conv in w.convs ==>
      var c := w.convs[conv];
      && (forall h :: h in w.handlers && h.event.conv == conv ==>
            && (h.stage.Ready? && h.stage.release ==> c.inbound + 1 >= c.minTurns)
            && (h.stage.Recorded? && h.stage.release ==> c.inbound >= c.minTurns))
      && (forall j :: j in w.jobs && j.event.conv == conv && j.link ==> c.minTurns <= j.recorded <= c.inbound)
  }

  lemma ApplyKeepsEarned(w: World, s: Step, conv: ConvId)
    requires Earned(w, conv)
    ensures conv in w.convs ==> Earned(Apply(w, s), conv)
  {
    if conv in w.convs {
      var w' := Apply(w, s);
      ConvsOnlyGain(w, s, conv);
      if !s.Arrive? && !s.Receipt? {
        OneHandlerMoves(w, s, s.handler);
      }
      forall h | h in w'.handlers && h.event.conv == conv
        ensures h.stage.Ready? && h.stage.release ==> w'.convs[conv].inbound + 1 >= w'.convs[conv].minTurns
        ensures h.stage.Recorded? && h.stage.release ==> w'.convs[conv].inbound >= w'.convs[conv].minTurns
      {
        if h !in w.handlers && !s.Arrive? {
          assert w.handlers[s.handler] in w.handlers;
        }
      }
      forall j | j in w'.jobs && j.event.conv == conv && j.link
        ensures w'.convs[conv].minTurns <= j.recorded <= w'.convs[conv].inbound
      {
        if j !in w.jobs {
          assert w.handlers[s.handler] in w.handlers;
        }
      }
    }
  }

  /**
   Whatever interleaves, a link never goes out early: when its job was queued, at least as many inbound
   messages as the flow asks for were recorded in the conversation.
   */
  lemma {:induction false} LinkIsEarned(w: World, steps: seq<Step>, conv: ConvId)
    requires conv in w.convs && Earned(w, conv)
    ensures conv in Run(w, steps).convs
    ensures forall j :: j in Run(w, steps).jobs && j.event.conv == conv && j.link ==>
      w.convs[conv].minTurns <= j.recorded
    decreases |steps|
  {
    if steps != [] {
      ConvsOnlyGain(w, steps[0], conv);
      ApplyKeepsEarned(w, steps[0], conv);
      LinkIsEarned(Apply(w, steps[0]), steps[1..], conv);
    }
  }

  /**
   What makes a message a duplicate: it was one before, or this step records it. Receipts of own messages never
   do, and nothing makes it new again.
   */
  lemma SeenExactly(w: World, s: Step, message: MessageId)
    ensures Seen(Apply(w, s), Some(message)) <==>
      || Seen(w, Some(message))
      || (&& s.Record? && s.handler < |w.handlers| && w.handlers[s.handler].stage.Ready?
          && w.handlers[s.handler].event.message == Some(message) && w.handlers[s.handler].event.conv in w.convs
          && (w.handlers[s.handler].event.chip, message) !in w.keys)
  {
    var w' := Apply(w, s);
    if chip :| (chip, message) in w.keys && w.keys[(chip, message)] == In {
      assert (chip, message) in w'.keys && w'.keys[(chip, message)] == In;
    }
    if s.Record? && s.handler < |w.handlers| {
      var chip := w.handlers[s.handler].event.chip;
      assert w'.keys != w.keys ==> (chip, w.handlers[s.handler].event.message.value) in w'.keys;
    }
  }

  /** The handlers whose text was judged an answer that shows intent, a link being there to send. */
  function AskedBy(steps: seq<Step>): set<int> {
    set s | s in steps && s.ReadHistory? && s.plan == Answer && s.wanted :: s.handler
  }

  predicate Releasing(h: Handler) {
    (h.stage.Ready? || h.stage.Recorded? || h.stage.Enqueued?) && h.stage.release
  }

  predicate ReleasedBy(w: World, asked: set<int>, j: Job, i: int) {
    0 <= i < |w.handlers| && i in asked && w.handlers[i].event == j.event
  }

  /** Every turn that releases the link, and every job that carries it, was asked for it. */
  ghost predicate Gated(w: World, asked: set<int>) {
    && (forall i :: 0 <= i < |w.handlers| && Releasing(w.handlers[i]) ==> i in asked)
    && (forall j :: j in w.jobs && j.link ==> exists i :: ReleasedBy(w, asked, j, i))
  }

  lemma StageKeepsGate(w: World, s: Step, asked: set<int>, i: int)
    requires Gated(w, asked) && 0 <= i < |Apply(w, s).handlers| && Releasing(Apply(w, s).handlers[i])
    ensures i in asked || s == ReadHistory(i, Answer, true)
  {
    if !s.Arrive? && !s.Receipt? {
      OneHandlerMoves(w, s, s.handler);
    }
  }

  lemma StepKeepsGate(w: World, s: Step, asked: set<int>)
    requires Gated(w, asked)
    ensures Gated(Apply(w, s), asked + AskedBy([s]))
  {
    var w', asked' := Apply(w, s), asked + AskedBy([s]);
    if s.ReadHistory? && s.plan == Answer && s.wanted {
      assert s in [s] && s.handler in AskedBy([s]);
    }
    if !s.Arrive? && !s.Receipt? {
      OneHandlerMoves(w, s, s.handler);
    }
    forall i | 0 <= i < |w'.handlers| && Releasing(w'.handlers[i]) ensures i in asked' {
      StageKeepsGate(w, s, asked, i);
    }
    forall j | j in w'.jobs && j.link ensures exists i :: ReleasedBy(w', asked', j, i) {
      if j in w.jobs {
        var i :| ReleasedBy(w, asked, j, i);
        assert ReleasedBy(w', asked', j, i);
      } else {
        assert ReleasedBy(w', asked', j, s.handler);
      }
    }
  }

  lemma {:induction false} RunKeepsGate(w: World, steps: seq<Step>, asked: set<int>)
    requires Gated(w, asked)
    ensures Gated(Run(w, steps), asked + AskedBy(steps))
    decreases |steps|
  {
    if steps == [] {
      assert asked + AskedBy(steps) == asked;
    } else {
      StepKeepsGate(w, steps[0], asked);
      RunKeepsGate(Apply(w, steps[0]), steps[1..], asked + AskedBy([steps[0]]));
      assert steps == [steps[0]] + steps[1..];
      assert asked + AskedBy(steps) == (asked + AskedBy([steps[0]])) + AskedBy(steps[1..]);
    }
  }

  /**
   The link gate: in any run, a job that carries the link answers a message whose own turn judged it an answer
   that shows intent.
   */
  lemma LinkIsAskedFor(convs: map<ConvId, Conv>, steps: seq<Step>, j: Job)
    requires j in Run(Begun(convs), steps).jobs && j.link
    ensures exists i: nat :: i < |Run(Begun(convs), steps).handlers|
                             && Run(Begun(convs), steps).handlers[i].event == j.event
                             && ReadHistory(i, Answer, true) in steps
  {
    RunKeepsGate(Begun(convs), steps, {});
    var w, asked := Run(Begun(convs), steps), {} + AskedBy(steps);
    var i: int :| ReleasedBy(w, asked, j, i);
    var s :| s in steps && s.ReadHistory? && s.plan == Answer && s.wanted && s.handler == i;
    assert s == ReadHistory(i, Answer, true);
  }

  function LinkIn(conv: ConvId): Job -> bool {
    (j: Job) => j.link && j.event.conv == conv
  }

  /** Read that no link was sent, and may still decide, or has decided, to send it. */
  function UnsentTo(conv: ConvId): Handler -> bool {
    (h: Handler) => h.event.conv == conv && (h.stage == Read(false) || (h.stage.Ready? && h.stage.release))
  }

  /** Has recorded its message, and queues the link next. */
  function CommittedTo(conv: ConvId): Handler -> bool {
    (h: Handler) => h.event.conv == conv && h.stage.Recorded? && h.stage.release
  }

  /** Has queued the link, and marks it next. */
  function MarkingIn(conv: ConvId): Handler -> bool {
    (h: Handler) => h.event.conv == conv && h.stage.Enqueued? && h.stage.release
  }

  ghost predicate LinkUnderWay(w: World, conv: ConvId) {
    exists h :: h in w.handlers && (CommittedTo(conv)(h) || MarkingIn(conv)(h))
  }

  predicate LinkSent(w: World, conv: ConvId) {
    conv in w.convs && w.convs[conv].linkSent
  }

  /**
   The two ways to a second link: a turn that was to release it records its message, the unique index allowing
   it, although the link is marked by now or another turn has it under way; and a failure between the enqueue
   of the link and its mark.
   */
  ghost predicate Clashes(w: World, s: Step, conv: ConvId) {
    match s
    case Record(i) =>
      && i < |w.handlers| && w.handlers[i].stage.Ready? && w.handlers[i].event.conv == conv && conv in w.convs
      && w.handlers[i].stage.release && w.handlers[i].stage.plan != AskedOut && !Blocked(w, w.handlers[i].event)
      && (LinkSent(w, conv) || LinkUnderWay(w, conv))
    case Fail(i) => i < |w.handlers| && MarkingIn(conv)(w.handlers[i]) && !LinkSent(w, conv)
    case _ => false
  }

  ghost predicate NeverClashes(w: World, steps: seq<Step>, conv: ConvId)
    decreases |steps|
  {
    steps != [] ==> !Clashes(w, steps[0], conv) && NeverClashes(Apply(w, steps[0]), steps[1..], conv)
  }

  /** In any run: a link being marked is queued, and so is one that overtook a turn. */
  predicate Accounted(queued: nat, marking: nat, unsent: nat, sent: bool) {
    marking <= queued && (unsent > 0 && sent ==> queued > 0)
  }

  /** Without clashes: one link, queued or about to be; and a queued one is marked, or about to be. */
  predicate AtMostOne(queued: nat, committed: nat, marking: nat, sent: bool) {
    queued + committed <= 1 && (queued == 1 && !sent ==> marking == 1)
  }

  ghost predicate LinksAccounted(w: World, conv: ConvId) {
    Accounted(Count(w.jobs, LinkIn(conv)), Count(w.handlers, MarkingIn(conv)), Count(w.handlers, UnsentTo(conv)),
              LinkSent(w, conv))
  }

  ghost predicate OneLink(w: World, conv: ConvId) {
    AtMostOne(Count(w.jobs, LinkIn(conv)), Count(w.handlers, CommittedTo(conv)), Count(w.handlers, MarkingIn(conv)),
              LinkSent(w, conv))
  }

  lemma LinkUnderWayCounts(w: World, conv: ConvId)
    ensures LinkUnderWay(w, conv) <==> Count(w.handlers, CommittedTo(conv)) + Count(w.handlers, MarkingIn(conv)) > 0
  {
    CountPositive(w.handlers, CommittedTo(conv));
    CountPositive(w.handlers, MarkingIn(conv));
  }

  /** What a step that moves handler `i` to `stage` does to the three tallies. */
  lemma MoveCounts(w: World, i: nat, stage: Stage, conv: ConvId)
    requires i < |w.handlers|
    ensures var h, h' := w.handlers[i], w.handlers[i].(stage := stage);
      var moved := SetStage(w, i, stage).handlers;
      && Count(moved, CommittedTo(conv)) + (if CommittedTo(conv)(h) then 1 else 0)
         == Count(w.handlers, CommittedTo(conv)) + (if CommittedTo(conv)(h') then 1 else 0)
      && Count(moved, MarkingIn(conv)) + (if MarkingIn(conv)(h) then 1 else 0)
         == Count(w.handlers, MarkingIn(conv)) + (if MarkingIn(conv)(h') then 1 else 0)
      && Count(moved, UnsentTo(conv)) + (if UnsentTo(conv)(h) then 1 else 0)
         == Count(w.handlers, UnsentTo(conv)) + (if UnsentTo(conv)(h') then 1 else 0)
  {
    StageCounts(w, i, stage, CommittedTo(conv));
    StageCounts(w, i, stage, MarkingIn(conv));
    StageCounts(w, i, stage, UnsentTo(conv));
  }

  lemma CountedIn(w: World, i: nat, conv: ConvId)
    requires i < |w.handlers|
    ensures UnsentTo(conv)(w.handlers[i]) ==> Count(w.handlers, UnsentTo(conv)) > 0
    ensures MarkingIn(conv)(w.handlers[i]) ==> Count(w.handlers, MarkingIn(conv)) > 0
  {
    assert w.handlers[i] in w.handlers;
    CountPositive(w.handlers, UnsentTo(conv));
    CountPositive(w.handlers, MarkingIn(conv));
  }

  lemma RecordKeepsLinks(w: World, i: nat, conv: ConvId)
    requires LinksAccounted(w, conv) && i < |w.handlers|
    ensures LinksAccounted(Apply(w, Record(i)), conv)
    ensures conv in w.convs && OneLink(w, conv) && !Clashes(w, Record(i), conv) ==> OneLink(Apply(w, Record(i)), conv)
  {
    OneHandlerMoves(w, Record(i), i);
    MoveCounts(w, i, StageAfter(w, Record(i), i), conv);
    LinkUnderWayCounts(w, conv);
  }

  lemma FailKeepsLinks(w: World, i: nat, conv: ConvId)
    requires LinksAccounted(w, conv) && i < |w.handlers|
    ensures LinksAccounted(Apply(w, Fail(i)), conv)
    ensures OneLink(w, conv) && !Clashes(w, Fail(i), conv) ==> OneLink(Apply(w, Fail(i)), conv)
  {
    MoveCounts(w, i, Over, conv);
  }

  lemma EnqueueKeepsLinks(w: World, i: nat, conv: ConvId)
    requires LinksAccounted(w, conv) && i < |w.handlers|
    ensures LinksAccounted(Apply(w, Enqueue(i)), conv)
    ensures OneLink(w, conv) ==> OneLink(Apply(w, Enqueue(i)), conv)
  {
    var h := w.handlers[i];
    if h.stage.Recorded? && h.event.conv in w.convs {
      MoveCounts(w, i, Enqueued(h.stage.release), conv);
      CountAppend(w.jobs, Job(h.event, h.stage.release, w.convs[h.event.conv].inbound), LinkIn(conv));
    }
  }

  lemma MarkKeepsLinks(w: World, i: nat, conv: ConvId)
    requires LinksAccounted(w, conv) && i < |w.handlers|
    ensures LinksAccounted(Apply(w, Mark(i)), conv)
    ensures OneLink(w, conv) ==> OneLink(Apply(w, Mark(i)), conv)
  {
    MoveCounts(w, i, Over, conv);
    CountedIn(w, i, conv);
  }

  lemma ReadKeepsLinks(w: World, s: Step, conv: ConvId)
    requires LinksAccounted(w, conv) && (s.CheckDup? || s.ReadConv?) && s.handler < |w.handlers|
    ensures LinksAccounted(Apply(w, s), conv)
    ensures OneLink(w, conv) ==> OneLink(Apply(w, s), conv)
  {
    OneHandlerMoves(w, s, s.handler);
    MoveCounts(w, s.handler, StageAfter(w, s, s.handler), conv);
  }

  lemma DecideKeepsLinks(w: World, s: Step, conv: ConvId)
    requires LinksAccounted(w, conv) && s.ReadHistory? && s.handler < |w.handlers|
    ensures LinksAccounted(Apply(w, s), conv)
    ensures OneLink(w, conv) ==> OneLink(Apply(w, s), conv)
  {
    OneHandlerMoves(w, s, s.handler);
    MoveCounts(w, s.handler, StageAfter(w, s, s.handler), conv);
  }

  /** Every step keeps the account of links; one that does not clash also keeps to one link. */
  lemma StepKeepsLinks(w: World, s: Step, conv: ConvId)
    requires LinksAccounted(w, conv) && conv in w.convs
    ensures LinksAccounted(Apply(w, s), conv)
    ensures OneLink(w, conv) && !Clashes(w, s, conv) ==> OneLink(Apply(w, s), conv)
  {
    if s.Arrive? {
      CountAppend(w.handlers, Handler(s.event, Arrived), CommittedTo(conv));
      CountAppend(w.handlers, Handler(s.event, Arrived), MarkingIn(conv));
      CountAppend(w.handlers, Handler(s.event, Arrived), UnsentTo(conv));
    } else if s.Receipt? || s.handler >= |w.handlers| {
      assert Apply(w, s).convs == w.convs && Apply(w, s).jobs == w.jobs && Apply(w, s).handlers == w.handlers;
    } else if s.Enqueue? {
      EnqueueKeepsLinks(w, s.handler, conv);
    } else if s.ReadHistory? {
      DecideKeepsLinks(w, s, conv);
    } else if s.Fail? {
      FailKeepsLinks(w, s.handler, conv);
    } else if s.Mark? {
      MarkKeepsLinks(w, s.handler, conv);
    } else if s.Record? {
      RecordKeepsLinks(w, s.handler, conv);
    } else {
      ReadKeepsLinks(w, s, conv);
    }
  }

  lemma {:induction false} RunKeepsAccount(w: World, steps: seq<Step>, conv: ConvId)
    requires LinksAccounted(w, conv) && Earned(w, conv) && conv in w.convs
    ensures var w' := Run(w, steps); conv in w'.convs && LinksAccounted(w', conv) && Earned(w', conv)
    decreases |steps|
  {
    if steps != [] {
      StepKeepsLinks(w, steps[0], conv);
      ApplyKeepsEarned(w, steps[0], conv);
      ConvsOnlyGain(w, steps[0], conv);
      RunKeepsAccount(Apply(w, steps[0]), steps[1..], conv);
    }
  }

  lemma {:induction false} RunKeepsOneLink(w: World, steps: seq<Step>, conv: ConvId)
    requires LinksAccounted(w, conv) && OneLink(w, conv) && conv in w.convs && NeverClashes(w, steps, conv)
    ensures OneLink(Run(w, steps), conv)
    decreases |steps|
  {
    if steps != [] {
      StepKeepsLinks(w, steps[0], conv);
      ConvsOnlyGain(w, steps[0], conv);
      RunKeepsOneLink(Apply(w, steps[0]), steps[1..], conv);
    }
  }

  // ---------------------------------------------------------------- every clash can send a second link

  lemma EnqueueSendsLink(w: World, i: nat, conv: ConvId)
    requires i < |w.handlers| && CommittedTo(conv)(w.handlers[i]) && conv in w.convs
    ensures var w' := Apply(w, Enqueue(i));
      && Count(w'.jobs, LinkIn(conv)) == Count(w.jobs, LinkIn(conv)) + 1
      && w'.convs == w.convs && w'.handlers == w.handlers[i := w.handlers[i].(stage := Enqueued(true))]
  {
    CountAppend(w.jobs, Job(w.handlers[i].event, true, w.convs[conv].inbound), LinkIn(conv));
  }

  lemma OneStep(w: World, s: Step, rest: seq<Step>, conv: ConvId)
    ensures Run(w, [s] + rest) == Run(Apply(w, s), rest)
    ensures NeverClashes(w, [s] + rest, conv) <==> !Clashes(w, s, conv) && NeverClashes(Apply(w, s), rest, conv)
  {
    assert ([s] + rest)[1..] == rest;
  }

  /** Recorded with the link to send: whatever the other turns do, it can be queued next. */
  lemma CommittedSends(w: World, i: nat, conv: ConvId)
    requires i < |w.handlers| && CommittedTo(conv)(w.handlers[i]) && conv in w.convs
    ensures NeverClashes(w, [Enqueue(i)], conv)
    ensures Count(Run(w, [Enqueue(i)]).jobs, LinkIn(conv)) == Count(w.jobs, LinkIn(conv)) + 1
  {
    EnqueueSendsLink(w, i, conv);
    OneStep(w, Enqueue(i), [], conv);
    assert [Enqueue(i)] + [] == [Enqueue(i)];
  }

  lemma BothSend(w: World, i: nat, k: nat, conv: ConvId)
    requires i < |w.handlers| && k < |w.handlers| && i != k && conv in w.convs
    requires CommittedTo(conv)(w.handlers[i]) && CommittedTo(conv)(w.handlers[k])
    ensures NeverClashes(w, [Enqueue(k)] + [Enqueue(i)], conv)
    ensures Count(Run(w, [Enqueue(k)] + [Enqueue(i)]).jobs, LinkIn(conv)) >= 2
  {
    EnqueueSendsLink(w, k, conv);
    CommittedSends(Apply(w, Enqueue(k)), i, conv);
    OneStep(w, Enqueue(k), [Enqueue(i)], conv);
  }

  lemma RecordClashSends(w: World, i: nat, conv: ConvId) returns (more: seq<Step>)
    requires LinksAccounted(w, conv) && Clashes(w, Record(i), conv)
    ensures NeverClashes(Apply(w, Record(i)), more, conv)
    ensures Count(Run(Apply(w, Record(i)), more).jobs, LinkIn(conv)) >= 2
  {
    var w' := Apply(w, Record(i));
    assert CommittedTo(conv)(w'.handlers[i]) && w'.jobs == w.jobs;
    if k: nat :| k < |w.handlers| && CommittedTo(conv)(w.handlers[k]) {
      more := [Enqueue(k)] + [Enqueue(i)];
      BothSend(w', i, k, conv);
    } else {
      LinkUnderWayCounts(w, conv);
      CountedIn(w, i, conv);
      CountPositive(w.handlers, CommittedTo(conv));
      more := [Enqueue(i)];
      CommittedSends(w', i, conv);
    }
  }

  /** Another message of the conversation that asks for the link, without an id, through a whole turn. */
  function Asking(n: nat, conv: ConvId): seq<Step> {
    [Arrive(Event("", None, conv))]
    + ([CheckDup(n)] + ([ReadConv(n)] + ([ReadHistory(n, Answer, true)] + ([Record(n)] + [Enqueue(n)]))))
  }

  lemma AskingSends(w: World, conv: ConvId)
    requires conv in w.convs && !LinkSent(w, conv) && !LinkUnderWay(w, conv)
    requires w.convs[conv].inbound >= w.convs[conv].minTurns
    ensures NeverClashes(w, Asking(|w.handlers|, conv), conv)
    ensures Count(Run(w, Asking(|w.handlers|, conv)).jobs, LinkIn(conv)) == Count(w.jobs, LinkIn(conv)) + 1
  {
    var n, e := |w.handlers|, Event("", None, conv);
    var w1 := Apply(w, Arrive(e));
    var w2 := Apply(w1, CheckDup(n));
    assert w2.handlers == w.handlers + [Handler(e, Checked)];
    var w3 := Apply(w2, ReadConv(n));
    assert w3.handlers == w.handlers + [Handler(e, Read(false))];
    var w4 := Apply(w3, ReadHistory(n, Answer, true));
    assert w4.handlers == w.handlers + [Handler(e, Ready(Answer, true))];
    assert !LinkUnderWay(w4, conv);
    var w5 := Apply(w4, Record(n));
    assert w5.handlers == w.handlers + [Handler(e, Recorded(true))] && w5.jobs == w.jobs;
    CommittedSends(w5, n, conv);
    var sends := [Record(n)] + [Enqueue(n)];
    OneStep(w4, Record(n), [Enqueue(n)], conv);
    OneStep(w3, ReadHistory(n, Answer, true), sends, conv);
    OneStep(w2, ReadConv(n), [ReadHistory(n, Answer, true)] + sends, conv);
    OneStep(w1, CheckDup(n), [ReadConv(n)] + ([ReadHistory(n, Answer, true)] + sends), conv);
    OneStep(w, Arrive(e), [CheckDup(n)] + ([ReadConv(n)] + ([ReadHistory(n, Answer, true)] + sends)), conv);
  }

  lemma FailClashSends(w: World, i: nat, conv: ConvId) returns (more: seq<Step>)
    requires LinksAccounted(w, conv) && Earned(w, conv) && conv in w.convs && Clashes(w, Fail(i), conv)
    ensures NeverClashes(Apply(w, Fail(i)), more, conv)
    ensures Count(Run(Apply(w, Fail(i)), more).jobs, LinkIn(conv)) >= 2
  {
    var w' := Apply(w, Fail(i));
    CountedIn(w, i, conv);
    MoveCounts(w, i, Over, conv);
    if k: nat :| k < |w'.handlers| && CommittedTo(conv)(w'.handlers[k]) {
      more := [Enqueue(k)];
      CommittedSends(w', k, conv);
    } else {
      LinkUnderWayCounts(w', conv);
      CountPositive(w'.handlers, CommittedTo(conv));
      if Count(w'.handlers, MarkingIn(conv)) > 0 {
        more := [];
      } else {
        CountPositive(w.jobs, LinkIn(conv));
        more := Asking(|w'.handlers|, conv);
        AskingSends(w', conv);
      }
    }
  }

  /** From every reachable state, a clash is followed by some run without a further clash that sends a second link. */
  lemma SecondLinkFollows(convs: map<ConvId, Conv>, steps: seq<Step>, s: Step, conv: ConvId) returns (more: seq<Step>)
    requires conv in convs && Clashes(Run(Begun(convs), steps), s, conv)
    ensures var w := Apply(Run(Begun(convs), steps), s);
      NeverClashes(w, more, conv) && Count(Run(w, more).jobs, LinkIn(conv)) >= 2
  {
    var w := Run(Begun(convs), steps);
    RunKeepsAccount(Begun(convs), steps, conv);
    if s.Record? {
      more := RecordClashSends(w, s.handler, conv);
    } else {
      more := FailClashSends(w, s.handler, conv);
    }
  }

  /** Without a clash, at most one job of a conversation ever carries its link. */
  lemma OneLinkHolds(convs: map<ConvId, Conv>, steps: seq<Step>, conv: ConvId)
    requires conv in convs && NeverClashes(Begun(convs), steps, conv)
    ensures Count(Run(Begun(convs), steps).jobs, LinkIn(conv)) <= 1
  {
    RunKeepsOneLink(Begun(convs), steps, conv);
  }

  /**
   One link per conversation, exactly: after a run without clashes, a step leaves every continuation without
   clashes at one link if and only if it is not a clash itself.
   */
  lemma OneLinkExactly(convs: map<ConvId, Conv>, steps: seq<Step>, s: Step, conv: ConvId)
    requires conv in convs && NeverClashes(Begun(convs), steps, conv)
    ensures var w := Run(Begun(convs), steps);
      (forall more :: NeverClashes(Apply(w, s), more, conv) ==> Count(Run(Apply(w, s), more).jobs, LinkIn(conv)) <= 1)
      <==> !Clashes(w, s, conv)
  {
    var w := Run(Begun(convs), steps);
    RunKeepsAccount(Begun(convs), steps, conv);
    RunKeepsOneLink(Begun(convs), steps, conv);
    if Clashes(w, s, conv) {
      var more := SecondLinkFollows(convs, steps, s, conv);
    } else {
      StepKeepsLinks(w, s, conv);
      ConvsOnlyGain(w, s, conv);
      forall more | NeverClashes(Apply(w, s), more, conv) ensures Count(Run(Apply(w, s), more).jobs, LinkIn(conv)) <= 1 {
        RunKeepsOneLink(Apply(w, s), more, conv);
      }
    }
  }

  // ---------------------------------------------------------------- one turn at a time

  function InTurn(conv: ConvId): Handler -> bool {
    (h: Handler) => h.event.conv == conv && (h.stage.Read? || h.stage.Ready? || h.stage.Recorded? || h.stage.Enqueued?)
  }

  /** No turn of `conv` begins during another one, and none fails between its enqueue and its mark. */
  ghost predicate TakesTurns(w: World, s: Step, conv: ConvId) {
    match s
    case ReadConv(i) =>
      i < |w.handlers| && w.handlers[i].event.conv == conv ==> forall h :: h in w.handlers ==> !InTurn(conv)(h)
    case Fail(i) => i < |w.handlers| && w.handlers[i].event.conv == conv ==> !w.handlers[i].stage.Enqueued?
    case _ => true
  }

  ghost predicate OneTurnAtATime(w: World, steps: seq<Step>, conv: ConvId)
    decreases |steps|
  {
    steps != [] ==> TakesTurns(w, steps[0], conv) && OneTurnAtATime(Apply(w, steps[0]), steps[1..], conv)
  }

  /** At most one handler is in a turn of `conv`, and while it is, the flag is as it read it. */
  ghost predicate Alone(w: World, conv: ConvId) {
    Count(w.handlers, InTurn(conv)) <= 1 && (Count(w.handlers, UnsentTo(conv)) > 0 ==> !LinkSent(w, conv))
  }

  lemma {:induction false} StagesExclude(hs: seq<Handler>, conv: ConvId)
    ensures Count(hs, UnsentTo(conv)) + Count(hs, CommittedTo(conv)) + Count(hs, MarkingIn(conv)) <= Count(hs, InTurn(conv))
  {
    if hs != [] {
      StagesExclude(hs[..|hs| - 1], conv);
    }
  }

  lemma AloneNeverClashes(w: World, s: Step, conv: ConvId)
    requires Alone(w, conv) && TakesTurns(w, s, conv)
    ensures !Clashes(w, s, conv)
  {
    StagesExclude(w.handlers, conv);
    LinkUnderWayCounts(w, conv);
    if s.Record? && s.handler < |w.handlers| {
      CountedIn(w, s.handler, conv);
    }
  }

  lemma MoveKeepsAlone(w: World, s: Step, conv: ConvId)
    requires Alone(w, conv) && TakesTurns(w, s, conv)
    requires !s.Arrive? && !s.Receipt? && s.handler < |w.handlers|
    ensures Alone(Apply(w, s), conv)
  {
    var i := s.handler;
    OneHandlerMoves(w, s, i);
    StageCounts(w, i, StageAfter(w, s, i), InTurn(conv));
    StageCounts(w, i, StageAfter(w, s, i), UnsentTo(conv));
    StagesExclude(w.handlers, conv);
    CountedIn(w, i, conv);
    CountPositive(w.handlers, InTurn(conv));
  }

  lemma StepKeepsAlone(w: World, s: Step, conv: ConvId)
    requires Alone(w, conv) && TakesTurns(w, s, conv)
    ensures Alone(Apply(w, s), conv)
  {
    if s.Arrive? {
      CountAppend(w.handlers, Handler(s.event, Arrived), InTurn(conv));
      CountAppend(w.handlers, Handler(s.event, Arrived), UnsentTo(conv));
    } else if s.Receipt? || s.handler >= |w.handlers| {
      assert Apply(w, s).convs == w.convs && Apply(w, s).handlers == w.handlers;
    } else {
      MoveKeepsAlone(w, s, conv);
    }
  }

  lemma {:induction false} SerialTurnsNeverClash(w: World, steps: seq<Step>, conv: ConvId)
    requires Alone(w, conv) && OneTurnAtATime(w, steps, conv)
    ensures NeverClashes(w, steps, conv)
    decreases |steps|
  {
    if steps != [] {
      AloneNeverClashes(w, steps[0], conv);
      StepKeepsAlone(w, steps[0], conv);
      SerialTurnsNeverClash(Apply(w, steps[0]), steps[1..], conv);
    }
  }

  /**
   Link release: when the turns of a conversation do not overlap and none fails after its enqueue, at most
   one of its jobs ever carries the link, and not before the flow's number of messages is recorded.
   */
  lemma LinkRelease(convs: map<ConvId, Conv>, steps: seq<Step>, conv: ConvId)
    requires conv in convs && OneTurnAtATime(Begun(convs), steps, conv)
    ensures Count(Run(Begun(convs), steps).jobs, LinkIn(conv)) <= 1
    ensures forall j :: j in Run(Begun(convs), steps).jobs && j.event.conv == conv && j.link ==>
      convs[conv].minTurns <= j.recorded
  {
    SerialTurnsNeverClash(Begun(convs), steps, conv);
    OneLinkHolds(convs, steps, conv);
    LinkIsEarned(Begun(convs), steps, conv);
  }

  // ---------------------------------------------------------------- two turns at once

  /** Two handlers side by side. */
  function Pairwise(first: Event, second: Event): seq<Step> {
    [Arrive(first), Arrive(second)] + ([CheckDup(0), CheckDup(1)] + ([ReadConv(0), ReadConv(1)]
    + ([ReadHistory(0, Answer, true), ReadHistory(1, Answer, true)]
    + ([Record(0), Record(1)] + ([Enqueue(0), Enqueue(1)] + [])))))
  }

  lemma TwoSteps(w: World, s: Step, s': Step, rest: seq<Step>)
    ensures Run(w, [s, s'] + rest) == Run(Apply(Apply(w, s), s'), rest)
  {
    assert ([s, s'] + rest)[1..] == [s'] + rest && ([s'] + rest)[1..] == rest;
  }

  /** Two different messages are both recorded, and both queue the link, whatever they read before. */
  lemma BothRecorded(w: World, first: Event, second: Event, conv: ConvId)
    requires first.message == Some("m1") && second.message == Some("m2")
    requires first.conv == second.conv == conv && conv in w.convs
    requires w.keys == map[] && w.jobs == []
    requires w.handlers == [Handler(first, Ready(Answer, true)), Handler(second, Ready(Answer, true))]
    ensures Count(Run(w, [Record(0), Record(1)] + ([Enqueue(0), Enqueue(1)] + [])).jobs, LinkIn(conv)) == 2
  {
    var w1 := Apply(Apply(w, Record(0)), Record(1));
    assert w1.handlers == [Handler(first, Recorded(true)), Handler(second, Recorded(true))];
    EnqueueSendsLink(w1, 0, conv);
    EnqueueSendsLink(Apply(w1, Enqueue(0)), 1, conv);
    TwoSteps(w1, Enqueue(0), Enqueue(1), []);
    TwoSteps(w, Record(0), Record(1), [Enqueue(0), Enqueue(1)] + []);
  }

  /**
   Two messages of one conversation, heard together before any other: the link goes out twice, since the flag
   is read before the turn and written after its enqueue, and four handlers work at once.
   */
  lemma OverlappingTurnsSendTwoLinks(chip: ChipId, conv: ConvId)
    ensures var first, second := Event(chip, Some("m1"), conv), Event(chip, Some("m2"), conv);
      Count(Run(Begun(map[conv := Conv(false, 0, 1)]), Pairwise(first, second)).jobs, LinkIn(conv)) == 2
  {
    var first, second := Event(chip, Some("m1"), conv), Event(chip, Some("m2"), conv);
    var w0 := Begun(map[conv := Conv(false, 0, 1)]);
    var w1 := Apply(Apply(w0, Arrive(first)), Arrive(second));
    assert w1.handlers == [Handler(first, Arrived), Handler(second, Arrived)];
    var w2 := Apply(Apply(w1, CheckDup(0)), CheckDup(1));
    assert w2.handlers == [Handler(first, Checked), Handler(second, Checked)];
    var w3 := Apply(Apply(w2, ReadConv(0)), ReadConv(1));
    assert w3.handlers == [Handler(first, Read(false)), Handler(second, Read(false))];
    var w4 := Apply(Apply(w3, ReadHistory(0, Answer, true)), ReadHistory(1, Answer, true));
    assert w4.handlers == [Handler(first, Ready(Answer, true)), Handler(second, Ready(Answer, true))];
    BothRecorded(w4, first, second, conv);
    var sends := [Record(0), Record(1)] + ([Enqueue(0), Enqueue(1)] + []);
    TwoSteps(w3, ReadHistory(0, Answer, true), ReadHistory(1, Answer, true), sends);
    var decides := [ReadHistory(0, Answer, true), ReadHistory(1, Answer, true)] + sends;
    TwoSteps(w2, ReadConv(0), ReadConv(1), decides);
    TwoSteps(w1, CheckDup(0), CheckDup(1), [ReadConv(0), ReadConv(1)] + decides);
    TwoSteps(w0, Arrive(first), Arrive(second), [CheckDup(0), CheckDup(1)] + ([ReadConv(0), ReadConv(1)] + decides));
  }

  // ---------------------------------------------------------------- the service

  /** A turn with nothing in between. */
  ghost function OneTurn(w: World, plan: Plan, wanted: bool): World {
    var decided := Apply(Apply(Apply(w, CheckDup(0)), ReadConv(0)), ReadHistory(0, plan, wanted));
    Apply(Apply(Apply(decided, Record(0)), Enqueue(0)), Mark(0))
  }

  predicate Replies(w: World, e: Event, plan: Plan) {
    e.conv in w.convs && !Blocked(w, e) && plan != AskedOut
  }

  /** The conversation after one more recorded message. */
  function Told(c: Conv): Conv {
    c.(inbound := c.inbound + 1)
  }

  lemma TurnRefused(w: World, e: Event, plan: Plan, wanted: bool)
    requires w.handlers == [Handler(e, Arrived)] && (Seen(w, e.message) || e.conv !in w.convs || Blocked(w, e))
    ensures var w' := OneTurn(w, plan, wanted); w'.keys == w.keys && w'.convs == w.convs && w'.jobs == w.jobs
  {
    var w1 := Apply(w, CheckDup(0));
    var w2 := Apply(Apply(w1, ReadConv(0)), ReadHistory(0, plan, wanted));
    if Seen(w, e.message) {
      assert w1.handlers == [Handler(e, Over)];
    } else {
      assert w1.handlers == [Handler(e, Checked)];
    }
    var w3 := Apply(w2, Record(0));
    assert w3.handlers == [Handler(e, Over)];
  }

  lemma TurnRecorded(w: World, e: Event, plan: Plan, wanted: bool)
    requires w.handlers == [Handler(e, Arrived)]
    requires !Seen(w, e.message) && e.conv in w.convs && !Blocked(w, e)
    ensures var c := w.convs[e.conv];
      var release := Releases(c, c.linkSent, plan, wanted);
      Apply(Apply(Apply(Apply(w, CheckDup(0)), ReadConv(0)), ReadHistory(0, plan, wanted)), Record(0)) ==
        World(Insert(w.keys, e), w.convs[e.conv := Told(c)],
              [Handler(e, if plan == AskedOut then Over else Recorded(release))], w.jobs)
  {
    var w1 := Apply(w, CheckDup(0));
    assert w1.handlers == [Handler(e, Checked)];
    var c, w2 := w.convs[e.conv], Apply(w1, ReadConv(0));
    assert w2.handlers == [Handler(e, Read(c.linkSent))];
    var w3 := Apply(w2, ReadHistory(0, plan, wanted));
    assert w3.handlers == [Handler(e, Ready(plan, Releases(c, c.linkSent, plan, wanted)))];
  }

  lemma TurnFinished(w: World, e: Event, release: bool)
    requires w.handlers == [Handler(e, Recorded(release))] && e.conv in w.convs
    ensures var w' := Apply(Apply(w, Enqueue(0)), Mark(0));
      && w'.keys == w.keys
      && w'.jobs == w.jobs + [Job(e, release, w.convs[e.conv].inbound)]
      && w'.convs == if release then w.convs[e.conv := w.convs[e.conv].(linkSent := true)] else w.convs
  {
    var w1 := Apply(w, Enqueue(0));
    assert w1.handlers == [Handler(e, Enqueued(release))];
  }

  /** The rows and the queue once the turn on `e` has recorded it and, if it replies, answered. */
  predicate Answered(w: World, w': World, e: Event, plan: Plan, wanted: bool)
    requires e.conv in w.convs
  {
    var told := Told(w.convs[e.conv]);
    var release := Releases(w.convs[e.conv], w.convs[e.conv].linkSent, plan, wanted);
    && w'.keys == Insert(w.keys, e)
    && w'.convs == w.convs[e.conv := if release then told.(linkSent := true) else told]
    && w'.jobs == if plan == AskedOut then w.jobs else w.jobs + [Job(e, release, told.inbound)]
  }

  lemma TurnAnswers(w: World, e: Event, plan: Plan, wanted: bool)
    requires w.handlers == [Handler(e, Arrived)]
    requires !Seen(w, e.message) && e.conv in w.convs && !Blocked(w, e)
    ensures Answered(w, OneTurn(w, plan, wanted), e, plan, wanted)
  {
    TurnRecorded(w, e, plan, wanted);
    var c := w.convs[e.conv];
    var release := Releases(c, c.linkSent, plan, wanted);
    var handler := Handler(e, if plan == AskedOut then Over else Recorded(release));
    var w1 := World(Insert(w.keys, e), w.convs[e.conv := Told(c)], [handler], w.jobs);
    if plan != AskedOut {
      TurnFinished(w1, e, release);
    }
  }

  /** Messages of one conversation, each answered before the next; `wants` says which of them show intent. */
  ghost function Chat(c: Conv, e: Event, wants: seq<bool>): World {
    if wants == [] then World(map[], map[e.conv := c], [], [])
    else
      var n := |wants| - 1;
      OneTurn(Chat(c, e, wants[..n]).(handlers := [Handler(e, Arrived)]), Answer, wants[n])
  }

  /** Message `t` shows intent, and with it the flow's number of messages is reached. */
  predicate Earns(c: Conv, wants: seq<bool>, t: int) {
    0 <= t < |wants| && wants[t] && c.inbound + t + 1 >= c.minTurns
  }

  predicate FirstToEarn(c: Conv, wants: seq<bool>, t: int) {
    !c.linkSent && Earns(c, wants, t) && forall u :: 0 <= u < t ==> !Earns(c, wants, u)
  }

  ghost predicate EverEarns(c: Conv, wants: seq<bool>) {
    exists t :: Earns(c, wants, t)
  }

  lemma OneMoreMessage(c: Conv, wants: seq<bool>, n: nat)
    requires |wants| == n + 1
    ensures EverEarns(c, wants) <==> EverEarns(c, wants[..n]) || Earns(c, wants, n)
    ensures FirstToEarn(c, wants, n) <==> !c.linkSent && Earns(c, wants, n) && !EverEarns(c, wants[..n])
    ensures forall t :: 0 <= t < n ==> (FirstToEarn(c, wants, t) <==> FirstToEarn(c, wants[..n], t))
  {
    forall t | 0 <= t < n ensures Earns(c, wants, t) <==> Earns(c, wants[..n], t) {
    }
    if t :| Earns(c, wants[..n], t) {
      assert Earns(c, wants, t);
    }
  }

  /** `w'` is `w` after one more answer in `conv`, which shows intent if `wanted`. */
  predicate OneMoreAnswer(w: World, w': World, conv: ConvId, wanted: bool) {
    && w.keys == w'.keys == map[] && w.convs.Keys == w'.convs.Keys == {conv}
    && var c := w.convs[conv];
       var release := wanted && c.inbound + 1 >= c.minTurns && !c.linkSent;
    && w'.convs[conv] == Conv(c.linkSent || release, c.inbound + 1, c.minTurns)
    && |w'.jobs| == |w.jobs| + 1 && w'.jobs[..|w.jobs|] == w.jobs && w'.jobs[|w.jobs|].link == release
  }

  lemma ChatStep(w: World, e: Event, wanted: bool)
    requires e.message == None && w.keys == map[] && w.convs.Keys == {e.conv} && w.handlers == [Handler(e, Arrived)]
    ensures OneMoreAnswer(w, OneTurn(w, Answer, wanted), e.conv, wanted)
  {
    TurnAnswers(w, e, Answer, wanted);
  }

  /** The whole conversation so far. */
  ghost predicate SoFar(w: World, c: Conv, conv: ConvId, wants: seq<bool>) {
    && w.keys == map[] && w.convs.Keys == {conv}
    && w.convs[conv] == Conv(c.linkSent || EverEarns(c, wants), c.inbound + |wants|, c.minTurns)
    && |w.jobs| == |wants| && forall t :: 0 <= t < |wants| ==> (w.jobs[t].link <==> FirstToEarn(c, wants, t))
  }

  lemma SoFarOneMore(w: World, w': World, c: Conv, conv: ConvId, wants: seq<bool>, n: nat)
    requires |wants| == n + 1 && SoFar(w, c, conv, wants[..n]) && OneMoreAnswer(w, w', conv, wants[n])
    ensures SoFar(w', c, conv, wants)
  {
    OneMoreMessage(c, wants, n);
    forall t | 0 <= t < n ensures w'.jobs[t].link <==> FirstToEarn(c, wants, t) {
      assert w'.jobs[t] == w'.jobs[..n][t];
    }
  }

  /**
   The link, message by message: the reply that carries it is the one to the first message that shows intent
   once the flow's number of messages is reached, and no other.
   */
  lemma {:induction false} LinkGoesOutWhenEarned(c: Conv, e: Event, wants: seq<bool>)
    requires e.message == None
    ensures SoFar(Chat(c, e, wants), c, e.conv, wants)
    ensures var jobs := Chat(c, e, wants).jobs;
      |jobs| == |wants| && forall t :: 0 <= t < |wants| ==> (jobs[t].link <==> FirstToEarn(c, wants, t))
  {
    if wants != [] {
      var n := |wants| - 1;
      var before := Chat(c, e, wants[..n]).(handlers := [Handler(e, Arrived)]);
      LinkGoesOutWhenEarned(c, e, wants[..n]);
      ChatStep(before, e, wants[n]);
      SoFarOneMore(before, OneTurn(before, Answer, wants[n]), c, e.conv, wants, n);
    }
  }

  /** Messages, conversations and the outbound queue as one handler uses them. */
  class ConversationService {
    var keys: map<Key, Direction>
    var convs: map<ConvId, Conv>
    var outbound: seq<Job>

    ghost function State(): World
      reads this
    {
      World(keys, convs, [], outbound)
    }

    /** A world in which `h` is the only handler. */
    ghost function With(h: Handler): World
      reads this
    {
      World(keys, convs, [h], outbound)
    }

    method AlreadyProcessed(message: Option<MessageId>) returns (dup: bool)
      ensures dup == Seen(State(), message)
      ensures dup <==> message.Some? && exists k :: k in keys && k.1 == message.value && keys[k] == In
    {
      if message.None? {
        return false;
      }
      var todo := keys.Keys;
      while todo != {}
        invariant todo <= keys.Keys
        invariant forall k :: k in keys && k !in todo ==> !(k.1 == message.value && keys[k] == In)
        decreases todo
      {
        var k :| k in todo;
        if k.1 == message.value && keys[k] == In {
          assert (k.0, message.value) == k;
          return true;
        }
        todo := todo - {k};
      }
      return false;
    }

    /** `recordInbound`: the insert the unique index may refuse. */
    method RecordInbound(e: Event) returns (inserted: bool)
      requires e.conv in convs
      modifies this`keys, this`convs
      ensures inserted == !Blocked(old(State()), e)
      ensures inserted <==> e.message.None? || (e.chip, e.message.value) !in old(keys)
      ensures inserted && e.message.Some? ==> keys == old(keys)[(e.chip, e.message.value) := In]
      ensures !inserted || e.message.None? ==> keys == old(keys)
      ensures !inserted ==> State() == old(State())
      ensures inserted ==>
        && keys == Insert(old(keys), e)
        && convs == old(convs)[e.conv := old(convs)[e.conv].(inbound := old(convs)[e.conv].inbound + 1)]
    {
      if e.message.Some? {
        if (e.chip, e.message.value) in keys {
          return false;
        }
        keys := keys[(e.chip, e.message.value) := In];
      }
      convs := convs[e.conv := convs[e.conv].(inbound := convs[e.conv].inbound + 1)];
      return true;
    }

    /** The enqueue of the reply, and the mark of a link it carries. */
    method RecordAndEnqueueOut(e: Event, release: bool)
      requires e.conv in convs
      modifies this`convs, this`outbound
      ensures outbound == old(outbound) + [Job(e, release, old(convs)[e.conv].inbound)]
      ensures convs == if release then old(convs)[e.conv := old(convs)[e.conv].(linkSent := true)] else old(convs)
    {
      outbound := outbound + [Job(e, release, convs[e.conv].inbound)];
      if release {
        convs := convs[e.conv := convs[e.conv].(linkSent := true)];
      }
    }

    /** `processTurn`: record the message, then answer it, with the link if `wanted` and earned. */
    method ProcessTurn(e: Event, plan: Plan, wanted: bool) returns (replied: bool)
      requires e.conv in convs
      modifies this
      ensures replied == (!Blocked(old(State()), e) && plan != AskedOut)
      ensures Blocked(old(State()), e) ==> State() == old(State())
      ensures !Blocked(old(State()), e) ==> Answered(old(State()), State(), e, plan, wanted)
      ensures replied <==> (e.message.None? || (e.chip, e.message.value) !in old(keys)) && plan != AskedOut
      ensures replied ==>
        && |outbound| == |old(outbound)| + 1 && outbound[|old(outbound)|].event == e
        && (outbound[|old(outbound)|].link <==>
              plan == Answer && wanted && !old(convs)[e.conv].linkSent
              && old(convs)[e.conv].inbound + 1 >= old(convs)[e.conv].minTurns)
    {
      var conv := convs[e.conv];
      var release := plan == Answer && wanted && conv.inbound + 1 >= conv.minTurns && !conv.linkSent;
      var inserted := RecordInbound(e);
      if !inserted || plan == AskedOut {
        return false;
      }
      RecordAndEnqueueOut(e, release);
      return true;
    }

    /** `handleInbound` with nothing in between: what it leaves is what its steps leave, and a link sent is marked. */
    method HandleInbound(e: Event, plan: Plan, wanted: bool) returns (replied: bool)
      modifies this
      ensures var w := OneTurn(old(With(Handler(e, Arrived))), plan, wanted);
        keys == w.keys && convs == w.convs && outbound == w.jobs
      ensures replied <==> !Seen(old(State()), e.message) && Replies(old(State()), e, plan)
      ensures replied ==>
        && |outbound| == |old(outbound)| + 1 && outbound[|old(outbound)|].event == e
        && (outbound[|old(outbound)|].link <==>
              plan == Answer && wanted && !old(convs)[e.conv].linkSent
              && old(convs)[e.conv].inbound + 1 >= old(convs)[e.conv].minTurns)
        && (convs[e.conv].linkSent <==> old(convs)[e.conv].linkSent || outbound[|old(outbound)|].link)
    {
      ghost var w := With(Handler(e, Arrived));
      assert Seen(w, e.message) == Seen(State(), e.message) && Blocked(w, e) == Blocked(State(), e);
      var dup := AlreadyProcessed(e.message);
      if dup || e.conv !in convs || Blocked(w, e) {
        TurnRefused(w, e, plan, wanted);
      } else {
        TurnAnswers(w, e, plan, wanted);
      }
      if dup || e.conv !in convs {
        return false;
      }
      replied := ProcessTurn(e, plan, wanted);
    }
  }
}
