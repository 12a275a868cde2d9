/**
 Who may still be written to: lead rows, the global opt-out list, `dispatchOne` cut at its awaits
 (apps/core/src/scheduler/scheduler.service.ts:211-281), `suppress`/`unsuppress`
 (apps/core/src/suppression/suppression.service.ts), the row an import inserts
 (apps/core/src/leads/lead-import.service.ts:151-168) and the inbound turn
 (apps/core/src/conversation/conversation.service.ts:105-121, 262-329). Any number of dispatches, ticks
 and turns interleave.
 */
module Outreach {
  import opened Prelude
  import opened Phones

  type LeadId = string
  type Phone = string

  datatype LeadStatus = Pending | Queued | Opened | Replied | Conversing | Converted | Lost | Suppressed

  datatype Lead = Lead(flow: string, phone: Phone, status: LeadStatus, suppressed: bool)

  /** How far one `dispatchOne` has come. */
  datatype Stage = Found | Claimed | Enqueued | Counted | Over

  datatype Task = Task(lead: LeadId, phone: Phone, stage: Stage)

  datatype TurnStage = Thinking | Answered | Closed

  datatype Turn = Turn(lead: LeadId, phone: Phone, stage: TurnStage)

  datatype Job = Opening(lead: LeadId, phone: Phone) | Reply(lead: LeadId, phone: Phone)

  /**
   The tables and queues, the calls in progress, and three tallies: how often each lead entered PENDING,
   how many claims succeeded and how often `sentToday` was incremented.
   */
  datatype World = World(
    optOut: set<Phone>,
    leads: map<LeadId, Lead>,
    tasks: seq<Task>,
    turns: seq<Turn>,
    jobs: seq<Job>,
    entered: map<LeadId, nat>,
    claims: nat,
    sent: nat)

  datatype Event =
    | Find(lead: LeadId)
    | Claim(task: nat)
    | Enqueue(task: nat)
    | CountSent(task: nat)
    | Open(task: nat)
    | Throw(task: nat)
    | Crash(task: nat)
    | Suppress(phone: Phone)
    | Unsuppress(phone: Phone)
    | ImportLead(lead: LeadId, flow: string, to: Phone, seenSuppressed: bool)
    | Hear(from: Phone, about: LeadId)
    | Answer(turn: nat)
    | AfterTurn(turn: nat)
    | AskOut(turn: nat)

  // ---------------------------------------------------------------- the steps

  function Entered(w: World, id: LeadId): nat {
    if id in w.entered then w.entered[id] else 0
  }

  function SetStatus(w: World, id: LeadId, status: LeadStatus): World {
    if id in w.leads then w.(leads := w.leads[id := w.leads[id].(status := status)]) else w
  }

  function SetStage(w: World, i: nat, stage: Stage): World
    requires i < |w.tasks|
  {
    w.(tasks := w.tasks[i := w.tasks[i].(stage := stage)])
  }

  predicate At(w: World, i: nat, stage: Stage) {
    i < |w.tasks| && w.tasks[i].stage == stage
  }

  predicate HasStatus(w: World, id: LeadId, status: LeadStatus) {
    id in w.leads && w.leads[id].status == status
  }

  function SuppressedLeads(leads: map<LeadId, Lead>, phone: Phone): map<LeadId, Lead> {
    map id | id in leads ::
      if leads[id].phone == phone then leads[id].(suppressed := true, status := Suppressed) else leads[id]
  }

  function RestoredLead(l: Lead): Lead {
    l.(suppressed := false, status := if l.status == Suppressed then Pending else l.status)
  }

  function RestoredLeads(leads: map<LeadId, Lead>, phone: Phone): map<LeadId, Lead> {
    map id | id in leads :: if leads[id].phone == phone then RestoredLead(leads[id]) else leads[id]
  }

  function Silence(w: World, phone: Phone): World {
    w.(optOut := w.optOut + {phone}, leads := SuppressedLeads(w.leads, phone))
  }

  /** The unique index on flow and phone, and the primary key. */
  predicate Taken(w: World, id: LeadId, flow: string, phone: Phone) {
    id in w.leads || exists other :: other in w.leads && w.leads[other].flow == flow && w.leads[other].phone == phone
  }

  function Apply(w: World, e: Event): World {
    match e
    case Find(id) =>
      if HasStatus(w, id, Pending) && !w.leads[id].suppressed
      then w.(tasks := w.tasks + [Task(id, w.leads[id].phone, Found)])
      else w
    case Claim(i) =>
      if !At(w, i, Found) then w
      else if HasStatus(w, w.tasks[i].lead, Pending)
      then SetStage(SetStatus(w, w.tasks[i].lead, Queued), i, Claimed).(claims := w.claims + 1)
      else SetStage(w, i, Over)
    case Enqueue(i) =>
      if !At(w, i, Claimed) then w
      else SetStage(w, i, Enqueued).(jobs := w.jobs + [Opening(w.tasks[i].lead, w.tasks[i].phone)])
    case CountSent(i) => if !At(w, i, Enqueued) then w else SetStage(w, i, Counted).(sent := w.sent + 1)
    case Open(i) => if !At(w, i, Counted) then w else SetStage(SetStatus(w, w.tasks[i].lead, Opened), i, Over)
    case Throw(i) =>
      if i >= |w.tasks| || w.tasks[i].stage == Found || w.tasks[i].stage == Over then w
      else
        var id := w.tasks[i].lead;
        if HasStatus(w, id, Queued)
        then SetStage(SetStatus(w, id, Pending), i, Over).(entered := w.entered[id := Entered(w, id) + 1])
        else SetStage(w, i, Over)
    case Crash(i) => if i < |w.tasks| then SetStage(w, i, Over) else w
    case Suppress(p) => Silence(w, p)
    case Unsuppress(p) =>
      w.(optOut := w.optOut - {p}, leads := RestoredLeads(w.leads, p),
         entered := map id | id in w.leads ::
           Entered(w, id) + if w.leads[id].phone == p && w.leads[id].status == Suppressed then 1 else 0)
    case ImportLead(id, flow, p, seen) =>
      if Taken(w, id, flow, p) then w
      else
        w.(leads := w.leads[id := Lead(flow, p, if seen then Suppressed else Pending, seen)],
           entered := w.entered[id := if seen then 0 else 1])
    case Hear(from, id) =>
      if id in w.leads && w.leads[id].phone in BrVariants(from) && BrVariants(from) !! w.optOut
      then w.(turns := w.turns + [Turn(id, w.leads[id].phone, Thinking)])
      else w
    case Answer(k) =>
      if k < |w.turns| && w.turns[k].stage == Thinking
      then w.(turns := w.turns[k := w.turns[k].(stage := Answered)],
              jobs := w.jobs + [Reply(w.turns[k].lead, w.turns[k].phone)])
      else w
    case AfterTurn(k) =>
      if k < |w.turns| && w.turns[k].stage == Answered
      then
        var id, w' := w.turns[k].lead, w.(turns := w.turns[k := w.turns[k].(stage := Closed)]);
        if HasStatus(w, id, Opened) || HasStatus(w, id, Queued) then SetStatus(w', id, Conversing) else w'
      else w
    case AskOut(k) =>
      if k < |w.turns| && w.turns[k].stage == Thinking
      then Silence(w.(turns := w.turns[k := w.turns[k].(stage := Closed)]), w.turns[k].phone)
      else w
  }

  function Run(w: World, es: seq<Event>): World
    decreases |es|
  {
    if es == [] then w else Run(Apply(w, es[0]), es[1..])
  }

  const EMPTY := World({}, map[], [], [], [], map[], 0, 0)

  // ---------------------------------------------------------------- opt-out is kept

  predicate Listed(w: World, phones: set<Phone>) {
    exists p :: p in phones && p in w.optOut
  }

  predicate InLineAt(w: World, id: LeadId, phones: set<Phone>) {
    id in w.leads && w.leads[id].phone in phones && (w.leads[id].status == Pending || w.leads[id].status == Queued)
  }

  /**
   The promise made to whoever `phones` reach: once one of them is on the list, no lead of any of them, in any
   flow, is in line. It is made for one phone as written, and for all spellings of a number.
   */
  ghost predicate Kept(w: World, phones: set<Phone>) {
    Listed(w, phones) ==> forall id :: !InLineAt(w, id, phones)
  }

  /** Listing `p` leaves a lead of another of the phones in line. */
  predicate LeavesInLine(w: World, p: Phone, phones: set<Phone>) {
    p in phones && exists id :: id in w.leads && InLineAt(w, id, phones - {p})
  }

  /** A row that `unsuppress` would put back in line. */
  predicate Restorable(w: World, id: LeadId, p: Phone) {
    id in w.leads && w.leads[id].phone == p && w.leads[id].status == Suppressed
  }

  /**
   The steps that break it: an import that inserts a row on a reading of the list from before one of the phones
   opted out, or of another of them; an opt-out of one of them while a lead of another is in line; and taking
   one of them off the list, its leads with it, while another is on it.
   */
  predicate Breaks(w: World, e: Event, phones: set<Phone>) {
    match e
    case ImportLead(id, flow, to, seen) => to in phones && Listed(w, phones) && !seen && !Taken(w, id, flow, to)
    case Suppress(p) => LeavesInLine(w, p, phones)
    case AskOut(k) => k < |w.turns| && w.turns[k].stage == Thinking && LeavesInLine(w, w.turns[k].phone, phones)
    case Unsuppress(p) =>
      p in phones && Listed(w, phones - {p})
      && exists id :: id in w.leads && Restorable(w, id, p)
    case _ => false
  }

  lemma SilenceKeepsExactly(w: World, p: Phone, phones: set<Phone>)
    requires Kept(w, phones)
    ensures Kept(Silence(w, p), phones) <==> !LeavesInLine(w, p, phones)
  {
    var w' := Silence(w, p);
    assert forall id :: InLineAt(w', id, phones) <==> InLineAt(w, id, phones - {p});
    if p in phones {
      assert p in w'.optOut;
    } else {
      assert phones - {p} == phones;
      assert Listed(w', phones) == Listed(w, phones);
    }
  }

  lemma UnsuppressKeepsExactly(w: World, p: Phone, phones: set<Phone>)
    requires Kept(w, phones)
    ensures Kept(Apply(w, Unsuppress(p)), phones) <==> !Breaks(w, Unsuppress(p), phones)
  {
    var w' := Apply(w, Unsuppress(p));
    assert Listed(w', phones) <==> Listed(w, phones - {p}) by {
      assert forall q :: q in phones && q in w'.optOut <==> q in phones - {p} && q in w.optOut;
    }
    forall id ensures InLineAt(w', id, phones) <==> (InLineAt(w, id, phones) || (p in phones && Restorable(w, id, p))) {
    }
    if Breaks(w, Unsuppress(p), phones) {
      var id :| id in w.leads && Restorable(w, id, p);
      assert InLineAt(w', id, phones);
    } else if p !in phones {
      assert phones - {p} == phones;
    }
  }

  lemma ImportKeepsExactly(w: World, e: Event, phones: set<Phone>)
    requires Kept(w, phones) && e.ImportLead?
    ensures Kept(Apply(w, e), phones) <==> !Breaks(w, e, phones)
  {
    var w' := Apply(w, e);
    assert Listed(w', phones) == Listed(w, phones);
    if Breaks(w, e, phones) {
      assert InLineAt(w', e.lead, phones);
    } else {
      forall id ensures Listed(w', phones) ==> !InLineAt(w', id, phones) {
        assert Listed(w, phones) ==> !InLineAt(w, id, phones);
      }
    }
  }

  /** All other steps leave the list alone and bring no lead into line that was not. */
  lemma OthersKeep(w: World, e: Event, phones: set<Phone>)
    requires Kept(w, phones) && !e.Suppress? && !e.AskOut? && !e.Unsuppress? && !e.ImportLead?
    ensures Kept(Apply(w, e), phones)
  {
    var w' := Apply(w, e);
    assert w'.optOut == w.optOut;
    forall id ensures InLineAt(w', id, phones) ==> InLineAt(w, id, phones) {
    }
  }

  /** Every step keeps the promise but those, which always break it. */
  lemma KeptExactly(w: World, e: Event, phones: set<Phone>)
    requires Kept(w, phones)
    ensures Kept(Apply(w, e), phones) <==> !Breaks(w, e, phones)
  {
    if e.Suppress? {
      SilenceKeepsExactly(w, e.phone, phones);
    } else if e.AskOut? {
      if e.turn < |w.turns| && w.turns[e.turn].stage == Thinking {
        var closed := w.(turns := w.turns[e.turn := w.turns[e.turn].(stage := Closed)]);
        assert forall id :: InLineAt(closed, id, phones) == InLineAt(w, id, phones);
        assert Listed(closed, phones) == Listed(w, phones);
        SilenceKeepsExactly(closed, w.turns[e.turn].phone, phones);
        assert LeavesInLine(closed, w.turns[e.turn].phone, phones) == LeavesInLine(w, w.turns[e.turn].phone, phones);
      }
    } else if e.Unsuppress? {
      UnsuppressKeepsExactly(w, e.phone, phones);
    } else if e.ImportLead? {
      ImportKeepsExactly(w, e, phones);
    } else {
      OthersKeep(w, e, phones);
    }
  }

  ghost predicate AlwaysKept(w: World, es: seq<Event>, phones: set<Phone>)
    decreases |es|
  {
    Kept(w, phones) && (es != [] ==> AlwaysKept(Apply(w, es[0]), es[1..], phones))
  }

  predicate NeverBreaks(w: World, es: seq<Event>, phones: set<Phone>)
    decreases |es|
  {
    es != [] ==> !Breaks(w, es[0], phones) && NeverBreaks(Apply(w, es[0]), es[1..], phones)
  }

  /** Over whole runs, for any set of phones that reach one person: the promise is kept exactly without such a step. */
  lemma {:induction false} KeptThroughoutExactly(w: World, es: seq<Event>, phones: set<Phone>)
    requires Kept(w, phones)
    ensures AlwaysKept(w, es, phones) <==> NeverBreaks(w, es, phones)
    decreases |es|
  {
    if es != [] {
      KeptExactly(w, es[0], phones);
      if !Breaks(w, es[0], phones) {
        KeptThroughoutExactly(Apply(w, es[0]), es[1..], phones);
      }
    }
  }

  /**
   Opt-out is never violated, exactly: in a run from the beginning, no number that opted out under either of its
   spellings ever has a lead in line under any of them, if and only if no step of the run breaks it.
   */
  lemma OptOutHoldsExactly(es: seq<Event>, number: Phone)
    ensures AlwaysKept(EMPTY, es, BrVariants(number)) <==> NeverBreaks(EMPTY, es, BrVariants(number))
  {
    KeptThroughoutExactly(EMPTY, es, BrVariants(number));
  }

  /** For a phone as it is written the only such step is the import on a stale reading. */
  lemma SpellingBreaksExactlyWhenStale(w: World, e: Event, phone: Phone)
    ensures Breaks(w, e, {phone}) <==>
      e.ImportLead? && e.to == phone && phone in w.optOut && !e.seenSuppressed && !Taken(w, e.lead, e.flow, e.to)
  {
    assert {phone} - {phone} == {};
    assert Listed(w, {phone}) <==> phone in w.optOut;
  }

  /** The code can be given that import: the phone opts out after it has read the list, and is then written to. */
  lemma StaleImportReachesThePhone(phone: Phone, flow: string, id: LeadId)
    ensures var w := Run(EMPTY, [Suppress(phone), ImportLead(id, flow, phone, false)]);
      phone in w.optOut && HasStatus(w, id, Pending)
    ensures var w := Run(EMPTY, [Suppress(phone), ImportLead(id, flow, phone, false)] + [Find(id), Claim(0), Enqueue(0)]);
      phone in w.optOut && w.jobs == [Opening(id, phone)]
  {
    var imported := ImportLead(id, flow, phone, false);
    var w1 := Apply(EMPTY, Suppress(phone));
    assert w1.leads == map[] && w1.optOut == {phone};
    var w2 := Apply(w1, imported);
    var es := [Find(id), Claim(0), Enqueue(0)];
    assert [Suppress(phone), imported] == [Suppress(phone)] + [imported];
    assert [imported] == [imported] + [];
    RunStep(EMPTY, Suppress(phone), [imported]);
    RunStep(w1, imported, []);
    assert [Suppress(phone), imported] + es == [Suppress(phone)] + ([imported] + es);
    RunStep(EMPTY, Suppress(phone), [imported] + es);
    RunStep(w1, imported, es);
    assert es == [Find(id), Claim(0)] + ([Enqueue(0)] + []);
    FindAndClaim(w2, id, [Enqueue(0)] + []);
    EnqueueThen(w2, id, []);
  }

  // ---------------------------------------------------------------- a number with two spellings

  /** A lead is imported and opened. */
  function Imported(id: LeadId, phone: Phone, flow: string): seq<Event> {
    [ImportLead(id, flow, phone, false)] + ([Find(id)] + ([Claim(0)] + ([Enqueue(0)] + ([CountSent(0)] + ([Open(0)] + [])))))
  }

  /** The other spelling of the number is imported too; the owner answers under the first one and asks out. */
  function AskingOut(a: LeadId, short: Phone, b: LeadId, long: Phone, flow: string): seq<Event> {
    [ImportLead(b, flow, long, false)] + ([Hear(short, a)] + ([AskOut(0)] + []))
  }

  /** And the tick after that. */
  function NextOpening(b: LeadId): seq<Event> {
    [Find(b)] + ([Claim(1)] + ([Enqueue(1)] + []))
  }

  /** What `AskingOut` leaves: the one spelling listed and its lead suppressed, the other's still in line. */
  function AskedOut(a: LeadId, short: Phone, b: LeadId, long: Phone, flow: string): World {
    World({short}, map[a := Lead(flow, short, LeadStatus.Suppressed, true), b := Lead(flow, long, Pending, false)],
          [Task(a, short, Over)], [Turn(a, short, Closed)], [Opening(a, short)], map[a := 1, b := 1], 1, 1)
  }

  /** A step of a run in which the promise to each spelling, taken as written, is kept. */
  lemma QuietStep(w: World, e: Event, rest: seq<Event>, p: Phone, q: Phone)
    requires !Breaks(w, e, {p}) && !Breaks(w, e, {q})
    ensures Run(w, [e] + rest) == Run(Apply(w, e), rest)
    ensures NeverBreaks(w, [e] + rest, {p}) <==> NeverBreaks(Apply(w, e), rest, {p})
    ensures NeverBreaks(w, [e] + rest, {q}) <==> NeverBreaks(Apply(w, e), rest, {q})
  {
    assert ([e] + rest)[1..] == rest;
  }

  lemma {:induction false} QuietConcat(w: World, es: seq<Event>, rest: seq<Event>, p: Phone)
    requires NeverBreaks(w, es, {p}) && NeverBreaks(Run(w, es), rest, {p})
    ensures NeverBreaks(w, es + rest, {p}) && Run(w, es + rest) == Run(Run(w, es), rest)
    decreases |es|
  {
    if es == [] {
      assert es + rest == rest;
    } else {
      QuietConcat(Apply(w, es[0]), es[1..], rest, p);
      assert es + rest == [es[0]] + (es[1..] + rest);
      assert ([es[0]] + (es[1..] + rest))[1..] == es[1..] + rest;
    }
  }

  /** A world with one lead, at one moment of its dispatch. */
  function Solo(id: LeadId, phone: Phone, flow: string, status: LeadStatus, tasks: seq<Task>, jobs: seq<Job>,
                claims: nat, sent: nat): World {
    World({}, map[id := Lead(flow, phone, status, false)], tasks, [], jobs, map[id := 1], claims, sent)
  }

  function OneOpened(id: LeadId, phone: Phone, flow: string): World {
    Solo(id, phone, flow, Opened, [Task(id, phone, Over)], [Opening(id, phone)], 1, 1)
  }

  lemma ImportAndClaim(id: LeadId, phone: Phone, flow: string)
    ensures var w := Solo(id, phone, flow, Pending, [], [], 0, 0);
      && Apply(EMPTY, ImportLead(id, flow, phone, false)) == w
      && Apply(w, Find(id)) == w.(tasks := [Task(id, phone, Found)])
      && Apply(w.(tasks := [Task(id, phone, Found)]), Claim(0))
         == Solo(id, phone, flow, Queued, [Task(id, phone, Claimed)], [], 1, 0)
  {
    var w1 := Apply(EMPTY, ImportLead(id, flow, phone, false));
    assert w1.leads == map[id := Lead(flow, phone, Pending, false)] && w1.entered == map[id := 1];
    var w3 := Apply(w1.(tasks := [Task(id, phone, Found)]), Claim(0));
    assert w3.leads == map[id := Lead(flow, phone, Queued, false)] && w3.tasks == [Task(id, phone, Claimed)];
  }

  lemma EnqueueAndOpen(id: LeadId, phone: Phone, flow: string)
    ensures var w := Solo(id, phone, flow, Queued, [Task(id, phone, Claimed)], [], 1, 0);
      var w4 := Solo(id, phone, flow, Queued, [Task(id, phone, Enqueued)], [Opening(id, phone)], 1, 0);
      var w5 := Solo(id, phone, flow, Queued, [Task(id, phone, Counted)], [Opening(id, phone)], 1, 1);
      Apply(w, Enqueue(0)) == w4 && Apply(w4, CountSent(0)) == w5 && Apply(w5, Open(0)) == OneOpened(id, phone, flow)
  {
    var w5 := Solo(id, phone, flow, Queued, [Task(id, phone, Counted)], [Opening(id, phone)], 1, 1);
    assert Apply(w5, Open(0)).leads == map[id := Lead(flow, phone, Opened, false)];
  }

  lemma FirstIsOpened(a: LeadId, short: Phone, long: Phone, flow: string)
    ensures Run(EMPTY, Imported(a, short, flow)) == OneOpened(a, short, flow)
    ensures NeverBreaks(EMPTY, Imported(a, short, flow), {short}) && NeverBreaks(EMPTY, Imported(a, short, flow), {long})
  {
    ImportAndClaim(a, short, flow);
    EnqueueAndOpen(a, short, flow);
    var w1 := Solo(a, short, flow, Pending, [], [], 0, 0);
    var w2 := w1.(tasks := [Task(a, short, Found)]);
    var w3 := Solo(a, short, flow, Queued, [Task(a, short, Claimed)], [], 1, 0);
    var w4 := Solo(a, short, flow, Queued, [Task(a, short, Enqueued)], [Opening(a, short)], 1, 0);
    var w5 := Solo(a, short, flow, Queued, [Task(a, short, Counted)], [Opening(a, short)], 1, 1);
    QuietStep(w5, Open(0), [], short, long);
    QuietStep(w4, CountSent(0), [Open(0)] + [], short, long);
    QuietStep(w3, Enqueue(0), [CountSent(0)] + ([Open(0)] + []), short, long);
    QuietStep(w2, Claim(0), [Enqueue(0)] + ([CountSent(0)] + ([Open(0)] + [])), short, long);
    QuietStep(w1, Find(a), [Claim(0)] + ([Enqueue(0)] + ([CountSent(0)] + ([Open(0)] + []))), short, long);
    QuietStep(EMPTY, ImportLead(a, flow, short, false),
              [Find(a)] + ([Claim(0)] + ([Enqueue(0)] + ([CountSent(0)] + ([Open(0)] + [])))), short, long);
  }

  /** Both spellings imported, the first opened, and the owner's answer being worked on. */
  function Heard(a: LeadId, short: Phone, b: LeadId, long: Phone, flow: string): World {
    World({}, map[a := Lead(flow, short, Opened, false), b := Lead(flow, long, Pending, false)],
          [Task(a, short, Over)], [Turn(a, short, Thinking)], [Opening(a, short)], map[a := 1, b := 1], 1, 1)
  }

  lemma SecondIsImported(a: LeadId, short: Phone, b: LeadId, long: Phone, flow: string)
    requires a != b && short != long
    ensures var w := OneOpened(a, short, flow);
      && Apply(w, ImportLead(b, flow, long, false)) == Heard(a, short, b, long, flow).(turns := [])
      && Apply(Heard(a, short, b, long, flow).(turns := []), Hear(short, a)) == Heard(a, short, b, long, flow)
  {
    var w1 := Apply(OneOpened(a, short, flow), ImportLead(b, flow, long, false));
    assert w1.leads == map[a := Lead(flow, short, Opened, false), b := Lead(flow, long, Pending, false)];
    assert w1.entered == map[a := 1, b := 1];
  }

  lemma OwnerIsSilenced(a: LeadId, short: Phone, b: LeadId, long: Phone, flow: string)
    requires a != b && short != long
    ensures Apply(Heard(a, short, b, long, flow), AskOut(0)) == AskedOut(a, short, b, long, flow)
  {
    var w := Apply(Heard(a, short, b, long, flow), AskOut(0));
    assert w.turns == [Turn(a, short, Closed)] && w.optOut == {short};
    assert w.leads == AskedOut(a, short, b, long, flow).leads;
  }

  lemma OwnerAsksOut(a: LeadId, short: Phone, b: LeadId, long: Phone, flow: string)
    requires a != b && short != long
    ensures var w, es := OneOpened(a, short, flow), AskingOut(a, short, b, long, flow);
      && Run(w, es) == AskedOut(a, short, b, long, flow)
      && NeverBreaks(w, es, {short}) && NeverBreaks(w, es, {long})
  {
    var w, w2 := OneOpened(a, short, flow), Heard(a, short, b, long, flow);
    SecondIsImported(a, short, b, long, flow);
    OwnerIsSilenced(a, short, b, long, flow);
    SpellingBreaksExactlyWhenStale(w2, AskOut(0), short);
    SpellingBreaksExactlyWhenStale(w2, AskOut(0), long);
    QuietStep(w2, AskOut(0), [], short, long);
    QuietStep(w2.(turns := []), Hear(short, a), [AskOut(0)] + [], short, long);
    QuietStep(w, ImportLead(b, flow, long, false), [Hear(short, a)] + ([AskOut(0)] + []), short, long);
  }

  lemma OtherIsOpened(a: LeadId, short: Phone, b: LeadId, long: Phone, flow: string)
    requires a != b && short != long
    ensures var w := AskedOut(a, short, b, long, flow);
      && NeverBreaks(w, NextOpening(b), {short}) && NeverBreaks(w, NextOpening(b), {long})
      && Run(w, NextOpening(b)).optOut == {short}
      && Run(w, NextOpening(b)).jobs == [Opening(a, short), Opening(b, long)]
  {
    var w := AskedOut(a, short, b, long, flow);
    var w1 := Apply(w, Find(b));
    assert w1.tasks == [Task(a, short, Over), Task(b, long, Found)];
    var w2 := Apply(w1, Claim(1));
    assert w2.tasks == [Task(a, short, Over), Task(b, long, Claimed)];
    var w3 := Apply(w2, Enqueue(1));
    assert w3.jobs == [Opening(a, short), Opening(b, long)];
    QuietStep(w, Find(b), [Claim(1)] + ([Enqueue(1)] + []), short, long);
    QuietStep(w1, Claim(1), [Enqueue(1)] + [], short, long);
    QuietStep(w2, Enqueue(1), [], short, long);
  }

  /**
   The code can be given this too. The two spellings of a number are two leads; its owner answers under the one
   that was opened and asks out; the list takes that spelling, and the next tick opens the other. No import read
   the list too early, and the promise to each spelling as written is kept.
   */
  lemma OtherSpellingIsStillOpened(a: LeadId, b: LeadId, flow: string, area: string, local: string)
    requires a != b && |area| == 2 && |local| == 8 && AllDigits(area) && AllDigits(local)
    ensures var short, long := "+55" + area + local, "+55" + area + ("9" + local);
      var es := Imported(a, short, flow) + (AskingOut(a, short, b, long, flow) + NextOpening(b));
      var w := Run(EMPTY, es);
      && NeverBreaks(EMPTY, es, {short}) && NeverBreaks(EMPTY, es, {long})
      && short in w.optOut && long in BrVariants(short) && w.jobs == [Opening(a, short), Opening(b, long)]
  {
    var short, long := "+55" + area + local, "+55" + area + ("9" + local);
    BothSpellings(area, local);
    assert |short| < |long|;
    var asking, next := AskingOut(a, short, b, long, flow), NextOpening(b);
    FirstIsOpened(a, short, long, flow);
    OwnerAsksOut(a, short, b, long, flow);
    OtherIsOpened(a, short, b, long, flow);
    QuietConcat(OneOpened(a, short, flow), asking, next, short);
    QuietConcat(OneOpened(a, short, flow), asking, next, long);
    QuietConcat(EMPTY, Imported(a, short, flow), asking + next, short);
    QuietConcat(EMPTY, Imported(a, short, flow), asking + next, long);
  }

  // ---------------------------------------------------------------- and so are the flags

  /** A row is flagged exactly when its phone opted out, and then not in line. */
  ghost predicate SilencedAt(w: World, id: LeadId) {
    id in w.leads ==>
      && (w.leads[id].suppressed <==> w.leads[id].phone in w.optOut)
      && (w.leads[id].phone in w.optOut ==> w.leads[id].status != Pending && w.leads[id].status != Queued)
  }

  ghost predicate Silenced(w: World) {
    forall id :: SilencedAt(w, id)
  }

  /** An inserted row carries the opt-out list's verdict of the moment, not that of an earlier read. */
  ghost predicate Fresh(w: World, e: Event) {
    e.ImportLead? && !Taken(w, e.lead, e.flow, e.to) ==> (e.seenSuppressed <==> e.to in w.optOut)
  }

  /**
   Every step keeps flags and line in step with the list, except an import that inserts a row on a stale
   reading of it, in either direction: that one breaks it, always.
   */
  lemma SilencedExactlyWhenFresh(w: World, e: Event)
    requires Silenced(w)
    ensures Silenced(Apply(w, e)) <==> Fresh(w, e)
  {
    var w' := Apply(w, e);
    if Fresh(w, e) {
      forall id ensures SilencedAt(w', id) {
        assert SilencedAt(w, id);
      }
    } else {
      assert !SilencedAt(w', e.lead);
    }
  }

  ghost predicate AlwaysFresh(w: World, es: seq<Event>)
    decreases |es|
  {
    es != [] ==> Fresh(w, es[0]) && AlwaysFresh(Apply(w, es[0]), es[1..])
  }

  ghost predicate AlwaysSilenced(w: World, es: seq<Event>)
    decreases |es|
  {
    Silenced(w) && (es != [] ==> AlwaysSilenced(Apply(w, es[0]), es[1..]))
  }

  lemma {:induction false} FlagsHoldExactly(w: World, es: seq<Event>)
    requires Silenced(w)
    ensures AlwaysSilenced(w, es) <==> AlwaysFresh(w, es)
    decreases |es|
  {
    if es != [] {
      SilencedExactlyWhenFresh(w, es[0]);
      if Fresh(w, es[0]) {
        FlagsHoldExactly(Apply(w, es[0]), es[1..]);
      }
    }
  }

  // ---------------------------------------------------------------- nothing is sent after an opt-out

  /** The calls that may still put a message to one of `phones` on a queue. */
  function ClaimedTo(phones: set<Phone>): Task -> bool {
    (t: Task) => t.stage == Claimed && t.phone in phones
  }

  function ThinkingTo(phones: set<Phone>): Turn -> bool {
    (t: Turn) => t.stage == Thinking && t.phone in phones
  }

  function JobTo(phones: set<Phone>): Job -> bool {
    (j: Job) => j.phone in phones
  }

  function UnderWay(w: World, phones: set<Phone>): nat {
    Count(w.tasks, ClaimedTo(phones)) + Count(w.turns, ThinkingTo(phones))
  }

  function Exposure(w: World, phones: set<Phone>): nat {
    Count(w.jobs, JobTo(phones)) + UnderWay(w, phones)
  }

  /** A call keeps the phone of the row it read, and phones never change. */
  ghost predicate KnownAt(w: World, i: nat)
    requires i < |w.tasks|
  {
    var t := w.tasks[i];
    t.lead in w.leads && w.leads[t.lead].phone == t.phone
  }

  ghost predicate Known(w: World) {
    && (forall i :: 0 <= i < |w.tasks| ==> KnownAt(w, i))
    && w.entered.Keys == w.leads.Keys
  }

  lemma PhonesStay(w: World, e: Event, id: LeadId)
    requires id in w.leads
    ensures id in Apply(w, e).leads && Apply(w, e).leads[id].phone == w.leads[id].phone
  {
  }

  lemma TasksStayKnown(w: World, e: Event, i: nat)
    requires Known(w) && i < |Apply(w, e).tasks|
    ensures KnownAt(Apply(w, e), i)
  {
    if i < |w.tasks| {
      assert KnownAt(w, i);
      PhonesStay(w, e, w.tasks[i].lead);
    }
  }

  lemma ApplyKeepsKnown(w: World, e: Event)
    requires Known(w)
    ensures Known(Apply(w, e))
  {
    forall i | 0 <= i < |Apply(w, e).tasks| ensures KnownAt(Apply(w, e), i) {
      TasksStayKnown(w, e, i);
    }
    assert Apply(w, e).entered.Keys == Apply(w, e).leads.Keys;
  }

  lemma StageCounts(w: World, i: nat, stage: Stage, p: Task -> bool)
    requires i < |w.tasks|
    ensures Count(SetStage(w, i, stage).tasks, p) + (if p(w.tasks[i]) then 1 else 0)
         == Count(w.tasks, p) + (if p(w.tasks[i].(stage := stage)) then 1 else 0)
  {
    CountUpdate(w.tasks, i, w.tasks[i].(stage := stage), p);
  }

  function StatusOf(w: World, id: LeadId): LeadStatus
    requires id in w.leads
  {
    w.leads[id].status
  }

  /**
   The life of a lead: which step may change its status, from what to what. Only the end of a dispatch is blind to
   what the lead has become meanwhile.
   */
  lemma StatusMoves(w: World, e: Event, id: LeadId)
    requires id in w.leads
    ensures id in Apply(w, e).leads
    ensures var a, b := StatusOf(w, id), StatusOf(Apply(w, e), id);
      || a == b
      || (e.Claim? && a == Pending && b == Queued)
      || (e.Throw? && a == Queued && b == Pending)
      || (e.Open? && b == Opened)
      || (e.AfterTurn? && (a == Opened || a == Queued) && b == Conversing)
      || ((e.Suppress? || e.AskOut?) && b == LeadStatus.Suppressed)
      || (e.Unsuppress? && a == LeadStatus.Suppressed && b == Pending)
  {
  }

  /** A lead that was answered is in conversation, if it was waiting for that; any other keeps its status. */
  lemma AnsweredLeadConverses(w: World, k: nat)
    requires k < |w.turns| && w.turns[k].stage == Answered && w.turns[k].lead in w.leads
    ensures var w', id := Apply(w, AfterTurn(k)), w.turns[k].lead;
      && w'.turns[k].stage == Closed && w'.jobs == w.jobs && w'.leads.Keys == w.leads.Keys
      && StatusOf(w', id) == (match StatusOf(w, id) case Opened | Queued => Conversing case other => other)
      && forall other :: other in w.leads && other != id ==> w'.leads[other] == w.leads[other]
  {
  }

  predicate OfDispatch(e: Event) {
    e.Find? || e.Claim? || e.Enqueue? || e.CountSent? || e.Open? || e.Throw? || e.Crash?
  }

  lemma ClaimNeverExposes(w: World, i: nat, phones: set<Phone>)
    requires Known(w) && Kept(w, phones) && Listed(w, phones)
    ensures Exposure(Apply(w, Claim(i)), phones) == Exposure(w, phones)
  {
    if At(w, i, Found) {
      assert KnownAt(w, i) && !InLineAt(w, w.tasks[i].lead, phones);
      StageCounts(w, i, Claimed, ClaimedTo(phones));
      StageCounts(w, i, Over, ClaimedTo(phones));
    }
  }

  lemma EnqueueNeverExposes(w: World, i: nat, phones: set<Phone>)
    ensures Exposure(Apply(w, Enqueue(i)), phones) == Exposure(w, phones)
  {
    if At(w, i, Claimed) {
      StageCounts(w, i, Enqueued, ClaimedTo(phones));
      CountAppend(w.jobs, Opening(w.tasks[i].lead, w.tasks[i].phone), JobTo(phones));
    }
  }

  lemma DispatchNeverExposes(w: World, e: Event, phones: set<Phone>)
    requires OfDispatch(e) && !e.Claim? && !e.Enqueue?
    ensures Exposure(Apply(w, e), phones) <= Exposure(w, phones)
  {
    match e
    case Find(id) =>
      if HasStatus(w, id, Pending) {
        CountAppend(w.tasks, Task(id, w.leads[id].phone, Found), ClaimedTo(phones));
      }
    case CountSent(i) => if At(w, i, Enqueued) { StageCounts(w, i, Counted, ClaimedTo(phones)); }
    case Open(i) => if At(w, i, Counted) { StageCounts(w, i, Over, ClaimedTo(phones)); }
    case Throw(i) => if i < |w.tasks| { StageCounts(w, i, Over, ClaimedTo(phones)); }
    case Crash(i) => if i < |w.tasks| { StageCounts(w, i, Over, ClaimedTo(phones)); }
    case _ =>
  }

  /** The phones of one person: a phone as written, or all spellings of its number. */
  predicate Reaches(phones: set<Phone>, phone: Phone) {
    phones == {phone} || phones == BrVariants(phone)
  }

  /** While one of them is listed, an inbound message for any of them starts no turn. */
  lemma HearStartsNoTurn(w: World, from: Phone, id: LeadId, phones: set<Phone>, phone: Phone)
    requires Reaches(phones, phone) && phone in w.optOut && id in w.leads && w.leads[id].phone in phones
    ensures Apply(w, Hear(from, id)) == w
  {
    var to := w.leads[id].phone;
    if to in BrVariants(from) {
      VariantsAgree(from, to);
      if phones == BrVariants(phone) {
        VariantsAgree(phone, to);
      }
      assert phone in BrVariants(from);
    }
  }

  lemma AnswerNeverExposes(w: World, k: nat, phones: set<Phone>)
    ensures Exposure(Apply(w, Answer(k)), phones) == Exposure(w, phones)
  {
    if k < |w.turns| {
      CountUpdate(w.turns, k, w.turns[k].(stage := Answered), ThinkingTo(phones));
      CountAppend(w.jobs, Reply(w.turns[k].lead, w.turns[k].phone), JobTo(phones));
    }
  }

  lemma TurnNeverExposes(w: World, e: Event, phones: set<Phone>)
    requires !OfDispatch(e) && !e.Hear? && !e.Answer?
    ensures Exposure(Apply(w, e), phones) <= Exposure(w, phones)
  {
    if (e.AfterTurn? || e.AskOut?) && e.turn < |w.turns| {
      CountUpdate(w.turns, e.turn, w.turns[e.turn].(stage := Closed), ThinkingTo(phones));
    }
  }

  lemma HearNeverExposes(w: World, from: Phone, id: LeadId, phones: set<Phone>, phone: Phone)
    requires Reaches(phones, phone) && phone in w.optOut
    ensures Exposure(Apply(w, Hear(from, id)), phones) <= Exposure(w, phones)
  {
    if id in w.leads {
      if w.leads[id].phone in phones {
        HearStartsNoTurn(w, from, id, phones, phone);
      }
      CountAppend(w.turns, Turn(id, w.leads[id].phone, Thinking), ThinkingTo(phones));
    }
  }

  /** Nothing that can happen to an opted-out phone short of `unsuppress` opens a new way to write to it. */
  lemma ExposureNeverGrows(w: World, e: Event, phones: set<Phone>, phone: Phone)
    requires Known(w) && Kept(w, phones) && Reaches(phones, phone) && phone in phones && phone in w.optOut
    requires e != Unsuppress(phone)
    ensures Exposure(Apply(w, e), phones) <= Exposure(w, phones)
    ensures phone in Apply(w, e).optOut
  {
    if e.Claim? {
      ClaimNeverExposes(w, e.task, phones);
    } else if e.Enqueue? {
      EnqueueNeverExposes(w, e.task, phones);
    } else if e.Hear? {
      HearNeverExposes(w, e.from, e.about, phones, phone);
    } else if e.Answer? {
      AnswerNeverExposes(w, e.turn, phones);
    } else if OfDispatch(e) {
      DispatchNeverExposes(w, e, phones);
    } else {
      TurnNeverExposes(w, e, phones);
    }
  }

  lemma {:induction false} RunKeepsExposure(w: World, es: seq<Event>, phones: set<Phone>, phone: Phone)
    requires Known(w) && Kept(w, phones) && Reaches(phones, phone) && phone in phones && phone in w.optOut
    requires NeverBreaks(w, es, phones) && Unsuppress(phone) !in es
    ensures Exposure(Run(w, es), phones) <= Exposure(w, phones)
    decreases |es|
  {
    if es != [] {
      assert es[0] in es;
      ExposureNeverGrows(w, es[0], phones, phone);
      ApplyKeepsKnown(w, es[0]);
      KeptExactly(w, es[0], phones);
      RunKeepsExposure(Apply(w, es[0]), es[1..], phones, phone);
    }
  }

  lemma {:induction false} RunKeepsKnown(w: World, es: seq<Event>)
    requires Known(w)
    ensures Known(Run(w, es))
    decreases |es|
  {
    if es != [] {
      ApplyKeepsKnown(w, es[0]);
      RunKeepsKnown(Apply(w, es[0]), es[1..]);
    }
  }

  lemma SuppressedIsOutOfLine(w: World, phone: Phone)
    ensures phone in Apply(w, Suppress(phone)).optOut && Kept(Apply(w, Suppress(phone)), {phone})
  {
    forall id ensures !InLineAt(Apply(w, Suppress(phone)), id, {phone}) {
    }
  }

  /**
   Opt-out is final. Take any run at all, suppress a phone, and run on in any interleaving without `unsuppress`
   of it and without a breaking step: the messages queued to it afterwards are at most those of the claims and
   turns already under way, one each; with none under way, not a single one. The same of all spellings of its
   number, when no lead of the other one was in line.
   */
  lemma OptOutIsFinal(before: seq<Event>, phone: Phone, phones: set<Phone>, es: seq<Event>)
    requires Reaches(phones, phone)
    requires var w := Apply(Run(EMPTY, before), Suppress(phone));
      && (phones != {phone} ==> forall id :: !InLineAt(w, id, phones - {phone}))
      && NeverBreaks(w, es, phones) && Unsuppress(phone) !in es
    ensures var w := Apply(Run(EMPTY, before), Suppress(phone));
      Count(Run(w, es).jobs, JobTo(phones)) <= Count(w.jobs, JobTo(phones)) + UnderWay(w, phones)
  {
    var w0 := Run(EMPTY, before);
    var w := Apply(w0, Suppress(phone));
    RunKeepsKnown(EMPTY, before);
    ApplyKeepsKnown(w0, Suppress(phone));
    SuppressedIsOutOfLine(w0, phone);
    forall id ensures !InLineAt(w, id, phones) {
      assert !InLineAt(w, id, {phone});
      assert phones != {phone} ==> !InLineAt(w, id, phones - {phone});
    }
    RunKeepsExposure(w, es, phones, phone);
  }

  /** An inbound message under either spelling of an opted-out phone starts no turn. */
  lemma EitherSpellingIsSilenced(w: World, phone: Phone, from: Phone, id: LeadId)
    requires phone in w.optOut && phone in BrVariants(from)
    ensures forall spelling :: spelling in BrVariants(phone) ==> Apply(w, Hear(spelling, id)) == w
  {
    VariantsAgree(from, phone);
    forall spelling | spelling in BrVariants(phone) ensures Apply(w, Hear(spelling, id)) == w {
      VariantsAgree(phone, spelling);
      assert phone in BrVariants(spelling);
    }
  }

  /** `unsuppress` undoes `suppress`: the list and flags are back, and leads that were not in line are now. */
  lemma UnsuppressRestores(w: World, phone: Phone, id: LeadId)
    requires Silenced(w) && phone !in w.optOut && id in w.leads
    ensures var w' := Apply(Apply(w, Suppress(phone)), Unsuppress(phone));
      && w'.optOut == w.optOut
      && id in w'.leads
      && w'.leads[id] == if w.leads[id].phone == phone then w.leads[id].(status := Pending) else w.leads[id]
  {
    assert SilencedAt(w, id);
  }

  // ---------------------------------------------------------------- no lead is claimed twice over

  function OpeningOf(id: LeadId): Job -> bool {
    (j: Job) => j.Opening? && j.lead == id
  }

  function ClaimOf(id: LeadId): Task -> bool {
    (t: Task) => t.stage == Claimed && t.lead == id
  }

  /** Openings queued for a lead, claims about to queue one, and being in line: each spends an entry into PENDING. */
  ghost predicate Ledger(w: World, id: LeadId) {
    Count(w.jobs, OpeningOf(id)) + Count(w.tasks, ClaimOf(id)) + (if HasStatus(w, id, Pending) then 1 else 0)
      <= Entered(w, id)
  }

  lemma ClaimKeepsLedger(w: World, i: nat, id: LeadId)
    requires Known(w) && Ledger(w, id)
    ensures Ledger(Apply(w, Claim(i)), id)
  {
    if At(w, i, Found) {
      StageCounts(w, i, Claimed, ClaimOf(id));
      StageCounts(w, i, Over, ClaimOf(id));
    }
  }

  lemma EnqueueKeepsLedger(w: World, i: nat, id: LeadId)
    requires Known(w) && Ledger(w, id)
    ensures Ledger(Apply(w, Enqueue(i)), id)
  {
    if At(w, i, Claimed) {
      StageCounts(w, i, Enqueued, ClaimOf(id));
      CountAppend(w.jobs, Opening(w.tasks[i].lead, w.tasks[i].phone), OpeningOf(id));
    }
  }

  /** A call that moves to a stage other than Claimed spends no entry. */
  lemma MovesOn(w: World, i: nat, stage: Stage, id: LeadId)
    requires i < |w.tasks| && stage != Claimed
    ensures Count(SetStage(w, i, stage).tasks, ClaimOf(id)) <= Count(w.tasks, ClaimOf(id))
    ensures w.tasks[i].stage == Claimed && w.tasks[i].lead == id ==>
      Count(SetStage(w, i, stage).tasks, ClaimOf(id)) == Count(w.tasks, ClaimOf(id)) - 1
  {
    StageCounts(w, i, stage, ClaimOf(id));
  }

  lemma ThrowKeepsLedger(w: World, i: nat, id: LeadId)
    requires Known(w) && Ledger(w, id)
    ensures Ledger(Apply(w, Throw(i)), id)
  {
    if i < |w.tasks| {
      MovesOn(w, i, Over, id);
    }
  }

  lemma DispatchKeepsLedger(w: World, e: Event, id: LeadId)
    requires Known(w) && Ledger(w, id) && (e.Find? || e.CountSent? || e.Open? || e.Crash?)
    ensures Ledger(Apply(w, e), id)
  {
    if e.Find? {
      if HasStatus(w, e.lead, Pending) {
        CountAppend(w.tasks, Task(e.lead, w.leads[e.lead].phone, Found), ClaimOf(id));
      }
    } else if e.task < |w.tasks| {
      MovesOn(w, e.task, if e.CountSent? then Counted else Over, id);
    }
  }

  lemma AnswerKeepsLedger(w: World, k: nat, id: LeadId)
    requires Known(w) && Ledger(w, id)
    ensures Ledger(Apply(w, Answer(k)), id)
  {
    if k < |w.turns| {
      CountAppend(w.jobs, Reply(w.turns[k].lead, w.turns[k].phone), OpeningOf(id));
    }
  }

  /** Queues and claims stay, and no lead comes into line. */
  lemma TurnKeepsLedger(w: World, e: Event, id: LeadId)
    requires Known(w) && Ledger(w, id) && (e.Hear? || e.AfterTurn? || e.AskOut?)
    ensures Ledger(Apply(w, e), id)
  {
    var w' := Apply(w, e);
    assert w'.jobs == w.jobs && w'.tasks == w.tasks && w'.entered == w.entered;
    assert HasStatus(w', id, Pending) ==> HasStatus(w, id, Pending);
  }

  lemma TableKeepsLedger(w: World, e: Event, id: LeadId)
    requires Known(w) && Ledger(w, id) && (e.Suppress? || e.Unsuppress? || e.ImportLead?)
    ensures Ledger(Apply(w, e), id)
  {
    if e.ImportLead? && id !in w.leads {
      assert Entered(w, id) == 0;
    }
  }

  lemma ApplyKeepsLedger(w: World, e: Event, id: LeadId)
    requires Known(w) && Ledger(w, id)
    ensures Ledger(Apply(w, e), id)
  {
    if e.Claim? {
      ClaimKeepsLedger(w, e.task, id);
    } else if e.Enqueue? {
      EnqueueKeepsLedger(w, e.task, id);
    } else if e.Throw? {
      ThrowKeepsLedger(w, e.task, id);
    } else if OfDispatch(e) {
      DispatchKeepsLedger(w, e, id);
    } else if e.Suppress? || e.Unsuppress? || e.ImportLead? {
      TableKeepsLedger(w, e, id);
    } else if e.Answer? {
      AnswerKeepsLedger(w, e.turn, id);
    } else {
      TurnKeepsLedger(w, e, id);
    }
  }

  /**
   Claims under overlapping ticks: in any run, failures, suppressions and imports included, the opening jobs
   ever queued for a lead never exceed the times it entered PENDING.
   */
  lemma {:induction false} OpeningsNeverExceedEntries(w: World, es: seq<Event>, id: LeadId)
    requires Known(w) && Ledger(w, id)
    ensures Count(Run(w, es).jobs, OpeningOf(id)) <= Entered(Run(w, es), id)
    decreases |es|
  {
    if es != [] {
      ApplyKeepsLedger(w, es[0], id);
      ApplyKeepsKnown(w, es[0]);
      OpeningsNeverExceedEntries(Apply(w, es[0]), es[1..], id);
    }
  }

  predicate IsOpening(j: Job) { j.Opening? }
  predicate IsClaimed(t: Task) { t.stage == Claimed }
  predicate IsEnqueued(t: Task) { t.stage == Enqueued }

  /** Without failures every claim is a queued opening or about to be one, and every opening counted or about to be. */
  ghost predicate Balanced(w: World) {
    && w.claims == Count(w.jobs, IsOpening) + Count(w.tasks, IsClaimed)
    && Count(w.jobs, IsOpening) == w.sent + Count(w.tasks, IsEnqueued)
  }

  lemma ClaimKeepsBalance(w: World, i: nat)
    requires Balanced(w)
    ensures Balanced(Apply(w, Claim(i)))
  {
    if i < |w.tasks| {
      BothCounts(w, i, Claimed);
      BothCounts(w, i, Over);
    }
  }

  lemma EnqueueKeepsBalance(w: World, i: nat)
    requires Balanced(w)
    ensures Balanced(Apply(w, Enqueue(i)))
  {
    if i < |w.tasks| {
      BothCounts(w, i, Enqueued);
      CountAppend(w.jobs, Opening(w.tasks[i].lead, w.tasks[i].phone), IsOpening);
    }
  }

  lemma MoveKeepsBalance(w: World, e: Event)
    requires Balanced(w) && (e.Find? || e.CountSent? || e.Open?)
    ensures Balanced(Apply(w, e))
  {
    if e.Find? {
      if HasStatus(w, e.lead, Pending) {
        CountAppend(w.tasks, Task(e.lead, w.leads[e.lead].phone, Found), IsClaimed);
        CountAppend(w.tasks, Task(e.lead, w.leads[e.lead].phone, Found), IsEnqueued);
      }
    } else if e.task < |w.tasks| {
      BothCounts(w, e.task, if e.CountSent? then Counted else Over);
    }
  }

  lemma AnswerKeepsBalance(w: World, k: nat)
    requires Balanced(w)
    ensures Balanced(Apply(w, Answer(k)))
  {
    if k < |w.turns| {
      CountAppend(w.jobs, Reply(w.turns[k].lead, w.turns[k].phone), IsOpening);
    }
  }

  lemma OtherKeepsBalance(w: World, e: Event)
    requires Balanced(w) && !OfDispatch(e) && !e.Answer?
    ensures Balanced(Apply(w, e))
  {
    var w' := Apply(w, e);
    assert w'.jobs == w.jobs && w'.tasks == w.tasks && w'.claims == w.claims && w'.sent == w.sent;
  }

  lemma ApplyKeepsBalance(w: World, e: Event)
    requires Balanced(w) && !e.Throw? && !e.Crash?
    ensures Balanced(Apply(w, e))
  {
    if e.Claim? {
      ClaimKeepsBalance(w, e.task);
    } else if e.Enqueue? {
      EnqueueKeepsBalance(w, e.task);
    } else if OfDispatch(e) {
      MoveKeepsBalance(w, e);
    } else if e.Answer? {
      AnswerKeepsBalance(w, e.turn);
    } else {
      OtherKeepsBalance(w, e);
    }
  }

  lemma BothCounts(w: World, i: nat, stage: Stage)
    requires i < |w.tasks|
    ensures Count(SetStage(w, i, stage).tasks, IsClaimed) + (if IsClaimed(w.tasks[i]) then 1 else 0)
         == Count(w.tasks, IsClaimed) + (if stage == Claimed then 1 else 0)
    ensures Count(SetStage(w, i, stage).tasks, IsEnqueued) + (if IsEnqueued(w.tasks[i]) then 1 else 0)
         == Count(w.tasks, IsEnqueued) + (if stage == Enqueued then 1 else 0)
  {
    StageCounts(w, i, stage, IsClaimed);
    StageCounts(w, i, stage, IsEnqueued);
  }

  lemma {:induction false} RunKeepsBalance(w: World, es: seq<Event>)
    requires Balanced(w)
    requires forall e :: e in es ==> !e.Throw? && !e.Crash?
    ensures Balanced(Run(w, es))
    decreases |es|
  {
    if es != [] {
      assert es[0] in es;
      ApplyKeepsBalance(w, es[0]);
      RunKeepsBalance(Apply(w, es[0]), es[1..]);
    }
  }

  /** Conservation: in a failure-free run with no call in progress, claims, openings and increments are equal. */
  lemma ClaimsOpeningsAndCountsAgree(es: seq<Event>)
    requires forall e :: e in es ==> !e.Throw? && !e.Crash?
    requires forall t :: t in Run(EMPTY, es).tasks ==> t.stage == Over
    ensures var w := Run(EMPTY, es); w.claims == Count(w.jobs, IsOpening) == w.sent
  {
    var w := Run(EMPTY, es);
    RunKeepsBalance(EMPTY, es);
    CountPositive(w.tasks, IsClaimed);
    CountPositive(w.tasks, IsEnqueued);
  }

  // ---------------------------------------------------------------- the services

  /** Leads, opt-out list and openings queue as the core's services share them. */
  class OutreachDb {
    var optOut: set<Phone>
    var leads: map<LeadId, Lead>
    var openings: seq<Job>
    var sentToday: nat
  }

  function SentTo(phone: Phone): Lead -> bool {
    (l: Lead) => l.phone == phone
  }

  function FlaggedTo(phone: Phone): Lead -> bool {
    (l: Lead) => l.phone == phone && l.suppressed
  }

  function SuppressedTo(phone: Phone): Lead -> bool {
    (l: Lead) => l.phone == phone && l.status == LeadStatus.Suppressed
  }

  function Suppressing(l: Lead): Lead { l.(suppressed := true, status := LeadStatus.Suppressed) }
  function Unflagging(l: Lead): Lead { l.(suppressed := false) }
  function Requeueing(l: Lead): Lead { l.(status := Pending) }

  /** What `updateMany` leaves: every row the filter selects is changed, none other. */
  function Updated(leads: map<LeadId, Lead>, select: Lead -> bool, change: Lead -> Lead): map<LeadId, Lead> {
    map id | id in leads :: if select(leads[id]) then change(leads[id]) else leads[id]
  }

  /** The two updates of `unsuppress` together. */
  lemma TwoUpdatesRestore(leads: map<LeadId, Lead>, phone: Phone)
    ensures Updated(Updated(leads, FlaggedTo(phone), Unflagging), SuppressedTo(phone), Requeueing)
         == RestoredLeads(leads, phone)
  {
  }

  lemma OneUpdateSuppresses(leads: map<LeadId, Lead>, phone: Phone)
    ensures Updated(leads, SentTo(phone), Suppressing) == SuppressedLeads(leads, phone)
  {
  }

  class SuppressionService {
    const db: OutreachDb

    constructor (db: OutreachDb)
      ensures this.db == db
    {
      this.db := db;
    }

    method SuppressPhone(phone: Phone)
      modifies db`optOut, db`leads
      ensures db.optOut == old(db.optOut) + {phone}
      ensures db.leads == SuppressedLeads(old(db.leads), phone)
      ensures db.leads.Keys == old(db.leads).Keys
      ensures forall id :: id in db.leads ==>
        if old(db.leads)[id].phone == phone
        then db.leads[id].suppressed && db.leads[id].status == LeadStatus.Suppressed
        else db.leads[id] == old(db.leads)[id]
    {
      db.optOut := db.optOut + {phone};
      OneUpdateSuppresses(db.leads, phone);
      UpdateWhere(SentTo(phone), Suppressing);
    }

    method UnsuppressPhone(phone: Phone)
      modifies db`optOut, db`leads
      ensures db.optOut == old(db.optOut) - {phone}
      ensures db.leads == RestoredLeads(old(db.leads), phone)
      ensures db.leads.Keys == old(db.leads).Keys
      ensures forall id :: id in db.leads ==>
        var was := old(db.leads)[id];
        if was.phone != phone then db.leads[id] == was
        else !db.leads[id].suppressed &&
             db.leads[id].status == (if was.status == LeadStatus.Suppressed then Pending else was.status)
    {
      if phone in db.optOut {
        db.optOut := db.optOut - {phone};
      }
      TwoUpdatesRestore(db.leads, phone);
      UpdateWhere(FlaggedTo(phone), Unflagging);
      UpdateWhere(SuppressedTo(phone), Requeueing);
    }

    /** `updateMany`: every row the filter selects, none other. */
    method UpdateWhere(select: Lead -> bool, change: Lead -> Lead)
      modifies db`leads
      ensures db.leads == Updated(old(db.leads), select, change)
      ensures db.leads.Keys == old(db.leads).Keys
      ensures forall id :: id in db.leads ==>
        db.leads[id] == if select(old(db.leads)[id]) then change(old(db.leads)[id]) else old(db.leads)[id]
    {
      ghost var was := db.leads;
      var todo := db.leads.Keys;
      while todo != {}
        invariant todo <= was.Keys == db.leads.Keys
        invariant forall id :: id in was ==>
          db.leads[id] == if id !in todo && select(was[id]) then change(was[id]) else was[id]
        decreases todo
      {
        var id :| id in todo;
        if select(db.leads[id]) {
          db.leads := db.leads[id := change(db.leads[id])];
        }
        todo := todo - {id};
      }
    }
  }

  /** Where `dispatchOne` throws, if it does: before the enqueue, at `sentToday`, or at the last update. */
  datatype Failure = NoFailure | BeforeEnqueue | AtCount | AtOpen

  function FirstPending(leads: map<LeadId, Lead>, order: seq<LeadId>): Option<LeadId> {
    if order == [] then None
    else if HasLine(leads, order[0]) then Some(order[0])
    else FirstPending(leads, order[1..])
  }

  predicate HasLine(leads: map<LeadId, Lead>, id: LeadId) {
    id in leads && leads[id].status == Pending && !leads[id].suppressed
  }

  /** Lead `i` of the table is in line, and none created before it. */
  predicate OldestAt(leads: map<LeadId, Lead>, order: seq<LeadId>, i: int) {
    0 <= i < |order| && HasLine(leads, order[i]) && forall j :: 0 <= j < i ==> !HasLine(leads, order[j])
  }

  lemma {:induction false} FirstPendingIsOldest(leads: map<LeadId, Lead>, order: seq<LeadId>)
    ensures FirstPending(leads, order).Some? ==>
      exists i :: OldestAt(leads, order, i) && order[i] == FirstPending(leads, order).value
    ensures FirstPending(leads, order).None? ==> forall id :: id in order ==> !HasLine(leads, id)
  {
    if order != [] {
      if HasLine(leads, order[0]) {
        assert OldestAt(leads, order, 0);
      } else {
        FirstPendingIsOldest(leads, order[1..]);
        if FirstPending(leads, order).Some? {
          var i :| OldestAt(leads, order[1..], i) && order[1..][i] == FirstPending(leads, order).value;
          forall j | 0 <= j < i + 1 ensures !HasLine(leads, order[j]) {
            assert j > 0 ==> order[j] == order[1..][j - 1];
          }
          assert order[i + 1] == order[1..][i];
          assert OldestAt(leads, order, i + 1);
        }
      }
    }
  }

  /** The flow's leads after `n` dispatches that go through. */
  function AfterDispatches(leads: map<LeadId, Lead>, order: seq<LeadId>, n: nat): map<LeadId, Lead> {
    if n == 0 || FirstPending(leads, order).None? then leads
    else
      var id := FirstPending(leads, order).value;
      if id in leads then AfterDispatches(OpenedIn(leads, id), order, n - 1) else leads
  }

  function OpenedIn(leads: map<LeadId, Lead>, id: LeadId): map<LeadId, Lead>
    requires id in leads
  {
    leads[id := leads[id].(status := Opened)]
  }

  function InLine(leads: map<LeadId, Lead>): LeadId -> bool {
    (id: LeadId) => HasLine(leads, id)
  }

  predicate Distinct(order: seq<LeadId>) {
    forall i, j :: 0 <= i < j < |order| ==> order[i] != order[j]
  }

  lemma {:induction false} LineShortens(leads: map<LeadId, Lead>, order: seq<LeadId>, f: nat, n: nat)
    requires Distinct(order) && f < |order| && n <= |order| && HasLine(leads, order[f])
    ensures Count(order[..n], InLine(OpenedIn(leads, order[f]))) + (if f < n then 1 else 0)
            == Count(order[..n], InLine(leads))
  {
    if n > 0 {
      LineShortens(leads, order, f, n - 1);
      assert order[..n][..n - 1] == order[..n - 1];
    }
  }

  lemma {:induction false} NoneBefore(leads: map<LeadId, Lead>, order: seq<LeadId>, n: nat)
    requires n <= |order| && forall j :: 0 <= j < n ==> !HasLine(leads, order[j])
    ensures Count(order[..n], InLine(leads)) == 0
  {
    if n > 0 {
      NoneBefore(leads, order, n - 1);
      assert order[..n][..n - 1] == order[..n - 1];
    }
  }

  /**
   No lead starves: one with `ahead` leads in line before it stays in line for as many dispatches, and the next
   one that goes through is its own.
   */
  lemma {:induction false} NoLeadStarves(leads: map<LeadId, Lead>, order: seq<LeadId>, i: nat, ahead: nat)
    requires Distinct(order) && i < |order| && HasLine(leads, order[i])
    requires ahead == Count(order[..i], InLine(leads))
    ensures HasLine(AfterDispatches(leads, order, ahead), order[i])
    ensures HasStatus(EMPTY.(leads := AfterDispatches(leads, order, ahead + 1)), order[i], Opened)
    decreases ahead
  {
    FirstPendingIsOldest(leads, order);
    assert order[i] in order;
    var f :| OldestAt(leads, order, f) && order[f] == FirstPending(leads, order).value;
    var leads' := OpenedIn(leads, order[f]);
    LineShortens(leads, order, f, i);
    if f == i {
      NoneBefore(leads, order, i);
      assert AfterDispatches(leads', order, 0) == leads';
    } else {
      assert f < i && order[f] != order[i];
      NoLeadStarves(leads', order, i, ahead - 1);
    }
  }

  /** The events of one undisturbed `dispatchOne`, as task number `i`. */
  function Undisturbed(id: LeadId, i: nat, failure: Failure): seq<Event> {
    match failure
    case NoFailure => [Find(id), Claim(i), Enqueue(i), CountSent(i), Open(i)]
    case BeforeEnqueue => [Find(id), Claim(i), Throw(i)]
    case AtCount => [Find(id), Claim(i), Enqueue(i), Throw(i)]
    case AtOpen => [Find(id), Claim(i), Enqueue(i), CountSent(i), Throw(i)]
  }

  class DispatchService {
    const db: OutreachDb

    constructor (db: OutreachDb)
      ensures this.db == db
    {
      this.db := db;
    }

    /** `findFirst`: the oldest lead in line; `order` is the flow's leads by creation date. */
    method FindFirst(order: seq<LeadId>) returns (id: Option<LeadId>)
      ensures id == FirstPending(db.leads, order)
      ensures id.Some? ==> HasLine(db.leads, id.value) && (exists i ::
        0 <= i < |order| && order[i] == id.value && (forall j :: 0 <= j < i ==> !HasLine(db.leads, order[j])))
      ensures id.None? ==> forall other :: other in order ==> !HasLine(db.leads, other)
    {
      var i := 0;
      while i < |order|
        invariant i <= |order|
        invariant FirstPending(db.leads, order) == FirstPending(db.leads, order[i..])
        invariant forall j :: 0 <= j < i ==> !HasLine(db.leads, order[j])
      {
        if HasLine(db.leads, order[i]) {
          return Some(order[i]);
        }
        i := i + 1;
      }
      return None;
    }

    /** `dispatchOne` with nothing in between: what it leaves is what its events leave. */
    method DispatchOne(order: seq<LeadId>, failure: Failure) returns (sent: bool)
      modifies db`leads, db`openings, db`sentToday
      ensures sent <==> FirstPending(old(db.leads), order).Some? && failure == NoFailure
      ensures FirstPending(old(db.leads), order).None? ==>
        db.leads == old(db.leads) && db.openings == old(db.openings) && db.sentToday == old(db.sentToday)
      ensures FirstPending(old(db.leads), order).Some? ==>
        var id := FirstPending(old(db.leads), order).value;
        var w := World({}, old(db.leads), [], [], old(db.openings), map[], 0, old(db.sentToday));
        var w' := Run(w, Undisturbed(id, 0, failure));
        db.leads == w'.leads && db.openings == w'.jobs && db.sentToday == w'.sent
      ensures sent ==> (exists i ::
        && OldestAt(old(db.leads), order, i)
        && db.leads == OpenedIn(old(db.leads), order[i]) && db.sentToday == old(db.sentToday) + 1
        && db.openings == old(db.openings) + [Opening(order[i], old(db.leads)[order[i]].phone)])
      ensures !sent ==> db.leads == old(db.leads)
      ensures failure == NoFailure ==> db.leads == AfterDispatches(old(db.leads), order, 1)
    {
      FirstPendingIsOldest(db.leads, order);
      var found := FindFirst(order);
      if found.None? {
        return false;
      }
      var id := found.value;
      var phone := db.leads[id].phone;
      ghost var w := World({}, db.leads, [], [], db.openings, map[], 0, db.sentToday);
      UndisturbedRun(w, id, failure);
      db.leads := db.leads[id := db.leads[id].(status := Queued)];
      sent := SendClaimed(id, phone, failure);
      assert db.leads == w.leads[id := w.leads[id].(status := if sent then Opened else Pending)];
    }

    /** What follows the claim, with the catch that puts the lead back in line. */
    method SendClaimed(id: LeadId, phone: Phone, failure: Failure) returns (sent: bool)
      requires id in db.leads && db.leads[id].status == Queued
      modifies db`leads, db`openings, db`sentToday
      ensures sent == (failure == NoFailure)
      ensures db.leads == old(db.leads)[id := old(db.leads)[id].(status := if sent then Opened else Pending)]
      ensures db.openings == if failure == BeforeEnqueue then old(db.openings) else old(db.openings) + [Opening(id, phone)]
      ensures db.sentToday == old(db.sentToday) + if failure == NoFailure || failure == AtOpen then 1 else 0
    {
      if failure != BeforeEnqueue {
        db.openings := db.openings + [Opening(id, phone)];
        if failure != AtCount {
          db.sentToday := db.sentToday + 1;
          if failure != AtOpen {
            db.leads := db.leads[id := db.leads[id].(status := Opened)];
            return true;
          }
        }
      }
      if db.leads[id].status == Queued {
        db.leads := db.leads[id := db.leads[id].(status := Pending)];
      }
      return false;
    }
  }

  lemma RunStep(w: World, a: Event, rest: seq<Event>)
    ensures Run(w, [a] + rest) == Run(Apply(w, a), rest)
  {
    assert ([a] + rest)[1..] == rest;
  }

  /** A world whose only call is about `id`, at `stage`. */
  function OnlyCall(w: World, id: LeadId, stage: Stage): World
    requires id in w.leads
  {
    w.(tasks := [Task(id, w.leads[id].phone, stage)])
  }

  function ClaimedWorld(w: World, id: LeadId): World
    requires id in w.leads
  {
    OnlyCall(w, id, Claimed).(leads := w.leads[id := w.leads[id].(status := Queued)], claims := w.claims + 1)
  }

  lemma FindAndClaim(w: World, id: LeadId, rest: seq<Event>)
    requires HasLine(w.leads, id) && w.tasks == []
    ensures Run(w, [Find(id), Claim(0)] + rest) == Run(ClaimedWorld(w, id), rest)
  {
    assert [Find(id), Claim(0)] + rest == [Find(id)] + ([Claim(0)] + rest);
    RunStep(w, Find(id), [Claim(0)] + rest);
    RunStep(Apply(w, Find(id)), Claim(0), rest);
    assert Apply(w, Find(id)) == OnlyCall(w, id, Found);
    assert Apply(OnlyCall(w, id, Found), Claim(0)) == ClaimedWorld(w, id);
  }

  /** The world once the claimed call has queued its opening. */
  function QueuedWorld(w: World, id: LeadId): World
    requires id in w.leads
  {
    OnlyCall(ClaimedWorld(w, id), id, Enqueued).(jobs := w.jobs + [Opening(id, w.leads[id].phone)])
  }

  lemma EnqueueThen(w: World, id: LeadId, rest: seq<Event>)
    requires HasLine(w.leads, id) && w.tasks == []
    ensures Run(ClaimedWorld(w, id), [Enqueue(0)] + rest) == Run(QueuedWorld(w, id), rest)
  {
    RunStep(ClaimedWorld(w, id), Enqueue(0), rest);
    assert Apply(ClaimedWorld(w, id), Enqueue(0)) == QueuedWorld(w, id);
  }

  lemma EndOfCall(w: World, id: LeadId, e: Event)
    requires id in w.leads && w.leads[id].status == Queued
    requires exists phone, stage :: w.tasks == [Task(id, phone, stage)] && stage != Found && stage != Over
                                    && (e == Throw(0) || (e == Open(0) && stage == Counted))
    ensures var w' := Run(w, [e]);
      && w'.leads == w.leads[id := w.leads[id].(status := if e.Open? then Opened else Pending)]
      && w'.jobs == w.jobs && w'.sent == w.sent
  {
    RunStep(w, e, []);
    assert [e] == [e] + [];
  }

  /** One undisturbed dispatch opens its lead, or puts it back in line if anything throws. */
  lemma UndisturbedRun(w: World, id: LeadId, failure: Failure)
    requires HasLine(w.leads, id) && w.tasks == []
    ensures var w' := Run(w, Undisturbed(id, 0, failure));
      && w'.leads == w.leads[id := w.leads[id].(status := if failure == NoFailure then Opened else Pending)]
      && w'.jobs == (if failure == BeforeEnqueue then w.jobs else w.jobs + [Opening(id, w.leads[id].phone)])
      && w'.sent == w.sent + (if failure == NoFailure || failure == AtOpen then 1 else 0)
  {
    if failure == BeforeEnqueue {
      ThrownBeforeEnqueue(w, id);
    } else {
      var last := if failure == NoFailure then Open(0) else Throw(0);
      var rest := if failure == AtCount then [last] else [CountSent(0)] + [last];
      assert Undisturbed(id, 0, failure) == [Find(id), Claim(0)] + ([Enqueue(0)] + rest);
      FindAndClaim(w, id, [Enqueue(0)] + rest);
      EnqueueThen(w, id, rest);
      UndisturbedEnd(w, id, failure, last);
    }
  }

  lemma ThrownBeforeEnqueue(w: World, id: LeadId)
    requires HasLine(w.leads, id) && w.tasks == []
    ensures var w' := Run(w, Undisturbed(id, 0, BeforeEnqueue));
      w'.leads == w.leads[id := w.leads[id].(status := Pending)] && w'.jobs == w.jobs && w'.sent == w.sent
  {
    FindAndClaim(w, id, [Throw(0)]);
    EndOfCall(ClaimedWorld(w, id), id, Throw(0));
    assert Undisturbed(id, 0, BeforeEnqueue) == [Find(id), Claim(0)] + [Throw(0)];
  }

  lemma UndisturbedEnd(w: World, id: LeadId, failure: Failure, last: Event)
    requires HasLine(w.leads, id) && w.tasks == [] && failure != BeforeEnqueue
    requires last == if failure == NoFailure then Open(0) else Throw(0)
    ensures var w' := Run(QueuedWorld(w, id), if failure == AtCount then [last] else [CountSent(0)] + [last]);
      && w'.leads == w.leads[id := w.leads[id].(status := if failure == NoFailure then Opened else Pending)]
      && w'.jobs == w.jobs + [Opening(id, w.leads[id].phone)]
      && w'.sent == w.sent + (if failure == AtCount then 0 else 1)
  {
    var queued := QueuedWorld(w, id);
    if failure == AtCount {
      EndOfCall(queued, id, last);
    } else {
      RunStep(queued, CountSent(0), [last]);
      var counted := Apply(queued, CountSent(0));
      assert counted.tasks == [Task(id, w.leads[id].phone, Counted)];
      EndOfCall(counted, id, last);
    }
  }
}
