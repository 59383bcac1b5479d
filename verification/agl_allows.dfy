/**
 * Whose permission requests a chat answers, and on whose word, in every interleaving: the decisions
 * sent to linked computers.
 */
module AglAllows {
  import opened Wrappers
  import opened Text
  import opened AglStream
  import opened AglTales
  import opened AglChat
  import A = AglAnswers

  predicate WorkerOk(env: Env, chat: Chat, worker: Worker) {
    match worker
    case Ready => true
    case Recovering(place, found, _, decision, permit) =>
      place.machine == chat.machine && Asked(env, place, found.request) && Decided(permit, place.machine, decision)
    case Answering(place, request, decision, permit, _) => Asked(env, place, request) && Decided(permit, place.machine, decision)
    case Acknowledging(place, request, decision, permit, _, _) => Asked(env, place, request) && Decided(permit, place.machine, decision)
  }

  predicate ChatOk(env: Env, chat: Chat) {
    chat.approval.Some? ==> Asked(env, Place(chat.machine, chat.approval.value.session), chat.approval.value.request)
  }

  predicate CollectorOk(env: Env, c: Collector) {
    c.pc.Asking? ==> Asked(env, c.place, c.pc.request)
  }

  predicate InTime(g: Grant, place: Place, at: nat) {
    g.place == place && g.at <= at <= g.at + 24 * 60 * 60
  }

  /**
   * A person's decision answers a request of the place it is sent to. A grant's decision answers one that
   * the collector read in its own machine's session of that id, which is the place it is sent to unless
   * the chat was bound to another machine by then.
   */
  ghost predicate SentOk(env: Env, grants: seq<Grant>, s: Sent) {
    match s.cause
    case ByPerson(permit) => Asked(env, s.place, s.request) && Decided(permit, s.place.machine, s.decision)
    case ByGrant(at, reader) =>
      && s.decision == AllowSession && Asked(env, Place(reader, s.place.session), s.request)
      && exists i :: 0 <= i < |grants| && InTime(grants[i], s.place, at)
  }

  ghost predicate AllowInv(w: World) {
    && WorkerOk(w.env, w.chat, w.worker) && ChatOk(w.env, w.chat)
    && (forall k :: 0 <= k < |w.collectors| ==> CollectorOk(w.env, w.collectors[k]))
    && (forall i :: 0 <= i < |w.grants| ==> GrantOk(w.env, w.grants[i]))
    && (forall i :: 0 <= i < |w.sent| ==> SentOk(w.env, w.grants, w.sent[i]))
    && (w.worker.Acknowledging? ==> JustSent(w))
  }

  predicate JustSent(w: World)
    requires w.worker.Acknowledging?
  {
    exists j :: 0 <= j < |w.sent| &&
                w.sent[j] == Sent(w.worker.place, w.worker.request, w.worker.decision, ByPerson(w.worker.permit))
  }

  // ----- what was asked stays asked; what was sent and granted stays so

  /** n is a later world: streams, grants and decisions have only grown. */
  ghost predicate Later(w: World, n: World) {
    && (forall p :: Log(w.env, p) <= Log(n.env, p))
    && w.sent <= n.sent && w.grants <= n.grants
  }

  lemma AskedStays(w: World, n: World, p: Place, request: string)
    requires Later(w, n) && Asked(w.env, p, request)
    ensures Asked(n.env, p, request)
  {
    var i :| 0 <= i < |Log(w.env, p)| && Log(w.env, p)[i] == PermissionRequest(request, false);
    assert Log(w.env, p) <= Log(n.env, p);
    assert Log(n.env, p)[i] == PermissionRequest(request, false);
  }

  lemma SentStays(w: World, n: World, s: Sent)
    requires Later(w, n) && SentOk(w.env, w.grants, s)
    ensures SentOk(n.env, n.grants, s)
  {
    if s.cause.ByGrant? {
      AskedStays(w, n, Place(s.cause.reader, s.place.session), s.request);
      var i :| 0 <= i < |w.grants| && InTime(w.grants[i], s.place, s.cause.at);
      assert n.grants[i] == w.grants[i];
    } else {
      AskedStays(w, n, s.place, s.request);
    }
  }

  /** What was sent and granted stays in order in a later world. */
  lemma HistoriesStay(w: World, n: World)
    requires AllowInv(w) && Later(w, n)
    ensures forall i :: 0 <= i < |w.sent| ==> SentOk(n.env, n.grants, w.sent[i])
    ensures forall i :: 0 <= i < |w.grants| ==> GrantOk(n.env, w.grants[i])
  {
    forall i | 0 <= i < |w.sent|
      ensures SentOk(n.env, n.grants, w.sent[i])
    {
      SentStays(w, n, w.sent[i]);
    }
    forall i | 0 <= i < |w.grants|
      ensures GrantOk(n.env, w.grants[i])
    {
      AskedStays(w, n, w.grants[i].place, w.grants[i].request);
    }
  }

  lemma LaterStep(w: World, step: Step)
    ensures Later(w, Next(w, step))
  {
    var n := Next(w, step);
    if step.Emits? && MayEmit(w.env, step.place, step.event) {
      A.LogEmits(w.env, step.place, step.event);
    } else if !step.Emits? && !step.GrantElsewhere? {
      QuietStep(w, step);
    }
  }

  /** Every step of the chat's own leaves the streams alone, and only adds to what was sent and granted. */
  lemma QuietStep(w: World, step: Step)
    requires !step.Emits? && !step.GrantElsewhere?
    ensures var n := Next(w, step); n.env == w.env && w.sent <= n.sent && w.grants <= n.grants
  {
    match step
    case Deliver(k) => QuietCollector(w, k, step);
    case Miss(k) => QuietCollector(w, k, step);
    case Quit(k) => QuietCollector(w, k, step);
    case AnswerRequest(k, _) => QuietCollector(w, k, step);
    case Tick =>
    case _ => QuietWorker(w, step);
  }

  lemma QuietWorker(w: World, step: Step)
    ensures var n := WorkerStep(w, step); n.env == w.env && w.sent <= n.sent && w.grants <= n.grants
  {
  }

  lemma QuietCollector(w: World, k: nat, step: Step)
    ensures var n := CollectorStep(w, k, step); n.env == w.env && w.sent <= n.sent && n.grants == w.grants
    ensures var n := CollectorStep(w, k, step); n.worker == w.worker && n.chat.machine == w.chat.machine
  {
  }

  // ----- each step keeps the invariant

  lemma RequestShown(window: seq<Envelope>, log: seq<Event>) returns (i: nat)
    requires Shows(window, log) && AglStream.Recover(window).Some?
    ensures i < |log| && log[i] == PermissionRequest(AglStream.Recover(window).value.request, false)
  {
    var j := RecoveredAsked(window);
    i := |log| - |window| + j;
  }

  lemma RecoverAsked(w: World, m: Inbound, machines: Machines, window: seq<Envelope>)
    requires AllowInv(w) && w.worker.Ready?
    ensures var n := RecoverStep(w, m, machines, window); WorkerOk(n.env, n.chat, n.worker)
  {
    var n := RecoverStep(w, m, machines, window);
    if n.worker.Recovering? {
      var i := RequestShown(window, Log(w.env, n.worker.place));
    }
  }

  lemma WorkerStepOk(w: World, step: Step)
    requires AllowInv(w)
    ensures var n := WorkerStep(w, step); WorkerOk(n.env, n.chat, n.worker) && ChatOk(n.env, n.chat)
    ensures var n := WorkerStep(w, step); n.worker.Acknowledging? ==> JustSent(n)
  {
    if w.worker.Ready? {
      ReadyStepOk(w, step);
    } else if w.worker.Answering? && step.SendDecision? {
      var n, a := WorkerStep(w, step), w.worker;
      assert n.sent[|w.sent|] == Sent(a.place, a.request, a.decision, ByPerson(a.permit));
    }
  }

  lemma ReadyStepOk(w: World, step: Step)
    requires AllowInv(w) && w.worker.Ready?
    ensures var n := WorkerStep(w, step);
            WorkerOk(n.env, n.chat, n.worker) && ChatOk(n.env, n.chat) && !n.worker.Acknowledging?
  {
    if step.Recover? {
      RecoverAsked(w, step.message, step.machines, step.window);
    }
  }

  /** A worker's block only marks collectors, or adds one that asks nothing. */
  lemma WorkerCollectors(w: World, step: Step)
    ensures var n := WorkerStep(w, step);
            && |w.collectors| <= |n.collectors|
            && (forall k :: 0 <= k < |w.collectors| ==>
                  n.collectors[k] == w.collectors[k] || n.collectors[k] == w.collectors[k].(stopped := true))
            && forall k :: |w.collectors| <= k < |n.collectors| ==> n.collectors[k].pc.Looping?
  {
  }

  lemma WorkerCollectorsOk(w: World, step: Step)
    requires AllowInv(w)
    ensures var n := WorkerStep(w, step); forall k :: 0 <= k < |n.collectors| ==> CollectorOk(n.env, n.collectors[k])
  {
    var n := WorkerStep(w, step);
    WorkerCollectors(w, step);
    QuietWorker(w, step);
    forall k | 0 <= k < |n.collectors|
      ensures CollectorOk(n.env, n.collectors[k])
    {
      if k < |w.collectors| {
        assert CollectorOk(w.env, w.collectors[k]);
      }
    }
  }

  /** What a worker's block adds to the decisions and the grants. */
  lemma WorkerAdds(w: World, step: Step)
    requires AllowInv(w)
    ensures var n := WorkerStep(w, step);
            && (n.sent == w.sent || (w.worker.Answering? && n.grants == w.grants &&
                  n.sent == w.sent + [Sent(w.worker.place, w.worker.request, w.worker.decision, ByPerson(w.worker.permit))]))
            && (n.grants == w.grants || (w.worker.Acknowledging? && w.worker.decision == AllowSession && n.sent == w.sent &&
                  n.grants == w.grants + [Grant(w.worker.place, w.now, w.worker.permit, w.worker.request)]))
  {
  }

  lemma WorkerKeepsAllows(w: World, step: Step)
    requires AllowInv(w)
    requires Later(w, WorkerStep(w, step))
    ensures AllowInv(WorkerStep(w, step))
  {
    var n := WorkerStep(w, step);
    WorkerStepOk(w, step);
    WorkerCollectorsOk(w, step);
    WorkerAdds(w, step);
    HistoriesStay(w, n);
    forall i | |w.sent| <= i < |n.sent|
      ensures SentOk(n.env, n.grants, n.sent[i])
    {
      AskedStays(w, n, n.sent[i].place, n.sent[i].request);
    }
    forall i | |w.grants| <= i < |n.grants|
      ensures GrantOk(n.env, n.grants[i])
    {
      AskedStays(w, n, w.worker.place, w.worker.request);
    }
  }

  lemma EventStepOk(w: World, k: nat, e: Event)
    requires AllowInv(w) && k < |w.collectors| && w.collectors[k].pc.Looping?
    requires var c := w.collectors[k]; c.pos < |Log(w.env, c.place)| && Log(w.env, c.place)[c.pos] == e
    ensures CollectorLeaves(w, HandleEvent(w, k, w.collectors[k], e))
  {
  }

  /** What a session grant sends: to the machine that was read, for the collector's session. */
  lemma GrantSendOk(w: World, k: nat)
    requires AllowInv(w) && k < |w.collectors| && w.collectors[k].pc.Asking?
    requires Granted(w.grants, Place(w.collectors[k].pc.machine, w.collectors[k].place.session), w.now)
    ensures var c := w.collectors[k];
            SentOk(w.env, w.grants,
                   Sent(Place(c.pc.machine, c.place.session), c.pc.request, AllowSession, ByGrant(w.now, c.place.machine)))
  {
    var c := w.collectors[k];
    var place := Place(c.pc.machine, c.place.session);
    assert CollectorOk(w.env, c);
    var i :| 0 <= i < |w.grants| && w.grants[i].place == place && w.grants[i].at <= w.now <= w.grants[i].at + GRANT_TTL;
    assert InTime(w.grants[i], place, w.now);
  }

  lemma AnswerStepOk(w: World, k: nat, granted: bool)
    requires AllowInv(w) && ChatInv(w.chat, w.collectors) && k < |w.collectors| && w.collectors[k].pc.Asking?
    ensures CollectorLeaves(w, AnswerStep(w, k, w.collectors[k], granted))
  {
    var c := w.collectors[k];
    var n := AnswerStep(w, k, c, granted);
    assert CollectorOk(w.env, c);
    if n.sent != w.sent {
      GrantSendOk(w, k);
    }
    forall j | 0 <= j < |n.collectors|
      ensures CollectorOk(n.env, n.collectors[j])
    {
      assert CollectorOk(w.env, w.collectors[j]);
    }
  }

  /** What a collector's block leaves: the chat's request was asked, and any decision it sent is in order. */
  ghost predicate CollectorLeaves(w: World, n: World) {
    && ChatOk(n.env, n.chat)
    && (forall j :: 0 <= j < |n.collectors| ==> CollectorOk(n.env, n.collectors[j]))
    && (n.sent == w.sent || (|n.sent| == |w.sent| + 1 && w.sent <= n.sent && SentOk(w.env, w.grants, n.sent[|w.sent|])))
  }

  lemma QuitStepOk(w: World, k: nat)
    requires AllowInv(w) && k < |w.collectors|
    ensures var c := w.collectors[k];
            CollectorLeaves(w, Update(w, k, c.(pc := Exited)).(chat := Finish(w.chat, c.gen)))
  {
  }

  lemma MissStepOk(w: World, k: nat, e: Event)
    requires AllowInv(w) && k < |w.collectors| && w.collectors[k].pc.Looping?
    ensures CollectorLeaves(w, Update(w, k, MissEvent(w.collectors[k], e)))
  {
  }

  lemma CollectorStepOk(w: World, k: nat, step: Step)
    requires AllowInv(w) && ChatInv(w.chat, w.collectors)
    ensures CollectorLeaves(w, CollectorStep(w, k, step))
  {
    if k < |w.collectors| {
      var c := w.collectors[k];
      match (c.pc, step)
      case (Looping, Deliver(_)) => if c.pos < |Log(w.env, c.place)| { EventStepOk(w, k, Log(w.env, c.place)[c.pos]); }
      case (Looping, Miss(_)) => if c.pos < |Log(w.env, c.place)| { MissStepOk(w, k, Log(w.env, c.place)[c.pos]); }
      case (Looping, Quit(_)) => QuitStepOk(w, k);
      case (Asking(_, _), AnswerRequest(_, granted)) => AnswerStepOk(w, k, granted);
      case _ =>
    }
  }

  lemma CollectorKeepsAllows(w: World, k: nat, step: Step)
    requires AllowInv(w) && ChatInv(w.chat, w.collectors)
    ensures AllowInv(CollectorStep(w, k, step))
  {
    var n := CollectorStep(w, k, step);
    QuietCollector(w, k, step);
    CollectorStepOk(w, k, step);
    CollectorLeft(w, n);
  }

  /** A collector's block that leaves the worker, streams and grants as they were keeps the invariant. */
  lemma CollectorLeft(w: World, n: World)
    requires AllowInv(w) && CollectorLeaves(w, n)
    requires n.env == w.env && w.sent <= n.sent && n.grants == w.grants && n.worker == w.worker && n.chat.machine == w.chat.machine
    ensures AllowInv(n)
  {
    HistoriesStay(w, n);
    if n.sent != w.sent {
      SentStays(w, n, n.sent[|w.sent|]);
    }
    if n.worker.Acknowledging? {
      JustSentStays(w, n);
    }
  }

  lemma JustSentStays(w: World, n: World)
    requires w.worker.Acknowledging? && JustSent(w) && w.sent <= n.sent && n.worker == w.worker
    ensures JustSent(n)
  {
    var j :| 0 <= j < |w.sent| &&
             w.sent[j] == Sent(w.worker.place, w.worker.request, w.worker.decision, ByPerson(w.worker.permit));
    assert n.sent[j] == w.sent[j];
  }

  /** Events, the clock and grants made elsewhere only let things stay. */
  lemma StayKeepsAllows(w: World, n: World)
    requires AllowInv(w) && Later(w, n)
    requires n == w.(env := n.env, now := n.now, grants := n.grants)
    requires forall i :: |w.grants| <= i < |n.grants| ==> GrantOk(n.env, n.grants[i])
    ensures AllowInv(n)
  {
    HistoriesStay(w, n);
    forall p, request | Asked(w.env, p, request)
      ensures Asked(n.env, p, request)
    {
      AskedStays(w, n, p, request);
    }
    assert forall k :: 0 <= k < |n.collectors| ==> CollectorOk(w.env, n.collectors[k]);
  }

  lemma AllowNext(w: World, step: Step)
    requires AllowInv(w) && ChatInv(w.chat, w.collectors)
    ensures AllowInv(Next(w, step))
  {
    LaterStep(w, step);
    match step
    case Emits(p, e) => StayKeepsAllows(w, Next(w, step));
    case Tick => StayKeepsAllows(w, Next(w, step));
    case GrantElsewhere(_) => StayKeepsAllows(w, Next(w, step));
    case Deliver(k) => CollectorKeepsAllows(w, k, step);
    case Miss(k) => CollectorKeepsAllows(w, k, step);
    case Quit(k) => CollectorKeepsAllows(w, k, step);
    case AnswerRequest(k, _) => CollectorKeepsAllows(w, k, step);
    case _ => WorkerKeepsAllows(w, step);
  }

  lemma {:induction false} AllowRun(w: World, steps: seq<Step>)
    requires AllowInv(w) && A.Inv(w)
    ensures AllowInv(Run(w, steps))
    decreases |steps|
  {
    if steps != [] {
      AllowNext(w, steps[0]);
      A.InvNext(w, steps[0]);
      AllowRun(Next(w, steps[0]), steps[1..]);
    }
  }

  lemma {:induction false} RunAllows(steps: seq<Step>)
    ensures AllowInv(Run(EMPTY, steps))
  {
    A.RunInv([]);
    AllowRun(EMPTY, steps);
  }

  // ----- whose messages the decisions are

  /** The message a step handles. */
  function HeardIn(step: Step): seq<Inbound> {
    match step
    case Enter(m, _) => [m]
    case Recover(m, _, _) => [m]
    case _ => []
  }

  /** The messages that the steps of a run handle, in order. */
  function Heard(steps: seq<Step>): seq<Inbound> {
    if steps == [] then [] else HeardIn(steps[0]) + Heard(steps[1..])
  }

  predicate WorkerSays(worker: Worker, said: seq<Inbound>) {
    worker.Ready? || worker.permit.message in said
  }

  /** Every decision made on a person's word is on the word of one of these messages. */
  predicate Voiced(w: World, said: seq<Inbound>) {
    && WorkerSays(w.worker, said)
    && forall i :: 0 <= i < |w.sent| && w.sent[i].cause.ByPerson? ==> w.sent[i].cause.permit.message in said
  }

  lemma WorkerVoiced(w: World, step: Step, said: seq<Inbound>)
    requires Voiced(w, said) && forall m :: m in HeardIn(step) ==> m in said
    ensures Voiced(WorkerStep(w, step), said)
  {
    if step.Enter? || step.Recover? {
      assert step.message in HeardIn(step);
    }
  }

  lemma CollectorVoiced(w: World, k: nat, step: Step, said: seq<Inbound>)
    requires Voiced(w, said)
    ensures Voiced(CollectorStep(w, k, step), said)
  {
  }

  lemma VoicedNext(w: World, step: Step, said: seq<Inbound>)
    requires Voiced(w, said) && forall m :: m in HeardIn(step) ==> m in said
    ensures Voiced(Next(w, step), said)
  {
    match step
    case Deliver(k) => CollectorVoiced(w, k, step, said);
    case Miss(k) => CollectorVoiced(w, k, step, said);
    case Quit(k) => CollectorVoiced(w, k, step, said);
    case AnswerRequest(k, _) => CollectorVoiced(w, k, step, said);
    case Emits(_, _) =>
    case Tick =>
    case GrantElsewhere(_) =>
    case _ => WorkerVoiced(w, step, said);
  }

  lemma {:induction false} VoicedRun(w: World, steps: seq<Step>, said: seq<Inbound>)
    requires Voiced(w, said) && forall m :: m in Heard(steps) ==> m in said
    ensures Voiced(Run(w, steps), said)
    decreases |steps|
  {
    if steps != [] {
      VoicedNext(w, steps[0], said);
      VoicedRun(Next(w, steps[0]), steps[1..], said);
    }
  }

  // ----- the results

  /** The text is one of these words, but for white space at its ends. */
  predicate Says(text: string, decision: Decision) {
    match decision
    case Allow => Strips(text, "1") || Strips(text, "１")
    case AllowSession => Strips(text, "2") || Strips(text, "２")
    case Deny => Strips(text, "3") || Strips(text, "３")
  }

  /**
   * The word of the one who may decide at this machine: a direct message by a permitted sender, in the space
   * of the agent's owner, for an agl agent bound to this machine, which is the owner's and not revoked.
   */
  predicate Authorised(permit: Permit, machine: string, decision: Decision) {
    var m := permit.message;
    && m.isAgl && !m.group && m.senderAllowed && m.boundTo == machine != "" && m.agentUser == m.spaceUser != ""
    && machine in permit.machines && permit.machines[machine] == MachineRecord(m.agentUser, false)
    && Says(m.text, decision)
  }

  lemma SaysIff(text: string, decision: Decision)
    ensures ApprovalDecision(text) == Some(decision) <==> Says(text, decision)
  {
    TrimStrips(text);
    forall t | Strips(text, t)
      ensures t == TrimSpace(text)
    {
      StripsOnly(text, t);
    }
  }

  lemma DecidedIff(permit: Permit, machine: string, decision: Decision)
    ensures Decided(permit, machine, decision) <==> Authorised(permit, machine, decision)
  {
    SaysIff(permit.message.text, decision);
  }

  /**
   * On whose word each decision is sent: a message the chat has handled, of its permitted sender, for a
   * machine that is his, that says it; or a session grant not older than a day for the machine and session it is
   * sent to, made, in this chat or in another of the bridge, by such a message on a request of that very
   * machine and session.
   */
  lemma {:induction false} EveryDecisionHasAuthor(steps: seq<Step>, i: nat)
    requires i < |Run(EMPTY, steps).sent|
    ensures var w := Run(EMPTY, steps); var s := w.sent[i];
            match s.cause
            case ByPerson(permit) => permit.message in Heard(steps) && Authorised(permit, s.place.machine, s.decision)
            case ByGrant(at, _) =>
              s.decision == AllowSession &&
              exists g :: 0 <= g < |w.grants| && InTime(w.grants[g], s.place, at) && GrantOk(w.env, w.grants[g])
                          && Authorised(w.grants[g].permit, s.place.machine, AllowSession)
  {
    RunAllows(steps);
    VoicedRun(EMPTY, steps, Heard(steps));
    var w := Run(EMPTY, steps);
    var s := w.sent[i];
    assert SentOk(w.env, w.grants, s);
    if s.cause.ByPerson? {
      DecidedIff(s.cause.permit, s.place.machine, s.decision);
    } else {
      var g :| 0 <= g < |w.grants| && InTime(w.grants[g], s.place, s.cause.at);
      assert GrantOk(w.env, w.grants[g]);
      DecidedIff(w.grants[g].permit, s.place.machine, AllowSession);
    }
  }

  /**
   * The word of the one who may decide is carried out: with a request pending at this machine, the decision
   * that the message says is sent for that request; the request is no longer pending; and the machine and
   * session are granted exactly when it was a session-wide decision that the machine took.
   */
  lemma DecisionIsSent(w: World, m: Inbound, machines: Machines, decision: Decision, ok: bool)
    requires w.worker.Ready? && w.chat.approval.Some? && Authorised(Permit(m, machines), w.chat.machine, decision)
    ensures var n, a := Next(Next(Next(w, Enter(m, machines)), SendDecision(ok)), Acknowledge), w.chat.approval.value;
            var place := Place(w.chat.machine, a.session);
            && n.sent == w.sent + [Sent(place, a.request, decision, ByPerson(Permit(m, machines)))]
            && n.chat == w.chat.(approval := None) && n.worker.Ready? && n.collectors == w.collectors
            && n.grants == w.grants + (if ok && decision == AllowSession && a.session != ""
                                       then [Grant(place, w.now, Permit(m, machines), a.request)] else [])
  {
    EnterAnswers(w, m, machines, decision);
    var a := w.chat.approval.value;
    var b := w.(worker := Answering(Place(w.chat.machine, a.session), a.request, decision, Permit(m, machines), FromChat(a.ref)));
    assert Next(b, SendDecision(ok)).collectors == w.collectors;
  }

  lemma EnterAnswers(w: World, m: Inbound, machines: Machines, decision: Decision)
    requires w.worker.Ready? && w.chat.approval.Some? && Authorised(Permit(m, machines), w.chat.machine, decision)
    ensures var a := w.chat.approval.value;
            Next(w, Enter(m, machines)) ==
            w.(worker := Answering(Place(w.chat.machine, a.session), a.request, decision, Permit(m, machines), FromChat(a.ref)))
  {
    DecidedIff(Permit(m, machines), w.chat.machine, decision);
  }

  /**
   * After a restart the same word is carried out from the history: with nothing pending and nothing running,
   * the newest open request of the running turn, as the window shows it, is sent the decision, and the chat
   * waits for that turn from there on with the text it has so far.
   */
  lemma RecoveredIsSent(w: World, m: Inbound, machines: Machines, window: seq<Envelope>, decision: Decision, ok: bool)
    requires w.worker.Ready? && w.chat.approval.None? && !w.chat.collecting
    requires Authorised(Permit(m, machines), w.chat.machine, decision)
    requires AglStream.Recover(window).Some?
    requires Shows(window, Log(w.env, Place(w.chat.machine, AglStream.Recover(window).value.session)))
    ensures var found := AglStream.Recover(window).value;
            var place := Place(w.chat.machine, found.session);
            var n := Next(Next(Next(w, Recover(m, machines, window)), Adopt(|Log(w.env, place)|)), SendDecision(ok));
            && n.sent == w.sent + [Sent(place, found.request, decision, ByPerson(Permit(m, machines)))]
            && A.Awaits(n, |w.collectors|, found.turn, place, |Log(w.env, place)|) && n.chat.outstanding == {found.turn}
            && n.collectors[|w.collectors|].watch == Watch(true, found.text)
  {
    DecidedIff(Permit(m, machines), w.chat.machine, decision);
    var found := AglStream.Recover(window).value;
    var place := Place(w.chat.machine, found.session);
    assert Next(w, Recover(m, machines, window)) ==
           w.(worker := Recovering(place, found, |Log(w.env, place)|, decision, Permit(m, machines)));
  }

  /**
   * A message for another machine than the chat is bound to first has the chat forget everything of the old one:
   * session, turns and pending request, with its collector told to stop. So its word answers nothing there.
   */
  lemma RebindForgets(w: World, m: Inbound, machines: Machines)
    requires w.worker.Ready? && Admitted(m, machines) && m.boundTo != w.chat.machine
    ensures var n := Next(w, Enter(m, machines));
            && n.chat.machine == m.boundTo && n.chat.session == "" && !n.chat.steer && !n.chat.collecting
            && n.chat.outstanding == {} && n.chat.approval.None? && n.chat.stop.None? && n.chat.gen > w.chat.gen
            && n.worker.Ready? && n.sent == w.sent
            && (w.chat.stop.Some? && w.chat.stop.value < |w.collectors| ==> n.collectors[w.chat.stop.value].stopped)
  {
  }

  /** A new session is asked for: the chat forgets the old one and tells its collector to stop. */
  lemma NewSessionForgets(w: World)
    requires w.worker.Ready?
    ensures var n := Next(w, NewSession);
            && n.chat == Chat(w.chat.machine, "", false, false, {}, None, None, n.chat.gen) && n.chat.gen > w.chat.gen
            && (w.chat.stop.Some? && w.chat.stop.value < |w.collectors| ==> n.collectors[w.chat.stop.value].stopped)
  {
  }

  /** A message that does not say a decision, or not by one who may, sends none. */
  lemma NothingElseIsSent(w: World, m: Inbound, machines: Machines)
    requires forall machine, decision :: !Authorised(Permit(m, machines), machine, decision)
    ensures Next(w, Enter(m, machines)).sent == w.sent && (w.worker.Ready? ==> Next(w, Enter(m, machines)).worker.Ready?)
    ensures forall window :: w.worker.Ready? ==> Next(w, Recover(m, machines, window)) == w
  {
    forall machine, decision
      ensures !Decided(Permit(m, machines), machine, decision)
    {
      DecidedIff(Permit(m, machines), machine, decision);
    }
    if Admitted(m, machines) && ApprovalDecision(m.text).Some? {
      assert Decided(Permit(m, machines), CheckOwnership(m, machines).value, ApprovalDecision(m.text).value);
    }
  }

  /** A collector reads a request of its own turn that nobody has decided, and notes the chat's machine with it. */
  lemma RequestIsRead(w: World, k: nat)
    requires k < |w.collectors| && w.collectors[k].pc.Looping? && w.collectors[k].pos < |Log(w.env, w.collectors[k].place)|
    ensures var n, c := Next(w, Deliver(k)), w.collectors[k];
            var e := Log(w.env, c.place)[c.pos];
            e.PermissionRequest? ==>
              n.collectors[k].pc == if c.watch.ours && !e.decided then Asking(w.chat.machine, e.request) else Looping
  {
  }

  /**
   * What the current collector does about a request that it read: a grant of the last day for the chat's machine
   * then and its session answers it, if the table still has it; otherwise it is the chat's pending one.
   */
  lemma RequestIsAsked(w: World, k: nat, granted: bool)
    requires k < |w.collectors| && w.collectors[k].pc.Asking? && w.collectors[k].gen == w.chat.gen
    ensures var n, c := Next(w, AnswerRequest(k, granted)), w.collectors[k];
            var to := Place(c.pc.machine, c.place.session);
            if granted && c.pc.request != "" && exists i :: 0 <= i < |w.grants| && InTime(w.grants[i], to, w.now)
            then n.chat == w.chat && n.sent == w.sent + [Sent(to, c.pc.request, AllowSession, ByGrant(w.now, c.place.machine))]
            else n.chat == w.chat.(approval := Some(Approval(w.refs, c.place.session, c.pc.request))) && n.sent == w.sent
  {
    var to := Place(w.collectors[k].pc.machine, w.collectors[k].place.session);
    assert forall i :: 0 <= i < |w.grants| ==>
             (InTime(w.grants[i], to, w.now) <==>
              w.grants[i].place == to && w.grants[i].at <= w.now <= w.grants[i].at + GRANT_TTL);
  }

  /** A resolution clears the pending request it is about, and the end of a turn any of them. */
  lemma PendingIsCleared(w: World, k: nat)
    requires k < |w.collectors| && w.collectors[k].pc.Looping? && w.collectors[k].pos < |Log(w.env, w.collectors[k].place)|
    ensures var n, c := Next(w, Deliver(k)), w.collectors[k];
            var e := Log(w.env, c.place)[c.pos];
            && (e.PermissionResolved? && n.chat.approval.Some? ==> n.chat.approval.value.request != e.request)
            && (e.TurnEnded? && c.gen == w.chat.gen ==> n.chat.approval.None?)
  {
  }

  /** A request pending in the chat. */
  predicate Pending(w: World, a: Approval) {
    w.chat.approval == Some(a)
  }

  /**
   * A pending request leaves the chat only when it has been answered, when it was resolved at the machine, when
   * a turn ends, when a newer one takes its place, when its collector quits or when the chat goes on to
   * another collector.
   */
  lemma PendingLeaves(w: World, step: Step, a: Approval)
    requires Pending(w, a)
    ensures var n := Next(w, step);
            || Pending(n, a) || n.chat.gen > w.chat.gen
            || (step == Acknowledge && w.worker.Acknowledging? && w.worker.origin == FromChat(a.ref))
            || (step.AnswerRequest? && n.chat.approval.Some? && n.chat.approval.value.ref == w.refs)
            || ((step.Deliver? || step.Quit?) && step.collector < |w.collectors|
                && var c := w.collectors[step.collector];
                   || (step.Quit? && c.gen == w.chat.gen)
                   || (step.Deliver? && c.pos < |Log(w.env, c.place)|
                       && var e := Log(w.env, c.place)[c.pos];
                          e == PermissionResolved(a.request) || (e.TurnEnded? && c.gen == w.chat.gen)))
  {
    if step.Deliver? {
      if step.collector < |w.collectors| {
        PendingEvent(w, step.collector, a);
      }
    } else if !step.Miss? && !step.Quit? && !step.AnswerRequest? && !step.Emits? && !step.Tick? && !step.GrantElsewhere? {
      PendingWorker(w, step, a);
    }
  }

  lemma PendingEvent(w: World, k: nat, a: Approval)
    requires Pending(w, a) && k < |w.collectors|
    ensures var c, n := w.collectors[k], CollectorStep(w, k, Deliver(k));
            || Pending(n, a)
            || (c.pos < |Log(w.env, c.place)|
                && var e := Log(w.env, c.place)[c.pos];
                   e == PermissionResolved(a.request) || (e.TurnEnded? && c.gen == w.chat.gen))
  {
  }

  lemma PendingWorker(w: World, step: Step, a: Approval)
    requires Pending(w, a)
    ensures var n := WorkerStep(w, step);
            || Pending(n, a) || n.chat.gen > w.chat.gen
            || (step == Acknowledge && w.worker.Acknowledging? && w.worker.origin == FromChat(a.ref))
  {
  }

  /** No two machines have a session of the same id. */
  ghost predicate SessionIdsUnique(env: Env) {
    forall p, q :: Log(env, p) != [] && Log(env, q) != [] && p.session == q.session ==> p == q
  }

  /** The decision is a person's, or a grant's sent to the machine whose collector read the request. */
  predicate AtReader(s: Sent) {
    s.cause.ByGrant? ==> s.cause.reader == s.place.machine
  }

  /**
   * Each decision answers a request that was asked and left to the chat: a person's, at the very machine
   * and session it is sent to; a grant's, at the machine of the collector that read it. So it goes
   * where it was asked unless, at the read, the chat was bound to another machine than the collector's;
   * and never astray when no two machines share a session id.
   */
  lemma {:induction false} EveryDecisionAnswersItsRequest(steps: seq<Step>, i: nat)
    requires i < |Run(EMPTY, steps).sent|
    ensures var w := Run(EMPTY, steps); var s := w.sent[i];
            && (s.cause.ByGrant? ==> Asked(w.env, Place(s.cause.reader, s.place.session), s.request))
            && (AtReader(s) || SessionIdsUnique(w.env) ==> Asked(w.env, s.place, s.request))
  {
    RunAllows(steps);
    var w := Run(EMPTY, steps);
    var s := w.sent[i];
    assert SentOk(w.env, w.grants, s);
    if s.cause.ByGrant? && SessionIdsUnique(w.env) {
      var g :| 0 <= g < |w.grants| && InTime(w.grants[g], s.place, s.cause.at);
      assert GrantOk(w.env, w.grants[g]);
      SameSession(w.env, s.place, w.grants[g].request, Place(s.cause.reader, s.place.session), s.request);
    }
  }

  lemma SameSession(env: Env, p: Place, a: string, q: Place, b: string)
    requires SessionIdsUnique(env) && Asked(env, p, a) && Asked(env, q, b) && p.session == q.session
    ensures p == q
  {
  }

  // ----- a run in which a session grant answers a request at the wrong machine

  const P1 := Place("m1", "s")
  const P2 := Place("m2", "s")
  const MACHINES: Machines := map["m1" := MachineRecord("ann", false), "m2" := MachineRecord("ann", false)]
  const SEEN := [TurnStarted("t0"), PermissionRequest("r0", false)]

  function Message(machine: string, text: string): Inbound {
    Inbound(true, "ann", machine, "ann", false, true, text)
  }

  lemma SeenScan()
    ensures AglStream.Recover([Envelope("s", SEEN[0]), Envelope("s", SEEN[1])]) == Some(Recovered("s", "t0", "r0", ""))
    ensures ApprovalDecision("2") == Some(AllowSession)
  {
    var one := [Envelope("s", SEEN[0])];
    var two := [Envelope("s", SEEN[0]), Envelope("s", SEEN[1])];
    assert two[..1] == one && one[..0] == [];
    assert ScanOf(one) == ScanStep(ScanOf([]), one[0]);
    assert ScanOf(one) == Scan("s", Tale("t0", ""), []);
    assert ScanOf(two) == ScanStep(ScanOf(one), two[1]);
    TrimIdle("2");
  }

  /** An ordinary message of the owner only binds the chat to the agent's machine. */
  lemma Enters(w: World, machine: string)
    requires w.worker.Ready? && (machine == "m1" || machine == "m2")
    ensures Next(w, Enter(Message(machine, "hello"), MACHINES)) == Rebound(w, machine)
  {
    TrimIdle("hello");
  }

  /** An event at the second machine that its session may send. */
  lemma Sends(w: World, v: World, e: Event)
    requires A.Reaches(w, v) && MayEmit(v.env, P2, e)
    ensures var n := Next(v, Emits(P2, e));
            && A.Reaches(w, n) && n == v.(env := Emit(v.env, P2, e))
            && Log(n.env, P2) == Log(v.env, P2) + [e] && Log(n.env, P1) == Log(v.env, P1)
  {
    A.LogEmits(v.env, P2, e);
    A.Onward(w, v, Emits(P2, e));
  }

  lemma SeenStreamed() returns (w: World)
    ensures A.Reaches(EMPTY, w) && w == EMPTY.(chat := Chat("m2", "", false, false, {}, None, None, 1), env := w.env)
    ensures w.env.started == {"t0"} && Log(w.env, P1) == [] && Log(w.env, P2) == SEEN
  {
    var enter := Enter(Message("m2", "hello"), MACHINES);
    Enters(EMPTY, "m2");
    A.Stay(EMPTY);
    A.Onward(EMPTY, EMPTY, enter);
    w := Next(EMPTY, enter);
    assert w == EMPTY.(chat := Chat("m2", "", false, false, {}, None, None, 1));
    Sends(EMPTY, w, SEEN[0]);
    w := Next(w, Emits(P2, SEEN[0]));
    Sends(EMPTY, w, SEEN[1]);
    w := Next(w, Emits(P2, SEEN[1]));
  }

  /**
   * The owner has answered "2" to a request of the second machine's session, and the worker is
   * between messages.
   */
  ghost predicate Knows(w: World, machine: string, started: set<string>, first: seq<Event>) {
    && w.worker.Ready? && w.now == 0 && w.chat.machine == machine
    && w.env.started == started && Log(w.env, P1) == first && Log(w.env, P2) == SEEN
    && w.grants == [Grant(P2, 0, Permit(Message("m2", "2"), MACHINES), "r0")]
  }

  lemma RecoverRun(w: World) returns (v: World)
    requires w == EMPTY.(chat := Chat("m2", "", false, false, {}, None, None, 1), env := w.env)
    requires Log(w.env, P2) == SEEN
    ensures A.Reaches(w, v) && v.env == w.env && v.grants == [] && v.now == 0
    ensures v.chat.machine == "m2" && |v.collectors| == 1
    ensures v.worker == Answering(P2, "r0", AllowSession, Permit(Message("m2", "2"), MACHINES), FromHistory(0))
  {
    SeenScan();
    var window := [Envelope("s", SEEN[0]), Envelope("s", SEEN[1])];
    var recover := Step.Recover(Message("m2", "2"), MACHINES, window);
    assert Shows(window, Log(w.env, P2));
    A.Stay(w);
    A.Onward(w, w, recover);
    v := Next(w, recover);
    assert v.worker.Recovering? && v.worker.place == P2;
    A.Onward(w, v, Adopt(2));
    v := Next(v, Adopt(2));
  }

  lemma GrantRun(w: World) returns (v: World)
    requires w == EMPTY.(chat := Chat("m2", "", false, false, {}, None, None, 1), env := w.env)
    requires w.env.started == {"t0"} && Log(w.env, P1) == [] && Log(w.env, P2) == SEEN
    ensures A.Reaches(w, v) && Knows(v, "m2", {"t0"}, []) && |v.collectors| == 1
  {
    v := RecoverRun(w);
    A.Onward(w, v, SendDecision(true));
    v := Next(v, SendDecision(true));
    A.Onward(w, v, Acknowledge);
    v := Next(v, Acknowledge);
  }

  /** The collector of the first machine's session, having seen its turn start. */
  predicate WatchesFirst(c: Collector, pos: nat) {
    c.place == P1 && c.pos == pos && c.pc.Looping? && (pos == 1 ==> c.watch.ours)
  }

  /** Then the agent is bound to the first machine, whose session has the same id, and a turn runs there. */
  lemma OpenRun(w: World) returns (v: World)
    requires Knows(w, "m2", {"t0"}, []) && |w.collectors| == 1
    ensures A.Reaches(w, v) && Knows(v, "m1", {"t0"}, []) && v.sent == w.sent && |v.collectors| == 2
    ensures WatchesFirst(v.collectors[1], 0) && v.collectors[1].gen == v.chat.gen && v.chat.outstanding == {"t1"}
  {
    var enter := Enter(Message("m1", "hello"), MACHINES);
    Enters(w, "m1");
    A.Stay(w);
    A.Onward(w, w, enter);
    v := Next(w, enter);
    A.Onward(w, v, Open("s", false, "t1", 0));
    v := Next(v, Open("s", false, "t1", 0));
  }

  lemma StartRun(w: World) returns (v: World)
    requires Knows(w, "m1", {"t0"}, []) && |w.collectors| == 2 && WatchesFirst(w.collectors[1], 0)
    requires w.collectors[1].gen == w.chat.gen && w.chat.outstanding == {"t1"}
    ensures A.Reaches(w, v) && Knows(v, "m1", {"t0", "t1"}, [TurnStarted("t1")]) && v.sent == w.sent
    ensures |v.collectors| == 2 && WatchesFirst(v.collectors[1], 1)
  {
    var start := Emits(P1, TurnStarted("t1"));
    A.LogEmits(w.env, P1, TurnStarted("t1"));
    A.Stay(w);
    A.Onward(w, w, start);
    v := Next(w, start);
    assert {"t0"} + {"t1"} == {"t0", "t1"};
    A.Onward(w, v, Deliver(1));
    v := Next(v, Deliver(1));
  }

  /** It is bound to the second again, and the superseded collector still reads a request of the first. */
  lemma StrayAsked(w: World) returns (v: World)
    requires Knows(w, "m1", {"t0", "t1"}, [TurnStarted("t1")]) && |w.collectors| == 2 && WatchesFirst(w.collectors[1], 1)
    ensures A.Reaches(w, v) && Knows(v, "m2", {"t0", "t1"}, [TurnStarted("t1"), PermissionRequest("r1", false)])
    ensures v.sent == w.sent && |v.collectors| == 2 && WatchesFirst(v.collectors[1], 1)
  {
    var enter, ask := Enter(Message("m2", "hello"), MACHINES), Emits(P1, PermissionRequest("r1", false));
    Enters(w, "m2");
    A.Stay(w);
    A.Onward(w, w, enter);
    v := Next(w, enter);
    assert Knows(v, "m2", {"t0", "t1"}, [TurnStarted("t1")]) && WatchesFirst(v.collectors[1], 1);
    A.LogEmits(v.env, P1, PermissionRequest("r1", false));
    A.Onward(w, v, ask);
    v := Next(v, ask);
  }

  lemma StrayRun(w: World) returns (v: World)
    requires Knows(w, "m2", {"t0", "t1"}, [TurnStarted("t1"), PermissionRequest("r1", false)])
    requires |w.collectors| == 2 && WatchesFirst(w.collectors[1], 1)
    ensures A.Reaches(w, v) && v.sent == w.sent + [Sent(P2, "r1", AllowSession, ByGrant(0, "m1"))] && Log(v.env, P2) == SEEN
  {
    A.Stay(w);
    A.Onward(w, w, Deliver(1));
    v := Next(w, Deliver(1));
    assert v.collectors[1].pc == Asking("m2", "r1") && v.collectors[1].place == P1;
    assert v.grants[0].place == P2;
    A.Onward(w, v, AnswerRequest(1, true));
    v := Next(v, AnswerRequest(1, true));
  }

  /** With one session id on two machines, a session grant sends its decision where nobody asked for it. */
  lemma SharedIdMisdirects()
    ensures exists w, i :: A.Reaches(EMPTY, w) && 0 <= i < |w.sent| && !Asked(w.env, w.sent[i].place, w.sent[i].request)
  {
    var a := SeenStreamed();
    var b := GrantRun(a);
    A.Together(EMPTY, a, b);
    var c := OpenRun(b);
    A.Together(EMPTY, b, c);
    var d := StartRun(c);
    A.Together(EMPTY, c, d);
    var e := StrayAsked(d);
    A.Together(EMPTY, d, e);
    var f := StrayRun(e);
    A.Together(EMPTY, e, f);
    assert f.sent[|e.sent|] == Sent(P2, "r1", AllowSession, ByGrant(0, "m1"));
    assert !Asked(f.env, P2, "r1");
  }
}
