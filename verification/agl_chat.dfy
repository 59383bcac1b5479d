/**
 * One chat's conversation with an agent on a linked computer: the chat's worker, its collectors,
 * the permission requests, and every interleaving of their lock-held blocks.
 */
module AglChat {
  import opened Wrappers
  import opened Text
  import opened AglStream
  import opened AglTales

  // ----- who may speak, and where

  datatype MachineRecord = MachineRecord(user: string, revoked: bool)

  type Machines = map<string, MachineRecord>

  /** One message from the chat; agentUser and boundTo belong to the agent's record. */
  datatype Inbound = Inbound(
    isAgl: bool, agentUser: string, boundTo: string, spaceUser: string, group: bool, senderAllowed: bool, text: string)

  /** The machine the turn may use: the agent's own, not revoked, of the user in whose space the message came. */
  function CheckOwnership(m: Inbound, machines: Machines): Option<string> {
    if !m.isAgl || m.agentUser == "" || m.agentUser != m.spaceUser || m.boundTo == "" then None
    else if m.boundTo !in machines || machines[m.boundTo].revoked || machines[m.boundTo].user != m.agentUser then None
    else Some(m.boundTo)
  }

  predicate Admitted(m: Inbound, machines: Machines) {
    CheckOwnership(m, machines).Some? && !m.group && m.senderAllowed
  }

  datatype Decision = Allow | AllowSession | Deny

  function ApprovalDecision(text: string): Option<Decision> {
    var t := TrimSpace(text);
    if t == "1" || t == "１" then Some(Allow)
    else if t == "2" || t == "２" then Some(AllowSession)
    else if t == "3" || t == "３" then Some(Deny)
    else None
  }

  // ----- the chat and its lock-held blocks

  /** ref tells one stored request from another, as the pointer does. */
  datatype Approval = Approval(ref: nat, session: string, request: string)

  /** stop: the collector whose done channel the stop function closes. */
  datatype Chat = Chat(
    machine: string, session: string, steer: bool, collecting: bool, outstanding: set<string>,
    approval: Option<Approval>, stop: Option<nat>, gen: nat)

  function EndCollector(c: Chat): Chat {
    c.(gen := c.gen + 1, stop := None, collecting := false, outstanding := {}, approval := None)
  }

  function Install(c: Chat, session: string, steer: bool, turn: string, collector: nat): Chat {
    var e := EndCollector(c);
    e.(gen := e.gen + 1, session := session, steer := steer, collecting := true, outstanding := {turn}, stop := Some(collector))
  }

  function ClearApproval(c: Chat, ref: nat): Chat {
    if c.approval.Some? && c.approval.value.ref == ref then c.(approval := None) else c
  }

  function ResolveApproval(c: Chat, request: string): Chat {
    if c.approval.Some? && c.approval.value.request == request then c.(approval := None) else c
  }

  /** A collector's last block, and its block at the end of a turn when it is the current one. */
  function Finish(c: Chat, gen: nat): Chat {
    if c.gen == gen then c.(collecting := false, outstanding := {}, approval := None, stop := None) else c
  }

  function EndTurn(c: Chat, turn: string): Chat {
    var left := c.outstanding - {turn};
    if left == {} then c.(outstanding := left, approval := None, collecting := false, stop := None)
    else c.(outstanding := left, approval := None)
  }

  class ChatState {
    var machine: string
    var session: string
    var steer: bool
    var collecting: bool
    var outstanding: set<string>
    var approval: Option<Approval>
    var stop: Option<nat>
    var gen: nat

    function View(): Chat
      reads this
    {
      Chat(machine, session, steer, collecting, outstanding, approval, stop, gen)
    }

    constructor ()
      ensures View() == Chat("", "", false, false, {}, None, None, 0)
    {
      machine, session, steer, collecting, outstanding := "", "", false, false, {};
      approval, stop, gen := None, None, 0;
    }

    method EndCollectorLocked() returns (stopped: Option<nat>)
      modifies this
      ensures View() == EndCollector(old(View())) && stopped == old(stop)
    {
      stopped := stop;
      gen := gen + 1;
      stop := None;
      collecting := false;
      outstanding := {};
      approval := None;
    }

    method StartCollectorLocked(sid: string, canSteer: bool, turn: string, collector: nat) returns (stopped: Option<nat>)
      modifies this
      ensures View() == Install(old(View()), sid, canSteer, turn, collector) && stopped == old(stop)
    {
      stopped := EndCollectorLocked();
      gen := gen + 1;
      session, steer := sid, canSteer;
      collecting := true;
      outstanding := {turn};
      stop := Some(collector);
    }

    method ClearApprovalLocked(ref: nat)
      modifies this
      ensures View() == ClearApproval(old(View()), ref)
    {
      if approval.Some? && approval.value.ref == ref {
        approval := None;
      }
    }

    method ResolveApprovalLocked(request: string) returns (cleared: bool)
      modifies this
      ensures View() == ResolveApproval(old(View()), request)
      ensures cleared <==> old(approval).Some? && old(approval).value.request == request
    {
      cleared := approval.Some? && approval.value.request == request;
      if cleared {
        approval := None;
      }
    }

    method FinishLocked(own: nat)
      modifies this
      ensures View() == Finish(old(View()), own)
    {
      if gen == own {
        collecting := false;
        outstanding := {};
        approval := None;
        stop := None;
      }
    }

    method EndTurnLocked(turn: string) returns (mine: bool, left: nat)
      modifies this
      ensures View() == EndTurn(old(View()), turn)
      ensures mine <==> turn in old(outstanding)
      ensures left == |outstanding|
    {
      mine := turn in outstanding;
      outstanding := outstanding - {turn};
      approval := None;
      left := |outstanding|;
      if left == 0 {
        collecting := false;
        stop := None;
      }
    }
  }

  // ----- the machines' event streams

  datatype Place = Place(machine: string, session: string)

  /** `started` and `over`: the turn ids that have started and that have ended, anywhere. */
  datatype Env = Env(logs: map<Place, seq<Event>>, started: set<string>, over: set<string>)

  function Log(env: Env, p: Place): seq<Event> {
    if p in env.logs then env.logs[p] else []
  }

  function Running(env: Env, p: Place): string {
    TaleAt(Log(env, p), |Log(env, p)|).turn
  }

  /** agl's promise: a turn starts once, when none runs, and the one that runs is the one that ends. */
  predicate MayEmit(env: Env, p: Place, e: Event) {
    match e
    case TurnStarted(t) => Running(env, p) == "" && t !in env.started
    case TurnEnded(t, _) => Running(env, p) == t
    case _ => true
  }

  function Emit(env: Env, p: Place, e: Event): Env {
    var logs := env.logs[p := Log(env, p) + [e]];
    match e
    case TurnStarted(t) => Env(logs, if t == "" then env.started else env.started + {t}, env.over)
    case TurnEnded(t, _) => Env(logs, env.started, if t == "" then env.over else env.over + {t})
    case _ => env.(logs := logs)
  }

  // ----- collectors and worker

  /** Asking: a request has been read, with the machine the chat was bound to then. */
  datatype CollectorPc = Looping | Asking(machine: string, request: string) | Exited

  /**
   * pos: the next event of its session's stream. whole: it has missed no start, end or text of the
   * running turn (the hub drops events for a subscriber that lags).
   */
  datatype Collector = Collector(
    gen: nat, place: Place, pos: nat, watch: Watch, whole: bool, stopped: bool, pc: CollectorPc)

  datatype Permit = Permit(message: Inbound, machines: Machines)

  datatype Origin = FromChat(ref: nat) | FromHistory(collector: nat)

  datatype Worker =
    | Ready
    | Recovering(place: Place, found: Recovered, at: nat, decision: Decision, permit: Permit)
    | Answering(place: Place, request: string, decision: Decision, permit: Permit, origin: Origin)
    | Acknowledging(place: Place, request: string, decision: Decision, permit: Permit, origin: Origin, ok: bool)

  /** ByGrant names the machine of the collector that read the request. */
  datatype Cause = ByPerson(permit: Permit) | ByGrant(at: nat, reader: string)

  /** A session.approve request sent to place.machine for place.session. */
  datatype Sent = Sent(place: Place, request: string, decision: Decision, cause: Cause)

  /** A session grant: where and when, on whose word, and the request that word answered. */
  datatype Grant = Grant(place: Place, at: nat, permit: Permit, request: string)

  /** The request was asked at this place, and left to the chat. */
  predicate Asked(env: Env, p: Place, request: string) {
    exists i :: 0 <= i < |Log(env, p)| && Log(env, p)[i] == PermissionRequest(request, false)
  }

  /** A message, admitted at that machine, that says this decision. */
  predicate Decided(permit: Permit, machine: string, decision: Decision) {
    && Admitted(permit.message, permit.machines)
    && CheckOwnership(permit.message, permit.machines) == Some(machine)
    && ApprovalDecision(permit.message.text) == Some(decision)
  }

  /** A grant stems from a session-wide decision on a request of the grant's own machine and session. */
  predicate GrantOk(env: Env, g: Grant) {
    Decided(g.permit, g.place.machine, AllowSession) && Asked(env, g.place, g.request)
  }

  datatype Answer = Answer(turn: string, place: Place, at: nat, outcome: Outcome, replies: seq<Reply>, whole: bool)

  /** grantTTL, in seconds. */
  const GRANT_TTL: nat := 24 * 60 * 60

  /**
   * One chat with what it shares with the other chats of its bridge: the machines' streams, the clock
   * and the session grants.
   */
  datatype World = World(
    chat: Chat, collectors: seq<Collector>, worker: Worker, env: Env,
    answers: seq<Answer>, sent: seq<Sent>, grants: seq<Grant>, now: nat, refs: nat)

  const EMPTY := World(
    Chat("", "", false, false, {}, None, None, 0), [], Ready, Env(map[], {}, {}), [], [], [], 0, 0)

  datatype Step =
    | Enter(message: Inbound, machines: Machines)
    | Recover(message: Inbound, machines: Machines, window: seq<Envelope>)
    | Adopt(pos: nat)
    | SendDecision(ok: bool)
    | Acknowledge
    | NewSession
    | SteerTurn(turn: string)
    | DropTurn(turn: string)
    | Open(session: string, steer: bool, turn: string, pos: nat)
    | StopOwn(collector: nat)
    | Deliver(collector: nat)
    | Miss(collector: nat)
    | AnswerRequest(collector: nat, granted: bool)
    | Quit(collector: nat)
    | Emits(place: Place, event: Event)
    | Tick
    | GrantElsewhere(grant: Grant)

  function Mark(cs: seq<Collector>, stop: Option<nat>): seq<Collector> {
    if stop.Some? && stop.value < |cs| then cs[stop.value := cs[stop.value].(stopped := true)] else cs
  }

  function Detached(w: World): World {
    w.(chat := EndCollector(w.chat), collectors := Mark(w.collectors, w.chat.stop))
  }

  function Installed(w: World, place: Place, steer: bool, turn: string, pos: nat, watch: Watch, whole: bool): World {
    var cs := Mark(w.collectors, w.chat.stop);
    w.(chat := Install(w.chat, place.session, steer, turn, |cs|),
       collectors := cs + [Collector(w.chat.gen + 2, place, pos, watch, whole, false, Looping)])
  }

  function Rebound(w: World, machine: string): World {
    if w.chat.machine == machine then w
    else
      var d := Detached(w);
      d.(chat := d.chat.(machine := machine, session := "", steer := false))
  }

  /** The window is the newest part of the session's history, as it was read. */
  predicate Shows(window: seq<Envelope>, log: seq<Event>) {
    |window| <= |log| && forall i :: 0 <= i < |window| ==> window[i].event == log[|log| - |window| + i]
  }

  function EnterStep(w: World, m: Inbound, machines: Machines): World {
    if !Admitted(m, machines) then w
    else
      var machine := CheckOwnership(m, machines).value;
      var r := Rebound(w, machine);
      var decision := ApprovalDecision(m.text);
      if r.chat.approval.None? || decision.None? then r
      else
        var a := r.chat.approval.value;
        r.(worker := Answering(Place(machine, a.session), a.request, decision.value, Permit(m, machines), FromChat(a.ref)))
  }

  function RecoverStep(w: World, m: Inbound, machines: Machines, window: seq<Envelope>): World {
    if !Admitted(m, machines) || CheckOwnership(m, machines).value != w.chat.machine || ApprovalDecision(m.text).None? then w
    else if w.chat.approval.Some? || w.chat.collecting then w
    else
      var found := AglStream.Recover(window);
      if found.None? then w
      else
        var place := Place(w.chat.machine, found.value.session);
        if !Shows(window, Log(w.env, place)) then w
        else w.(worker := Recovering(place, found.value, |Log(w.env, place)|, ApprovalDecision(m.text).value, Permit(m, machines)))
  }

  function AdoptStep(w: World, pos: nat): World
    requires w.worker.Recovering?
  {
    var r := w.worker;
    if pos < r.at || pos > |Log(w.env, r.place)| then w
    else
      var i := Installed(w, r.place, w.chat.steer, r.found.turn, pos, Watch(true, r.found.text), pos == r.at);
      i.(worker := Answering(r.place, r.found.request, r.decision, r.permit, FromHistory(|w.collectors|)))
  }

  function AcknowledgeStep(w: World): World
    requires w.worker.Acknowledging?
  {
    var r := w.worker;
    var granted := r.ok && r.decision == AllowSession && r.place.machine != "" && r.place.session != "";
    w.(worker := Ready,
       chat := if r.origin.FromChat? then ClearApproval(w.chat, r.origin.ref) else w.chat,
       collectors := if r.origin.FromHistory? && !r.ok then Mark(w.collectors, Some(r.origin.collector)) else w.collectors,
       grants := if granted then w.grants + [Grant(r.place, w.now, r.permit, r.request)] else w.grants)
  }

  predicate Fresh(w: World, turn: string) {
    turn != "" && turn !in w.env.started
  }

  function OpenStep(w: World, session: string, steer: bool, turn: string, pos: nat): World {
    var place := Place(w.chat.machine, session);
    if session == "" || !Fresh(w, turn) || pos > |Log(w.env, place)| then w
    else Installed(w, place, steer, turn, pos, Watch(false, ""), true)
  }

  function WorkerStep(w: World, step: Step): World {
    match (w.worker, step)
    case (Ready, Enter(m, machines)) => EnterStep(w, m, machines)
    case (Ready, Recover(m, machines, window)) => RecoverStep(w, m, machines, window)
    case (Ready, NewSession) => Detached(w).(chat := EndCollector(w.chat).(session := "", steer := false))
    case (Ready, SteerTurn(turn)) =>
      if w.chat.collecting && w.chat.session != "" && Fresh(w, turn)
      then w.(chat := w.chat.(outstanding := w.chat.outstanding + {turn})) else w
    case (Ready, DropTurn(turn)) => w.(chat := w.chat.(outstanding := w.chat.outstanding - {turn}))
    case (Ready, Open(session, steer, turn, pos)) => OpenStep(w, session, steer, turn, pos)
    case (Ready, StopOwn(k)) => w.(collectors := Mark(w.collectors, Some(k)))
    case (Recovering(_, _, _, _, _), Adopt(pos)) => AdoptStep(w, pos)
    case (Answering(place, request, decision, permit, origin), SendDecision(ok)) =>
      w.(worker := Acknowledging(place, request, decision, permit, origin, ok),
         sent := w.sent + [Sent(place, request, decision, ByPerson(permit))])
    case (Acknowledging(_, _, _, _, _, _), Acknowledge) => AcknowledgeStep(w)
    case _ => w
  }

  function Update(w: World, k: nat, c: Collector): World
    requires k < |w.collectors|
  {
    w.(collectors := w.collectors[k := c])
  }

  /** What the collector takes for its own turns: only the current one has any. */
  function Mine(chat: Chat, c: Collector): set<string> {
    if chat.gen == c.gen then chat.outstanding else {}
  }

  /** Whether the text of the running turn depends on the event. */
  predicate Telling(e: Event) {
    Boundary(e) || e.TextDelta?
  }

  /** The hub drops the collector's next event. */
  function MissEvent(c: Collector, e: Event): Collector {
    c.(pos := c.pos + 1, whole := c.whole && !Telling(e))
  }

  function HandleTurnEnd(w: World, k: nat, c: Collector, turn: string, outcome: Outcome): World
    requires k < |w.collectors|
  {
    if w.chat.gen != c.gen then Update(w, k, c.(pc := Exited, pos := c.pos + 1))
    else
      var chat := EndTurn(w.chat, turn);
      var d := c.(pos := c.pos + 1, watch := Watch(false, ""), pc := if chat.outstanding == {} then Exited else Looping);
      var u := Update(w, k, d).(chat := chat);
      if turn !in w.chat.outstanding then u
      else u.(answers := w.answers + [Answer(turn, c.place, c.pos, outcome, FinalReplies(outcome, c.watch.buffer), c.whole)])
  }

  function HandleEvent(w: World, k: nat, c: Collector, e: Event): World
    requires k < |w.collectors|
  {
    var d := c.(pos := c.pos + 1);
    match e
    case TurnStarted(_) => Update(w, k, d.(watch := See(c.watch, e, Mine(w.chat, c)), whole := true))
    case TextDelta(_, _) => Update(w, k, d.(watch := See(c.watch, e, {})))
    case Steered(turn) => Update(w, k, d).(chat := w.chat.(outstanding := w.chat.outstanding - {turn}))
    case PermissionRequest(request, decided) =>
      Update(w, k, if c.watch.ours && !decided then d.(pc := Asking(w.chat.machine, request)) else d)
    case PermissionResolved(request) => Update(w, k, d).(chat := ResolveApproval(w.chat, request))
    case TurnEnded(turn, outcome) => HandleTurnEnd(w, k, c, turn, outcome)
    case Other => Update(w, k, d)
  }

  predicate Granted(grants: seq<Grant>, place: Place, now: nat) {
    exists i :: 0 <= i < |grants| && grants[i].place == place && grants[i].at <= now <= grants[i].at + GRANT_TTL
  }

  /** A session grant, if the table still has one, answers the request; otherwise the chat is asked. */
  function AnswerStep(w: World, k: nat, c: Collector, granted: bool): World
    requires k < |w.collectors| && c.pc.Asking?
  {
    var to := Place(c.pc.machine, c.place.session);
    var u := Update(w, k, c.(pc := Looping));
    if granted && c.pc.request != "" && Granted(w.grants, to, w.now)
    then u.(sent := w.sent + [Sent(to, c.pc.request, AllowSession, ByGrant(w.now, c.place.machine))])
    else if w.chat.gen == c.gen
    then u.(chat := w.chat.(approval := Some(Approval(w.refs, c.place.session, c.pc.request))), refs := w.refs + 1)
    else u
  }

  function CollectorStep(w: World, k: nat, step: Step): World {
    if k >= |w.collectors| then w
    else
      var c := w.collectors[k];
      var log := Log(w.env, c.place);
      match (c.pc, step)
      case (Looping, Deliver(_)) => if c.pos < |log| then HandleEvent(w, k, c, log[c.pos]) else w
      case (Looping, Miss(_)) => if c.pos < |log| then Update(w, k, MissEvent(c, log[c.pos])) else w
      case (Looping, Quit(_)) => Update(w, k, c.(pc := Exited)).(chat := Finish(w.chat, c.gen))
      case (Asking(_, _), AnswerRequest(_, granted)) => AnswerStep(w, k, c, granted)
      case _ => w
  }

  function Next(w: World, step: Step): World {
    match step
    case Deliver(k) => CollectorStep(w, k, step)
    case Miss(k) => CollectorStep(w, k, step)
    case AnswerRequest(k, _) => CollectorStep(w, k, step)
    case Quit(k) => CollectorStep(w, k, step)
    case Emits(place, e) => if MayEmit(w.env, place, e) then w.(env := Emit(w.env, place, e)) else w
    case Tick => w.(now := w.now + 1)
    case GrantElsewhere(g) => if GrantOk(w.env, g) && g.at == w.now then w.(grants := w.grants + [g]) else w
    case _ => WorkerStep(w, step)
  }

  function Run(w: World, steps: seq<Step>): World
    decreases |steps|
  {
    if steps == [] then w else Run(Next(w, steps[0]), steps[1..])
  }

  // ----- which collector the chat follows

  predicate Live(c: Collector) {
    !c.pc.Exited?
  }

  predicate GensRise(chat: Chat, cs: seq<Collector>) {
    && (forall k :: 0 <= k < |cs| ==> cs[k].gen <= chat.gen)
    && forall j, k :: 0 <= j < k < |cs| ==> cs[j].gen < cs[k].gen
  }

  /** The chat collects exactly while a live collector carries its generation; every other live one has been stopped. */
  predicate Followed(chat: Chat, cs: seq<Collector>) {
    && (chat.collecting ==> chat.stop.Some? && chat.stop.value < |cs| && Live(cs[chat.stop.value]) && cs[chat.stop.value].gen == chat.gen)
    && (forall k :: 0 <= k < |cs| && Live(cs[k]) && cs[k].gen == chat.gen ==>
          chat.collecting && cs[k].place == Place(chat.machine, chat.session))
    && (forall k :: 0 <= k < |cs| && Live(cs[k]) && cs[k].gen != chat.gen ==> cs[k].stopped)
  }

  predicate Clean(chat: Chat) {
    !chat.collecting ==> chat.outstanding == {} && chat.approval == None && chat.stop == None
  }

  predicate ChatInv(chat: Chat, cs: seq<Collector>) {
    GensRise(chat, cs) && Followed(chat, cs) && Clean(chat)
  }

  lemma DetachedKeepsChat(w: World)
    requires ChatInv(w.chat, w.collectors)
    ensures ChatInv(Detached(w).chat, Detached(w).collectors)
  {
  }

  lemma InstalledKeepsChat(w: World, place: Place, steer: bool, turn: string, pos: nat, watch: Watch, whole: bool)
    requires ChatInv(w.chat, w.collectors) && place.machine == w.chat.machine
    ensures var i := Installed(w, place, steer, turn, pos, watch, whole); ChatInv(i.chat, i.collectors)
  {
  }

  lemma EnterKeepsChat(w: World, m: Inbound, machines: Machines)
    requires ChatInv(w.chat, w.collectors)
    ensures ChatInv(EnterStep(w, m, machines).chat, EnterStep(w, m, machines).collectors)
  {
    DetachedKeepsChat(w);
  }

  lemma AdoptKeepsChat(w: World, pos: nat)
    requires ChatInv(w.chat, w.collectors) && w.worker.Recovering? && w.worker.place.machine == w.chat.machine
    ensures ChatInv(AdoptStep(w, pos).chat, AdoptStep(w, pos).collectors)
  {
    var r := w.worker;
    InstalledKeepsChat(w, r.place, w.chat.steer, r.found.turn, pos, Watch(true, r.found.text), pos == r.at);
  }

  lemma OpenKeepsChat(w: World, session: string, steer: bool, turn: string, pos: nat)
    requires ChatInv(w.chat, w.collectors)
    ensures ChatInv(OpenStep(w, session, steer, turn, pos).chat, OpenStep(w, session, steer, turn, pos).collectors)
  {
    InstalledKeepsChat(w, Place(w.chat.machine, session), steer, turn, pos, Watch(false, ""), true);
  }

  lemma MarkKeepsChat(chat: Chat, cs: seq<Collector>, stop: Option<nat>)
    requires ChatInv(chat, cs)
    ensures ChatInv(chat, Mark(cs, stop))
  {
  }

  lemma AcknowledgeKeepsChat(w: World)
    requires ChatInv(w.chat, w.collectors) && w.worker.Acknowledging?
    ensures ChatInv(AcknowledgeStep(w).chat, AcknowledgeStep(w).collectors)
  {
    MarkKeepsChat(w.chat, w.collectors, if w.worker.origin.FromHistory? then Some(w.worker.origin.collector) else None);
    var c := if w.worker.origin.FromChat? then ClearApproval(w.chat, w.worker.origin.ref) else w.chat;
    assert c == w.chat || c == w.chat.(approval := None);
  }

  lemma NewSessionKeepsChat(w: World)
    requires ChatInv(w.chat, w.collectors)
    ensures ChatInv(EndCollector(w.chat).(session := "", steer := false), Detached(w).collectors)
  {
    DetachedKeepsChat(w);
  }

  lemma WorkerKeepsChat(w: World, step: Step)
    requires ChatInv(w.chat, w.collectors)
    requires w.worker.Recovering? ==> w.worker.place.machine == w.chat.machine
    ensures ChatInv(WorkerStep(w, step).chat, WorkerStep(w, step).collectors)
  {
    match (w.worker, step)
    case (Ready, Enter(m, machines)) => EnterKeepsChat(w, m, machines);
    case (Ready, Recover(m, machines, window)) =>
      assert RecoverStep(w, m, machines, window).chat == w.chat;
    case (Ready, NewSession) => NewSessionKeepsChat(w);
    case (Ready, Open(session, steer, turn, pos)) => OpenKeepsChat(w, session, steer, turn, pos);
    case (Ready, StopOwn(k)) => MarkKeepsChat(w.chat, w.collectors, Some(k));
    case (Recovering(_, _, _, _, _), Adopt(pos)) => AdoptKeepsChat(w, pos);
    case (Acknowledging(_, _, _, _, _, _), Acknowledge) => AcknowledgeKeepsChat(w);
    case _ =>
  }

  /** The current collector ends a turn, and with the last one itself. */
  lemma CurrentEndKeepsChat(chat: Chat, cs: seq<Collector>, k: nat, turn: string, d: Collector)
    requires ChatInv(chat, cs) && k < |cs| && cs[k].pc.Looping? && cs[k].gen == chat.gen
    requires d.gen == cs[k].gen && d.place == cs[k].place && d.stopped == cs[k].stopped
    requires d.pc == if EndTurn(chat, turn).outstanding == {} then Exited else Looping
    ensures ChatInv(EndTurn(chat, turn), cs[k := d])
  {
  }

  lemma SupersededEndKeepsChat(chat: Chat, cs: seq<Collector>, k: nat, d: Collector)
    requires ChatInv(chat, cs) && k < |cs| && cs[k].gen != chat.gen && d.gen == cs[k].gen && d.pc.Exited?
    ensures ChatInv(chat, cs[k := d])
  {
  }

  lemma TurnEndKeepsChat(w: World, k: nat, c: Collector, turn: string, outcome: Outcome)
    requires ChatInv(w.chat, w.collectors) && k < |w.collectors| && c == w.collectors[k] && c.pc.Looping?
    ensures var n := HandleTurnEnd(w, k, c, turn, outcome); ChatInv(n.chat, n.collectors)
  {
    var n := HandleTurnEnd(w, k, c, turn, outcome);
    if w.chat.gen == c.gen {
      CurrentEndKeepsChat(w.chat, w.collectors, k, turn, n.collectors[k]);
    } else {
      SupersededEndKeepsChat(w.chat, w.collectors, k, n.collectors[k]);
    }
  }

  /** Only its own variables change, and the chat keeps at least its generation, session and stop function. */
  predicate SameFollowing(a: Chat, b: Chat) {
    && a.gen == b.gen && a.stop == b.stop && a.collecting == b.collecting && a.machine == b.machine && a.session == b.session
    && b.outstanding <= a.outstanding && (b.approval == a.approval || b.approval.None? || a.collecting)
  }

  lemma UpdateKeepsChat(chat: Chat, n: Chat, cs: seq<Collector>, k: nat, d: Collector)
    requires ChatInv(chat, cs) && k < |cs| && Live(cs[k]) && Live(d)
    requires d.gen == cs[k].gen && d.place == cs[k].place && d.stopped == cs[k].stopped
    requires SameFollowing(chat, n)
    ensures ChatInv(n, cs[k := d])
  {
  }

  lemma EventKeepsChat(w: World, k: nat, c: Collector, e: Event)
    requires ChatInv(w.chat, w.collectors) && k < |w.collectors| && c == w.collectors[k] && c.pc.Looping?
    ensures ChatInv(HandleEvent(w, k, c, e).chat, HandleEvent(w, k, c, e).collectors)
  {
    if e.TurnEnded? {
      TurnEndKeepsChat(w, k, c, e.turn, e.outcome);
    } else {
      var n := HandleEvent(w, k, c, e);
      UpdateKeepsChat(w.chat, n.chat, w.collectors, k, n.collectors[k]);
    }
  }

  lemma QuitKeepsChat(w: World, k: nat)
    requires ChatInv(w.chat, w.collectors) && k < |w.collectors| && Live(w.collectors[k])
    ensures ChatInv(Finish(w.chat, w.collectors[k].gen), w.collectors[k := w.collectors[k].(pc := Exited)])
  {
  }

  lemma CollectorKeepsChat(w: World, k: nat, step: Step)
    requires ChatInv(w.chat, w.collectors)
    ensures ChatInv(CollectorStep(w, k, step).chat, CollectorStep(w, k, step).collectors)
  {
    if k < |w.collectors| {
      var c := w.collectors[k];
      var log := Log(w.env, c.place);
      match (c.pc, step)
      case (Looping, Deliver(_)) => if c.pos < |log| { EventKeepsChat(w, k, c, log[c.pos]); }
      case (Looping, Miss(_)) => if c.pos < |log| { UpdateKeepsChat(w.chat, w.chat, w.collectors, k, MissEvent(c, log[c.pos])); }
      case (Looping, Quit(_)) => QuitKeepsChat(w, k);
      case (Asking(_, _), AnswerRequest(_, granted)) =>
        var n := AnswerStep(w, k, c, granted);
        UpdateKeepsChat(w.chat, n.chat, w.collectors, k, n.collectors[k]);
      case _ =>
    }
  }

  /** The chat and its collectors agree, and a recovery under way is at the machine the chat is bound to. */
  predicate Agrees(w: World) {
    ChatInv(w.chat, w.collectors) && (w.worker.Recovering? ==> w.worker.place.machine == w.chat.machine)
  }

  lemma WorkerAgrees(w: World, step: Step)
    requires Agrees(w)
    ensures Agrees(WorkerStep(w, step))
  {
    WorkerKeepsChat(w, step);
  }

  lemma CollectorAgrees(w: World, k: nat, step: Step)
    requires Agrees(w)
    ensures Agrees(CollectorStep(w, k, step))
  {
    CollectorKeepsChat(w, k, step);
    CollectorKeepsMachine(w, k, step);
  }

  lemma CollectorKeepsMachine(w: World, k: nat, step: Step)
    ensures var n := CollectorStep(w, k, step); n.worker == w.worker && n.chat.machine == w.chat.machine
  {
  }

  lemma AgreesNext(w: World, step: Step)
    requires Agrees(w)
    ensures Agrees(Next(w, step))
  {
    match step
    case Deliver(k) => CollectorAgrees(w, k, step);
    case Miss(k) => CollectorAgrees(w, k, step);
    case Quit(k) => CollectorAgrees(w, k, step);
    case AnswerRequest(k, _) => CollectorAgrees(w, k, step);
    case Emits(_, _) =>
    case Tick =>
    case GrantElsewhere(_) =>
    case _ => WorkerAgrees(w, step);
  }
}
