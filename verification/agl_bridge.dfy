/**
 * The bridge: its table of chats, their inboxes, workers that exit when idle, and what all its chats
 * share. Each chat runs the conversation of module AglChat.
 */
module AglBridge {
  import opened Wrappers
  import AglChat
  import AglTales
  import Answers = AglAnswers
  import Allows = AglAllows

  /** chatInboxSize. */
  const INBOX_SIZE := 32

  /**
   * A worker between messages, with one, or gone. machines: what ownership was checked against when the
   * message's first block ran. acted: one of the blocks that use the message up has taken effect.
   */
  datatype Worker =
    | Waiting
    | Busy(message: AglChat.Inbound, machines: Option<AglChat.Machines>, acted: bool)
    | Gone

  /**
   * A chat. accepted, begun and done record, in order, the messages its inbox took, those whose first
   * block has run, and those its worker is through with; issued and adopted the turn ids it made up and
   * those it took over from a session's history.
   */
  datatype Box = Box(
    key: string, inbox: seq<AglChat.Inbound>, worker: Worker, world: AglChat.World,
    accepted: seq<AglChat.Inbound>, begun: seq<AglChat.Inbound>, done: seq<AglChat.Inbound>,
    issued: set<string>, adopted: set<string>)

  function NewBox(key: string): Box {
    Box(key, [], Waiting, AglChat.EMPTY, [], [], [], {}, {})
  }

  datatype Chats = Chats(table: map<string, nat>, boxes: seq<Box>)

  /** What all chats share: the machines' streams, the clock, and the one table of session grants. */
  datatype Shared = Shared(env: AglChat.Env, grants: seq<AglChat.Grant>, now: nat)

  /** issued: the turn ids made up so far, in any chat. */
  datatype State = State(chats: Chats, shared: Shared, issued: set<string>)

  datatype Step =
    | Handle(key: string, message: AglChat.Inbound)
    | Take(box: nat)
    | Done(box: nat)
    | IdleExit(box: nat)
    | Talk(box: nat, step: AglChat.Step)

  /** The chat's message is taken if the inbox has room, else dropped. */
  function Offered(b: Box, m: AglChat.Inbound): Box {
    if |b.inbox| < INBOX_SIZE then b.(inbox := b.inbox + [m], accepted := b.accepted + [m]) else b
  }

  function HandleStep(s: Chats, key: string, m: AglChat.Inbound): Chats {
    if key in s.table && s.table[key] < |s.boxes| then
      s.(boxes := s.boxes[s.table[key] := Offered(s.boxes[s.table[key]], m)])
    else
      Chats(s.table[key := |s.boxes|], s.boxes + [Offered(NewBox(key), m)])
  }

  /** The worker leaves only when, under both locks, the chat neither collects nor has a message. */
  predicate MayLeave(b: Box) {
    b.worker.Waiting? && !b.world.chat.collecting && b.inbox == []
  }

  function IdleStep(s: Chats, i: nat): Chats
    requires i < |s.boxes|
  {
    if MayLeave(s.boxes[i]) then Chats(s.table - {s.boxes[i].key}, s.boxes[i := s.boxes[i].(worker := Gone)]) else s
  }

  predicate WorkersStep(step: AglChat.Step) {
    !(step.Deliver? || step.Miss? || step.AnswerRequest? || step.Quit? || step.Emits? || step.Tick?)
  }

  /** The chat's world with what is shared as it is now. */
  function With(w: AglChat.World, shared: Shared): AglChat.World {
    w.(env := shared.env, grants := shared.grants, now := shared.now)
  }

  function SharedOf(w: AglChat.World): Shared {
    Shared(w.env, w.grants, w.now)
  }

  /** The blocks that use a message up: it leads to at most one of them. */
  predicate Acts(step: AglChat.Step) {
    step.Recover? || step.NewSession? || step.SteerTurn? || step.Open?
  }

  /**
   * What the worker may do with the message it has: run its first block, once; then, if that admitted
   * the message, one block that uses it up, and what follows from it.
   */
  predicate WorkerMay(b: Box, step: AglChat.Step)
    requires b.worker.Busy?
  {
    var m := b.worker.message;
    if step.Enter? then b.worker.machines.None? && step.message == m
    else
      && b.worker.machines.Some? && AglChat.Admitted(m, b.worker.machines.value)
      && (Acts(step) ==> !b.worker.acted)
      && (step.Recover? ==> step.message == m && step.machines == b.worker.machines.value)
      && (step.DropTurn? || step.StopOwn? ==> b.worker.acted)
  }

  /** The turn id the chat makes up for the step. */
  function IssuedIn(step: AglChat.Step): set<string> {
    match step
    case Open(_, _, turn, _) => {turn}
    case SteerTurn(turn) => {turn}
    case _ => {}
  }

  function AdoptedIn(w: AglChat.World, step: AglChat.Step): set<string> {
    if step.Adopt? && w.worker.Recovering? then {w.worker.found.turn} else {}
  }

  /** A step a chat takes itself: its worker's only with the message it has, and only with new turn ids. */
  predicate Takes(b: Box, issued: set<string>, step: AglChat.Step) {
    && !step.GrantElsewhere?
    && (WorkersStep(step) ==> b.worker.Busy? && WorkerMay(b, step))
    && IssuedIn(step) * issued == {}
  }

  /** The worker after one of the chat's steps has made n of w. */
  function WorkerAfter(b: Worker, step: AglChat.Step, w: AglChat.World, n: AglChat.World): Worker {
    if !b.Busy? then b
    else if step.Enter? then Busy(b.message, Some(step.machines), n.worker.Answering?)
    else if Acts(step) && n != w then b.(acted := true)
    else b
  }

  function Talked(b: Box, shared: Shared, step: AglChat.Step): Box {
    var w := With(b.world, shared);
    var n := AglChat.Next(w, step);
    b.(world := n, worker := WorkerAfter(b.worker, step, w, n),
       begun := if step.Enter? then b.begun + [step.message] else b.begun,
       issued := b.issued + IssuedIn(step), adopted := b.adopted + AdoptedIn(w, step))
  }

  function BoxStep(b: Box, shared: Shared, issued: set<string>, step: Step): Box {
    match step
    case Take(_) =>
      if b.worker.Waiting? && b.inbox != [] then b.(worker := Busy(b.inbox[0], None, false), inbox := b.inbox[1..]) else b
    case Done(_) =>
      if b.worker.Busy? && b.worker.machines.Some? && b.world.worker.Ready?
      then b.(worker := Waiting, done := b.done + [b.worker.message]) else b
    case Talk(_, t) => if Takes(b, issued, t) then Talked(b, shared, t) else b
    case _ => b
  }

  /** What the step makes of what is shared: a chat's own step may change it for all of them. */
  function SharedStep(b: Box, shared: Shared, issued: set<string>, step: Step): Shared {
    if step.Talk? && Takes(b, issued, step.step) then SharedOf(AglChat.Next(With(b.world, shared), step.step)) else shared
  }

  function IssuedStep(b: Box, issued: set<string>, step: Step): set<string> {
    if step.Talk? && Takes(b, issued, step.step) then issued + IssuedIn(step.step) else issued
  }

  function Next(s: State, step: Step): State {
    match step
    case Handle(key, m) => s.(chats := HandleStep(s.chats, key, m))
    case IdleExit(i) => if i < |s.chats.boxes| then s.(chats := IdleStep(s.chats, i)) else s
    case _ =>
      if step.box >= |s.chats.boxes| then s
      else
        var b := s.chats.boxes[step.box];
        State(s.chats.(boxes := s.chats.boxes[step.box := BoxStep(b, s.shared, s.issued, step)]),
              SharedStep(b, s.shared, s.issued, step), IssuedStep(b, s.issued, step))
  }

  function Run(s: State, steps: seq<Step>): State
    decreases |steps|
  {
    if steps == [] then s else Run(Next(s, steps[0]), steps[1..])
  }

  const NO_CHATS := Chats(map[], [])
  const EMPTY := State(NO_CHATS, SharedOf(AglChat.EMPTY), {})

  // ----- what each chat's record says

  /** a is what is left of b when some of its elements are dropped. */
  predicate Subseq(a: seq<AglChat.Inbound>, b: seq<AglChat.Inbound>) {
    || a == []
    || (b != [] && (Subseq(a, b[..|b| - 1]) || (a[|a| - 1] == b[|b| - 1] && Subseq(a[..|a| - 1], b[..|b| - 1]))))
  }

  lemma {:induction false} SubseqMore(a: seq<AglChat.Inbound>, b: seq<AglChat.Inbound>, m: AglChat.Inbound)
    requires Subseq(a, b)
    ensures Subseq(a, b + [m]) && Subseq(a + [m], b + [m])
  {
    assert (b + [m])[..|b|] == b && (a + [m])[..|a|] == a;
  }

  lemma {:induction false} SubseqIn(a: seq<AglChat.Inbound>, b: seq<AglChat.Inbound>, m: AglChat.Inbound)
    requires Subseq(a, b) && m in a
    ensures m in b
  {
    if Subseq(a, b[..|b| - 1]) {
      SubseqIn(a, b[..|b| - 1], m);
    } else if m != b[|b| - 1] {
      assert a == a[..|a| - 1] + [a[|a| - 1]];
      SubseqIn(a[..|a| - 1], b[..|b| - 1], m);
    }
  }

  /** The messages that persons' decisions were said in, in the order in which the decisions were sent. */
  function Voices(sent: seq<AglChat.Sent>): seq<AglChat.Inbound> {
    if sent == [] then []
    else
      var s := sent[|sent| - 1];
      Voices(sent[..|sent| - 1]) + (if s.cause.ByPerson? then [s.cause.permit.message] else [])
  }

  lemma {:induction false} VoicesStep(sent: seq<AglChat.Sent>, s: AglChat.Sent)
    ensures Voices(sent + [s]) == Voices(sent) + (if s.cause.ByPerson? then [s.cause.permit.message] else [])
  {
    assert (sent + [s])[..|sent|] == sent;
  }

  lemma {:induction false} VoicesHave(sent: seq<AglChat.Sent>, j: nat)
    requires j < |sent| && sent[j].cause.ByPerson?
    ensures sent[j].cause.permit.message in Voices(sent)
  {
    var n := |sent| - 1;
    VoicesStep(sent[..n], sent[n]);
    assert sent == sent[..n] + [sent[n]];
    if j < n {
      VoicesHave(sent[..n], j);
    }
  }

  /** The messages the worker is through with, and the one it has. */
  function Taken(b: Box): seq<AglChat.Inbound> {
    b.done + (if b.worker.Busy? then [b.worker.message] else [])
  }

  /** No decision has been sent on the word of the message in hand. */
  predicate Silent(b: Box) {
    b.worker.Busy? ==> !b.worker.acted || b.world.worker.Recovering? || b.world.worker.Answering?
  }

  /** The chat's conversation stands where its worker is with the message it has. */
  predicate InHand(b: Box) {
    && (!b.world.worker.Ready? ==>
          && b.worker.Busy? && b.worker.machines.Some? && b.worker.acted
          && b.world.worker.permit.message == b.worker.message)
    && (b.worker.Busy? && b.worker.machines.None? ==> !b.worker.acted)
    && Subseq(Voices(b.world.sent), if Silent(b) then b.done else Taken(b))
  }

  /** The turns it waits for, and those it has answered, are ones it made up or adopted. */
  predicate OwnTurns(b: Box) {
    && b.world.chat.outstanding <= b.issued + b.adopted
    && forall k :: 0 <= k < |b.world.answers| ==> b.world.answers[k].turn in b.issued + b.adopted
  }

  predicate Records(b: Box) {
    && b.accepted == Taken(b) + b.inbox
    && b.begun == b.done + (if b.worker.Busy? && b.worker.machines.Some? then [b.worker.message] else [])
  }

  ghost predicate BoxOk(b: Box) {
    && AglChat.Agrees(b.world) && Records(b) && InHand(b) && OwnTurns(b)
    && (b.worker.Gone? ==> b.inbox == [] && !b.world.chat.collecting)
  }

  /** The table holds exactly the chats whose workers have not gone. */
  predicate TableOk(s: Chats) {
    && (forall key :: key in s.table ==> s.table[key] < |s.boxes| && s.boxes[s.table[key]].key == key)
    && (forall i :: 0 <= i < |s.boxes| ==> (s.boxes[i].worker.Gone? <==> !(s.boxes[i].key in s.table && s.table[s.boxes[i].key] == i)))
  }

  ghost predicate Inv(s: Chats) {
    TableOk(s) && forall i :: 0 <= i < |s.boxes| ==> BoxOk(s.boxes[i])
  }

  lemma OfferKeeps(b: Box, m: AglChat.Inbound)
    requires BoxOk(b) && !b.worker.Gone?
    ensures BoxOk(Offered(b, m))
  {
  }

  lemma SetKeeps(s: Chats, i: nat, b: Box)
    requires Inv(s) && i < |s.boxes| && BoxOk(b)
    requires b.key == s.boxes[i].key && (b.worker.Gone? <==> s.boxes[i].worker.Gone?)
    ensures Inv(s.(boxes := s.boxes[i := b]))
  {
  }

  lemma AddKeeps(s: Chats, b: Box)
    requires Inv(s) && BoxOk(b) && !b.worker.Gone? && b.key !in s.table
    ensures Inv(Chats(s.table[b.key := |s.boxes|], s.boxes + [b]))
  {
    var n := Chats(s.table[b.key := |s.boxes|], s.boxes + [b]);
    forall i | 0 <= i < |n.boxes|
      ensures BoxOk(n.boxes[i])
    {
      if i < |s.boxes| {
        assert BoxOk(s.boxes[i]);
      }
    }
  }

  lemma IdleKeeps(s: Chats, i: nat)
    requires Inv(s) && i < |s.boxes|
    ensures Inv(IdleStep(s, i))
  {
    assert BoxOk(s.boxes[i]);
    if MayLeave(s.boxes[i]) {
      var n := IdleStep(s, i);
      forall j | 0 <= j < |n.boxes|
        ensures BoxOk(n.boxes[j])
      {
        assert BoxOk(s.boxes[j]);
        if j != i {
          assert n.boxes[j] == s.boxes[j];
        }
      }
    }
  }

  lemma HandleKeeps(s: Chats, key: string, m: AglChat.Inbound)
    requires Inv(s)
    ensures Inv(HandleStep(s, key, m))
  {
    if key in s.table {
      OfferKeeps(s.boxes[s.table[key]], m);
      SetKeeps(s, s.table[key], Offered(s.boxes[s.table[key]], m));
    } else {
      var b := NewBox(key);
      OfferKeeps(b, m);
      AddKeeps(s, Offered(b, m));
    }
  }

  /** Only the worker makes a chat collect. */
  lemma OnlyWorkerCollects(w: AglChat.World, step: AglChat.Step)
    requires !WorkersStep(step) && !w.chat.collecting
    ensures !AglChat.Next(w, step).chat.collecting
  {
    if (step.Deliver? || step.Miss? || step.AnswerRequest? || step.Quit?) && step.collector < |w.collectors| {
      CollectorOnlyStops(w, step.collector, step);
    }
  }

  lemma CollectorOnlyStops(w: AglChat.World, k: nat, step: AglChat.Step)
    requires k < |w.collectors| && !w.chat.collecting
    ensures !AglChat.CollectorStep(w, k, step).chat.collecting
  {
    var c := w.collectors[k];
    if c.pc.Looping? && step.Deliver? && c.pos < |AglChat.Log(w.env, c.place)| {
      EventOnlyStops(w, k, AglChat.Log(w.env, c.place)[c.pos]);
    }
  }

  lemma EventOnlyStops(w: AglChat.World, k: nat, e: AglTales.Event)
    requires k < |w.collectors| && !w.chat.collecting
    ensures !AglChat.HandleEvent(w, k, w.collectors[k], e).chat.collecting
  {
  }

  /** How one of the worker's blocks moves it on, without sending a decision. */
  predicate MovesQuietly(w: AglChat.World, n: AglChat.World, step: AglChat.Step) {
    || n.worker == w.worker
    || (step.Enter? && w.worker.Ready? && n.worker.Answering? && n.worker.permit.message == step.message)
    || (step.Recover? && w.worker.Ready? && n.worker.Recovering? && n.worker.permit.message == step.message)
    || (w.worker.Recovering? && n.worker.Answering? && n.worker.permit == w.worker.permit)
    || (w.worker.Acknowledging? && n.worker.Ready?)
  }

  /** The block that sends the decision. */
  predicate Sends(w: AglChat.World, n: AglChat.World) {
    && w.worker.Answering? && n.worker.Acknowledging? && n.worker.permit == w.worker.permit
    && |n.sent| == |w.sent| + 1 && w.sent <= n.sent && n.sent[|w.sent|].cause == AglChat.ByPerson(w.worker.permit)
  }

  lemma WorkerSpeaks(w: AglChat.World, step: AglChat.Step)
    ensures var n := AglChat.WorkerStep(w, step); Sends(w, n) || (n.sent == w.sent && MovesQuietly(w, n, step))
  {
  }

  /** A collector speaks on nobody's word, and leaves the worker alone. */
  lemma {:induction false} CollectorSpeaks(w: AglChat.World, k: nat, step: AglChat.Step)
    ensures var n := AglChat.CollectorStep(w, k, step); n.worker == w.worker && Voices(n.sent) == Voices(w.sent)
  {
    var n := AglChat.CollectorStep(w, k, step);
    AglChat.CollectorKeepsMachine(w, k, step);
    CollectorSends(w, k, step);
    if n.sent != w.sent {
      VoicesStep(w.sent, n.sent[|w.sent|]);
      assert n.sent == w.sent + [n.sent[|w.sent|]];
    }
  }

  lemma CollectorSends(w: AglChat.World, k: nat, step: AglChat.Step)
    ensures var n := AglChat.CollectorStep(w, k, step);
            n.sent == w.sent || (|n.sent| == |w.sent| + 1 && w.sent <= n.sent && n.sent[|w.sent|].cause.ByGrant?)
  {
  }

  lemma OthersSpeak(w: AglChat.World, step: AglChat.Step)
    requires !WorkersStep(step)
    ensures var n := AglChat.Next(w, step); n.worker == w.worker && Voices(n.sent) == Voices(w.sent)
  {
    match step
    case Deliver(k) => CollectorSpeaks(w, k, step);
    case Miss(k) => CollectorSpeaks(w, k, step);
    case Quit(k) => CollectorSpeaks(w, k, step);
    case AnswerRequest(k, _) => CollectorSpeaks(w, k, step);
    case Emits(_, _) =>
    case Tick =>
  }

  /** The decision sent is on the word of the message in hand, after those of earlier messages. */
  lemma {:induction false} SpeaksOnce(b: Box, n: Box)
    requires InHand(b) && Sends(b.world, n.world) && n.worker == b.worker && n.done == b.done
    ensures InHand(n)
  {
    assert n.world.sent == b.world.sent + [n.world.sent[|b.world.sent|]];
    VoicesStep(b.world.sent, n.world.sent[|b.world.sent|]);
    SubseqMore(Voices(b.world.sent), b.done, b.worker.message);
  }

  /** A block that sends nothing: the message in hand is used up by it, or by an earlier one, or not yet. */
  lemma {:induction false} MovesOn(b: Box, n: Box, step: AglChat.Step)
    requires InHand(b) && b.worker.Busy? && WorkerMay(b, step)
    requires n.world.sent == b.world.sent && MovesQuietly(b.world, n.world, step) && n.done == b.done
    requires n.worker == WorkerAfter(b.worker, step, b.world, n.world)
    ensures InHand(n)
  {
    SubseqTaken(b);
    if step.Enter? {
      assert Silent(b);
    } else if n.world.worker.Recovering? && b.world.worker.Ready? {
      assert Silent(b) && n.worker.acted;
    }
  }

  lemma {:induction false} WorkerInHand(b: Box, shared: Shared, step: AglChat.Step)
    requires InHand(b) && b.worker.Busy? && WorkerMay(b, step) && WorkersStep(step) && !step.GrantElsewhere?
    ensures InHand(Talked(b, shared, step))
  {
    var here := b.(world := With(b.world, shared));
    var n := Talked(b, shared, step);
    assert InHand(here);
    WorkerSpeaks(here.world, step);
    if Sends(here.world, n.world) {
      SpeaksOnce(here, n);
    } else {
      MovesOn(here, n, step);
    }
  }

  /** What is a part of the messages done with is also one of those taken. */
  lemma {:induction false} SubseqTaken(b: Box)
    requires InHand(b)
    ensures Subseq(Voices(b.world.sent), Taken(b))
  {
    if b.worker.Busy? && Silent(b) {
      SubseqMore(Voices(b.world.sent), b.done, b.worker.message);
    }
    if !b.worker.Busy? {
      assert b.done + [] == b.done;
    }
  }

  lemma {:induction false} TalkInHand(b: Box, shared: Shared, issued: set<string>, step: AglChat.Step)
    requires InHand(b) && Takes(b, issued, step)
    ensures InHand(Talked(b, shared, step))
  {
    if WorkersStep(step) {
      WorkerInHand(b, shared, step);
    } else {
      OthersInHand(b, shared, step);
    }
  }

  lemma {:induction false} OthersInHand(b: Box, shared: Shared, step: AglChat.Step)
    requires InHand(b) && !WorkersStep(step)
    ensures InHand(Talked(b, shared, step))
  {
    var n := Talked(b, shared, step);
    OthersSpeak(With(b.world, shared), step);
    assert n.worker == b.worker && n.done == b.done;
  }

  /** The turns a chat waits for come from the worker, and those it answers are among them. */
  lemma WorkerTurns(w: AglChat.World, step: AglChat.Step)
    ensures var n := AglChat.WorkerStep(w, step);
            n.chat.outstanding <= w.chat.outstanding + IssuedIn(step) + AdoptedIn(w, step) && n.answers == w.answers
  {
  }

  lemma CollectorTurns(w: AglChat.World, k: nat, step: AglChat.Step)
    ensures var n := AglChat.CollectorStep(w, k, step);
            && n.chat.outstanding <= w.chat.outstanding
            && (n.answers == w.answers || (|n.answers| == |w.answers| + 1 && w.answers <= n.answers
                                           && n.answers[|w.answers|].turn in w.chat.outstanding))
  {
    if k < |w.collectors| {
      var c := w.collectors[k];
      if c.pc.Looping? && step.Deliver? && c.pos < |AglChat.Log(w.env, c.place)| {
        EventTurns(w, k, AglChat.Log(w.env, c.place)[c.pos]);
      }
    }
  }

  lemma EventTurns(w: AglChat.World, k: nat, e: AglTales.Event)
    requires k < |w.collectors|
    ensures var n := AglChat.HandleEvent(w, k, w.collectors[k], e);
            && n.chat.outstanding <= w.chat.outstanding
            && (n.answers == w.answers || (|n.answers| == |w.answers| + 1 && w.answers <= n.answers
                                           && n.answers[|w.answers|].turn in w.chat.outstanding))
  {
  }

  lemma TalkTurns(w: AglChat.World, step: AglChat.Step)
    requires !step.GrantElsewhere?
    ensures var n := AglChat.Next(w, step);
            && n.chat.outstanding <= w.chat.outstanding + IssuedIn(step) + AdoptedIn(w, step)
            && (n.answers == w.answers || (|n.answers| == |w.answers| + 1 && w.answers <= n.answers
                                           && n.answers[|w.answers|].turn in w.chat.outstanding))
  {
    match step
    case Deliver(k) => CollectorTurns(w, k, step);
    case Miss(k) => CollectorTurns(w, k, step);
    case Quit(k) => CollectorTurns(w, k, step);
    case AnswerRequest(k, _) => CollectorTurns(w, k, step);
    case Emits(_, _) =>
    case Tick =>
    case _ => WorkerTurns(w, step);
  }

  lemma TalkOwnTurns(b: Box, shared: Shared, step: AglChat.Step)
    requires OwnTurns(b) && !step.GrantElsewhere?
    ensures OwnTurns(Talked(b, shared, step))
  {
    var w, n := With(b.world, shared), Talked(b, shared, step);
    TalkTurns(w, step);
    forall k | 0 <= k < |n.world.answers|
      ensures n.world.answers[k].turn in n.issued + n.adopted
    {
      if k < |w.answers| {
        assert n.world.answers[k] == w.answers[k];
      }
    }
  }

  lemma TalkKeeps(b: Box, shared: Shared, issued: set<string>, step: AglChat.Step)
    requires BoxOk(b) && Takes(b, issued, step)
    ensures BoxOk(Talked(b, shared, step))
  {
    var w := With(b.world, shared);
    AglChat.AgreesNext(w, step);
    TalkInHand(b, shared, issued, step);
    TalkOwnTurns(b, shared, step);
    if !WorkersStep(step) && !b.world.chat.collecting {
      OnlyWorkerCollects(w, step);
    }
  }

  lemma TakeKeeps(b: Box)
    requires BoxOk(b) && b.worker.Waiting? && b.inbox != []
    ensures BoxOk(b.(worker := Busy(b.inbox[0], None, false), inbox := b.inbox[1..]))
  {
    assert [b.inbox[0]] + b.inbox[1..] == b.inbox;
    assert b.done + [] + b.inbox == b.done + [b.inbox[0]] + b.inbox[1..];
    assert b.done + [] == b.done;
  }

  lemma DoneKeeps(b: Box)
    requires BoxOk(b) && b.worker.Busy? && b.worker.machines.Some? && b.world.worker.Ready?
    ensures BoxOk(b.(worker := Waiting, done := b.done + [b.worker.message]))
  {
    SubseqTaken(b);
    var n := b.(worker := Waiting, done := b.done + [b.worker.message]);
    assert n.done + [] == n.done;
  }

  lemma BoxKeeps(b: Box, shared: Shared, issued: set<string>, step: Step)
    requires BoxOk(b)
    ensures var n := BoxStep(b, shared, issued, step); BoxOk(n) && (n.worker.Gone? <==> b.worker.Gone?) && n.key == b.key
  {
    match step
    case Talk(_, t) => if Takes(b, issued, t) { TalkKeeps(b, shared, issued, t); }
    case Take(_) => if b.worker.Waiting? && b.inbox != [] { TakeKeeps(b); }
    case Done(_) => if b.worker.Busy? && b.worker.machines.Some? && b.world.worker.Ready? { DoneKeeps(b); }
    case _ =>
  }

  lemma InvNext(s: State, step: Step)
    requires Inv(s.chats)
    ensures Inv(Next(s, step).chats)
  {
    match step
    case Handle(key, m) => HandleKeeps(s.chats, key, m);
    case IdleExit(i) => if i < |s.chats.boxes| { IdleKeeps(s.chats, i); }
    case _ => if step.box < |s.chats.boxes| { OwnStepKeeps(s, step); }
  }

  /** A chat's own step. */
  lemma OwnStepKeeps(s: State, step: Step)
    requires Inv(s.chats) && !step.Handle? && !step.IdleExit? && step.box < |s.chats.boxes|
    ensures Inv(Next(s, step).chats)
  {
    var b := s.chats.boxes[step.box];
    assert BoxOk(b);
    BoxKeeps(b, s.shared, s.issued, step);
    SetKeeps(s.chats, step.box, BoxStep(b, s.shared, s.issued, step));
  }

  lemma {:induction false} InvRun(s: State, steps: seq<Step>)
    requires Inv(s.chats)
    ensures Inv(Run(s, steps).chats)
    decreases |steps|
  {
    if steps != [] {
      InvNext(s, steps[0]);
      InvRun(Next(s, steps[0]), steps[1..]);
    }
  }

  /**
   * No accepted message is stranded. A chat whose worker has gone has handled all it accepted, in
   * order, is no longer in the table, and has no live collector of its generation. A chat with a
   * message still to handle is the table's chat for its key, with a worker that has it or will take it.
   * The worker is through with a message only after the message's first block has run.
   */
  lemma {:induction false} NothingStranded(steps: seq<Step>, i: nat)
    requires i < |Run(EMPTY, steps).chats.boxes|
    ensures var s := Run(EMPTY, steps).chats; var b := s.boxes[i];
            && b.accepted == Taken(b) + b.inbox && b.done <= b.begun <= Taken(b)
            && (b.worker.Gone? ==>
                  && b.done == b.begun == b.accepted && !(b.key in s.table && s.table[b.key] == i)
                  && forall k :: 0 <= k < |b.world.collectors| && b.world.collectors[k].gen == b.world.chat.gen ==>
                       b.world.collectors[k].pc.Exited?)
            && (b.done != b.accepted ==> !b.worker.Gone? && b.key in s.table && s.table[b.key] == i)
  {
    InvRun(EMPTY, steps);
    var s := Run(EMPTY, steps).chats;
    assert BoxOk(s.boxes[i]);
  }

  /** Each message the chat's record accepted came in for its key. */
  ghost predicate CameIn(b: Box, past: seq<Step>) {
    forall m :: m in b.accepted ==> Handle(b.key, m) in past
  }

  ghost predicate AllCameIn(s: Chats, past: seq<Step>) {
    TableOk(s) && forall i :: 0 <= i < |s.boxes| ==> CameIn(s.boxes[i], past)
  }

  lemma OfferedCameIn(b: Box, past: seq<Step>, m: AglChat.Inbound)
    requires CameIn(b, past) && Handle(b.key, m) in past
    ensures CameIn(Offered(b, m), past)
  {
  }

  lemma CameInNext(s: State, step: Step, past: seq<Step>)
    requires AllCameIn(s.chats, past) && step in past && TableOk(Next(s, step).chats)
    ensures AllCameIn(Next(s, step).chats, past)
  {
    var n := Next(s, step).chats;
    forall i | 0 <= i < |n.boxes|
      ensures CameIn(n.boxes[i], past)
    {
      if i < |s.chats.boxes| {
        assert CameIn(s.chats.boxes[i], past);
      }
      if step.Handle? {
        if i < |s.chats.boxes| {
          if step.key in s.chats.table && s.chats.table[step.key] == i {
            OfferedCameIn(s.chats.boxes[i], past, step.message);
          }
        } else {
          OfferedCameIn(NewBox(step.key), past, step.message);
        }
      }
    }
  }

  lemma {:induction false} CameInRun(s: State, steps: seq<Step>, past: seq<Step>)
    requires AllCameIn(s.chats, past) && Inv(s.chats) && forall k :: 0 <= k < |steps| ==> steps[k] in past
    ensures AllCameIn(Run(s, steps).chats, past)
    decreases |steps|
  {
    if steps != [] {
      InvNext(s, steps[0]);
      CameInNext(s, steps[0], past);
      CameInRun(Next(s, steps[0]), steps[1..], past);
    }
  }

  /**
   * One message, one decision at most. The decisions a chat sends on persons' words are, in order, those
   * of some of the messages its worker took, each at most once; and each message came in for the chat's key.
   */
  lemma {:induction false} OneDecisionEach(steps: seq<Step>, i: nat)
    requires i < |Run(EMPTY, steps).chats.boxes|
    ensures var b := Run(EMPTY, steps).chats.boxes[i];
            && Subseq(Voices(b.world.sent), Taken(b)) && Taken(b) <= b.accepted
            && forall m :: m in b.accepted ==> Handle(b.key, m) in steps
  {
    InvRun(EMPTY, steps);
    CameInRun(EMPTY, steps, steps);
    var b := Run(EMPTY, steps).chats.boxes[i];
    assert BoxOk(b) && CameIn(b, steps);
    SubseqTaken(b);
  }

  // ----- turn ids over all chats

  /** Each chat's own ids are among those made up, and no two chats made up the same one. */
  predicate IdsApart(s: State) {
    && (forall i :: 0 <= i < |s.chats.boxes| ==> s.chats.boxes[i].issued <= s.issued)
    && forall i, j :: 0 <= i < j < |s.chats.boxes| ==> s.chats.boxes[i].issued * s.chats.boxes[j].issued == {}
  }

  lemma IdsApartNext(s: State, step: Step)
    requires IdsApart(s)
    ensures IdsApart(Next(s, step))
  {
  }

  lemma {:induction false} IdsApartRun(s: State, steps: seq<Step>)
    requires IdsApart(s)
    ensures IdsApart(Run(s, steps))
    decreases |steps|
  {
    if steps != [] {
      IdsApartNext(s, steps[0]);
      IdsApartRun(Next(s, steps[0]), steps[1..]);
    }
  }

  predicate Answered(b: Box, turn: string) {
    exists k :: 0 <= k < |b.world.answers| && b.world.answers[k].turn == turn
  }

  /**
   * Two chats answer one turn only if one of them adopted it: it recovered the turn, still running, from
   * the history of a session that both chats' agents go by the same name for.
   */
  lemma {:induction false} SharedTurnAdopted(steps: seq<Step>, i: nat, j: nat, turn: string)
    requires i < j < |Run(EMPTY, steps).chats.boxes|
    requires Answered(Run(EMPTY, steps).chats.boxes[i], turn) && Answered(Run(EMPTY, steps).chats.boxes[j], turn)
    ensures var boxes := Run(EMPTY, steps).chats.boxes; turn in boxes[i].adopted || turn in boxes[j].adopted
  {
    InvRun(EMPTY, steps);
    IdsApartRun(EMPTY, steps);
    var boxes := Run(EMPTY, steps).chats.boxes;
    assert BoxOk(boxes[i]) && BoxOk(boxes[j]);
    assert boxes[i].issued * boxes[j].issued == {};
    assert turn !in boxes[i].issued * boxes[j].issued;
  }

  // ----- each chat of a bridge runs as one chat alone, among events and grants from outside

  ghost predicate RunsAlone(w: AglChat.World, shared: Shared) {
    Answers.Reaches(AglChat.EMPTY, With(w, shared))
  }

  /** Some chat has sent, on the grant's own word, the decision the grant stems from. */
  ghost predicate Stems(boxes: seq<Box>, g: AglChat.Grant) {
    exists i :: 0 <= i < |boxes| && SentFor(boxes[i].world, g)
  }

  /** That decision was said in a message the chat had taken from its inbox. */
  ghost predicate StemsFromTaken(boxes: seq<Box>, g: AglChat.Grant) {
    exists i :: 0 <= i < |boxes| && SentFor(boxes[i].world, g) && g.permit.message in Taken(boxes[i])
  }

  predicate SentFor(w: AglChat.World, g: AglChat.Grant) {
    exists j :: 0 <= j < |w.sent| && w.sent[j] == AglChat.Sent(g.place, g.request, AglChat.AllowSession, AglChat.ByPerson(g.permit))
  }

  ghost predicate Lawful(s: State) {
    && RunsAlone(AglChat.EMPTY, s.shared)
    && (forall i :: 0 <= i < |s.chats.boxes| ==> RunsAlone(s.chats.boxes[i].world, s.shared))
    && forall g :: g in s.shared.grants ==> Stems(s.chats.boxes, g)
  }

  /** Only the acknowledgement of a session-wide decision grants anything, and it has been sent then. */
  lemma OwnGrants(w: AglChat.World, step: AglChat.Step)
    requires Allows.AllowInv(w) && !step.GrantElsewhere?
    ensures var n := AglChat.Next(w, step);
            && w.sent <= n.sent
            && (n.grants == w.grants ||
                (|n.grants| == |w.grants| + 1 && w.grants <= n.grants && n.env == w.env && n.now == w.now
                 && var g := n.grants[|w.grants|];
                    g.at == w.now && AglChat.GrantOk(w.env, g) && SentFor(w, g)))
  {
    Allows.LaterStep(w, step);
    match step
    case Deliver(k) => Allows.QuietCollector(w, k, step);
    case Miss(k) => Allows.QuietCollector(w, k, step);
    case Quit(k) => Allows.QuietCollector(w, k, step);
    case AnswerRequest(k, _) => Allows.QuietCollector(w, k, step);
    case Emits(_, _) =>
    case Tick =>
    case _ => OwnWorkerGrants(w, step);
  }

  lemma OwnWorkerGrants(w: AglChat.World, step: AglChat.Step)
    requires Allows.AllowInv(w)
    ensures var n := AglChat.WorkerStep(w, step);
            n.grants == w.grants ||
            (|n.grants| == |w.grants| + 1 && w.grants <= n.grants && n.env == w.env && n.now == w.now
             && var g := n.grants[|w.grants|];
                g.at == w.now && AglChat.GrantOk(w.env, g) && SentFor(w, g))
  {
    Allows.WorkerAdds(w, step);
    AglChatClock(w, step);
  }

  lemma AglChatClock(w: AglChat.World, step: AglChat.Step)
    ensures var n := AglChat.WorkerStep(w, step); n.env == w.env && n.now == w.now
  {
  }

  /** A step that neither adds an event nor lets time pass nor grants leaves all that is shared alone. */
  lemma SharedStays(w: AglChat.World, step: AglChat.Step)
    requires !step.Emits? && !step.Tick? && !step.GrantElsewhere? && AglChat.Next(w, step).grants == w.grants
    ensures SharedOf(AglChat.Next(w, step)) == SharedOf(w)
  {
    match step
    case Deliver(k) => CollectorShares(w, k, step);
    case Miss(k) => CollectorShares(w, k, step);
    case Quit(k) => CollectorShares(w, k, step);
    case AnswerRequest(k, _) => CollectorShares(w, k, step);
    case _ => AglChatClock(w, step);
  }

  lemma CollectorShares(w: AglChat.World, k: nat, step: AglChat.Step)
    ensures SharedOf(AglChat.CollectorStep(w, k, step)) == SharedOf(w)
  {
  }

  /** An event, or time passing, is one and the same step for every chat. */
  lemma OthersHear(w: AglChat.World, shared: Shared, v: AglChat.World, step: AglChat.Step)
    requires RunsAlone(w, shared) && SharedOf(v) == shared && (step.Emits? || step.Tick?)
    ensures RunsAlone(w, SharedOf(AglChat.Next(v, step)))
  {
    Answers.Onward(AglChat.EMPTY, With(w, shared), step);
    assert AglChat.Next(With(w, shared), step) == With(w, SharedOf(AglChat.Next(v, step)));
  }

  /** A grant made in one chat is a grant made elsewhere for the others. */
  lemma OthersSeeGrant(w: AglChat.World, shared: Shared, g: AglChat.Grant)
    requires RunsAlone(w, shared) && g.at == shared.now && AglChat.GrantOk(shared.env, g)
    ensures RunsAlone(w, shared.(grants := shared.grants + [g]))
  {
    Answers.Onward(AglChat.EMPTY, With(w, shared), AglChat.GrantElsewhere(g));
    assert AglChat.Next(With(w, shared), AglChat.GrantElsewhere(g)) == With(w, shared.(grants := shared.grants + [g]));
  }

  /** What one chat's step does to what is shared is, to any other chat, a step of its surroundings. */
  lemma OthersFollow(w: AglChat.World, shared: Shared, v: AglChat.World, step: AglChat.Step)
    requires RunsAlone(w, shared) && SharedOf(v) == shared && Allows.AllowInv(v) && !step.GrantElsewhere?
    ensures RunsAlone(w, SharedOf(AglChat.Next(v, step)))
  {
    if step.Emits? || step.Tick? {
      OthersHear(w, shared, v, step);
    } else if AglChat.Next(v, step).grants == v.grants {
      SharedStays(v, step);
    } else {
      OwnGrants(v, step);
      var g := AglChat.Next(v, step).grants[|v.grants|];
      OthersSeeGrant(w, shared, g);
      SharedGrows(v, AglChat.Next(v, step), g);
    }
  }

  lemma SharedGrows(v: AglChat.World, n: AglChat.World, g: AglChat.Grant)
    requires |n.grants| == |v.grants| + 1 && v.grants <= n.grants && n.grants[|v.grants|] == g && n.env == v.env && n.now == v.now
    ensures SharedOf(n) == SharedOf(v).(grants := v.grants + [g])
  {
  }

  /** A chat that runs as one alone has its decisions and grants in order. */
  lemma AloneAllows(w: AglChat.World, shared: Shared)
    requires RunsAlone(w, shared)
    ensures Allows.AllowInv(With(w, shared)) && Answers.Inv(With(w, shared))
  {
    var steps :| AglChat.Run(AglChat.EMPTY, steps) == With(w, shared);
    Allows.RunAllows(steps);
    Answers.RunInv(steps);
  }

  lemma StemsStays(boxes: seq<Box>, i: nat, b: Box, g: AglChat.Grant)
    requires Stems(boxes, g) && i < |boxes| && boxes[i].world.sent <= b.world.sent
    ensures Stems(boxes[i := b], g)
  {
    var k :| 0 <= k < |boxes| && SentFor(boxes[k].world, g);
    var n := boxes[i := b];
    if k == i {
      var j :| 0 <= j < |boxes[i].world.sent| &&
               boxes[i].world.sent[j] == AglChat.Sent(g.place, g.request, AglChat.AllowSession, AglChat.ByPerson(g.permit));
      assert b.world.sent[j] == boxes[i].world.sent[j];
    }
    assert SentFor(n[k].world, g);
  }

  /** The talking chat and the others all run on as alone. */
  lemma TalkRuns(s: State, i: nat, step: AglChat.Step, k: nat)
    requires Lawful(s) && i < |s.chats.boxes| && Takes(s.chats.boxes[i], s.issued, step) && k < |s.chats.boxes|
    ensures var n := Next(s, Talk(i, step)); RunsAlone(n.chats.boxes[k].world, n.shared)
  {
    var v := With(s.chats.boxes[i].world, s.shared);
    if k == i {
      Answers.Onward(AglChat.EMPTY, v, step);
      assert With(AglChat.Next(v, step), SharedOf(AglChat.Next(v, step))) == AglChat.Next(v, step);
    } else {
      AloneAllows(s.chats.boxes[i].world, s.shared);
      OthersFollow(s.chats.boxes[k].world, s.shared, v, step);
    }
  }

  lemma NewGrantSent(v: AglChat.World, step: AglChat.Step, g: AglChat.Grant)
    requires Allows.AllowInv(v) && !step.GrantElsewhere?
    requires g in AglChat.Next(v, step).grants && g !in v.grants
    ensures SentFor(v, g)
  {
    OwnGrants(v, step);
    var n := AglChat.Next(v, step);
    var k :| 0 <= k < |n.grants| && n.grants[k] == g;
    assert k == |v.grants|;
  }

  lemma TalkStems(s: State, i: nat, step: AglChat.Step, g: AglChat.Grant)
    requires Lawful(s) && i < |s.chats.boxes| && Takes(s.chats.boxes[i], s.issued, step)
    requires g in AglChat.Next(With(s.chats.boxes[i].world, s.shared), step).grants
    ensures Stems(Next(s, Talk(i, step)).chats.boxes, g)
  {
    var v := With(s.chats.boxes[i].world, s.shared);
    var b := Talked(s.chats.boxes[i], s.shared, step);
    AloneAllows(s.chats.boxes[i].world, s.shared);
    Allows.LaterStep(v, step);
    if g in s.shared.grants {
      StemsStays(s.chats.boxes, i, b, g);
    } else {
      NewGrantSent(v, step, g);
      NewStems(v, s.chats.boxes[i := b], i, g);
    }
  }

  lemma TalkShared(s: State, i: nat, step: AglChat.Step)
    requires Lawful(s) && i < |s.chats.boxes| && Takes(s.chats.boxes[i], s.issued, step)
    ensures RunsAlone(AglChat.EMPTY, Next(s, Talk(i, step)).shared)
  {
    AloneAllows(s.chats.boxes[i].world, s.shared);
    OthersFollow(AglChat.EMPTY, s.shared, With(s.chats.boxes[i].world, s.shared), step);
  }

  lemma TalkLawful(s: State, i: nat, step: AglChat.Step)
    requires Lawful(s) && i < |s.chats.boxes| && Takes(s.chats.boxes[i], s.issued, step)
    ensures Lawful(Next(s, Talk(i, step)))
  {
    var n := Next(s, Talk(i, step));
    TalkShared(s, i, step);
    forall k | 0 <= k < |n.chats.boxes|
      ensures RunsAlone(n.chats.boxes[k].world, n.shared)
    {
      TalkRuns(s, i, step, k);
    }
    forall g | g in n.shared.grants
      ensures Stems(n.chats.boxes, g)
    {
      TalkStems(s, i, step, g);
    }
  }

  lemma NewStems(v: AglChat.World, boxes: seq<Box>, i: nat, g: AglChat.Grant)
    requires i < |boxes| && SentFor(v, g) && v.sent <= boxes[i].world.sent
    ensures Stems(boxes, g)
  {
    var w := boxes[i].world;
    var j :| 0 <= j < |v.sent| && v.sent[j] == AglChat.Sent(g.place, g.request, AglChat.AllowSession, AglChat.ByPerson(g.permit));
    assert w.sent[j] == v.sent[j];
    assert SentFor(w, g);
  }

  /** Steps of the table and the inboxes change no chat's conversation. */
  lemma QuietLawful(s: State, n: State)
    requires Lawful(s) && n.shared == s.shared && |n.chats.boxes| >= |s.chats.boxes|
    requires forall i :: 0 <= i < |s.chats.boxes| ==> n.chats.boxes[i].world == s.chats.boxes[i].world
    requires forall i :: |s.chats.boxes| <= i < |n.chats.boxes| ==> n.chats.boxes[i].world == AglChat.EMPTY
    ensures Lawful(n)
  {
    forall g | g in n.shared.grants
      ensures Stems(n.chats.boxes, g)
    {
      var k :| 0 <= k < |s.chats.boxes| && SentFor(s.chats.boxes[k].world, g);
      assert SentFor(n.chats.boxes[k].world, g);
    }
  }

  lemma LawfulNext(s: State, step: Step)
    requires Lawful(s)
    ensures Lawful(Next(s, step))
  {
    match step
    case Talk(i, t) =>
      if i < |s.chats.boxes| && Takes(s.chats.boxes[i], s.issued, t) {
        TalkLawful(s, i, t);
      } else {
        QuietLawful(s, Next(s, step));
      }
    case _ => QuietLawful(s, Next(s, step));
  }

  lemma {:induction false} LawfulRun(s: State, steps: seq<Step>)
    requires Lawful(s)
    ensures Lawful(Run(s, steps))
    decreases |steps|
  {
    if steps != [] {
      LawfulNext(s, steps[0]);
      LawfulRun(Next(s, steps[0]), steps[1..]);
    }
  }

  lemma {:induction false} RunLawful(steps: seq<Step>)
    ensures Lawful(Run(EMPTY, steps))
  {
    Answers.Stay(AglChat.EMPTY);
    assert With(AglChat.EMPTY, EMPTY.shared) == AglChat.EMPTY;
    LawfulRun(EMPTY, steps);
  }

  /**
   * Among all the chats of a bridge, each chat sees a run of its own: whatever holds in every run of one
   * chat, with events and grants coming from outside, holds of it.
   */
  lemma {:induction false} EachChatRuns(steps: seq<Step>, i: nat) returns (own: seq<AglChat.Step>)
    requires i < |Run(EMPTY, steps).chats.boxes|
    ensures var s := Run(EMPTY, steps); AglChat.Run(AglChat.EMPTY, own) == With(s.chats.boxes[i].world, s.shared)
  {
    RunLawful(steps);
    var s := Run(EMPTY, steps);
    own :| AglChat.Run(AglChat.EMPTY, own) == With(s.chats.boxes[i].world, s.shared);
  }

  /** A grant of this place, in time, that a decision of one of the chats stands behind. */
  ghost predicate GrantedFor(s: State, place: AglChat.Place, at: nat) {
    exists g :: g in s.shared.grants && Allows.InTime(g, place, at)
                && AglChat.GrantOk(s.shared.env, g) && StemsFromTaken(s.chats.boxes, g)
                && Allows.Authorised(g.permit, place.machine, AglChat.AllowSession)
  }

  /** A person's decision is said in a message the chat had taken from its inbox. */
  lemma {:induction false} SaidInTaken(b: Box, j: nat)
    requires BoxOk(b) && j < |b.world.sent| && b.world.sent[j].cause.ByPerson?
    ensures b.world.sent[j].cause.permit.message in Taken(b)
  {
    VoicesHave(b.world.sent, j);
    SubseqTaken(b);
    SubseqIn(Voices(b.world.sent), Taken(b), b.world.sent[j].cause.permit.message);
  }

  lemma {:induction false} GrantSaidInTaken(s: State, g: AglChat.Grant)
    requires Inv(s.chats) && Stems(s.chats.boxes, g)
    ensures StemsFromTaken(s.chats.boxes, g)
  {
    var k :| 0 <= k < |s.chats.boxes| && SentFor(s.chats.boxes[k].world, g);
    var sent := s.chats.boxes[k].world.sent;
    var j :| 0 <= j < |sent| &&
             sent[j] == AglChat.Sent(g.place, g.request, AglChat.AllowSession, AglChat.ByPerson(g.permit));
    assert BoxOk(s.chats.boxes[k]);
    SaidInTaken(s.chats.boxes[k], j);
  }

  /**
   * Whole-run approval safety over all chats of the bridge, which share the grants: each decision any of
   * them sends is said, in a message that chat took from its inbox, by its permitted sender for a machine of
   * his, and answers a request of that very machine and session; or follows a session grant at most a day
   * old for the machine and session it is sent to, behind which stands a decision that one of the chats
   * sent to that very place, on a request asked there, said in such a message of its own.
   */
  lemma {:induction false} EveryBridgeDecision(steps: seq<Step>, i: nat, j: nat)
    requires i < |Run(EMPTY, steps).chats.boxes| && j < |Run(EMPTY, steps).chats.boxes[i].world.sent|
    ensures var s := Run(EMPTY, steps); var d := s.chats.boxes[i].world.sent[j];
            match d.cause
            case ByPerson(permit) =>
              && permit.message in Taken(s.chats.boxes[i]) && Taken(s.chats.boxes[i]) <= s.chats.boxes[i].accepted
              && Allows.Authorised(permit, d.place.machine, d.decision) && AglChat.Asked(s.shared.env, d.place, d.request)
            case ByGrant(at, reader) =>
              && d.decision == AglChat.AllowSession && GrantedFor(s, d.place, at)
              && AglChat.Asked(s.shared.env, AglChat.Place(reader, d.place.session), d.request)
  {
    RunLawful(steps);
    InvRun(EMPTY, steps);
    var s := Run(EMPTY, steps);
    var w := With(s.chats.boxes[i].world, s.shared);
    assert BoxOk(s.chats.boxes[i]);
    AloneAllows(s.chats.boxes[i].world, s.shared);
    var d := w.sent[j];
    assert Allows.SentOk(w.env, w.grants, d);
    if d.cause.ByGrant? {
      var g :| 0 <= g < |w.grants| && Allows.InTime(w.grants[g], d.place, d.cause.at);
      assert AglChat.GrantOk(w.env, w.grants[g]) && w.grants[g] in s.shared.grants;
      GrantSaidInTaken(s, w.grants[g]);
      Allows.DecidedIff(w.grants[g].permit, d.place.machine, AglChat.AllowSession);
    } else {
      SaidInTaken(s.chats.boxes[i], j);
      Allows.DecidedIff(d.cause.permit, d.place.machine, d.decision);
    }
  }

  /** The bridge's table and chats, as Handle and an idle worker change them. */
  class Bridge {
    var table: map<string, nat>
    var boxes: seq<Box>

    ghost function View(): Chats
      reads this
    {
      Chats(table, boxes)
    }

    constructor ()
      ensures View() == NO_CHATS
    {
      table, boxes := map[], [];
    }

    method HandleLocked(key: string, m: AglChat.Inbound) returns (accepted: bool)
      requires TableOk(View())
      modifies this
      ensures View() == HandleStep(old(View()), key, m)
      ensures accepted <==> (key in old(table) ==> |old(boxes)[old(table)[key]].inbox| < 32)
      ensures key in table && table[key] < |boxes|
      ensures var was := if key in old(table) then old(boxes)[old(table)[key]].inbox else [];
              boxes[table[key]].inbox == if accepted then was + [m] else was
      ensures forall i :: 0 <= i < |old(boxes)| && !(key in old(table) && old(table)[key] == i) ==> boxes[i] == old(boxes)[i]
    {
      var i := |boxes|;
      if key in table {
        i := table[key];
      } else {
        boxes := boxes + [NewBox(key)];
        table := table[key := i];
      }
      var b := boxes[i];
      accepted := |b.inbox| < INBOX_SIZE;
      if accepted {
        boxes := boxes[i := b.(inbox := b.inbox + [m], accepted := b.accepted + [m])];
      }
    }

    method LeaveIfIdle(i: nat) returns (gone: bool)
      requires i < |boxes|
      modifies this
      ensures View() == IdleStep(old(View()), i)
      ensures gone <==> MayLeave(old(boxes)[i])
      ensures gone ==> !old(boxes)[i].world.chat.collecting && old(boxes)[i].inbox == [] && old(boxes)[i].key !in table
    {
      gone := boxes[i].worker.Waiting? && !boxes[i].world.chat.collecting && boxes[i].inbox == [];
      if gone {
        table := table - {boxes[i].key};
        boxes := boxes[i := boxes[i].(worker := Gone)];
      }
    }
  }
}
