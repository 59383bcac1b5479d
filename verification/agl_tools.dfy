/**
 * Local agents as a tool of other agents: following one run's events to its result, and the open
 * permission requests of chats, in every interleaving of runs and decisions.
 */
module AglTools {
  import opened Wrappers
  import opened Text
  import opened AglTales
  import opened AglChat

  // ----- one run's event loop

  datatype RunResult =
    | Finished(text: string)
    | FailedRun(partial: string, error: string)
    | StoppedRun(partial: string)

  const NO_TEXT := "(finished with no text reply)"

  function ResultOf(outcome: Outcome, buffer: string): RunResult {
    var text := TrimSpace(buffer);
    match outcome
    case Failed(error) => FailedRun(text, if error == "" then "unknown error" else error)
    case Aborted => StoppedRun(text)
    case Completed => Finished(if text == "" then NO_TEXT else text)
  }

  /** What the agent's tool call returns for a turn with this text, outcome by outcome. */
  ghost predicate Returns(outcome: Outcome, text: string, r: RunResult) {
    exists t ::
      && Strips(text, t)
      && match outcome
         case Completed => r == Finished(if t == "" then "(finished with no text reply)" else t)
         case Aborted => r == StoppedRun(t)
         case Failed(error) => r == FailedRun(t, if error == "" then "unknown error" else error)
  }

  lemma ResultReturns(outcome: Outcome, text: string)
    ensures Returns(outcome, text, ResultOf(outcome, text))
  {
    TrimStrips(text);
  }

  /** The run's turn ends first at i. */
  predicate EndsFirstAt(events: seq<Event>, turn: string, i: nat) {
    && i < |events| && events[i].TurnEnded? && events[i].turn == turn
    && forall j :: 0 <= j < i ==> !(events[j].TurnEnded? && events[j].turn == turn)
  }

  /** agl's promise for the run's own turn: when it ends it is what runs, and its start has been seen. */
  ghost predicate EndsOwn(events: seq<Event>, turn: string) {
    forall i: nat :: EndsFirstAt(events, turn, i) ==> TaleAt(events, i).turn == turn
  }

  lemma FirstEndUnique(events: seq<Event>, turn: string, i: nat, j: nat)
    requires EndsFirstAt(events, turn, i) && EndsFirstAt(events, turn, j)
    ensures i == j
  {
  }

  /**
   * The loop over the events of the run's session, from wherever it joins them and whatever it misses of
   * other turns: it returns at the first end of its own turn, with that turn's text and no other's.
   */
  method Follow(events: seq<Event>, turn: string) returns (r: Option<RunResult>)
    requires turn != "" && EndsOwn(events, turn)
    ensures r.None? <==> forall i :: 0 <= i < |events| ==> !(events[i].TurnEnded? && events[i].turn == turn)
    ensures forall i: nat :: EndsFirstAt(events, turn, i) ==>
              r.Some? && Returns(events[i].outcome, TaleAt(events, i).text, r.value)
  {
    var buffer, ours := "", false;
    var i := 0;
    while i < |events|
      invariant 0 <= i <= |events|
      invariant forall j :: 0 <= j < i ==> !(events[j].TurnEnded? && events[j].turn == turn)
      invariant TaleAt(events, i).turn == turn ==> ours && buffer == TaleAt(events, i).text
      invariant ours ==> TaleAt(events, i).turn == turn || TaleAt(events, i).turn == ""
    {
      var e := events[i];
      match e {
        case TurnStarted(id) =>
          ours := id == turn;
          buffer := "";
        case TextDelta(_, _) =>
          if ours {
            buffer := Keep(buffer, e);
          }
        case TurnEnded(id, outcome) =>
          if id == turn {
            forall k: nat | EndsFirstAt(events, turn, k)
              ensures k == i
            {
              FirstEndUnique(events, turn, k, i);
            }
            ResultReturns(outcome, buffer);
            return Some(ResultOf(outcome, buffer));
          }
        case _ =>
      }
      i := i + 1;
    }
    return None;
  }

  // ----- open permission requests, at most one for each chat

  datatype ToolApproval = ToolApproval(ref: nat, place: Place, user: string, request: string)

  type Open = map<string, ToolApproval>

  function ClearIf(pending: Open, chat: string, session: string, request: Option<string>): Open {
    if chat in pending && pending[chat].place.session == session && (request.None? || pending[chat].request == request.value)
    then pending - {chat} else pending
  }

  predicate MayDecide(pending: Open, chat: string, user: string) {
    chat in pending && pending[chat].user == user
  }

  class ToolApprovals {
    var pending: Open

    constructor ()
      ensures pending == map[]
    {
      pending := map[];
    }

    method Resolved(chat: string, session: string, request: string) returns (cleared: bool)
      modifies this
      ensures pending == ClearIf(old(pending), chat, session, Some(request))
      ensures cleared <==> chat in old(pending) && chat !in pending
    {
      cleared := chat in pending && pending[chat].place.session == session && pending[chat].request == request;
      if cleared {
        pending := pending - {chat};
      }
    }

    method ClearApproval(chat: string, session: string)
      modifies this
      ensures pending == ClearIf(old(pending), chat, session, None)
    {
      if chat in pending && pending[chat].place.session == session {
        pending := pending - {chat};
      }
    }

    /** Decide's locked block: the request is taken out as it is found. */
    method Take(chat: string, user: string) returns (taken: Option<ToolApproval>)
      modifies this
      ensures taken == if MayDecide(old(pending), chat, user) then Some(old(pending)[chat]) else None
      ensures pending == if taken.Some? then old(pending) - {chat} else old(pending)
    {
      taken := None;
      if chat in pending && pending[chat].user == user {
        taken := Some(pending[chat]);
        pending := pending - {chat};
      }
    }
  }

  // ----- runs, decisions and grants together

  datatype ToolRun = ToolRun(chat: string, user: string, place: Place)

  /** A request a Decide has taken out; told: its answer has been sent. */
  datatype Taken = Taken(approval: ToolApproval, user: string, decision: Decision, told: bool)

  datatype ToolCause = ByTake(take: nat) | ByToolGrant(at: nat)

  datatype ToolSent = ToolSent(place: Place, request: string, decision: Decision, cause: ToolCause)

  datatype ToolGrant = ToolGrant(place: Place, at: nat, take: nat)

  datatype AskedFor = AskedFor(run: nat, request: string)

  datatype State = State(
    pending: Open, runs: seq<ToolRun>, asked: seq<AskedFor>, takes: seq<Taken>, sent: seq<ToolSent>,
    grants: seq<ToolGrant>, now: nat, refs: nat)

  const NOTHING := State(map[], [], [], [], [], [], 0, 0)

  datatype ToolStep =
    | Start(toolRun: ToolRun)
    | Ask(run: nat, request: string, granted: bool)
    | Resolve(run: nat, request: string)
    | End(run: nat)
    | Decide(chat: string, user: string, decision: Decision)
    | Tell(take: nat, ok: bool)
    | Tock

  predicate GrantedNow(grants: seq<ToolGrant>, place: Place, now: nat) {
    exists i :: 0 <= i < |grants| && GrantInTime(grants[i], place, now)
  }

  predicate GrantInTime(g: ToolGrant, place: Place, at: nat) {
    g.place == place && g.at <= at <= g.at + 24 * 60 * 60
  }

  /** A run's request: a session grant may answer it at once, else it becomes its chat's open request. */
  function AskStep(s: State, run: nat, request: string, granted: bool): State
    requires run < |s.runs|
  {
    var r := s.runs[run];
    var asked := s.(asked := s.asked + [AskedFor(run, request)]);
    if request == "" then s
    else if granted && GrantedNow(s.grants, r.place, s.now)
    then asked.(sent := s.sent + [ToolSent(r.place, request, AllowSession, ByToolGrant(s.now))])
    else asked.(pending := s.pending[r.chat := ToolApproval(s.refs, r.place, r.user, request)], refs := s.refs + 1)
  }

  function TellStep(s: State, i: nat, ok: bool): State
    requires i < |s.takes|
  {
    var t := s.takes[i];
    if t.told then s
    else
      s.(takes := s.takes[i := t.(told := true)],
         sent := s.sent + [ToolSent(t.approval.place, t.approval.request, t.decision, ByTake(i))],
         grants := if ok && t.decision.AllowSession? then s.grants + [ToolGrant(t.approval.place, s.now, i)] else s.grants)
  }

  function StepOf(s: State, step: ToolStep): State {
    match step
    case Start(r) => s.(runs := s.runs + [r])
    case Ask(run, request, granted) => if run < |s.runs| then AskStep(s, run, request, granted) else s
    case Resolve(run, request) =>
      if run < |s.runs| then s.(pending := ClearIf(s.pending, s.runs[run].chat, s.runs[run].place.session, Some(request))) else s
    case End(run) =>
      if run < |s.runs| then s.(pending := ClearIf(s.pending, s.runs[run].chat, s.runs[run].place.session, None)) else s
    case Decide(chat, user, decision) =>
      if MayDecide(s.pending, chat, user)
      then s.(pending := s.pending - {chat}, takes := s.takes + [Taken(s.pending[chat], user, decision, false)])
      else s
    case Tell(i, ok) => if i < |s.takes| then TellStep(s, i, ok) else s
    case Tock => s.(now := s.now + 1)
  }

  function RunAll(s: State, steps: seq<ToolStep>): State
    decreases |steps|
  {
    if steps == [] then s else RunAll(StepOf(s, steps[0]), steps[1..])
  }

  /** A run of this user at this place asked the request. */
  predicate AskedBy(s: State, a: ToolApproval) {
    exists i :: 0 <= i < |s.asked| && s.asked[i].run < |s.runs| && s.asked[i].request == a.request
                && s.runs[s.asked[i].run].place == a.place && s.runs[s.asked[i].run].user == a.user
  }

  /** Every stored request has a number of its own, and was asked by a run of its user at its place. */
  predicate RefsOk(s: State) {
    && (forall c :: c in s.pending ==> s.pending[c].ref < s.refs)
    && (forall i :: 0 <= i < |s.takes| ==> s.takes[i].approval.ref < s.refs)
    && (forall c, d :: c in s.pending && d in s.pending && c != d ==> s.pending[c].ref != s.pending[d].ref)
    && (forall i, j :: 0 <= i < j < |s.takes| ==> s.takes[i].approval.ref != s.takes[j].approval.ref)
    && (forall c, i :: c in s.pending && 0 <= i < |s.takes| ==> s.pending[c].ref != s.takes[i].approval.ref)
  }

  predicate AsksOk(s: State) {
    && (forall c :: c in s.pending ==> AskedBy(s, s.pending[c]))
    && (forall i :: 0 <= i < |s.takes| ==> AskedBy(s, s.takes[i].approval) && s.takes[i].user == s.takes[i].approval.user)
  }

  predicate GrantBacked(s: State, g: ToolGrant) {
    g.take < |s.takes| && s.takes[g.take].told && s.takes[g.take].decision == AllowSession
    && s.takes[g.take].approval.place == g.place
  }

  predicate SentBacked(s: State, t: ToolSent) {
    match t.cause
    case ByTake(i) =>
      && i < |s.takes| && s.takes[i].told && s.takes[i].decision == t.decision
      && s.takes[i].approval.place == t.place && s.takes[i].approval.request == t.request
    case ByToolGrant(at) =>
      && t.decision == AllowSession
      && (exists i :: 0 <= i < |s.grants| && GrantInTime(s.grants[i], t.place, at))
      && (exists i :: 0 <= i < |s.asked| && s.asked[i].run < |s.runs| && s.asked[i].request == t.request
                      && s.runs[s.asked[i].run].place == t.place)
  }

  predicate SentsOk(s: State) {
    && (forall i :: 0 <= i < |s.grants| ==> GrantBacked(s, s.grants[i]))
    && (forall i :: 0 <= i < |s.sent| ==> SentBacked(s, s.sent[i]))
  }

  lemma AskKeepsRefs(s: State, run: nat, request: string, granted: bool)
    requires RefsOk(s) && run < |s.runs|
    ensures RefsOk(AskStep(s, run, request, granted))
  {
  }

  lemma DecideKeepsRefs(s: State, chat: string, user: string, decision: Decision)
    requires RefsOk(s) && MayDecide(s.pending, chat, user)
    ensures RefsOk(s.(pending := s.pending - {chat}, takes := s.takes + [Taken(s.pending[chat], user, decision, false)]))
  {
  }

  lemma ClearKeepsRefs(s: State, chat: string, session: string, request: Option<string>)
    requires RefsOk(s)
    ensures RefsOk(s.(pending := ClearIf(s.pending, chat, session, request)))
  {
  }

  lemma StepKeepsRefs(s: State, step: ToolStep)
    requires RefsOk(s)
    ensures RefsOk(StepOf(s, step))
  {
    match step
    case Ask(run, request, granted) => if run < |s.runs| { AskKeepsRefs(s, run, request, granted); }
    case Resolve(run, request) =>
      if run < |s.runs| { ClearKeepsRefs(s, s.runs[run].chat, s.runs[run].place.session, Some(request)); }
    case End(run) =>
      if run < |s.runs| { ClearKeepsRefs(s, s.runs[run].chat, s.runs[run].place.session, None); }
    case Decide(chat, user, decision) =>
      if MayDecide(s.pending, chat, user) { DecideKeepsRefs(s, chat, user, decision); }
    case _ =>
  }

  /** n is a later state: its histories have only grown, and taken requests have only been told. */
  predicate Grown(s: State, n: State) {
    && s.runs <= n.runs && s.asked <= n.asked && s.grants <= n.grants && |s.takes| <= |n.takes|
    && forall i :: 0 <= i < |s.takes| ==> n.takes[i] == s.takes[i] || n.takes[i] == s.takes[i].(told := true)
  }

  lemma StepGrows(s: State, step: ToolStep)
    ensures Grown(s, StepOf(s, step))
  {
  }

  lemma AskedByStays(s: State, n: State, a: ToolApproval)
    requires Grown(s, n) && AskedBy(s, a)
    ensures AskedBy(n, a)
  {
    var i :| 0 <= i < |s.asked| && s.asked[i].run < |s.runs| && s.asked[i].request == a.request
             && s.runs[s.asked[i].run].place == a.place && s.runs[s.asked[i].run].user == a.user;
    assert n.asked[i] == s.asked[i];
  }

  lemma SentStays(s: State, n: State, t: ToolSent)
    requires Grown(s, n) && SentBacked(s, t)
    ensures SentBacked(n, t)
  {
    if t.cause.ByToolGrant? {
      var i :| 0 <= i < |s.grants| && GrantInTime(s.grants[i], t.place, t.cause.at);
      assert n.grants[i] == s.grants[i];
      var j :| 0 <= j < |s.asked| && s.asked[j].run < |s.runs| && s.asked[j].request == t.request
               && s.runs[s.asked[j].run].place == t.place;
      assert n.asked[j] == s.asked[j];
    }
  }

  lemma StepKeepsAsks(s: State, step: ToolStep)
    requires AsksOk(s)
    ensures AsksOk(StepOf(s, step))
  {
    var n := StepOf(s, step);
    StepGrows(s, step);
    forall c | c in n.pending
      ensures AskedBy(n, n.pending[c])
    {
      if c in s.pending && n.pending[c] == s.pending[c] {
        AskedByStays(s, n, s.pending[c]);
      } else {
        assert n.asked[|s.asked|] == AskedFor(step.run, step.request);
      }
    }
    forall i | 0 <= i < |n.takes|
      ensures AskedBy(n, n.takes[i].approval) && n.takes[i].user == n.takes[i].approval.user
    {
      if i < |s.takes| {
        AskedByStays(s, n, s.takes[i].approval);
      } else {
        AskedByStays(s, n, s.pending[step.chat]);
      }
    }
  }

  /** What a step adds to the decisions sent and to the grants, each in order. */
  lemma StepAdds(s: State, step: ToolStep)
    requires SentsOk(s)
    ensures var n := StepOf(s, step);
            && (n.sent == s.sent || (|n.sent| == |s.sent| + 1 && s.sent <= n.sent && SentBacked(n, n.sent[|s.sent|])))
            && (n.grants == s.grants || (|n.grants| == |s.grants| + 1 && s.grants <= n.grants && GrantBacked(n, n.grants[|s.grants|])))
  {
    var n := StepOf(s, step);
    if step.Ask? && n.sent != s.sent {
      var r := s.runs[step.run];
      var i :| 0 <= i < |s.grants| && GrantInTime(s.grants[i], r.place, s.now);
      assert GrantInTime(n.grants[i], r.place, s.now);
      assert n.asked[|s.asked|] == AskedFor(step.run, step.request);
    }
  }

  lemma StepKeepsSents(s: State, step: ToolStep)
    requires SentsOk(s)
    ensures SentsOk(StepOf(s, step))
  {
    var n := StepOf(s, step);
    StepGrows(s, step);
    StepAdds(s, step);
    forall i | 0 <= i < |n.sent|
      ensures SentBacked(n, n.sent[i])
    {
      if i < |s.sent| {
        SentStays(s, n, s.sent[i]);
      }
    }
    forall i | 0 <= i < |n.grants|
      ensures GrantBacked(n, n.grants[i])
    {
      if i < |s.grants| {
        assert n.grants[i] == s.grants[i];
      }
    }
  }

  lemma {:induction false} RunKeeps(s: State, steps: seq<ToolStep>)
    requires RefsOk(s) && AsksOk(s) && SentsOk(s)
    ensures RefsOk(RunAll(s, steps)) && AsksOk(RunAll(s, steps)) && SentsOk(RunAll(s, steps))
    decreases |steps|
  {
    if steps != [] {
      StepKeepsRefs(s, steps[0]);
      StepKeepsAsks(s, steps[0]);
      StepKeepsSents(s, steps[0]);
      RunKeeps(StepOf(s, steps[0]), steps[1..]);
    }
  }

  /** Each stored request is taken by at most one Decide, and one that was taken is no longer open. */
  lemma {:induction false} TakenOnce(steps: seq<ToolStep>)
    ensures var s := RunAll(NOTHING, steps);
            && (forall i, j :: 0 <= i < j < |s.takes| ==> s.takes[i].approval.ref != s.takes[j].approval.ref)
            && (forall c, i :: c in s.pending && 0 <= i < |s.takes| ==> s.pending[c].ref != s.takes[i].approval.ref)
  {
    RunKeeps(NOTHING, steps);
  }

  /** A run's request becomes its chat's open one, or a grant of the last day answers it. */
  lemma ToolRequestIsAsked(s: State, run: nat, request: string, granted: bool)
    requires run < |s.runs| && request != ""
    ensures var n, r := StepOf(s, Ask(run, request, granted)), s.runs[run];
            if granted && exists g :: 0 <= g < |s.grants| && GrantInTime(s.grants[g], r.place, s.now)
            then n.pending == s.pending && n.sent == s.sent + [ToolSent(r.place, request, AllowSession, ByToolGrant(s.now))]
            else n.pending == s.pending[r.chat := ToolApproval(s.refs, r.place, r.user, request)] && n.sent == s.sent
  {
  }

  /** A resolution clears the open request it is about, and a run's end any of its chat and session. */
  lemma OpenRequestIsCleared(s: State, run: nat, request: string)
    requires run < |s.runs|
    ensures var r := s.runs[run];
            var resolved, ended := StepOf(s, Resolve(run, request)).pending, StepOf(s, End(run)).pending;
            && (r.chat in resolved && resolved[r.chat].place.session == r.place.session ==> resolved[r.chat].request != request)
            && (r.chat in ended ==> ended[r.chat].place.session != r.place.session)
  {
  }

  /**
   * The owner's decision is carried out: it is sent for the request that was open, to where that was asked; the
   * request is open no more; and the place is granted exactly when the machine took a session-wide decision.
   */
  lemma ToolDecisionIsSent(s: State, chat: string, decision: Decision, ok: bool)
    requires chat in s.pending
    ensures var a, i := s.pending[chat], |s.takes|;
            var n := StepOf(StepOf(s, Decide(chat, a.user, decision)), Tell(i, ok));
            && n.sent == s.sent + [ToolSent(a.place, a.request, decision, ByTake(i))] && n.pending == s.pending - {chat}
            && n.grants == s.grants + (if ok && decision == AllowSession then [ToolGrant(a.place, s.now, i)] else [])
  {
    var a := s.pending[chat];
    var t := Taken(a, a.user, decision, false);
    var b := StepOf(s, Decide(chat, a.user, decision));
    assert b.takes == s.takes + [t] && b.takes[|s.takes|] == t;
  }

  /** Nobody else's decision takes it. */
  lemma OthersCannotDecide(s: State, chat: string, user: string, decision: Decision)
    requires chat in s.pending && s.pending[chat].user != user
    ensures StepOf(s, Decide(chat, user, decision)) == s
  {
  }

  /**
   * How an open request leaves its chat: a newer one of the chat takes its place, its own user's
   * Decide takes it, the machine resolves it, or a run of its chat and session ends. In particular
   * sending the answer to an older one, however late, never discards it.
   */
  lemma OpenRequestLeaves(s: State, step: ToolStep, chat: string)
    requires chat in s.pending
    ensures var n := StepOf(s, step); var a := s.pending[chat];
            || (chat in n.pending && n.pending[chat] == a)
            || (step.Ask? && step.run < |s.runs| && s.runs[step.run].chat == chat && chat in n.pending && n.pending[chat].ref == s.refs)
            || (step.Decide? && step.chat == chat && step.user == a.user
                && n.takes == s.takes + [Taken(a, a.user, step.decision, false)])
            || ((step.End? || (step.Resolve? && step.request == a.request)) && step.run < |s.runs|
                && s.runs[step.run].chat == chat && s.runs[step.run].place.session == a.place.session)
  {
  }

  /**
   * Every decision sent for a run answers a request that a run at the very place it is sent to asked;
   * it was decided by that run's own user, or by a grant of the last day for that place, which itself
   * came from such a decision.
   */
  lemma {:induction false} EveryToolDecisionInOrder(steps: seq<ToolStep>, i: nat)
    requires i < |RunAll(NOTHING, steps).sent|
    ensures var s := RunAll(NOTHING, steps); var t := s.sent[i];
            && SentBacked(s, t)
            && (t.cause.ByTake? ==> AskedBy(s, s.takes[t.cause.take].approval)
                                    && s.takes[t.cause.take].user == s.takes[t.cause.take].approval.user)
            && (forall g :: 0 <= g < |s.grants| ==> GrantBacked(s, s.grants[g]))
  {
    RunKeeps(NOTHING, steps);
  }
}
