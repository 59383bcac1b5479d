/** One turn: the tool loop over a session, for any provider, tools, steers and point of abort. */
module TurnLoop {
  import opened Wrappers
  import opened Messages
  import opened Sessions
  import opened Text
  import opened Compaction
  import opened ImageContext
  import opened Guards
  import opened ToolRounds

  const MAX_OUTPUT_LIMIT_RETRIES := 2
  const OUTPUT_LIMIT_NOTE: string := "Your last reply was cut off at the output limit and was discarded: nothing in it ran."
  const EMPTY_NOTE: string := "model returned an empty response"
  const CUT_OFF_NOTE: string := "the model's reply was cut off at its output limit before it produced anything usable"

  datatype Request = Request(messages: seq<Message>, tools: bool)

  /** cutOffAtOutputLimit. */
  predicate CutOffAtOutputLimit(r: Reply) {
    r.truncated && (r.calls != [] || r.content == "")
  }

  // ----- what the model's replies make of a turn, read off the replies alone

  predicate Replied(env: Env, r: nat) {
    env.model(r).Answer?
  }

  /** The reply to request r is dropped and asked for again. */
  predicate Dropped(env: Env, r: nat)
    decreases r, 1
  {
    Replied(env, r) && CutOffAtOutputLimit(env.model(r).reply) && DropsBefore(env, r) < MAX_OUTPUT_LIMIT_RETRIES
  }

  /** How many of the first r replies were dropped. */
  function DropsBefore(env: Env, r: nat): (n: nat)
    ensures n <= r && n <= MAX_OUTPUT_LIMIT_RETRIES
    decreases r, 0
  {
    if r == 0 then 0 else DropsBefore(env, r - 1) + (if Dropped(env, r - 1) then 1 else 0)
  }

  /** The reply to request r starts a tool round. */
  predicate HasRound(env: Env, r: nat) {
    Replied(env, r) && env.model(r).reply.calls != [] && !Dropped(env, r)
  }

  /** The observations of every tool round run before request r, round by round. */
  function RoundsBefore(env: Env, r: nat): seq<seq<Observation>> {
    if r == 0 then []
    else
      var before := RoundsBefore(env, r - 1);
      if HasRound(env, r - 1) then before + [RoundOf(env, env.model(r - 1).reply.calls, |before|)] else before
  }

  /** What an answer without calls leaves: a note when it has no text. */
  function Answered(reply: Reply): Message {
    if TrimSpace(reply.content) == "" then Plain(Assistant, if reply.truncated then CUT_OFF_NOTE else EMPTY_NOTE)
    else AssistantCalls(reply)
  }

  /** What the reply to request r adds to the history. */
  function Said(env: Env, r: nat): seq<Message> {
    match env.model(r)
    case Canceled => []
    case Error(fallback) => [Plain(Assistant, fallback)]
    case Answer(reply) =>
      if Dropped(env, r) then []
      else if reply.calls != [] then RoundWork(env, reply, |RoundsBefore(env, r)|)
      else [Answered(reply)]
  }

  function SaidBefore(env: Env, r: nat): seq<Message> {
    if r == 0 then [] else SaidBefore(env, r - 1) + Said(env, r - 1)
  }

  /** What the request alone is told on account of the reply to request r. */
  ghost function Told(env: Env, r: nat): seq<Message> {
    if Dropped(env, r) then [Plain(System, OUTPUT_LIMIT_NOTE)]
    else if HasRound(env, r) then Warnings(RoundsBefore(env, r + 1))
    else []
  }

  /** What request r holds past the opening, steers and its own notes aside. */
  ghost function TalkBefore(env: Env, r: nat): seq<Message> {
    if r == 0 then [] else TalkBefore(env, r - 1) + env.nudges(r - 1) + Said(env, r - 1) + Told(env, r - 1)
  }

  /** The steps from asking request r to asking the next one. */
  function StepsOf(env: Env, r: nat): nat {
    if !Replied(env, r) || Dropped(env, r) then 1
    else
      var reply := env.model(r).reply;
      if reply.calls != [] then 2 + |reply.calls| else if TrimSpace(reply.content) == "" then 1 else 2
  }

  /** The step at which request r is asked; two are spent before the first. */
  function StepsBefore(env: Env, r: nat): nat {
    if r == 0 then 2 else StepsBefore(env, r - 1) + StepsOf(env, r - 1)
  }

  /** How an answer leaves the turn at step t: ended without text, by a death, with its result, or going on. */
  predicate AnswerEnds(env: Env, reply: Reply, t: nat, end: Option<Ending>) {
    var blank := TrimSpace(reply.content) == "";
    || (blank && end == Some(EmptyReply))
    || (!blank && env.dies(t) && end == Some(Died))
    || (!blank && !env.dies(t) && (end == Some(Done) || end == None))
  }

  /** What the reply to request r, asked at step t after these rounds, leads to: an end, or another request. */
  ghost predicate Leads(env: Env, r: nat, t: nat, rounds: seq<seq<Observation>>, end: Option<Ending>) {
    || (env.dies(t) && end == Some(Died))
    || (!env.dies(t) && env.model(r).Canceled? && end == Some(ModelCanceled))
    || (!env.dies(t) && env.model(r).Error? && end == Some(ModelFailed))
    || (!env.dies(t) && Dropped(env, r) && end == None)
    || (!env.dies(t) && Concludes(env, r) && AnswerEnds(env, env.model(r).reply, t + 1, end))
    || (!env.dies(t) && HasRound(env, r) && RoundLeads(env, r, t + 1, rounds, end))
  }

  ghost predicate RoundLeads(env: Env, r: nat, t: nat, rounds: seq<seq<Observation>>, end: Option<Ending>)
    requires Replied(env, r)
  {
    var calls, k := env.model(r).reply.calls, |rounds|;
    RoundEnds(env, calls, k, t, rounds + [RoundOf(env, calls, k)], end)
  }

  /** After the reply to request r the turn goes on to ask again. */
  ghost predicate GoesOn(env: Env, r: nat) {
    Leads(env, r, StepsBefore(env, r), RoundsBefore(env, r), None)
  }

  /** The reply to request r, or a death at one of the steps that follow, ends the turn so. */
  ghost predicate Stops(env: Env, r: nat, end: Ending) {
    Leads(env, r, StepsBefore(env, r), RoundsBefore(env, r), Some(end))
  }

  /** The reply to request r is an answer without calls. */
  predicate Concludes(env: Env, r: nat) {
    Replied(env, r) && !Dropped(env, r) && env.model(r).reply.calls == []
  }

  /** The turn went on after each of the first n replies. */
  ghost predicate WentOn(env: Env, n: nat) {
    forall r: nat :: r < n ==> GoesOn(env, r)
  }

  // What a turn has behind it: its tool rounds, what was said and returned, what the request has been told with
  // that, replies dropped, and steps.
  datatype Past = Past(
    rounds: seq<seq<Observation>>, said: seq<Message>, talk: seq<Message>, drops: nat, steps: nat, wentOn: bool)

  ghost function PastAt(env: Env, r: nat): Past {
    Past(RoundsBefore(env, r), SaidBefore(env, r), TalkBefore(env, r), DropsBefore(env, r), StepsBefore(env, r), WentOn(env, r))
  }

  /** The same with the nudges of request r. */
  ghost function NudgedAt(env: Env, r: nat): Past {
    PastAt(env, r).(talk := TalkBefore(env, r) + env.nudges(r))
  }

  /** n requests, all but the last gone on from; what follows the last one, or the cap, ends the turn. */
  ghost predicate RunsAs(env: Env, n: nat, end: Ending) {
    || (n == 0 && end == NotConfigured && !env.configured)
    || (n > 0 && env.configured && n <= env.limit + DropsBefore(env, n) && WentOn(env, n - 1) && Stops(env, n - 1, end))
    || (n > 0 && env.configured && n == env.limit + DropsBefore(env, n) && WentOn(env, n) && end == Capped(false))
  }

  /**
   * A request repeats the opening, then holds what was said and what the tools returned before it,
   * paired, with the notes to the model in their places; and it offers tools, or else ends with the note
   * that it does not, exactly when the guards of that whole past allow it.
   */
  ghost predicate RequestOk(env: Env, opening: seq<Message>, past: Past, q: Request) {
    || (q.tools && ToolsAllowed(past.rounds) && Holds(q.messages, opening, past.said, past.talk))
    || (!q.tools && !ToolsAllowed(past.rounds)
        && Holds(q.messages, opening, past.said, past.talk + [Plain(System, env.stopNote(WhyWithheld(past.rounds)))]))
  }

  /** After the opening, this work and this talk, paired. */
  ghost predicate Holds(messages: seq<Message>, opening: seq<Message>, said: seq<Message>, talk: seq<Message>) {
    && opening <= messages && PairedFrom(messages, |opening|)
    && WorkFrom(messages, |opening|) == said && TalkFrom(messages, |opening|) == talk
  }

  /** Each request is what the turn before it makes it. */
  ghost predicate RequestsOk(env: Env, opening: seq<Message>, requests: seq<Request>) {
    var n := |requests| - 1;
    requests == [] || (RequestsOk(env, opening, requests[..n]) && RequestOk(env, opening, NudgedAt(env, n), requests[n]))
  }

  lemma {:induction false} RequestsOkStep(env: Env, opening: seq<Message>, requests: seq<Request>, sent: Request)
    requires RequestsOk(env, opening, requests) && RequestOk(env, opening, NudgedAt(env, |requests|), sent)
    ensures RequestsOk(env, opening, requests + [sent])
  {
    assert (requests + [sent])[..|requests|] == requests;
  }

  lemma {:induction false} RequestsOkAt(env: Env, opening: seq<Message>, requests: seq<Request>, r: nat)
    requires RequestsOk(env, opening, requests) && r < |requests|
    ensures RequestOk(env, opening, NudgedAt(env, r), requests[r])
  {
    if r + 1 < |requests| {
      RequestsOkAt(env, opening, requests[..|requests| - 1], r);
    }
  }

  /** The forced last request: everything said, and no tools. */
  ghost predicate FinalOk(env: Env, opening: seq<Message>, n: nat, looped: bool, q: Request) {
    !q.tools && Holds(q.messages, opening, SaidBefore(env, n), TalkBefore(env, n) + [Plain(System, env.nudge(looped))])
  }

  /** The final answer, or the canned one, and for some channels the mark that it may be incomplete. */
  function FinalText(env: Env, looped: bool): string {
    (if env.final.None? || env.final.value == "" then env.fallback(looped) else env.final.value) + env.notice(looped)
  }

  /** What the forced last request adds to the history. */
  function FinalSaid(env: Env, n: nat, looped: bool): seq<Message> {
    if env.dies(StepsBefore(env, n)) then [] else [Plain(Assistant, FinalText(env, looped))]
  }

  /** What the turn leaves in the history: all that was said, or a first part when it was cut off. */
  ghost predicate WorkLeft(env: Env, n: nat, end: Ending, work: seq<Message>) {
    || ((end.Died? || end.Panicked?) && CutShort(env, n, work))
    || (end.Capped? && work == SaidBefore(env, n) + FinalSaid(env, n, end.looped))
    || (!end.Died? && !end.Panicked? && !end.Capped? && work == SaidBefore(env, n))
  }

  predicate CutShort(env: Env, n: nat, work: seq<Message>) {
    work <= SaidBefore(env, n) && (n > 0 ==> SaidBefore(env, n - 1) <= work)
  }

  /** Each request holds the steers that the history h holds before the reply to it, and no other. */
  ghost predicate SteersStand(env: Env, opening: seq<Message>, requests: seq<Request>, h: seq<Message>, base: nat) {
    var n := |requests| - 1;
    requests == [] ||
    (SteersStand(env, opening, requests[..n], h, base) && SteersIn(opening, requests[n], h, base, |SaidBefore(env, n)|))
  }

  lemma {:induction false} SteersStandAt(env: Env, opening: seq<Message>, requests: seq<Request>, h: seq<Message>,
                                         base: nat, r: nat)
    requires SteersStand(env, opening, requests, h, base) && r < |requests|
    ensures SteersIn(opening, requests[r], h, base, |SaidBefore(env, r)|)
  {
    if r + 1 < |requests| {
      SteersStandAt(env, opening, requests[..|requests| - 1], h, base, r);
    }
  }

  predicate SteersIn(opening: seq<Message>, q: Request, h: seq<Message>, base: nat, k: nat) {
    UsersFrom(q.messages, |opening|) == UsersBefore(h, base, k)
  }

  lemma {:induction false} SaidMore(env: Env, n: nat)
    ensures |SaidBefore(env, n)| <= |SaidBefore(env, n + 1)|
  {
  }

  lemma {:induction false} SaidGrows(env: Env, r: nat, n: nat)
    requires r <= n
    ensures |SaidBefore(env, r)| <= |SaidBefore(env, n)|
    decreases n - r
  {
    if r < n {
      SaidMore(env, r);
      SaidGrows(env, r + 1, n);
    }
  }

  /** What is added to the history, work first, leaves the earlier requests as they were. */
  lemma {:induction false} SteersKept(env: Env, opening: seq<Message>, requests: seq<Request>, h: seq<Message>,
                                      more: seq<Message>, base: nat)
    requires SteersStand(env, opening, requests, h, base) && base <= |h| && WorkFirst(more)
    requires requests != [] ==> |SaidBefore(env, |requests| - 1)| <= |WorkFrom(h, base)|
    ensures SteersStand(env, opening, requests, h + more, base)
  {
    if requests != [] {
      var n := |requests| - 1;
      if n > 0 {
        SaidGrows(env, n - 1, n);
      }
      SteersKept(env, opening, requests[..n], h, more, base);
      UsersBeforeKept(h, base, more, |SaidBefore(env, n)|);
    }
  }

  /** One more request, sent with all the steers in the history h. */
  lemma {:induction false} SteersSent(env: Env, opening: seq<Message>, requests: seq<Request>, sent: Request,
                                      h: seq<Message>, base: nat)
    requires SteersStand(env, opening, requests, h, base) && base <= |h|
    requires SteersIn(opening, sent, h, base, |SaidBefore(env, |requests|)|)
    ensures SteersStand(env, opening, requests + [sent], h, base)
  {
    assert (requests + [sent])[..|requests|] == requests;
  }

  /** The history then grows to g. */
  lemma {:induction false} SteersNext(env: Env, opening: seq<Message>, requests: seq<Request>, sent: Request,
                                      h: seq<Message>, g: seq<Message>, base: nat)
    requires SteersStand(env, opening, requests, h, base) && base <= |h| && GrewByWork(h, g)
    requires WorkFrom(h, base) == SaidBefore(env, |requests|) && UsersFrom(sent.messages, |opening|) == UsersFrom(h, base)
    ensures SteersStand(env, opening, requests + [sent], g, base)
  {
    SteersSent(env, opening, requests, sent, h, base);
    SteersKept(env, opening, requests + [sent], h, g[|h|..], base);
    assert g == h + g[|h|..];
  }

  /** g is h with more, work first. */
  predicate GrewByWork(h: seq<Message>, g: seq<Message>) {
    h <= g && WorkFirst(g[|h|..])
  }

  // ----- the loop

  /** A step at which nothing else changes. */
  method Pause(sess: Session, env: Env, messages: seq<Message>, t: nat, ghost at: Marks) returns (dead: bool)
    requires Wellbehaved(env) && Settled(sess, messages, at)
    modifies sess`steerBuf, sess`accepted
    ensures Settled(sess, messages, at) && dead == env.dies(t)
    ensures sess.steerBuf == old(sess.steerBuf) + env.arrivals(t)
  {
    LedgerArrive(sess.messages, at.base, sess.steerBuf, sess.accepted, env.arrivals(t));
    dead := Step(sess, env, t);
  }

  /**
   * A reply without calls ends the turn unless a steer arrived meanwhile: then the reply and the
   * steers go to the session and to the request, and the turn goes on.
   */
  method FinishOrFold(sess: Session, env: Env, reply: Reply, messages0: seq<Message>, t: nat, ghost at: Marks)
    returns (messages: seq<Message>, end: Option<Ending>)
    requires Wellbehaved(env) && Settled(sess, messages0, at) && reply.calls == []
    modifies sess`messages, sess`steerBuf, sess`accepted
    ensures old(sess.messages) <= sess.messages && Settled(sess, messages, at)
    ensures AnswerEnds(env, reply, t, end) && GrewByWork(old(sess.messages), sess.messages)
    ensures var said := Answered(reply);
            var waiting := old(sess.steerBuf) + env.arrivals(t);
            && WorkFrom(sess.messages, at.base) == WorkFrom(old(sess.messages), at.base) + [said]
            && WorkFrom(messages, |at.opening|) == WorkFrom(messages0, |at.opening|) + [said]
            && TalkFrom(messages, |at.opening|) == TalkFrom(messages0, |at.opening|) + [said]
            && (end.Some? ==> sess.messages == old(sess.messages) + [said])
            && (end == Some(Done) ==> waiting == [])
            && (end.None? ==> waiting != [] && sess.steerBuf == []
                              && sess.messages == old(sess.messages) + [said] + waiting
                              && messages == messages0 + [said] + waiting)
  {
    if TrimSpace(reply.content) == "" {
      var note := if reply.truncated then CUT_OFF_NOTE else EMPTY_NOTE;
      messages := AppendBoth(sess, messages0, Plain(Assistant, note), at);
      return messages, Some(EmptyReply);
    }
    messages := AppendBoth(sess, messages0, AssistantCalls(reply), at);
    var dead := Pause(sess, env, messages, t, at);
    if dead {
      return messages, Some(Died);
    }
    if |sess.steerBuf| == 0 {
      return messages, Some(Done);
    }
    messages := FoldSteers(sess, messages, at);
    return messages, None;
  }

  // The loop's variables: the request so far, the guards, the next step, rounds run and replies dropped.
  datatype Vars = Vars(messages: seq<Message>, guard: Guard, t: nat, ran: nat, retries: nat)

  /** Where the loop stands before a request with this past. */
  ghost predicate LoopInv(sess: Session, detector: ToolLoopDetector, v: Vars, past: Past, at: Marks, from: nat)
    reads sess, detector
  {
    && Settled(sess, v.messages, at) && detector.Valid()
    && v.ran == |past.rounds| && v.retries == past.drops && past.wentOn && GuardOk(v.guard, past.rounds)
    && LoopGuard(past.rounds, detector.seen, v.guard.warned, from)
    && WorkFrom(sess.messages, at.base) == past.said && WorkFrom(v.messages, |at.opening|) == past.said
    && TalkFrom(v.messages, |at.opening|) == past.talk
  }

  lemma {:induction false} GuardOffers(g: Guard, rounds: seq<seq<Observation>>)
    requires GuardOk(g, rounds)
    ensures (OffersTools(g) <==> ToolsAllowed(rounds)) && Withholds(g) == WhyWithheld(rounds)
  {
  }

  /** The nudges go to the request only, and the guards decide whether it offers tools. */
  method NextRequest(sess: Session, env: Env, v0: Vars, nudges: seq<Message>, ghost past: Past,
                     ghost at: Marks) returns (v: Vars, sent: Request)
    requires SystemOnly(nudges) && Settled(sess, v0.messages, at)
    requires GuardOk(v0.guard, past.rounds) && WorkFrom(v0.messages, |at.opening|) == past.said
    requires TalkFrom(v0.messages, |at.opening|) == past.talk
    ensures v == v0.(messages := v0.messages + nudges) && Settled(sess, v.messages, at)
    ensures WorkFrom(v.messages, |at.opening|) == past.said && TalkFrom(v.messages, |at.opening|) == past.talk + nudges
    ensures RequestOk(env, at.opening, past.(talk := past.talk + nudges), sent)
    ensures UsersFrom(sent.messages, |at.opening|) == UsersFrom(sess.messages, at.base)
  {
    NotesUnmoved(v0.messages, |at.opening|, nudges);
    v := v0.(messages := v0.messages + nudges);
    var tools := OffersTools(v.guard);
    GuardOffers(v.guard, past.rounds);
    var note := if tools then [] else [Plain(System, env.stopNote(Withholds(v.guard)))];
    NotesUnmoved(v.messages, |at.opening|, note);
    sent := Request(v.messages + note, tools);
  }

  function AfterDrop(past: Past): Past {
    past.(drops := past.drops + 1, steps := past.steps + 1, talk := past.talk + [Plain(System, OUTPUT_LIMIT_NOTE)])
  }

  /** The dropped reply leaves nothing but a note in the request. */
  method DropReply(sess: Session, detector: ToolLoopDetector, v0: Vars, ghost past: Past, ghost at: Marks,
                   ghost from: nat)
    returns (v: Vars)
    requires LoopInv(sess, detector, v0, past, at, from)
    ensures LoopInv(sess, detector, v, AfterDrop(past), at, from)
    ensures v.retries == v0.retries + 1 && v.t == v0.t
  {
    var note := [Plain(System, OUTPUT_LIMIT_NOTE)];
    NotesUnmoved(v0.messages, |at.opening|, note);
    v := v0.(messages := v0.messages + note, retries := v0.retries + 1);
  }

  lemma {:induction false} DroppedTalk(env: Env, n: nat)
    requires Dropped(env, n)
    ensures TalkBefore(env, n + 1) == NudgedAt(env, n).talk + [Plain(System, OUTPUT_LIMIT_NOTE)]
    ensures SaidBefore(env, n + 1) == SaidBefore(env, n)
  {
    assert SaidBefore(env, n) + [] == SaidBefore(env, n);
    assert TalkBefore(env, n) + env.nudges(n) + [] == TalkBefore(env, n) + env.nudges(n);
  }

  lemma {:induction false} DroppedCounts(env: Env, n: nat)
    requires Dropped(env, n)
    ensures RoundsBefore(env, n + 1) == RoundsBefore(env, n) && DropsBefore(env, n + 1) == DropsBefore(env, n) + 1
    ensures StepsBefore(env, n + 1) == StepsBefore(env, n) + 1
    ensures !env.dies(StepsBefore(env, n)) ==> GoesOn(env, n)
  {
  }

  lemma {:induction false} DroppedPast(env: Env, n: nat)
    requires Dropped(env, n) && WentOn(env, n)
    ensures !env.dies(StepsBefore(env, n)) ==> PastAt(env, n + 1) == AfterDrop(NudgedAt(env, n))
  {
    DroppedTalk(env, n);
    DroppedCounts(env, n);
    if GoesOn(env, n) {
      WentOnNext(env, n);
    }
  }

  lemma {:induction false} AnswerTalk(env: Env, n: nat)
    requires Concludes(env, n)
    ensures TalkBefore(env, n + 1) == NudgedAt(env, n).talk + [Answered(env.model(n).reply)]
  {
    var talk := TalkBefore(env, n) + env.nudges(n) + [Answered(env.model(n).reply)];
    assert talk + [] == talk;
  }

  lemma {:induction false} AnswerCounts(env: Env, n: nat)
    requires Concludes(env, n)
    ensures RoundsBefore(env, n + 1) == RoundsBefore(env, n) && DropsBefore(env, n + 1) == DropsBefore(env, n)
    ensures StepsBefore(env, n + 1) == StepsBefore(env, n) + (if TrimSpace(env.model(n).reply.content) == "" then 1 else 2)
  {
  }

  lemma {:induction false} RoundSaid(env: Env, n: nat)
    requires HasRound(env, n)
    ensures SaidBefore(env, n + 1) == SaidBefore(env, n) + RoundWork(env, env.model(n).reply, |RoundsBefore(env, n)|)
  {
  }

  lemma {:induction false} RoundTalk(env: Env, n: nat)
    requires HasRound(env, n)
    ensures TalkBefore(env, n + 1) ==
            NudgedAt(env, n).talk + RoundWork(env, env.model(n).reply, |RoundsBefore(env, n)|) + Warnings(RoundsBefore(env, n + 1))
  {
  }

  lemma {:induction false} RoundPast(env: Env, n: nat)
    requires HasRound(env, n)
    ensures var calls, before := env.model(n).reply.calls, RoundsBefore(env, n);
            && RoundsBefore(env, n + 1) == before + [RoundOf(env, calls, |before|)]
            && DropsBefore(env, n + 1) == DropsBefore(env, n)
            && StepsBefore(env, n + 1) == StepsBefore(env, n) + 2 + |calls|
  {
  }

  lemma {:induction false} FailedPast(env: Env, n: nat)
    requires !env.model(n).Answer?
    ensures SaidBefore(env, n + 1) ==
            SaidBefore(env, n) + (if env.model(n).Error? then [Plain(Assistant, env.model(n).fallback)] else [])
  {
  }

  /** What the loop leaves after n requests. */
  ghost predicate LoopLeft(sess: Session, env: Env, v: Vars, n: nat, end: Ending, at: Marks)
    reads sess
  {
    && Leavable(sess, at.base)
    && if end.Capped?
       then && Settled(sess, v.messages, at) && v.t == StepsBefore(env, n)
            && TalkFrom(v.messages, |at.opening|) == TalkBefore(env, n)
            && WorkFrom(sess.messages, at.base) == WorkFrom(v.messages, |at.opening|) == SaidBefore(env, n)
       else WorkLeft(env, n, end, WorkFrom(sess.messages, at.base))
  }

  /** After the reply to request n: ready to ask again, or stopped. */
  ghost predicate Asked(sess: Session, detector: ToolLoopDetector, env: Env, v: Vars, n: nat, stop: Option<Ending>,
                        past: Past, at: Marks, from: nat)
    reads sess, detector
  {
    || (stop.None? && past == PastAt(env, n + 1) && v.t == past.steps && LoopInv(sess, detector, v, past, at, from))
    || (stop.Some? && Stops(env, n, stop.value) && LoopLeft(sess, env, v, n + 1, stop.value, at))
  }

  lemma {:induction false} AnswerGoes(env: Env, n: nat)
    requires Concludes(env, n) && TrimSpace(env.model(n).reply.content) != ""
    requires !env.dies(StepsBefore(env, n)) && !env.dies(StepsBefore(env, n) + 1)
    ensures GoesOn(env, n)
  {
  }

  lemma {:induction false} AnswerSaid(env: Env, n: nat)
    requires Concludes(env, n)
    ensures SaidBefore(env, n + 1) == SaidBefore(env, n) + [Answered(env.model(n).reply)]
  {
  }

  lemma {:induction false} AnswerLeft(env: Env, n: nat, stop: Ending)
    requires Concludes(env, n) && stop in {EmptyReply, Died, Done}
    ensures WorkLeft(env, n + 1, stop, SaidBefore(env, n) + [Answered(env.model(n).reply)])
  {
    AnswerSaid(env, n);
  }

  lemma {:induction false} AnswerStops(env: Env, n: nat, past0: Past, stop: Ending)
    requires Concludes(env, n) && past0 == NudgedAt(env, n)
    requires !env.dies(past0.steps) && AnswerEnds(env, env.model(n).reply, past0.steps + 1, Some(stop))
    ensures Stops(env, n, stop) && WorkLeft(env, n + 1, stop, past0.said + [Answered(env.model(n).reply)])
  {
    AnswerLeft(env, n, stop);
  }

  /** After an answer without calls: it is said, and the turn goes on or has ended. */
  ghost predicate AnswerTaken(sess: Session, detector: ToolLoopDetector, env: Env, reply: Reply, v: Vars,
                              stop: Option<Ending>, past0: Past, at: Marks, from: nat)
    reads sess, detector
  {
    && Settled(sess, v.messages, at) && v.t == past0.steps + 2 && AnswerEnds(env, reply, past0.steps + 1, stop)
    && WorkFrom(sess.messages, at.base) == past0.said + [Answered(reply)] == WorkFrom(v.messages, |at.opening|)
    && TalkFrom(v.messages, |at.opening|) == past0.talk + [Answered(reply)]
    && v.ran == |past0.rounds| && v.retries == past0.drops && GuardOk(v.guard, past0.rounds)
    && detector.Valid() && LoopGuard(past0.rounds, detector.seen, v.guard.warned, from)
  }

  lemma {:induction false} AnswerEnded(sess: Session, detector: ToolLoopDetector, env: Env, v: Vars, n: nat,
                                       stop: Ending, past0: Past, past: Past, at: Marks, from: nat)
    requires Concludes(env, n) && past0 == NudgedAt(env, n) && !env.dies(past0.steps)
    requires AnswerTaken(sess, detector, env, env.model(n).reply, v, Some(stop), past0, at, from)
    ensures Asked(sess, detector, env, v, n, Some(stop), past, at, from)
  {
    AnswerStops(env, n, past0, stop);
  }

  lemma {:induction false} AnswerAsked(sess: Session, detector: ToolLoopDetector, env: Env, v: Vars, n: nat,
                                       stop: Option<Ending>, past0: Past, at: Marks, from: nat)
    requires Concludes(env, n) && past0 == NudgedAt(env, n) && past0.wentOn && !env.dies(past0.steps)
    requires AnswerTaken(sess, detector, env, env.model(n).reply, v, stop, past0, at, from)
    ensures Asked(sess, detector, env, v, n, stop, PastAt(env, n + 1), at, from)
  {
    if stop.Some? {
      AnswerEnded(sess, detector, env, v, n, stop.value, past0, PastAt(env, n + 1), at, from);
    } else {
      AnswerOn(sess, detector, env, v, n, past0, PastAt(env, n + 1), at, from);
    }
  }

  lemma {:induction false} AnswerOn(sess: Session, detector: ToolLoopDetector, env: Env, v: Vars, n: nat,
                                    past0: Past, past: Past, at: Marks, from: nat)
    requires Concludes(env, n) && past0 == NudgedAt(env, n) && past0.wentOn && !env.dies(past0.steps)
    requires past == PastAt(env, n + 1)
    requires AnswerTaken(sess, detector, env, env.model(n).reply, v, None, past0, at, from)
    ensures Asked(sess, detector, env, v, n, None, past, at, from)
  {
    AnswerNext(env, n);
    AnswerReady(sess, detector, env, env.model(n).reply, v, past0, past, at, from);
  }

  /** next is past0 with an answer said after it. */
  predicate AfterAnswer(past0: Past, next: Past, said: Message) {
    && next.rounds == past0.rounds && next.said == past0.said + [said] && next.talk == past0.talk + [said]
    && next.drops == past0.drops && next.steps == past0.steps + 2 && next.wentOn
  }

  lemma {:induction false} AnswerNext(env: Env, n: nat)
    requires Concludes(env, n) && WentOn(env, n) && TrimSpace(env.model(n).reply.content) != ""
    requires !env.dies(StepsBefore(env, n)) && !env.dies(StepsBefore(env, n) + 1)
    ensures AfterAnswer(NudgedAt(env, n), PastAt(env, n + 1), Answered(env.model(n).reply))
  {
    AnswerTalk(env, n);
    AnswerSaid(env, n);
    AnswerCounts(env, n);
    AnswerGoes(env, n);
    WentOnNext(env, n);
  }

  lemma {:induction false} AnswerReady(sess: Session, detector: ToolLoopDetector, env: Env, reply: Reply, v: Vars,
                                       past0: Past, next: Past, at: Marks, from: nat)
    requires AnswerTaken(sess, detector, env, reply, v, None, past0, at, from) && AfterAnswer(past0, next, Answered(reply))
    ensures LoopInv(sess, detector, v, next, at, from) && v.t == next.steps
  {
  }

  lemma {:induction false} RoundGoesOnPast(env: Env, n: nat, past0: Past, rounds: seq<seq<Observation>>)
    requires HasRound(env, n) && past0 == NudgedAt(env, n) && past0.wentOn && !env.dies(past0.steps)
    requires var calls, k := env.model(n).reply.calls, |past0.rounds|;
             rounds == past0.rounds + [RoundOf(env, calls, k)] && RoundEnds(env, calls, k, past0.steps + 1, rounds, None)
    ensures var reply := env.model(n).reply;
            PastAt(env, n + 1) == past0.(rounds := rounds, said := past0.said + RoundWork(env, reply, |past0.rounds|),
                                         talk := past0.talk + RoundWork(env, reply, |past0.rounds|) + Warnings(rounds),
                                         steps := past0.steps + 2 + |reply.calls|, wentOn := true)
  {
    RoundPast(env, n);
    RoundSaid(env, n);
    RoundTalk(env, n);
    RoundLeadsSo(env, n, past0, rounds, None);
    WentOnNext(env, n);
  }

  lemma {:induction false} WentOnNext(env: Env, n: nat)
    requires WentOn(env, n) && GoesOn(env, n)
    ensures WentOn(env, n + 1)
  {
  }

  lemma {:induction false} RoundLeadsSo(env: Env, n: nat, past0: Past, rounds: seq<seq<Observation>>,
                                        end: Option<Ending>)
    requires HasRound(env, n) && past0 == NudgedAt(env, n) && !env.dies(past0.steps)
    requires var calls, k := env.model(n).reply.calls, |past0.rounds|;
             rounds == past0.rounds + [RoundOf(env, calls, k)] && RoundEnds(env, calls, k, past0.steps + 1, rounds, end)
    ensures Leads(env, n, past0.steps, past0.rounds, end)
  {
  }

  /** After a reply with calls: its round is in history and request, as far as it went, and the guards have it. */
  ghost predicate RoundTaken(sess: Session, detector: ToolLoopDetector, env: Env, reply: Reply, v: Vars,
                             stop: Option<Ending>, past0: Past, at: Marks, from: nat)
    reads sess, detector
  {
    var k := |past0.rounds|;
    var rounds, work := past0.rounds + [RoundOf(env, reply.calls, k)], RoundWork(env, reply, k);
    && Leavable(sess, at.base) && RoundEnds(env, reply.calls, k, past0.steps + 1, rounds, stop)
    && Grew(past0.said, WorkFrom(sess.messages, at.base), work, stop != Some(Died) && stop != Some(Panicked))
    && (stop.None? || stop.value.Capped? ==>
          && Settled(sess, v.messages, at) && v.t == past0.steps + 2 + |reply.calls|
          && WorkFrom(v.messages, |at.opening|) == past0.said + work
          && TalkFrom(v.messages, |at.opening|) == past0.talk + work + Warnings(rounds))
    && (stop.None? ==>
          && v.ran == k + 1 && v.retries == past0.drops && GuardOk(v.guard, rounds)
          && detector.Valid() && LoopGuard(rounds, detector.seen, v.guard.warned, from))
  }

  lemma {:induction false} RoundGoesOn(sess: Session, detector: ToolLoopDetector, env: Env, v: Vars, n: nat,
                                       past0: Past, at: Marks, from: nat)
    requires HasRound(env, n) && past0 == NudgedAt(env, n) && past0.wentOn && !env.dies(past0.steps)
    requires RoundTaken(sess, detector, env, env.model(n).reply, v, None, past0, at, from)
    ensures Asked(sess, detector, env, v, n, None, PastAt(env, n + 1), at, from)
  {
    RoundGoesOnPast(env, n, past0, past0.rounds + [RoundOf(env, env.model(n).reply.calls, |past0.rounds|)]);
  }

  /** The history a round leaves when the turn ends in it or right after it. */
  lemma {:induction false} RoundLeft(env: Env, n: nat, stop: Ending, past0: Past, work: seq<Message>)
    requires HasRound(env, n) && past0 == NudgedAt(env, n) && stop in {Died, Panicked, EndedByTool}
    requires Grew(past0.said, work, RoundWork(env, env.model(n).reply, |past0.rounds|), stop == EndedByTool)
    ensures WorkLeft(env, n + 1, stop, work)
  {
    RoundSaid(env, n);
  }

  lemma {:induction false} RoundStops(sess: Session, detector: ToolLoopDetector, env: Env, v: Vars, n: nat, stop: Ending,
                                      past0: Past, past: Past, at: Marks, from: nat)
    requires HasRound(env, n) && past0 == NudgedAt(env, n) && !env.dies(past0.steps)
    requires RoundTaken(sess, detector, env, env.model(n).reply, v, Some(stop), past0, at, from)
    ensures Asked(sess, detector, env, v, n, Some(stop), past, at, from)
  {
    RoundLeadsSo(env, n, past0, past0.rounds + [RoundOf(env, env.model(n).reply.calls, |past0.rounds|)], Some(stop));
    if stop.Capped? {
      RoundPast(env, n);
      RoundSaid(env, n);
      RoundTalk(env, n);
    } else {
      RoundLeft(env, n, stop, past0, WorkFrom(sess.messages, at.base));
    }
  }

  lemma {:induction false} RoundAsked(sess: Session, detector: ToolLoopDetector, env: Env, v: Vars, n: nat,
                                      stop: Option<Ending>, past0: Past, at: Marks, from: nat)
    requires HasRound(env, n) && past0 == NudgedAt(env, n) && past0.wentOn && !env.dies(past0.steps)
    requires RoundTaken(sess, detector, env, env.model(n).reply, v, stop, past0, at, from)
    ensures Asked(sess, detector, env, v, n, stop, PastAt(env, n + 1), at, from)
  {
    if stop.Some? {
      RoundStops(sess, detector, env, v, n, stop.value, past0, PastAt(env, n + 1), at, from);
    } else {
      RoundGoesOn(sess, detector, env, v, n, past0, at, from);
    }
  }

  /** An answer without calls. */
  method TakeAnswer(sess: Session, detector: ToolLoopDetector, env: Env, v0: Vars, reply: Reply, ghost past0: Past,
                    ghost at: Marks, ghost from: nat)
    returns (v: Vars, stop: Option<Ending>)
    requires Wellbehaved(env) && LoopInv(sess, detector, v0, past0, at, from) && reply.calls == []
    requires v0.t == past0.steps + 1
    modifies sess`messages, sess`steerBuf, sess`accepted
    ensures GrewByWork(old(sess.messages), sess.messages) && v.retries == v0.retries
    ensures AnswerTaken(sess, detector, env, reply, v, stop, past0, at, from)
  {
    var messages;
    messages, stop := FinishOrFold(sess, env, reply, v0.messages, v0.t, at);
    v := v0.(messages := messages, t := v0.t + 1);
  }

  /** A reply with calls. */
  method TakeRound(sess: Session, detector: ToolLoopDetector, env: Env, v0: Vars, reply: Reply, ghost past0: Past,
                   ghost at: Marks, ghost from0: nat)
    returns (v: Vars, stop: Option<Ending>, ghost from: nat)
    requires Wellbehaved(env) && LoopInv(sess, detector, v0, past0, at, from0) && reply.calls != []
    requires v0.t == past0.steps + 1
    modifies sess`messages, sess`steerBuf, sess`accepted, detector
    ensures GrewByWork(old(sess.messages), sess.messages) && v.retries == v0.retries
    ensures RoundTaken(sess, detector, env, reply, v, stop, past0, at, from)
  {
    var messages, g, t;
    messages, g, stop, t, from :=
      ToolRound(sess, detector, env, reply, v0.ran, v0.messages, v0.guard, v0.t, at, past0.rounds, from0);
    v := v0.(messages := messages, guard := g, t := t, ran := v0.ran + 1);
  }

  /** A model call that was canceled leaves nothing, one that failed its fallback text. */
  method FailTurn(sess: Session, detector: ToolLoopDetector, env: Env, v0: Vars, n: nat, ghost past: Past,
                  ghost at: Marks, ghost from: nat)
    returns (v: Vars, stop: Option<Ending>)
    requires Settled(sess, v0.messages, at) && !env.model(n).Answer? && !env.dies(StepsBefore(env, n))
    requires WorkFrom(sess.messages, at.base) == SaidBefore(env, n)
    modifies sess`messages
    ensures GrewByWork(old(sess.messages), sess.messages) && v.retries == v0.retries
    ensures Asked(sess, detector, env, v, n, stop, past, at, from)
  {
    v := v0;
    FailedPast(env, n);
    match env.model(n)
    case Canceled => stop := Some(ModelCanceled);
    case Error(fallback) =>
      var messages := AppendBoth(sess, v.messages, Plain(Assistant, fallback), at);
      v, stop := v.(messages := messages), Some(ModelFailed);
  }

  lemma {:induction false} DeadAsked(sess: Session, detector: ToolLoopDetector, env: Env, v: Vars, n: nat, past: Past,
                                     past0: Past,
                                     at: Marks, from: nat)
    requires Settled(sess, v.messages, at) && past0 == NudgedAt(env, n) && env.dies(past0.steps)
    requires WorkFrom(sess.messages, at.base) == past0.said
    ensures Asked(sess, detector, env, v, n, Some(Died), past, at, from)
  {
    DiesStops(env, n);
    DiedLeft(env, n);
  }

  lemma {:induction false} DiesStops(env: Env, n: nat)
    requires env.dies(StepsBefore(env, n))
    ensures Stops(env, n, Died)
  {
  }

  lemma {:induction false} SaidPrefix(env: Env, n: nat)
    ensures SaidBefore(env, n) <= SaidBefore(env, n + 1)
  {
  }

  lemma {:induction false} DiedLeft(env: Env, n: nat)
    ensures WorkLeft(env, n + 1, Died, SaidBefore(env, n))
  {
    SaidPrefix(env, n);
    assert CutShort(env, n + 1, SaidBefore(env, n));
  }

  /** A dropped reply changes nothing but the request. */
  lemma {:induction false} DroppedAsked(sess: Session, detector: ToolLoopDetector, env: Env, v: Vars, n: nat,
                                        past: Past, past0: Past,
                                        at: Marks, from: nat)
    requires Dropped(env, n) && past0 == NudgedAt(env, n) && past0.wentOn && past == PastAt(env, n + 1)
    requires !env.dies(past0.steps) && v.t == past0.steps + 1
    requires LoopInv(sess, detector, v, AfterDrop(past0), at, from)
    ensures Asked(sess, detector, env, v, n, None, past, at, from)
  {
    DroppedPast(env, n);
  }

  /** What the result of the model call leads to. */
  method TakeResult(sess: Session, detector: ToolLoopDetector, env: Env, v0: Vars, n: nat, ghost at: Marks,
                    ghost past1: Past, ghost from0: nat)
    returns (v: Vars, stop: Option<Ending>, ghost past: Past, ghost from: nat)
    requires Wellbehaved(env) && past1 == NudgedAt(env, n) && LoopInv(sess, detector, v0, past1, at, from0)
    requires !env.dies(past1.steps) && v0.t == past1.steps + 1
    modifies sess`messages, sess`steerBuf, sess`accepted, detector
    ensures GrewByWork(old(sess.messages), sess.messages) && Asked(sess, detector, env, v, n, stop, past, at, from)
    ensures v0.retries <= v.retries <= v0.retries + 1 && (v0.retries < v.retries ==> v.retries <= MAX_OUTPUT_LIMIT_RETRIES)
  {
    past, from := PastAt(env, n + 1), from0;
    var result := env.model(n);
    if !result.Answer? {
      v, stop := FailTurn(sess, detector, env, v0, n, past, at, from);
    } else if CutOffAtOutputLimit(result.reply) && v0.retries < MAX_OUTPUT_LIMIT_RETRIES {
      v := DropReply(sess, detector, v0, past1, at, from);
      stop := None;
      DroppedAsked(sess, detector, env, v, n, past, past1, at, from);
    } else if result.reply.calls == [] {
      v, stop := TakeAnswer(sess, detector, env, v0, result.reply, past1, at, from);
      AnswerAsked(sess, detector, env, v, n, stop, past1, at, from);
    } else {
      v, stop, from := TakeRound(sess, detector, env, v0, result.reply, past1, at, from);
      RoundAsked(sess, detector, env, v, n, stop, past1, at, from);
    }
  }

  /** One pass of the loop: one model call, and what its result leads to. */
  method AskModel(sess: Session, detector: ToolLoopDetector, env: Env, v0: Vars, n: nat, ghost at: Marks,
                  ghost past0: Past, ghost from0: nat)
    returns (v: Vars, sent: Request, stop: Option<Ending>, ghost past: Past, ghost from: nat)
    requires Wellbehaved(env) && past0 == PastAt(env, n) && v0.t == past0.steps && LoopInv(sess, detector, v0, past0, at, from0)
    modifies sess`messages, sess`steerBuf, sess`accepted, detector
    ensures GrewByWork(old(sess.messages), sess.messages)
    ensures RequestOk(env, at.opening, NudgedAt(env, n), sent)
    ensures UsersFrom(sent.messages, |at.opening|) == UsersFrom(old(sess.messages), at.base)
    ensures Asked(sess, detector, env, v, n, stop, past, at, from)
    ensures v0.retries <= v.retries <= v0.retries + 1 && (v0.retries < v.retries ==> v.retries <= MAX_OUTPUT_LIMIT_RETRIES)
  {
    v, sent := NextRequest(sess, env, v0, env.nudges(n), past0, at);
    ghost var past1 := NudgedAt(env, n);
    var dead := Pause(sess, env, v.messages, v.t, at);
    v := v.(t := v.t + 1);
    if dead {
      past, from, stop := PastAt(env, n + 1), from0, Some(Died);
      DeadAsked(sess, detector, env, v, n, past, past1, at, from);
    } else {
      v, stop, past, from := TakeResult(sess, detector, env, v, n, at, past1, from0);
    }
  }

  function StartVars(messages: seq<Message>): Vars {
    Vars(messages, Guard(NO_STREAK, 0, 0, false), 2, 0, 0)
  }

  ghost const NO_PAST := Past([], [], [], 0, 2, true)

  lemma {:induction false} LoopStarts(sess: Session, detector: ToolLoopDetector, env: Env, at: Marks)
    requires Settled(sess, at.opening, at) && at.base == |sess.messages| && detector.Valid() && detector.seen == []
    ensures Stands(sess, detector, env, StartVars(at.opening), [], None, NO_PAST, at, 0)
  {
  }

  /** n requests, all but the last gone on from, which stops the turn. */
  lemma {:induction false} RunStops(env: Env, n: nat, end: Ending)
    requires env.configured && n < env.limit + DropsBefore(env, n) && end != Capped(false)
    requires WentOn(env, n) && Stops(env, n, end)
    ensures RunsAs(env, n + 1, end)
  {
  }

  /** After the requests sent so far: ready for the next one, or stopped. */
  ghost predicate Stands(sess: Session, detector: ToolLoopDetector, env: Env, v: Vars, requests: seq<Request>,
                         stop: Option<Ending>,
                         past: Past, at: Marks, from: nat)
    reads sess, detector
  {
    || (stop.None? && (|requests| > 0 ==> env.configured) && RequestsOk(env, at.opening, requests)
        && SteersStand(env, at.opening, requests, sess.messages, at.base)
        && past == PastAt(env, |requests|) && v.t == past.steps && LoopInv(sess, detector, v, past, at, from))
    || (stop.Some? && RequestsOk(env, at.opening, requests) && RunsAs(env, |requests|, stop.value)
        && SteersStand(env, at.opening, requests, sess.messages, at.base)
        && LoopLeft(sess, env, v, |requests|, stop.value, at))
  }

  lemma {:induction false} PassGoesOn(sess: Session, detector: ToolLoopDetector, env: Env, v: Vars,
                                      requests: seq<Request>,
                                      past: Past, at: Marks, from: nat)
    requires env.configured && requests != [] && RequestsOk(env, at.opening, requests)
    requires SteersStand(env, at.opening, requests, sess.messages, at.base)
    requires Asked(sess, detector, env, v, |requests| - 1, None, past, at, from)
    ensures Stands(sess, detector, env, v, requests, None, past, at, from)
  {
  }

  lemma {:induction false} PassStops(sess: Session, detector: ToolLoopDetector, env: Env, v: Vars,
                                     requests: seq<Request>, n: nat,
                                     stop: Ending, past: Past, at: Marks, from: nat)
    requires env.configured && |requests| == n + 1 && RequestsOk(env, at.opening, requests)
    requires SteersStand(env, at.opening, requests, sess.messages, at.base)
    requires WentOn(env, n) && n < env.limit + DropsBefore(env, n)
    requires Asked(sess, detector, env, v, n, Some(stop), past, at, from)
    ensures Stands(sess, detector, env, v, requests, Some(stop), past, at, from)
  {
    StopsOnly(sess, detector, env, v, n, stop, past, at, from);
    RunStops(env, n, stop);
  }

  lemma {:induction false} StopsOnly(sess: Session, detector: ToolLoopDetector, env: Env, v: Vars, n: nat,
                                     stop: Ending, past: Past, at: Marks, from: nat)
    requires Asked(sess, detector, env, v, n, Some(stop), past, at, from)
    ensures Stops(env, n, stop) && LoopLeft(sess, env, v, n + 1, stop, at) && stop != Capped(false)
  {
  }

  lemma {:induction false} PassStands(sess: Session, detector: ToolLoopDetector, env: Env, v: Vars,
                                      requests: seq<Request>, sent: Request,
                                      stop: Option<Ending>, past0: Past, past: Past, at: Marks, from: nat,
                                      h: seq<Message>)
    requires env.configured && RequestsOk(env, at.opening, requests) && past0 == PastAt(env, |requests|)
    requires SteersStand(env, at.opening, requests, h, at.base) && at.base <= |h| && GrewByWork(h, sess.messages)
    requires WorkFrom(h, at.base) == past0.said && UsersFrom(sent.messages, |at.opening|) == UsersFrom(h, at.base)
    requires past0.wentOn && |requests| < env.limit + past0.drops
    requires RequestOk(env, at.opening, NudgedAt(env, |requests|), sent) && Asked(sess, detector, env, v, |requests|, stop, past, at, from)
    ensures Stands(sess, detector, env, v, requests + [sent], stop, past, at, from)
  {
    RequestsOkStep(env, at.opening, requests, sent);
    SteersNext(env, at.opening, requests, sent, h, sess.messages, at.base);
    if stop.Some? {
      PassStops(sess, detector, env, v, requests + [sent], |requests|, stop.value, past, at, from);
    } else {
      PassGoesOn(sess, detector, env, v, requests + [sent], past, at, from);
    }
  }

  /** What the loop knows when it asks. */
  lemma {:induction false} StandsReady(sess: Session, detector: ToolLoopDetector, env: Env, v: Vars,
                                       requests: seq<Request>,
                                       past: Past, at: Marks, from: nat)
    requires Stands(sess, detector, env, v, requests, None, past, at, from)
    ensures RequestsOk(env, at.opening, requests) && past == PastAt(env, |requests|)
    ensures LoopInv(sess, detector, v, past, at, from) && past.wentOn && past.drops == v.retries && past.steps == v.t
    ensures SteersStand(env, at.opening, requests, sess.messages, at.base)
    ensures at.base <= |sess.messages| && WorkFrom(sess.messages, at.base) == past.said
  {
  }

  /** With no provider nothing was asked, and everything said so far is in the history. */
  lemma {:induction false} LoopUnconfigured(sess: Session, detector: ToolLoopDetector, env: Env, v: Vars,
                                            requests: seq<Request>,
                                            past: Past, at: Marks, from: nat)
    requires Stands(sess, detector, env, v, requests, None, past, at, from) && !env.configured
    ensures Stands(sess, detector, env, v, requests, Some(NotConfigured), past, at, from)
  {
  }

  /** Out of rounds: everything said so far is in the history. */
  lemma {:induction false} LoopCapped(sess: Session, detector: ToolLoopDetector, env: Env, v: Vars,
                                      requests: seq<Request>,
                                      past: Past, at: Marks, from: nat)
    requires Stands(sess, detector, env, v, requests, None, past, at, from)
    requires |requests| > 0 && |requests| == env.limit + v.retries
    ensures Stands(sess, detector, env, v, requests, Some(Capped(false)), past, at, from)
  {
    StandsReady(sess, detector, env, v, requests, past, at, from);
    RunCapped(env, |requests|);
  }

  lemma {:induction false} RunCapped(env: Env, n: nat)
    requires n > 0 && env.configured && n == env.limit + DropsBefore(env, n) && WentOn(env, n)
    ensures RunsAs(env, n, Capped(false))
  {
  }

  /** One pass of the loop with its request recorded. */
  method LoopPass(sess: Session, detector: ToolLoopDetector, env: Env, v0: Vars, requests0: seq<Request>,
                  ghost at: Marks, ghost past0: Past, ghost from0: nat)
    returns (v: Vars, requests: seq<Request>, stop: Option<Ending>, ghost past: Past, ghost from: nat)
    requires Wellbehaved(env) && env.configured && |requests0| < env.limit + v0.retries
    requires Stands(sess, detector, env, v0, requests0, None, past0, at, from0)
    modifies sess`messages, sess`steerBuf, sess`accepted, detector
    ensures old(sess.messages) <= sess.messages && |requests| == |requests0| + 1
    ensures Stands(sess, detector, env, v, requests, stop, past, at, from)
    ensures v0.retries <= v.retries <= v0.retries + 1 && (v0.retries < v.retries ==> v.retries <= MAX_OUTPUT_LIMIT_RETRIES)
  {
    StandsReady(sess, detector, env, v0, requests0, past0, at, from0);
    var sent;
    v, sent, stop, past, from := AskModel(sess, detector, env, v0, |requests0|, at, past0, from0);
    PassStands(sess, detector, env, v, requests0, sent, stop, past0, past, at, from, old(sess.messages));
    requests := requests0 + [sent];
  }

  /** The tool loop. */
  method ReActLoop(sess: Session, detector: ToolLoopDetector, env: Env, messages0: seq<Message>, ghost at: Marks)
    returns (v: Vars, requests: seq<Request>, end: Ending, ghost past: Past, ghost from: nat)
    requires Wellbehaved(env) && Stands(sess, detector, env, StartVars(messages0), [], None, NO_PAST, at, 0)
    modifies sess`messages, sess`steerBuf, sess`accepted, detector
    ensures old(sess.messages) <= sess.messages
    ensures Stands(sess, detector, env, v, requests, Some(end), past, at, from)
  {
    v, requests, past, from := StartVars(messages0), [], NO_PAST, 0;
    var i := 0;
    while i < env.limit
      invariant i <= env.limit && |requests| == i + v.retries && v.retries <= MAX_OUTPUT_LIMIT_RETRIES
      invariant old(sess.messages) <= sess.messages
      invariant Stands(sess, detector, env, v, requests, None, past, at, from)
      decreases (env.limit - i) + (MAX_OUTPUT_LIMIT_RETRIES - v.retries)
    {
      if !env.configured {
        LoopUnconfigured(sess, detector, env, v, requests, past, at, from);
        return v, requests, NotConfigured, past, from;
      }
      var retries := v.retries;
      var stop;
      v, requests, stop, past, from := LoopPass(sess, detector, env, v, requests, at, past, from);
      if stop.Some? {
        return v, requests, stop.value, past, from;
      }
      // A dropped reply does not use up a tool round.
      if v.retries == retries {
        i := i + 1;
      }
    }
    LoopCapped(sess, detector, env, v, requests, past, at, from);
    end := Capped(false);
  }

  /** The forced final call, tools disabled, after the loop was cut off. */
  method FinalDelivery(sess: Session, env: Env, messages0: seq<Message>, t: nat, ghost n: nat, end: Ending,
                       ghost at: Marks)
    returns (final: Request)
    requires Wellbehaved(env) && Settled(sess, messages0, at) && end.Capped?
    requires WorkFrom(sess.messages, at.base) == WorkFrom(messages0, |at.opening|) == SaidBefore(env, n)
    requires t == StepsBefore(env, n) && TalkFrom(messages0, |at.opening|) == TalkBefore(env, n)
    modifies sess`messages, sess`steerBuf, sess`accepted
    ensures GrewByWork(old(sess.messages), sess.messages) && Leavable(sess, at.base)
    ensures FinalOk(env, at.opening, n, end.looped, final)
    ensures UsersFrom(final.messages, |at.opening|) == UsersFrom(old(sess.messages), at.base)
    ensures WorkLeft(env, n, end, WorkFrom(sess.messages, at.base))
  {
    var note := [Plain(System, env.nudge(end.looped))];
    NotesUnmoved(messages0, |at.opening|, note);
    final := Request(messages0 + note, false);
    var dead := Pause(sess, env, messages0, t, at);
    if dead {
      return;
    }
    var _ := AppendBoth(sess, messages0, Plain(Assistant, FinalText(env, end.looped)), at);
  }

  // ----- the whole turn

  /** No turn is active and nothing is buffered. */
  ghost predicate Idle(sess: Session)
    reads sess
  {
    sess.turnDepth == 0 && sess.steerBuf == []
  }

  /** The history compaction leaves, with the user's message in it. */
  function OpenedWith(h: seq<Message>, user: Message, env: Env): seq<Message> {
    Compacted(h + [user], env.summarise)
  }

  lemma {:induction false} OpeningPaired(h: seq<Message>, user: Message, env: Env)
    requires user.role == User && Paired(h)
    ensures Paired(h + [user]) && Paired(OpenedWith(h, user, env))
  {
    PairedExtend(h, [user]);
    CompactedPaired(h + [user], env.summarise);
  }

  /** The history is replaced when compaction has changed it. */
  method ReplaceCompacted(sess: Session, summarise: Summariser)
    modifies sess`messages
    ensures sess.messages == Compacted(old(sess.messages), summarise)
  {
    var compact, pruned := CompactMessages(sess.messages, summarise);
    if pruned {
      sess.ReplaceMessages(compact);
    }
  }

  /** Compaction, before any drain: the history is replaced by the compacted one. */
  method CompactHistory(sess: Session, env: Env)
    requires UserOnly(sess.steerBuf) && sess.steerBuf == sess.accepted
    modifies sess`messages
    ensures sess.messages == Compacted(old(sess.messages), env.summarise)
    ensures Ledger(sess.messages, |sess.messages|, sess.steerBuf, sess.accepted)
  {
    ReplaceCompacted(sess, env.summarise);
  }

  /** The first request's messages: the preamble and the history with its recent images. */
  function FirstMessages(h: seq<Message>, env: Env): seq<Message> {
    env.preamble + Recent(h)
  }

  lemma {:induction false} FirstMessagesPaired(h: seq<Message>, env: Env)
    requires Wellbehaved(env) && Paired(h)
    ensures Paired(FirstMessages(h, env))
  {
    RecentPaired(h);
    PairedInert(env.preamble);
    PairedConcat(env.preamble, Recent(h));
  }

  /** Steers arrive before the first drain; the turn may die. */
  method WaitFirst(sess: Session, env: Env, t: nat) returns (dead: bool)
    requires Wellbehaved(env) && sess.turnDepth > 0 && UserOnly(sess.steerBuf) && sess.steerBuf == sess.accepted
    modifies sess`steerBuf, sess`accepted
    ensures UserOnly(sess.steerBuf) && sess.steerBuf == sess.accepted && dead == env.dies(t)
  {
    dead := Step(sess, env, t);
  }

  /** The user's message and compaction; true when the turn dies first. */
  method OpenTurn(sess: Session, user: Message, env: Env) returns (dead: bool)
    requires Wellbehaved(env) && user.role == User
    requires sess.turnDepth > 0 && sess.steerBuf == sess.accepted == []
    modifies sess`messages, sess`steerBuf, sess`accepted
    ensures dead <==> env.dies(0) || env.dies(1)
    ensures sess.messages == if env.dies(0) then old(sess.messages)
                             else if env.dies(1) then old(sess.messages) + [user]
                             else OpenedWith(old(sess.messages), user, env)
    ensures Ledger(sess.messages, |sess.messages|, sess.steerBuf, sess.accepted)
  {
    dead := WaitFirst(sess, env, 0);
    if !dead {
      sess.Append(user);
      dead := WaitFirst(sess, env, 1);
    }
    if !dead {
      CompactHistory(sess, env);
    }
  }

  lemma {:induction false} SettledAtStart(sess: Session, first: seq<Message>)
    requires sess.turnDepth > 0 && Ledger(sess.messages, |sess.messages|, sess.steerBuf, sess.accepted)
    ensures Settled(sess, first, Marks(|sess.messages|, first)) && Leavable(sess, |sess.messages|)
  {
    PairedInert([]);
  }

  function Sent(requests: seq<Request>, final: Option<Request>): seq<Request> {
    requests + (if final.Some? then [final.value] else [])
  }

  /** A turn that died before it asked anything: the history is as it was, or has the user's message too. */
  ghost predicate DiedAtOnce(env: Env, start: seq<Message>, user: Message, requests: seq<Request>, final: Option<Request>,
                             end: Ending, left: seq<Message>, base: nat)
  {
    && (env.dies(0) || env.dies(1)) && requests == [] && final == None && end == Died && base == |left|
    && left == if env.dies(0) then start else start + [user]
  }

  /** A turn that got to its loop: its requests, its end and the history it leaves, from the compacted one on. */
  ghost predicate Ran(env: Env, start: seq<Message>, user: Message, requests: seq<Request>, final: Option<Request>,
                      end: Ending, left: seq<Message>, base: nat)
  {
    && !env.dies(0) && !env.dies(1) && base <= |left| && left[..base] == OpenedWith(start, user, env)
    && (Paired(left[base..]) || Interrupted(left[base..]))
    && var opening := FirstMessages(OpenedWith(start, user, env), env);
       && RequestsOk(env, opening, requests) && RunsAs(env, |requests|, end)
       && (final.Some? <==> end.Capped?)
       && (final.Some? ==> FinalOk(env, opening, |requests|, end.looped, final.value))
       && SteersStand(env, opening, Sent(requests, final), left, base)
       && WorkLeft(env, |requests|, end, WorkFrom(left, base))
  }

  /** How a turn goes. */
  ghost predicate TurnOk(env: Env, start: seq<Message>, user: Message, requests: seq<Request>, final: Option<Request>,
                         end: Ending, left: seq<Message>, base: nat)
  {
    || DiedAtOnce(env, start, user, requests, final, end, left, base)
    || Ran(env, start, user, requests, final, end, left, base)
  }

  /** The loop, and the final delivery when the loop hit its cap. */
  method LoopAndDeliver(sess: Session, env: Env, first: seq<Message>, ghost at: Marks)
    returns (requests: seq<Request>, final: Option<Request>, end: Ending, t: nat)
    requires Wellbehaved(env) && Settled(sess, first, at) && first == at.opening && at.base == |sess.messages|
    modifies sess`messages, sess`steerBuf, sess`accepted
    ensures old(sess.messages) <= sess.messages && Leavable(sess, at.base)
    ensures RequestsOk(env, at.opening, requests) && RunsAs(env, |requests|, end)
    ensures final.Some? <==> end.Capped?
    ensures final.Some? ==> FinalOk(env, at.opening, |requests|, end.looped, final.value)
    ensures SteersStand(env, at.opening, Sent(requests, final), sess.messages, at.base)
    ensures WorkLeft(env, |requests|, end, WorkFrom(sess.messages, at.base))
  {
    var detector := new ToolLoopDetector();
    LoopStarts(sess, detector, env, at);
    var v;
    ghost var past, from;
    v, requests, end, past, from := ReActLoop(sess, detector, env, first, at);
    t := v.t;
    final := None;
    if end.Capped? {
      ghost var h := sess.messages;
      var f := FinalDelivery(sess, env, v.messages, t, |requests|, end, at);
      SteersNext(env, at.opening, requests, f, h, sess.messages, at.base);
      final, t := Some(f), t + 1;
    } else {
      assert requests + [] == requests;
    }
  }

  /** Between BeginTurn and the deferred cleanups. */
  method TurnBody(sess: Session, user: Message, env: Env)
    returns (requests: seq<Request>, final: Option<Request>, end: Ending, t: nat, ghost base: nat)
    requires Wellbehaved(env) && user.role == User
    requires sess.turnDepth > 0 && sess.steerBuf == sess.accepted == []
    modifies sess`messages, sess`steerBuf, sess`accepted
    ensures Leavable(sess, base)
    ensures TurnOk(env, old(sess.messages), user, requests, final, end, sess.messages, base)
  {
    requests, final, end, t := [], None, Died, 2;
    var dead := OpenTurn(sess, user, env);
    ghost var begun := sess.messages;
    base := |begun|;
    assert begun[..base] == begun && begun[base..] == [];
    var first := env.preamble;
    if dead {
      SettledAtStart(sess, []);
      return;
    }
    var recent := ModelMessagesWithRecentImages(sess.messages);
    first := first + recent;
    SettledAtStart(sess, first);
    requests, final, end, t := LoopAndDeliver(sess, env, first, Marks(base, first));
    assert sess.messages[..base] == begun;
  }

  /** Steers still buffered when the turn ends go to the history. */
  method FlushLeftoverSteer(sess: Session)
    requires sess.turnDepth == 1
    modifies sess`messages, sess`turnDepth, sess`steerBuf
    ensures Idle(sess) && sess.messages == old(sess.messages) + old(sess.steerBuf)
  {
    var leftover := sess.EndTurn();
    assert leftover + [] == leftover;
    ghost var h := sess.messages;
    for j := 0 to |leftover|
      invariant sess.messages == h + leftover[..j]
      invariant sess.turnDepth == 0 && sess.steerBuf == []
    {
      assert leftover[..j + 1] == leftover[..j] + [leftover[j]];
      sess.Append(leftover[j]);
    }
    assert leftover[..|leftover|] == leftover;
  }

  /**
   * The deferred cleanups, in order: padding settles the history, then the flush. Steers are still
   * accepted before, between and until the flush ends the turn; they follow the pads.
   */
  method CloseTurn(sess: Session, env: Env, t: nat, ghost base: nat) returns (ghost leftover: seq<Message>)
    requires Wellbehaved(env) && sess.turnDepth == 1 && Leavable(sess, base)
    modifies sess`messages, sess`turnDepth, sess`steerBuf, sess`accepted
    ensures Idle(sess) && sess.messages == Padded(old(sess.messages)) + leftover
    ensures leftover == old(sess.steerBuf) + env.arrivals(t) + env.arrivals(t + 1) && UserOnly(leftover)
    ensures sess.accepted == old(sess.accepted) + env.arrivals(t) + env.arrivals(t + 1)
    ensures UsersFrom(sess.messages, base) == sess.accepted
  {
    LedgerArrive(sess.messages, base, sess.steerBuf, sess.accepted, env.arrivals(t));
    var _ := Step(sess, env, t);
    LedgerPadded(sess.messages, base, sess.steerBuf, sess.accepted);
    sess.PadOrphanToolResults();
    LedgerArrive(sess.messages, base, sess.steerBuf, sess.accepted, env.arrivals(t + 1));
    var _ := Step(sess, env, t + 1);
    leftover := sess.steerBuf;
    LedgerDrain(sess.messages, base, sess.steerBuf, sess.accepted);
    FlushLeftoverSteer(sess);
  }

  lemma {:induction false} LedgerPadded(h: seq<Message>, base: nat, buf: seq<Message>, accepted: seq<Message>)
    requires Ledger(h, base, buf, accepted)
    ensures Ledger(Padded(h), base, buf, accepted)
  {
    PadsAreTools(h);
    PickedNone(h, base, {User}, Pads(h));
  }

  /** What the turn leaves is paired exactly when the ids of the latest calls were usable. */
  lemma {:induction false} ClosedPairedIff(left: seq<Message>, base: nat, leftover: seq<Message>)
    requires base <= |left| && Paired(left[..base]) && UserOnly(leftover)
    requires Paired(left[base..]) || Interrupted(left[base..])
    ensures Paired(Padded(left) + leftover) <==> UsableIdsIn(left)
  {
    InterruptedWhole(left, base);
    PadSettlesIff(left);
    if UsableIdsIn(left) {
      PairedExtend(Padded(left), leftover);
    }
    if Paired(Padded(left) + leftover) {
      PairedBefore(Padded(left), leftover);
    }
  }

  ghost predicate AllPaired(requests: seq<Request>) {
    forall r :: 0 <= r < |requests| ==> Paired(requests[r].messages)
  }

  lemma {:induction false} RequestsPaired(env: Env, opening: seq<Message>, requests: seq<Request>)
    requires Paired(opening) && RequestsOk(env, opening, requests)
    ensures AllPaired(requests)
  {
    forall r | 0 <= r < |requests| ensures Paired(requests[r].messages) {
      RequestsOkAt(env, opening, requests, r);
      PairedAfter(opening, requests[r].messages);
    }
  }

  lemma {:induction false} PairedAfter(opening: seq<Message>, h: seq<Message>)
    requires Paired(opening) && opening <= h && PairedFrom(h, |opening|)
    ensures Paired(h)
  {
    assert h[..|opening|] == opening;
    PairedFromWhole(h, |opening|);
  }

  lemma {:induction false} SentPaired(env: Env, opening: seq<Message>, requests: seq<Request>, final: Option<Request>,
                                      looped: bool)
    requires Paired(opening) && RequestsOk(env, opening, requests)
    requires final.Some? ==> FinalOk(env, opening, |requests|, looped, final.value)
    ensures AllPaired(Sent(requests, final))
  {
    RequestsPaired(env, opening, requests);
    if final.Some? {
      PairedAfter(opening, final.value.messages);
    }
  }

  /**
   * A turn on a paired history sends only paired requests, whatever ids the provider gives, and what
   * it leaves is paired exactly when the ids of the latest calls are usable.
   */
  lemma {:induction false} TurnPairs(env: Env, start: seq<Message>, user: Message, requests: seq<Request>,
                                     final: Option<Request>,
                                     end: Ending, left: seq<Message>, base: nat, leftover: seq<Message>)
    requires Wellbehaved(env) && user.role == User && Paired(start) && UserOnly(leftover)
    requires TurnOk(env, start, user, requests, final, end, left, base)
    ensures AllPaired(Sent(requests, final))
    ensures Paired(Padded(left) + leftover) <==> UsableIdsIn(left)
  {
    OpeningPaired(start, user, env);
    if DiedAtOnce(env, start, user, requests, final, end, left, base) {
      PairedInert([]);
      assert left[..base] == left && left[base..] == [];
    } else {
      FirstMessagesPaired(OpenedWith(start, user, env), env);
      SentPaired(env, FirstMessages(OpenedWith(start, user, env), env), requests, final, end.Capped? && end.looped);
    }
    ClosedPairedIff(left, base, leftover);
  }

  /**
   * A whole turn, from any history. The replies and the tools alone decide how it runs (TurnOk), and
   * every steer accepted while it ran is in the history once, in arrival order, after what the turn
   * opened with. Each request holds the steers that the history has before the reply to it. Started from
   * a paired history it sends paired requests only, and leaves a paired history exactly when the ids of the
   * latest calls are usable.
   */
  method HandleMessage(sess: Session, user: Message, env: Env)
    returns (requests: seq<Request>, final: Option<Request>, end: Ending,
             ghost left: seq<Message>, ghost base: nat, ghost leftover: seq<Message>)
    requires Wellbehaved(env) && Idle(sess) && user.role == User
    modifies sess`messages, sess`turnDepth, sess`steerBuf, sess`accepted
    ensures Idle(sess) && sess.snapshot == old(sess.snapshot)
    ensures TurnOk(env, old(sess.messages), user, requests, final, end, left, base)
    ensures |requests| <= env.limit + MAX_OUTPUT_LIMIT_RETRIES
    ensures sess.messages == Padded(left) + leftover && UserOnly(leftover)
    ensures UsersFrom(sess.messages, base) == sess.accepted
    ensures Paired(old(sess.messages)) ==>
              && AllPaired(Sent(requests, final))
              && (Paired(sess.messages) <==> UsableIdsIn(left))
  {
    sess.BeginTurn();
    var t;
    requests, final, end, t, base := TurnBody(sess, user, env);
    left := sess.messages;
    leftover := CloseTurn(sess, env, t, base);
    if Paired(old(sess.messages)) {
      TurnPairs(env, old(sess.messages), user, requests, final, end, left, base, leftover);
    }
  }
}
