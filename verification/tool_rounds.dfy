/** One tool round: calls matched to results by id, the guards fed, and steers folded in, for any tools. */
module ToolRounds {
  import opened Wrappers
  import opened Messages
  import opened Sessions
  import opened Text
  import opened Compaction
  import opened Guards

  datatype Reply = Reply(content: string, calls: seq<ToolCall>, truncated: bool)

  datatype ModelResult = Answer(reply: Reply) | Canceled | Error(fallback: string)

  // What the tool executor returned: any ids, in any order, with any missing.
  datatype SdkResult = SdkResult(isError: bool, error: string, texts: seq<string>)
  datatype ToolResponse = ToolResponse(id: string, result: Option<SdkResult>, err: Option<string>)

  datatype CallResult = CallResult(id: string, name: string, text: string, err: Option<string>)

  /**
   * Everything a turn does not decide itself, indexed by call, round or step. quote gives the line of a
   * result that stands for its missing error text; guarded is the streaming loop's form, which reads an
   * error's text only where there is an error. nudge, fallback and notice word the end of a turn that was cut
   * off, by a loop or else by the cap; stopNote words why tools are withheld.
   */
  datatype Env = Env(
    limit: nat, maxParallel: nat, configured: bool, guarded: bool, preamble: seq<Message>,
    summarise: Summariser, present: string -> string, quote: string -> string,
    nudges: nat -> seq<Message>, model: nat -> ModelResult, tools: nat -> seq<ToolResponse>,
    endsTurn: nat -> bool, stopNote: StopReason -> string, final: Option<string>,
    nudge: bool -> string, fallback: bool -> string, notice: bool -> string,
    arrivals: nat -> seq<Message>, dies: nat -> bool)

  ghost predicate SystemOnly(s: seq<Message>) {
    forall j :: 0 <= j < |s| ==> s[j].role == System
  }

  ghost predicate UserOnly(s: seq<Message>) {
    forall j :: 0 <= j < |s| ==> s[j].role == User
  }

  /** What the loop relies on: the roles of injected messages, and room for one round. */
  ghost predicate Wellbehaved(env: Env) {
    && env.limit >= 1 && SystemOnly(env.preamble)
    && (forall n :: SystemOnly(env.nudges(n)))
    && (forall n :: UserOnly(env.arrivals(n)))
  }

  /** The turn dies at one of the n steps from `from` on. */
  predicate DiesWithin(env: Env, from: nat, n: nat) {
    n > 0 && (DiesWithin(env, from, n - 1) || env.dies(from + n - 1))
  }

  lemma {:induction false} DiesMore(env: Env, from: nat, a: nat, b: nat)
    requires a <= b && DiesWithin(env, from, a)
    ensures DiesWithin(env, from, b)
    decreases b
  {
    if a < b {
      DiesMore(env, from, a, b - 1);
    }
  }

  lemma {:induction false} DiesSplit(env: Env, from: nat, n: nat)
    ensures DiesWithin(env, from, n + 1) <==> env.dies(from) || DiesWithin(env, from + 1, n)
  {
    if n > 0 {
      DiesSplit(env, from, n - 1);
    }
  }

  datatype Ending =
    | Died | Panicked | NotConfigured | ModelCanceled | ModelFailed | EmptyReply | Done | EndedByTool
    | Capped(looped: bool)

  // ----- matching executor responses to calls by id

  function LastResponse(rs: seq<ToolResponse>, id: string): (o: Option<ToolResponse>)
    ensures o.Some? ==> o.value in rs && o.value.id == id
    ensures o.None? ==> forall r :: r in rs ==> r.id != id
  {
    if rs == [] then None
    else if rs[|rs| - 1].id == id then Some(rs[|rs| - 1])
    else LastResponse(rs[..|rs| - 1], id)
  }

  const NO_RESULT: string := "tool execution did not return a result (sandbox or executor failure — check gateway logs)"
  const DEFERRED: string := "Deferred — over this turn's parallel-tool cap; re-issue this exact call next round if you still need it"

  function JoinNonEmpty(texts: seq<string>): string {
    if texts == [] then ""
    else
      var before, t := JoinNonEmpty(texts[..|texts| - 1]), texts[|texts| - 1];
      if t == "" then before else if before == "" then t else before + "\n" + t
  }

  function Converted(call: ToolCall, o: Option<ToolResponse>): CallResult {
    match o
    case None => CallResult(call.id, call.name, NO_RESULT, Some("no response from executor for tool_use " + call.id))
    case Some(r) =>
      if r.result.Some? && r.result.value.isError then
        var s := r.result.value;
        var text := if s.error == "" && s.texts != [] then s.texts[0] else s.error;
        CallResult(call.id, call.name, text + "\n" + RETRY_HINT, Some(text))
      else
        CallResult(call.id, call.name, if r.result.Some? then JoinNonEmpty(r.result.value.texts) else "", r.err)
  }

  // ----- what a response becomes, told from the response alone

  /** The i-th picked text starts at at[i]; a newline and the next one follow it, or the end. */
  predicate LineAt(texts: seq<string>, picks: seq<nat>, at: seq<nat>, text: string, i: nat)
    requires i < |picks| == |at|
  {
    && picks[i] < |texts|
    && var end := at[i] + |texts[picks[i]]|;
       && end <= |text| && text[at[i]..end] == texts[picks[i]]
       && if i + 1 < |picks| then at[i + 1] == end + 1 && end < |text| && text[end] == '\n' else end == |text|
  }

  /** text is the picked texts in order, on lines of their own. */
  ghost predicate Lines(texts: seq<string>, picks: seq<nat>, at: seq<nat>, text: string) {
    && |at| == |picks| && (if picks == [] then text == "" else at[0] == 0)
    && forall i :: 0 <= i < |picks| ==> LineAt(texts, picks, at, text, i)
  }

  /** text is the non-empty blocks, each once and in order, on lines of their own. */
  ghost predicate BlocksOnLines(texts: seq<string>, text: string) {
    exists picks: seq<nat>, at: seq<nat> :: Selects(texts, NonEmpty, picks) && Lines(texts, picks, at, text)
  }

  /** Response k is the last one to this call. */
  predicate LastFor(call: ToolCall, rs: seq<ToolResponse>, k: nat) {
    k < |rs| && rs[k].id == call.id && forall j :: k < j < |rs| ==> rs[j].id != call.id
  }

  /** What a response says: on success its blocks and its own error; on failure the error and the hint to retry. */
  ghost predicate Tells(r: ToolResponse, result: CallResult) {
    match r.result
    case None => result.text == "" && result.err == r.err
    case Some(s) =>
      if !s.isError then BlocksOnLines(s.texts, result.text) && result.err == r.err
      else
        && result.text == (if s.error != "" then s.error else if s.texts != [] then s.texts[0] else "")
                          + "\n" + "[Analyze the error above and try a different approach.]"
        && result.err == Some(if s.error != "" then s.error else if s.texts != [] then s.texts[0] else "")
  }

  /** The result of a call: what its last response says, or that there was none. */
  ghost predicate ResultOf(call: ToolCall, rs: seq<ToolResponse>, result: CallResult) {
    && result.id == call.id && result.name == call.name
    && ((exists k: nat :: LastFor(call, rs, k) && Tells(rs[k], result))
        || ((forall k :: 0 <= k < |rs| ==> rs[k].id != call.id) && result.err.Some? && result.text == NO_RESULT))
  }

  lemma LinesMore(texts: seq<string>, picks: seq<nat>, at: seq<nat>, text: string, t: string)
    requires Lines(texts, picks, at, text)
    ensures var more := if picks == [] then t else text + "\n" + t;
            Lines(texts + [t], picks + [|texts|], at + [|more| - |t|], more)
  {
    var more := if picks == [] then t else text + "\n" + t;
    var wider, picks', at' := texts + [t], picks + [|texts|], at + [|more| - |t|];
    assert LineAt(wider, picks', at', more, |picks|);
    forall i | 0 <= i < |picks|
      ensures LineAt(wider, picks', at', more, i)
    {
      assert LineAt(texts, picks, at, text, i);
      var end := at[i] + |texts[picks[i]]|;
      assert more[at[i]..end] == text[at[i]..end];
    }
  }

  lemma LinesWider(texts: seq<string>, picks: seq<nat>, at: seq<nat>, text: string, t: string)
    requires Lines(texts, picks, at, text)
    ensures Lines(texts + [t], picks, at, text)
  {
    forall i | 0 <= i < |picks|
      ensures LineAt(texts + [t], picks, at, text, i)
    {
      assert LineAt(texts, picks, at, text, i);
    }
  }

  lemma {:induction false} JoinOnLines(texts: seq<string>) returns (picks: seq<nat>, at: seq<nat>)
    ensures Selects(texts, NonEmpty, picks) && Lines(texts, picks, at, JoinNonEmpty(texts))
    ensures JoinNonEmpty(texts) == "" <==> picks == []
  {
    if texts == [] {
      picks, at := [], [];
    } else {
      var front, t := texts[..|texts| - 1], texts[|texts| - 1];
      picks, at := JoinOnLines(front);
      assert texts == front + [t];
      picks, at := JoinOneMore(front, t, picks, at, JoinNonEmpty(front));
    }
  }

  lemma {:induction false} JoinOneMore(front: seq<string>, t: string, picks0: seq<nat>, at0: seq<nat>, before: string)
    returns (picks: seq<nat>, at: seq<nat>)
    requires Selects(front, NonEmpty, picks0) && Lines(front, picks0, at0, before) && (before == "" <==> picks0 == [])
    ensures var text := if t == "" then before else if before == "" then t else before + "\n" + t;
            Selects(front + [t], NonEmpty, picks) && Lines(front + [t], picks, at, text) && (text == "" <==> picks == [])
  {
    SelectsMore(front, NonEmpty, picks0, t);
    if t != "" {
      LinesMore(front, picks0, at0, before, t);
      var text := if before == "" then t else before + "\n" + t;
      picks, at := picks0 + [|front|], at0 + [|text| - |t|];
    } else {
      LinesWider(front, picks0, at0, before, t);
      picks, at := picks0, at0;
    }
  }

  predicate NonEmpty(t: string) {
    t != ""
  }

  lemma {:induction false} LastResponseAt(rs: seq<ToolResponse>, call: ToolCall) returns (k: nat)
    requires LastResponse(rs, call.id).Some?
    ensures LastFor(call, rs, k) && rs[k] == LastResponse(rs, call.id).value
  {
    k := |rs| - 1;
    if rs[k].id != call.id {
      k := LastResponseAt(rs[..k], call);
    }
  }

  lemma {:induction false} ResponseTells(call: ToolCall, r: ToolResponse)
    ensures Tells(r, Converted(call, Some(r)))
  {
    if r.result.Some? && !r.result.value.isError {
      var picks, at := JoinOnLines(r.result.value.texts);
      assert BlocksOnLines(r.result.value.texts, JoinNonEmpty(r.result.value.texts));
    }
  }

  lemma {:induction false} ConvertedTells(call: ToolCall, rs: seq<ToolResponse>)
    ensures ResultOf(call, rs, Converted(call, LastResponse(rs, call.id)))
  {
    if LastResponse(rs, call.id).Some? {
      var k := LastResponseAt(rs, call);
      ResponseTells(call, rs[k]);
    }
  }

  /** Every result of a round: within the cap what the call's last response says, past it that it is deferred. */
  lemma {:induction false} ResultsTell(env: Env, calls: seq<ToolCall>, k: nat, j: nat)
    requires j < |calls|
    ensures if env.maxParallel > 0 && j >= env.maxParallel
            then Results(env, calls, k)[j] == CallResult(calls[j].id, calls[j].name, DEFERRED, None)
            else ResultOf(calls[j], env.tools(k), Results(env, calls, k)[j])
  {
    ConvertedTells(calls[j], env.tools(k));
  }

  /** One result per call, in call order: each call gets the last response that carries its id. */
  method ExecuteToolsConcurrently(calls: seq<ToolCall>, responses: seq<ToolResponse>)
    returns (results: seq<CallResult>)
    ensures |results| == |calls|
    ensures forall j :: 0 <= j < |calls| ==> results[j] == Converted(calls[j], LastResponse(responses, calls[j].id))
    ensures forall j :: 0 <= j < |calls| ==> ResultOf(calls[j], responses, results[j])
  {
    var byId: map<string, ToolResponse> := map[];
    for k := 0 to |responses|
      invariant forall id :: id in byId <==> LastResponse(responses[..k], id).Some?
      invariant forall id :: id in byId ==> LastResponse(responses[..k], id) == Some(byId[id])
    {
      assert responses[..k + 1][..k] == responses[..k];
      byId := byId[responses[k].id := responses[k]];
    }
    assert responses[..|responses|] == responses;
    results := [];
    for j := 0 to |calls|
      invariant |results| == j
      invariant forall m :: 0 <= m < j ==> results[m] == Converted(calls[m], LastResponse(responses, calls[m].id))
    {
      var found := if calls[j].id in byId then Some(byId[calls[j].id]) else None;
      results := results + [Converted(calls[j], found)];
    }
    forall j | 0 <= j < |calls|
      ensures ResultOf(calls[j], responses, results[j])
    {
      ConvertedTells(calls[j], responses);
    }
  }

  /** The result of call j of a round: run, or deferred past the parallel cap. */
  function RoundResult(calls: seq<ToolCall>, cap: nat, responses: seq<ToolResponse>, j: nat): CallResult
    requires j < |calls|
  {
    if cap > 0 && j >= cap then CallResult(calls[j].id, calls[j].name, DEFERRED, None)
    else Converted(calls[j], LastResponse(responses, calls[j].id))
  }

  /** The calls past the cap get a synthetic result, so every call has one. */
  method RoundResults(calls: seq<ToolCall>, cap: nat, responses: seq<ToolResponse>) returns (results: seq<CallResult>)
    ensures |results| == |calls|
    ensures forall j :: 0 <= j < |calls| ==> results[j] == RoundResult(calls, cap, responses, j)
  {
    var executed := if cap > 0 && |calls| > cap then cap else |calls|;
    results := ExecuteToolsConcurrently(calls[..executed], responses);
    for j := executed to |calls|
      invariant |results| == j
      invariant forall m :: 0 <= m < j ==> results[m] == RoundResult(calls, cap, responses, m)
    {
      results := results + [CallResult(calls[j].id, calls[j].name, DEFERRED, None)];
    }
  }

  /** The results of the calls of round k, in call order. */
  function Results(env: Env, calls: seq<ToolCall>, k: nat): (results: seq<CallResult>)
    ensures |results| == |calls|
  {
    seq(|calls|, j requires 0 <= j < |calls| => RoundResult(calls, env.maxParallel, env.tools(k), j))
  }

  // ----- the steer ledger

  /** Past base, the history's user messages and the buffer are the accepted steers, in order. */
  ghost predicate Ledger(h: seq<Message>, base: nat, buf: seq<Message>, accepted: seq<Message>) {
    base <= |h| && UsersFrom(h, base) + buf == accepted && UserOnly(buf)
  }

  lemma LedgerPlain(h: seq<Message>, base: nat, buf: seq<Message>, accepted: seq<Message>, m: Message)
    requires Ledger(h, base, buf, accepted) && m.role != User
    ensures Ledger(h + [m], base, buf, accepted)
  {
    PickedStep(h, base, {User}, m);
  }

  lemma {:induction false} LedgerDrain(h: seq<Message>, base: nat, buf: seq<Message>, accepted: seq<Message>)
    requires Ledger(h, base, buf, accepted)
    ensures Ledger(h + buf, base, [], accepted)
    ensures UsersFrom(h + buf, base) == accepted
  {
    PickedAll(h, base, {User}, buf);
  }

  lemma LedgerArrive(h: seq<Message>, base: nat, buf: seq<Message>, accepted: seq<Message>, more: seq<Message>)
    requires Ledger(h, base, buf, accepted) && UserOnly(more)
    ensures Ledger(h, base, buf + more, accepted + more)
  {
    assert UsersFrom(h, base) + (buf + more) == (UsersFrom(h, base) + buf) + more;
  }

  /** Between two effects of the turn, steers may arrive and the turn may die. */
  method Step(sess: Session, env: Env, t: nat) returns (dead: bool)
    requires sess.turnDepth > 0
    modifies sess`steerBuf, sess`accepted
    ensures sess.steerBuf == old(sess.steerBuf) + env.arrivals(t)
    ensures sess.accepted == old(sess.accepted) + env.arrivals(t)
    ensures dead == env.dies(t)
  {
    var more := env.arrivals(t);
    for j := 0 to |more|
      invariant sess.steerBuf == old(sess.steerBuf) + more[..j]
      invariant sess.accepted == old(sess.accepted) + more[..j]
    {
      assert more[..j + 1] == more[..j] + [more[j]];
      var _ := sess.PushSteerIfActive(more[j]);
    }
    assert more[..|more|] == more;
    dead := env.dies(t);
  }

  // ----- one tool round

  datatype RoundEnd = RoundDied | RoundPanicked | RoundDone(looped: bool)

  /** What the guards see of one result. */
  function Observed(env: Env, call: ToolCall, r: CallResult): Observation {
    var text := env.present(r.text);
    Observation(call, text, IsFailedToolResult(r.err, text), Summary(env, r.err, text))
  }

  function Summary(env: Env, err: Option<string>, content: string): string {
    var s := if err.Some? then err.value else "";
    if s == "" || s == "<nil>" then env.quote(content) else s
  }

  function ToolMessage(env: Env, call: ToolCall, r: CallResult): Message {
    Message(Tool, env.present(r.text), [], [], call.id, r.name, false)
  }

  function ObservedAll(env: Env, calls: seq<ToolCall>, results: seq<CallResult>, n: nat): seq<Observation>
    requires n <= |calls| == |results|
  {
    seq(n, j requires 0 <= j < n => Observed(env, calls[j], results[j]))
  }

  function ToolMessages(env: Env, calls: seq<ToolCall>, results: seq<CallResult>, n: nat): seq<Message>
    requires n <= |calls| == |results|
  {
    seq(n, j requires 0 <= j < n => ToolMessage(env, calls[j], results[j]))
  }

  /** The observations of round k, all of its results being processed. */
  function RoundOf(env: Env, calls: seq<ToolCall>, k: nat): seq<Observation> {
    ObservedAll(env, calls, Results(env, calls, k), |calls|)
  }

  /** What round k adds to the history: the reply that calls, then the results. */
  function RoundWork(env: Env, reply: Reply, k: nat): seq<Message> {
    [AssistantCalls(reply)] + ToolMessages(env, reply.calls, Results(env, reply.calls, k), |reply.calls|)
  }

  function AssistantCalls(reply: Reply): Message {
    Message(Assistant, reply.content, [], reply.calls, "", "", false)
  }

  /** Reading the error text of this result kills the turn: it failed by its content alone. */
  predicate PanicsAt(env: Env, call: ToolCall, r: CallResult) {
    !env.guarded && r.err.None? && Observed(env, call, r).failed
  }

  /** The first result to do so from i on, |results| when there is none. */
  function FirstPanic(env: Env, calls: seq<ToolCall>, results: seq<CallResult>, i: nat): (p: nat)
    requires i <= |calls| == |results|
    ensures i <= p <= |results|
    decreases |calls| - i
  {
    if i == |calls| || PanicsAt(env, calls[i], results[i]) then i else FirstPanic(env, calls, results, i + 1)
  }

  /** No result before the first one does so, and that one does. */
  lemma {:induction false} FirstPanicMeaning(env: Env, calls: seq<ToolCall>, results: seq<CallResult>, i: nat, j: nat)
    requires i <= j < |calls| == |results| && j <= FirstPanic(env, calls, results, i)
    ensures PanicsAt(env, calls[j], results[j]) <==> j == FirstPanic(env, calls, results, i)
    decreases j - i
  {
    if i < j {
      FirstPanicMeaning(env, calls, results, i + 1, j);
    }
  }

  /** The steps of round k up to the first result whose reading kills the turn: one, and one for each result. */
  function RoundSteps(env: Env, calls: seq<ToolCall>, k: nat): nat {
    1 + FirstPanic(env, calls, Results(env, calls, k), 0)
  }

  /** Reading the results of round k kills the turn. */
  predicate Panics(env: Env, calls: seq<ToolCall>, k: nat) {
    FirstPanic(env, calls, Results(env, calls, k), 0) < |calls|
  }

  lemma ToolMessagesAnswer(env: Env, calls: seq<ToolCall>, results: seq<CallResult>, n: nat)
    requires n <= |calls| == |results|
    requires forall j :: 0 <= j < |calls| ==> results[j].name == calls[j].name
    ensures AnswersFirst(ToolMessages(env, calls, results, n), calls)
  {
  }

  /**
   * One result goes to the session, the request and the guards. A result that failed by its
   * content alone has no error to quote: unless that is guarded, reading it kills the turn before the
   * result is recorded.
   */
  method ProcessResult(sess: Session, detector: ToolLoopDetector, env: Env, call: ToolCall, r: CallResult,
                       messages0: seq<Message>, streak0: Streak, failedCalls0: nat, t: nat, ghost base: nat)
    returns (messages: seq<Message>, streak: Streak, failedCalls: nat, detected: bool, end: Option<RoundEnd>)
    requires Wellbehaved(env) && sess.turnDepth > 0 && r.name == call.name
    requires Ledger(sess.messages, base, sess.steerBuf, sess.accepted)
    requires detector.Valid()
    modifies sess`messages, sess`steerBuf, sess`accepted, detector
    ensures Ledger(sess.messages, base, sess.steerBuf, sess.accepted)
    ensures end == Some(RoundPanicked) <==> PanicsAt(env, call, r)
    ensures end == Some(RoundDied) <==> !PanicsAt(env, call, r) && env.dies(t)
    ensures end == Some(RoundPanicked) ==>
              && sess.messages == old(sess.messages) && messages == messages0
              && streak == streak0 && failedCalls == failedCalls0
              && detector.Valid() && detector.seen == old(detector.seen)
    ensures end.None? || end.value in {RoundDied, RoundPanicked}
    ensures end != Some(RoundPanicked) ==>
              && sess.messages == old(sess.messages) + [ToolMessage(env, call, r)]
              && messages == messages0 + [ToolMessage(env, call, r)]
              && var o := Observed(env, call, r);
              && streak == UpdateStreak(streak0, o.call.name, o.failed, o.summary)
              && failedCalls == failedCalls0 + (if o.failed then 1 else 0)
              && detector.Valid() && detector.seen == old(detector.seen) + [Sig(o.call, o.result)]
              && (detected <==> Run(detector.seen) >= LOOP_THRESHOLD)
  {
    messages, streak, failedCalls, detected := messages0, streak0, failedCalls0, false;
    var content := env.present(r.text);
    var failed := IsFailedToolResult(r.err, content);
    if failed {
      if r.err.None? && !env.guarded {
        end := Some(RoundPanicked);
        return;
      }
      failedCalls := failedCalls + 1;
      streak := UpdateStreak(streak, r.name, true, Summary(env, r.err, content));
    } else {
      streak := UpdateStreak(streak, r.name, false, "");
    }
    var toolMsg := Message(Tool, content, [], [], call.id, r.name, false);
    LedgerPlain(sess.messages, base, sess.steerBuf, sess.accepted, toolMsg);
    sess.Append(toolMsg);
    messages := messages + [toolMsg];
    detected := detector.Observe(call, content);
    LedgerArrive(sess.messages, base, sess.steerBuf, sess.accepted, env.arrivals(t));
    var dead := Step(sess, env, t);
    end := if dead then Some(RoundDied) else None;
  }

  lemma {:induction false} LoopsInStep(seen: seq<Signature>, round: seq<Signature>, s: Signature)
    ensures LoopsIn(seen, round + [s]) <==> LoopsIn(seen, round) || Run(seen + round + [s]) >= LOOP_THRESHOLD
  {
    var all := round + [s];
    assert all[..|all|] == all && seen + all == seen + round + [s];
    assert forall j :: 1 <= j <= |round| ==> all[..j] == round[..j];
  }

  lemma ObservedAllStep(env: Env, calls: seq<ToolCall>, results: seq<CallResult>, n: nat)
    requires n < |calls| == |results|
    ensures ObservedAll(env, calls, results, n + 1) == ObservedAll(env, calls, results, n) + [Observed(env, calls[n], results[n])]
    ensures ToolMessages(env, calls, results, n + 1) == ToolMessages(env, calls, results, n) + [ToolMessage(env, calls[n], results[n])]
  {
  }

  /** What the guards hold after the first n results of a round that followed `before`. */
  ghost predicate Tally(before: seq<Observation>, part: seq<Observation>, streak: Streak, failedCalls: nat,
                        allFailed: bool) {
    && streak == StreakOf(before + part) && failedCalls == FailedCalls(before + part)
    && (allFailed <==> forall j :: 0 <= j < |part| ==> part[j].failed)
  }

  lemma TallyStep(before: seq<Observation>, part: seq<Observation>, streak: Streak, failedCalls: nat, allFailed: bool,
                  o: Observation)
    requires Tally(before, part, streak, failedCalls, allFailed)
    ensures Tally(before, part + [o], UpdateStreak(streak, o.call.name, o.failed, o.summary),
                  failedCalls + (if o.failed then 1 else 0), allFailed && o.failed)
  {
    assert before + (part + [o]) == before + part + [o];
    StreakStep(before + part, o);
    if forall j :: 0 <= j < |part + [o]| ==> (part + [o])[j].failed {
      assert forall j :: 0 <= j < |part| ==> part[j] == (part + [o])[j];
      assert (part + [o])[|part|].failed;
    }
  }

  // Where a round stands after n results: everything the loop changes, as values.
  datatype Progress = Progress(history: seq<Message>, messages: seq<Message>, streak: Streak, failedCalls: nat,
                               allFailed: bool, seen: seq<Signature>, looped: bool)

  /** The first n results have been processed, from start on: none yet, or all that follows from them. */
  ghost predicate SoFar(env: Env, calls: seq<ToolCall>, results: seq<CallResult>, n: nat,
                        before: seq<Observation>, start: Progress, now: Progress)
    requires n <= |calls| == |results|
  {
    || (n == 0 && now == start)
    || (n > 0 && Processed(env, calls, results, n, before, start, now))
  }

  ghost predicate Processed(env: Env, calls: seq<ToolCall>, results: seq<CallResult>, n: nat,
                            before: seq<Observation>, start: Progress, now: Progress)
    requires n <= |calls| == |results|
  {
    Moved(ObservedAll(env, calls, results, n), ToolMessages(env, calls, results, n), before, start, now)
  }

  /** The observations and messages of part of a round have moved start to now. */
  ghost predicate Moved(part: seq<Observation>, msgs: seq<Message>, before: seq<Observation>, start: Progress,
                        now: Progress) {
    && now.history == start.history + msgs && now.messages == start.messages + msgs
    && Tally(before, part, now.streak, now.failedCalls, now.allFailed)
    && now.seen == start.seen + Sigs(part)
    && (now.looped <==> LoopsIn(start.seen, Sigs(part)))
  }

  ghost predicate StartOk(before: seq<Observation>, start: Progress) {
    start.allFailed && !start.looped && start.streak == StreakOf(before) && start.failedCalls == FailedCalls(before)
  }

  lemma {:induction false} SoFarMeaning(env: Env, calls: seq<ToolCall>, results: seq<CallResult>, n: nat,
                                        before: seq<Observation>, start: Progress, now: Progress)
    requires n <= |calls| == |results| && StartOk(before, start) && SoFar(env, calls, results, n, before, start, now)
    ensures Processed(env, calls, results, n, before, start, now)
  {
    if n == 0 {
      assert before + ObservedAll(env, calls, results, 0) == before;
    }
  }

  /** What one more result changes. */
  ghost predicate NextIs(o: Observation, m: Message, now: Progress, next: Progress) {
    && next.history == now.history + [m] && next.messages == now.messages + [m]
    && next.streak == UpdateStreak(now.streak, o.call.name, o.failed, o.summary)
    && next.failedCalls == now.failedCalls + (if o.failed then 1 else 0)
    && next.allFailed == (now.allFailed && o.failed)
    && next.seen == now.seen + [Sig(o.call, o.result)]
    && next.looped == (now.looped || Run(next.seen) >= LOOP_THRESHOLD)
  }

  lemma SigsStep(part: seq<Observation>, o: Observation)
    ensures Sigs(part + [o]) == Sigs(part) + [Sig(o.call, o.result)]
  {
  }

  lemma {:induction false} MovedStep(part: seq<Observation>, msgs: seq<Message>, o: Observation, m: Message,
                                     before: seq<Observation>, start: Progress, now: Progress, next: Progress)
    requires Moved(part, msgs, before, start, now) && NextIs(o, m, now, next)
    ensures Moved(part + [o], msgs + [m], before, start, next)
  {
    TallyStep(before, part, now.streak, now.failedCalls, now.allFailed, o);
    SigsStep(part, o);
    LoopsInStep(start.seen, Sigs(part), Sig(o.call, o.result));
  }

  lemma {:induction false} SoFarStep(env: Env, calls: seq<ToolCall>, results: seq<CallResult>, n: nat,
                                     before: seq<Observation>, start: Progress, now: Progress, next: Progress)
    requires n < |calls| == |results| && StartOk(before, start) && SoFar(env, calls, results, n, before, start, now)
    requires NextIs(Observed(env, calls[n], results[n]), ToolMessage(env, calls[n], results[n]), now, next)
    ensures SoFar(env, calls, results, n + 1, before, start, next)
  {
    SoFarMeaning(env, calls, results, n, before, start, now);
    ObservedAllStep(env, calls, results, n);
    MovedStep(ObservedAll(env, calls, results, n), ToolMessages(env, calls, results, n),
              Observed(env, calls[n], results[n]), ToolMessage(env, calls[n], results[n]), before, start, now, next);
  }

  /** After n results: going on, or stopped by a death or by the first result that cannot be read. */
  predicate Paused(env: Env, calls: seq<ToolCall>, results: seq<CallResult>, t0: nat, n: nat, stop: Option<RoundEnd>)
    requires |calls| == |results|
  {
    var panic := FirstPanic(env, calls, results, 0);
    || (stop == None && n <= panic && !DiesWithin(env, t0, n))
    || (stop == Some(RoundDied) && n <= panic && DiesWithin(env, t0, n))
    || (stop == Some(RoundPanicked) && n == panic < |results| && !DiesWithin(env, t0, n))
  }

  lemma {:induction false} PausedNext(env: Env, calls: seq<ToolCall>, results: seq<CallResult>, t0: nat, n: nat, t: nat,
                                      stop: Option<RoundEnd>)
    requires n < |calls| == |results| && t == t0 + n && Paused(env, calls, results, t0, n, None)
    requires ResultStops(env, calls[n], results[n], t, stop)
    ensures Paused(env, calls, results, t0, After(n, stop), stop)
  {
    FirstPanicMeaning(env, calls, results, 0, n);
  }

  /** What one result, processed at step t, does to the turn. */
  predicate ResultStops(env: Env, call: ToolCall, r: CallResult, t: nat, stop: Option<RoundEnd>) {
    || (PanicsAt(env, call, r) && stop == Some(RoundPanicked))
    || (!PanicsAt(env, call, r) && env.dies(t) && stop == Some(RoundDied))
    || (!PanicsAt(env, call, r) && !env.dies(t) && stop == None)
  }

  /** A result that kills the turn is not processed. */
  function After(n: nat, stop: Option<RoundEnd>): nat {
    if stop == Some(RoundPanicked) then n else n + 1
  }

  /** One more result of a round, with what the guards make of it. */
  method NextResult(sess: Session, detector: ToolLoopDetector, env: Env, calls: seq<ToolCall>,
                    results: seq<CallResult>, n: nat,
                    messages0: seq<Message>, streak0: Streak, failedCalls0: nat, allFailed0: bool, looped0: bool, t: nat,
                    ghost base: nat, ghost before: seq<Observation>, ghost start: Progress)
    returns (messages: seq<Message>, streak: Streak, failedCalls: nat, allFailed: bool, looped: bool, stop: Option<RoundEnd>)
    requires Wellbehaved(env) && sess.turnDepth > 0 && n < |results| == |calls| && results[n].name == calls[n].name
    requires Ledger(sess.messages, base, sess.steerBuf, sess.accepted) && detector.Valid()
    requires SoFar(env, calls, results, n, before, start,
                   Progress(sess.messages, messages0, streak0, failedCalls0, allFailed0, detector.seen, looped0))
    requires StartOk(before, start)
    modifies sess`messages, sess`steerBuf, sess`accepted, detector
    ensures Ledger(sess.messages, base, sess.steerBuf, sess.accepted)
    ensures detector.Valid()
    ensures ResultStops(env, calls[n], results[n], t, stop)
    ensures SoFar(env, calls, results, After(n, stop), before, start,
                  Progress(sess.messages, messages, streak, failedCalls, allFailed, detector.seen, looped))
  {
    ghost var now := Progress(sess.messages, messages0, streak0, failedCalls0, allFailed0, detector.seen, looped0);
    var detected;
    messages, streak, failedCalls, detected, stop :=
      ProcessResult(sess, detector, env, calls[n], results[n], messages0, streak0, failedCalls0, t, base);
    looped, allFailed := looped0, allFailed0;
    if stop != Some(RoundPanicked) {
      looped := looped || detected;
      allFailed := allFailed && IsFailedToolResult(results[n].err, env.present(results[n].text));
      ghost var next := Progress(sess.messages, messages, streak, failedCalls, allFailed, detector.seen, looped);
      SoFarStep(env, calls, results, n, before, start, now, next);
    }
  }

  /** One more result, and whether the round pauses there. */
  method OneResult(sess: Session, detector: ToolLoopDetector, env: Env, calls: seq<ToolCall>,
                   results: seq<CallResult>, n: nat,
                   messages0: seq<Message>, streak0: Streak, failedCalls0: nat, allFailed0: bool, looped0: bool, t: nat,
                   ghost t0: nat, ghost base: nat, ghost before: seq<Observation>, ghost start: Progress)
    returns (messages: seq<Message>, streak: Streak, failedCalls: nat, allFailed: bool, looped: bool, stop: Option<RoundEnd>)
    requires Wellbehaved(env) && sess.turnDepth > 0 && n < |results| == |calls| && results[n].name == calls[n].name
    requires Ledger(sess.messages, base, sess.steerBuf, sess.accepted) && detector.Valid()
    requires SoFar(env, calls, results, n, before, start,
                   Progress(sess.messages, messages0, streak0, failedCalls0, allFailed0, detector.seen, looped0))
    requires StartOk(before, start) && t == t0 + n && Paused(env, calls, results, t0, n, None)
    modifies sess`messages, sess`steerBuf, sess`accepted, detector
    ensures Ledger(sess.messages, base, sess.steerBuf, sess.accepted) && detector.Valid()
    ensures Paused(env, calls, results, t0, After(n, stop), stop)
    ensures SoFar(env, calls, results, After(n, stop), before, start,
                  Progress(sess.messages, messages, streak, failedCalls, allFailed, detector.seen, looped))
  {
    messages, streak, failedCalls, allFailed, looped, stop :=
      NextResult(sess, detector, env, calls, results, n, messages0, streak0, failedCalls0, allFailed0, looped0, t,
                 base, before, start);
    PausedNext(env, calls, results, t0, n, t, stop);
  }

  /** Appends the results of a round one by one to the session and to the request; n were processed. */
  method ProcessResults(sess: Session, detector: ToolLoopDetector, env: Env, calls: seq<ToolCall>,
                        results: seq<CallResult>,
                        messages0: seq<Message>, streak0: Streak, failedCalls0: nat, t0: nat,
                        ghost base: nat, ghost before: seq<Observation>, ghost start: Progress)
    returns (messages: seq<Message>, streak: Streak, failedCalls: nat, allFailed: bool, end: RoundEnd, looped: bool, t: nat, n: nat)
    requires Wellbehaved(env) && sess.turnDepth > 0
    requires |results| == |calls| && forall j :: 0 <= j < |results| ==> results[j].name == calls[j].name
    requires Ledger(sess.messages, base, sess.steerBuf, sess.accepted)
    requires detector.Valid() && streak0 == StreakOf(before) && failedCalls0 == FailedCalls(before)
    requires start == Progress(sess.messages, messages0, streak0, failedCalls0, true, detector.seen, false)
    modifies sess`messages, sess`steerBuf, sess`accepted, detector
    ensures Ledger(sess.messages, base, sess.steerBuf, sess.accepted)
    ensures n <= |results| && t == t0 + n && detector.Valid()
    ensures SoFar(env, calls, results, n, before, start,
                  Progress(sess.messages, messages, streak, failedCalls, allFailed, detector.seen, looped))
    ensures Paused(env, calls, results, t0, n, if end.RoundDone? then None else Some(end))
    ensures end.RoundDone? ==> n == |results| && end.looped == looped
  {
    messages, streak, failedCalls, allFailed, looped, t, n := messages0, streak0, failedCalls0, true, false, t0, 0;
    var stop := None;
    while n < |results| && stop.None?
      invariant n <= |results| && t == t0 + n && detector.Valid()
      invariant SoFar(env, calls, results, n, before, start,
                      Progress(sess.messages, messages, streak, failedCalls, allFailed, detector.seen, looped))
      invariant Ledger(sess.messages, base, sess.steerBuf, sess.accepted)
      invariant Paused(env, calls, results, t0, n, stop)
      decreases |results| - n, stop.None?
    {
      messages, streak, failedCalls, allFailed, looped, stop :=
        OneResult(sess, detector, env, calls, results, n, messages, streak, failedCalls, allFailed, looped, t,
                  t0, base, before, start);
      t, n := t0 + After(n, stop), After(n, stop);
    }
    end := if stop.Some? then stop.value else RoundDone(looped);
  }

  lemma {:induction false} FlatStep(rounds: seq<seq<Observation>>, round: seq<Observation>)
    ensures Flat(rounds + [round]) == Flat(rounds) + round
    ensures FlatSigs(rounds + [round]) == FlatSigs(rounds) + Sigs(round)
    ensures FailedRounds(rounds + [round]) == if AllFailed(round) then FailedRounds(rounds) + 1 else 0
  {
    assert (rounds + [round])[..|rounds|] == rounds;
  }

  /** The history p, then a calling message, then the first n results: cut off, or whole when n is all. */
  lemma {:induction false} CutOffRound(env: Env, p: seq<Message>, asst: Message, results: seq<CallResult>, n: nat)
    requires Paired(p) && Calling(asst)
    requires n <= |results| == |asst.calls|
    requires forall j :: 0 <= j < |results| ==> results[j].name == asst.calls[j].name
    ensures var h := p + Round(asst, ToolMessages(env, asst.calls, results, n));
            && Interrupted(h) && (n == |results| ==> Paired(h))
  {
    var res := ToolMessages(env, asst.calls, results, n);
    ToolMessagesAnswer(env, asst.calls, results, n);
    assert CutOff(p, asst, res);
    if n == |results| {
      PairedRound(asst, res);
      PairedConcat(p, Round(asst, res));
    }
  }

  // ----- guards over rounds

  datatype Guard = Guard(streak: Streak, failedRounds: nat, failedCalls: nat, warned: bool)

  ghost predicate GuardOk(g: Guard, rounds: seq<seq<Observation>>) {
    && g.streak == StreakOf(Flat(rounds))
    && g.failedRounds == FailedRounds(rounds)
    && g.failedCalls == FailedCalls(Flat(rounds))
  }

  /** The reason the guards give for withholding tools. */
  function Withholds(g: Guard): StopReason {
    if g.streak.count >= SAME_TOOL_LIMIT then SameTool(g.streak.tool, g.streak.count)
    else if g.failedRounds >= FAILED_ROUNDS_LIMIT then RoundsFailed(g.failedRounds)
    else CallsFailed(g.failedCalls)
  }

  predicate OffersTools(g: Guard) {
    g.streak.count < SAME_TOOL_LIMIT && g.failedRounds < FAILED_ROUNDS_LIMIT && g.failedCalls < FAILED_CALLS_LIMIT
  }

  /** What the detector has seen: everything, or everything since the round after the warning. */
  ghost predicate LoopGuard(rounds: seq<seq<Observation>>, seen: seq<Signature>, warned: bool, from: nat) {
    if warned then WarnedOnce(rounds, from) && seen == FlatSigs(rounds[from..])
    else NoLoop(rounds) && seen == FlatSigs(rounds)
  }

  lemma {:induction false} NoLoopStep(rounds: seq<seq<Observation>>, round: seq<Observation>)
    requires NoLoop(rounds) && !LoopsIn(FlatSigs(rounds), Sigs(round))
    ensures NoLoop(rounds + [round])
  {
    var all := rounds + [round];
    assert all[0..|rounds|] == rounds;
    forall r | 0 <= r < |all| ensures !Detected(all, 0, r) {
      if r < |rounds| {
        DetectedStable(rounds, [round], 0, r);
      }
    }
  }

  lemma WarnedOnceStep(rounds: seq<seq<Observation>>, round: seq<Observation>, from: nat)
    requires WarnedOnce(rounds, from) && !LoopsIn(FlatSigs(rounds[from..]), Sigs(round))
    ensures WarnedOnce(rounds + [round], from)
  {
    var all := rounds + [round];
    assert all[..from - 1] == rounds[..from - 1];
    DetectedStable(rounds, [round], 0, from - 1);
    assert all[from..|rounds|] == rounds[from..];
    forall r | from <= r < |all| ensures !Detected(all, from, r) {
      if r < |rounds| {
        DetectedStable(rounds, [round], from, r);
      }
    }
  }

  lemma LoopGuardQuiet(rounds: seq<seq<Observation>>, round: seq<Observation>, seen: seq<Signature>, warned: bool,
                       from: nat)
    requires LoopGuard(rounds, seen, warned, from) && !LoopsIn(seen, Sigs(round))
    ensures LoopGuard(rounds + [round], seen + Sigs(round), warned, from)
  {
    if warned {
      WarnedOnceStep(rounds, round, from);
      assert (rounds + [round])[from..] == rounds[from..] + [round];
      FlatStep(rounds[from..], round);
    } else {
      NoLoopStep(rounds, round);
      FlatStep(rounds, round);
    }
  }

  lemma LoopGuardWarn(rounds: seq<seq<Observation>>, round: seq<Observation>, seen: seq<Signature>)
    requires LoopGuard(rounds, seen, false, 0) && LoopsIn(seen, Sigs(round))
    ensures LoopGuard(rounds + [round], [], true, |rounds| + 1)
  {
    var all := rounds + [round];
    assert all[0..|rounds|] == rounds && all[..|rounds| + 1 - 1] == rounds;
    assert all[|rounds| + 1..] == [];
  }

  lemma LoopGuardStop(rounds: seq<seq<Observation>>, round: seq<Observation>, seen: seq<Signature>, from: nat)
    requires LoopGuard(rounds, seen, true, from) && LoopsIn(seen, Sigs(round))
    ensures LoopStop(rounds + [round])
  {
    var all := rounds + [round];
    assert all[..|rounds|] == rounds && all[from..|rounds|] == rounds[from..];
    assert StoppedAfter(all, from);
  }

  lemma {:induction false} QuietBefore(rounds: seq<seq<Observation>>, from: nat, r: nat)
    requires WarnedOnce(rounds, from) && r < from - 1
    ensures !Detected(rounds, 0, r)
  {
    DetectedStable(rounds[..from - 1], rounds[from - 1..], 0, r);
    assert rounds == rounds[..from - 1] + rounds[from - 1..];
  }

  lemma {:induction false} WarnedNoEarlier(rounds: seq<seq<Observation>>, a: nat, b: nat)
    requires WarnedOnce(rounds, a) && WarnedOnce(rounds, b)
    ensures a >= b
  {
    if a < b {
      QuietBefore(rounds, b, a - 1);
    }
  }

  /** There is only one first loop. */
  lemma {:induction false} WarnedOnceUnique(rounds: seq<seq<Observation>>, a: nat, b: nat)
    requires WarnedOnce(rounds, a) && WarnedOnce(rounds, b)
    ensures a == b
  {
    WarnedNoEarlier(rounds, a, b);
    WarnedNoEarlier(rounds, b, a);
  }

  /** A round that repeats nothing, or is the first to, is not yet a reason to stop. */
  lemma {:induction false} LoopGuardNoStop(rounds: seq<seq<Observation>>, round: seq<Observation>,
                                           seen: seq<Signature>, warned: bool, from: nat)
    requires LoopGuard(rounds, seen, warned, from) && (warned ==> !LoopsIn(seen, Sigs(round)))
    ensures !LoopStop(rounds + [round])
  {
    var all := rounds + [round];
    assert all[..|all| - 1] == rounds;
    forall f: nat ensures !StoppedAfter(all, f) {
      if f < |all| && WarnedOnce(rounds, f) {
        assert Detected(rounds, 0, f - 1);
        assert warned;
        WarnedOnceUnique(rounds, from, f);
        assert all[from..|rounds|] == rounds[from..];
      }
    }
  }

  const LOOP_WARNING: string := "Loop detected: you called the same tool with the same arguments and received the same result 3 times."

  /**
   * Where a turn's own messages begin: in the history at base, in the request after opening. What
   * follows is paired by itself, whatever the turn started from.
   */
  datatype Marks = Marks(base: nat, opening: seq<Message>)

  /**
   * Session and request are both settled since the marks, they hold the same steers since then, and
   * every steer is accounted for.
   */
  ghost predicate Settled(sess: Session, messages: seq<Message>, at: Marks)
    reads sess
  {
    && sess.turnDepth > 0
    && PairedFrom(sess.messages, at.base) && at.opening <= messages && PairedFrom(messages, |at.opening|)
    && UsersFrom(sess.messages, at.base) == UsersFrom(messages, |at.opening|)
    && Ledger(sess.messages, at.base, sess.steerBuf, sess.accepted)
  }

  /** A history a turn can be left in: settled or cut off since base, and no steer is lost. */
  ghost predicate Leavable(sess: Session, base: nat)
    reads sess
  {
    && sess.turnDepth > 0 && base <= |sess.messages|
    && (Paired(sess.messages[base..]) || Interrupted(sess.messages[base..]))
    && Ledger(sess.messages, base, sess.steerBuf, sess.accepted)
  }

  /** What the work since a position grew by: all of it, or a first part when the turn was cut off. */
  predicate Grew(before: seq<Message>, after: seq<Message>, work: seq<Message>, whole: bool) {
    before <= after <= before + work && (whole ==> after == before + work)
  }

  lemma {:induction false} WorkOfRound(env: Env, h: seq<Message>, base: nat, reply: Reply, results: seq<CallResult>,
                                       n: nat)
    requires base <= |h| && n <= |results| == |reply.calls|
    ensures var work := [AssistantCalls(reply)] + ToolMessages(env, reply.calls, results, |results|);
            Grew(WorkFrom(h, base), WorkFrom(h + [AssistantCalls(reply)] + ToolMessages(env, reply.calls, results, n), base),
                 work, n == |results|)
  {
    var asst, some, all := AssistantCalls(reply), ToolMessages(env, reply.calls, results, n), ToolMessages(env, reply.calls, results, |results|);
    PickedAll(h, base, {Assistant, Tool}, [asst] + some);
    assert h + [asst] + some == h + ([asst] + some);
    assert some == all[..n];
    assert [asst] + some <= [asst] + all;
  }

  lemma {:induction false} TalkOfRound(env: Env, h: seq<Message>, base: nat, reply: Reply, k: nat)
    requires base <= |h|
    ensures TalkFrom(h + RoundWork(env, reply, k), base) == TalkFrom(h, base) + RoundWork(env, reply, k)
  {
    PickedAll(h, base, {Assistant, Tool, System}, RoundWork(env, reply, k));
  }

  /** What one message adds to the work. */
  function Work(m: Message): seq<Message> {
    if m.role == Assistant || m.role == Tool then [m] else []
  }

  lemma {:induction false} WorkUnmoved(h: seq<Message>, base: nat, s: seq<Message>)
    requires base <= |h| && (UserOnly(s) || SystemOnly(s))
    ensures WorkFrom(h + s, base) == WorkFrom(h, base)
  {
    PickedNone(h, base, {Assistant, Tool}, s);
  }

  lemma {:induction false} SteersFold(h: seq<Message>, base: nat, steers: seq<Message>)
    requires PairedFrom(h, base) && UserOnly(steers)
    ensures PairedFrom(h + steers, base) && WorkFrom(h + steers, base) == WorkFrom(h, base)
    ensures UsersFrom(h + steers, base) == UsersFrom(h, base) + steers
  {
    WorkUnmoved(h, base, steers);
    PickedAll(h, base, {User}, steers);
    PairedFromExtend(h, base, steers);
  }

  /** appendSteer over what is drained: each steer goes to the session and to the request. */
  method FoldSteers(sess: Session, messages0: seq<Message>, ghost at: Marks) returns (messages: seq<Message>)
    requires Settled(sess, messages0, at)
    modifies sess`messages, sess`steerBuf
    ensures Settled(sess, messages, at) && sess.steerBuf == []
    ensures sess.messages == old(sess.messages) + old(sess.steerBuf) && messages == messages0 + old(sess.steerBuf)
    ensures WorkFrom(sess.messages, at.base) == WorkFrom(old(sess.messages), at.base)
    ensures WorkFrom(messages, |at.opening|) == WorkFrom(messages0, |at.opening|)
    ensures TalkFrom(messages, |at.opening|) == TalkFrom(messages0, |at.opening|)
  {
    PickedNone(messages0, |at.opening|, {Assistant, Tool, System}, sess.steerBuf);
    LedgerDrain(sess.messages, at.base, sess.steerBuf, sess.accepted);
    SteersFold(sess.messages, at.base, sess.steerBuf);
    SteersFold(messages0, |at.opening|, sess.steerBuf);
    var steer := sess.DrainSteer();
    messages := messages0;
    ghost var h := sess.messages;
    for j := 0 to |steer|
      invariant sess.messages == h + steer[..j] && messages == messages0 + steer[..j]
      invariant sess.steerBuf == []
    {
      assert steer[..j + 1] == steer[..j] + [steer[j]];
      sess.Append(steer[j]);
      messages := messages + [steer[j]];
    }
    assert steer[..|steer|] == steer;
  }

  /** Appends a message that neither calls nor answers to the session and to the request. */
  method AppendBoth(sess: Session, messages0: seq<Message>, m: Message, ghost at: Marks) returns (messages: seq<Message>)
    requires Settled(sess, messages0, at) && m.role != User && Inert([m])
    modifies sess`messages
    ensures Settled(sess, messages, at)
    ensures sess.messages == old(sess.messages) + [m] && messages == messages0 + [m]
    ensures WorkFrom(sess.messages, at.base) == WorkFrom(old(sess.messages), at.base) + Work(m)
    ensures WorkFrom(messages, |at.opening|) == WorkFrom(messages0, |at.opening|) + Work(m)
    ensures TalkFrom(messages, |at.opening|) == TalkFrom(messages0, |at.opening|) + [m]
  {
    PickedStep(messages0, |at.opening|, {Assistant, Tool, System}, m);
    PickedStep(sess.messages, at.base, {Assistant, Tool}, m);
    PickedStep(messages0, |at.opening|, {Assistant, Tool}, m);
    PickedStep(sess.messages, at.base, {User}, m);
    PickedStep(messages0, |at.opening|, {User}, m);
    LedgerPlain(sess.messages, at.base, sess.steerBuf, sess.accepted, m);
    PairedFromExtend(sess.messages, at.base, [m]);
    PairedFromExtend(messages0, |at.opening|, [m]);
    sess.Append(m);
    messages := messages0 + [m];
  }

  /** The calling message goes to the session; then the tools run. */
  method OpenRound(sess: Session, env: Env, asst: Message, t: nat, ghost base: nat) returns (dead: bool)
    requires Wellbehaved(env) && sess.turnDepth > 0 && asst.role == Assistant
    requires Ledger(sess.messages, base, sess.steerBuf, sess.accepted)
    modifies sess`messages, sess`steerBuf, sess`accepted
    ensures sess.messages == old(sess.messages) + [asst] && dead == env.dies(t)
    ensures Ledger(sess.messages, base, sess.steerBuf, sess.accepted)
  {
    LedgerPlain(sess.messages, base, sess.steerBuf, sess.accepted, asst);
    sess.Append(asst);
    LedgerArrive(sess.messages, base, sess.steerBuf, sess.accepted, env.arrivals(t));
    dead := Step(sess, env, t);
  }

  lemma {:induction false} GuardStep(env: Env, calls: seq<ToolCall>, results: seq<CallResult>,
                                     rounds: seq<seq<Observation>>, g: Guard,
                  start: Progress, now: Progress)
    requires |calls| == |results| && calls != [] && GuardOk(g, rounds)
    requires Processed(env, calls, results, |calls|, Flat(rounds), start, now)
    ensures var round := ObservedAll(env, calls, results, |calls|);
            GuardOk(Guard(now.streak, if now.allFailed then g.failedRounds + 1 else 0, now.failedCalls, g.warned), rounds + [round])
  {
    FlatStep(rounds, ObservedAll(env, calls, results, |calls|));
  }

  /** What a round cut off after n results has added to h, seen from base on. */
  lemma {:induction false} RoundAdded(env: Env, h: seq<Message>, base: nat, asst: Message, results: seq<CallResult>,
                                      n: nat)
    requires PairedFrom(h, base) && Calling(asst) && n <= |results| == |asst.calls|
    requires forall j :: 0 <= j < |results| ==> results[j].name == asst.calls[j].name
    ensures var g := h + [asst] + ToolMessages(env, asst.calls, results, n);
            && Interrupted(g[base..]) && (n == |results| ==> Paired(g[base..]))
            && UsersFrom(g, base) == UsersFrom(h, base)
  {
    var res := ToolMessages(env, asst.calls, results, n);
    CutOffRound(env, h[base..], asst, results, n);
    assert (h + [asst] + res)[base..] == h[base..] + Round(asst, res);
    PickedNone(h, base, {User}, [asst] + res);
    assert h + [asst] + res == h + ([asst] + res);
  }

  /** Notes to the model move neither the work nor the steers. */
  lemma {:induction false} NotesUnmoved(h: seq<Message>, base: nat, s: seq<Message>)
    requires PairedFrom(h, base) && SystemOnly(s)
    ensures PairedFrom(h + s, base)
    ensures WorkFrom(h + s, base) == WorkFrom(h, base) && UsersFrom(h + s, base) == UsersFrom(h, base)
    ensures TalkFrom(h + s, base) == TalkFrom(h, base) + s
  {
    PickedAll(h, base, {Assistant, Tool, System}, s);
    PairedFromExtend(h, base, s);
    WorkUnmoved(h, base, s);
    PickedNone(h, base, {User}, s);
  }

  /** What a finished round has done to the guards. */
  ghost predicate GuardsTook(g0: Guard, g: Guard, rounds: seq<seq<Observation>>, round: seq<Observation>,
                             seen0: seq<Signature>, seen: seq<Signature>, looped: bool) {
    && GuardOk(g, rounds + [round]) && g.warned == g0.warned
    && seen == seen0 + Sigs(round) && (looped <==> LoopsIn(seen0, Sigs(round)))
  }

  /** The results of a round go through the guards. */
  method GuardResults(sess: Session, detector: ToolLoopDetector, env: Env, calls: seq<ToolCall>, results: seq<CallResult>,
                      messages0: seq<Message>, g0: Guard, t0: nat, ghost base: nat, ghost rounds: seq<seq<Observation>>)
    returns (messages: seq<Message>, g: Guard, end: RoundEnd, t: nat, n: nat)
    requires Wellbehaved(env) && sess.turnDepth > 0 && calls != []
    requires |results| == |calls| && forall j :: 0 <= j < |results| ==> results[j].name == calls[j].name
    requires Ledger(sess.messages, base, sess.steerBuf, sess.accepted)
    requires detector.Valid() && GuardOk(g0, rounds)
    modifies sess`messages, sess`steerBuf, sess`accepted, detector
    ensures Ledger(sess.messages, base, sess.steerBuf, sess.accepted)
    ensures n <= |results| && (end.RoundDone? ==> n == |results|)
    ensures sess.messages == old(sess.messages) + ToolMessages(env, calls, results, n)
    ensures messages == messages0 + ToolMessages(env, calls, results, n)
    ensures end.RoundDied? <==> DiesWithin(env, t0, FirstPanic(env, calls, results, 0))
    ensures end.RoundPanicked? ==> n == FirstPanic(env, calls, results, 0) < |results|
    ensures end.RoundDone? ==> t == t0 + |calls|
    ensures end.RoundDone? ==>
              && detector.Valid() && FirstPanic(env, calls, results, 0) == |results|
              && GuardsTook(g0, g, rounds, ObservedAll(env, calls, results, n), old(detector.seen), detector.seen, end.looped)
  {
    g := g0;
    ghost var start := Progress(sess.messages, messages0, g.streak, g.failedCalls, true, detector.seen, false);
    var streak, failedCalls, allFailed, looped;
    messages, streak, failedCalls, allFailed, end, looped, t, n := ProcessResults(
      sess, detector, env, calls, results, messages0, g.streak, g.failedCalls, t0, base, Flat(rounds), start);
    if end.RoundDied? {
      DiesMore(env, t0, n, FirstPanic(env, calls, results, 0));
    }
    ghost var now := Progress(sess.messages, messages, streak, failedCalls, allFailed, detector.seen, looped);
    SoFarMeaning(env, calls, results, n, Flat(rounds), start, now);
    if end.RoundDone? {
      GuardStep(env, calls, results, rounds, g, start, now);
      g := Guard(streak, if allFailed then g.failedRounds + 1 else 0, failedCalls, g.warned);
    }
  }

  lemma {:induction false} RoundDies(env: Env, calls: seq<ToolCall>, k: nat, t: nat)
    ensures DiesWithin(env, t, RoundSteps(env, calls, k)) <==>
            env.dies(t) || DiesWithin(env, t + 1, FirstPanic(env, calls, Results(env, calls, k), 0))
  {
    DiesSplit(env, t, FirstPanic(env, calls, Results(env, calls, k), 0));
  }

  /** A history that ends in the first n results of a round can be left. */
  lemma {:induction false} RoundLeaves(sess: Session, env: Env, h: seq<Message>, reply: Reply, k: nat, n: nat, base: nat)
    requires reply.calls != [] && n <= |reply.calls| && PairedFrom(h, base)
    requires sess.turnDepth > 0 && Ledger(sess.messages, base, sess.steerBuf, sess.accepted)
    requires sess.messages == h + [AssistantCalls(reply)] + ToolMessages(env, reply.calls, Results(env, reply.calls, k), n)
    ensures Leavable(sess, base)
  {
    RoundAdded(env, h, base, AssistantCalls(reply), Results(env, reply.calls, k), n);
  }

  /** When all results are in, history and request are settled and hold the same steers, as before. */
  lemma {:induction false} RoundSettles(sess: Session, env: Env, h: seq<Message>, messages: seq<Message>, reply: Reply,
                                        k: nat, at: Marks)
    requires reply.calls != [] && sess.turnDepth > 0 && Ledger(sess.messages, at.base, sess.steerBuf, sess.accepted)
    requires PairedFrom(h, at.base) && at.opening <= messages && PairedFrom(messages, |at.opening|)
    requires UsersFrom(h, at.base) == UsersFrom(messages, |at.opening|)
    requires sess.messages == h + RoundWork(env, reply, k)
    ensures Settled(sess, messages + RoundWork(env, reply, k), at)
  {
    var asst, results, n := AssistantCalls(reply), Results(env, reply.calls, k), |reply.calls|;
    RoundAdded(env, h, at.base, asst, results, n);
    RoundAdded(env, messages, |at.opening|, asst, results, n);
    RoundWhole(env, h, reply, k);
    RoundWhole(env, messages, reply, k);
  }

  /** From a reply with calls to the end of its results, the guards updated; n results were processed. */
  method RunCalls(sess: Session, detector: ToolLoopDetector, env: Env, reply: Reply, index: nat,
                  messages0: seq<Message>, g0: Guard, t0: nat, ghost at: Marks, ghost rounds: seq<seq<Observation>>)
    returns (messages: seq<Message>, g: Guard, end: RoundEnd, t: nat, n: nat)
    requires Wellbehaved(env) && reply.calls != [] && Settled(sess, messages0, at)
    requires detector.Valid() && GuardOk(g0, rounds)
    modifies sess`messages, sess`steerBuf, sess`accepted, detector
    ensures Leavable(sess, at.base) && n <= |reply.calls|
    ensures sess.messages ==
            old(sess.messages) + [AssistantCalls(reply)] + ToolMessages(env, reply.calls, Results(env, reply.calls, index), n)
    ensures end.RoundDied? <==> DiesWithin(env, t0, RoundSteps(env, reply.calls, index))
    ensures end.RoundPanicked? ==> Panics(env, reply.calls, index)
    ensures end.RoundDone? ==> t == t0 + 1 + |reply.calls|
    ensures end.RoundDone? ==>
              && Settled(sess, messages, at) && messages == messages0 + RoundWork(env, reply, index)
              && n == |reply.calls| && !Panics(env, reply.calls, index) && detector.Valid()
              && GuardsTook(g0, g, rounds, RoundOf(env, reply.calls, index), old(detector.seen), detector.seen, end.looped)
  {
    var asst := AssistantCalls(reply);
    messages, g := messages0 + [asst], g0;
    var dead := OpenRound(sess, env, asst, t0, at.base);
    t := t0 + 1;
    var results := RoundResults(reply.calls, env.maxParallel, env.tools(index));
    assert results == Results(env, reply.calls, index);
    n := 0;
    end := RoundDied;
    RoundDies(env, reply.calls, index, t0);
    if !dead {
      messages, g, end, t, n := GuardResults(sess, detector, env, reply.calls, results, messages, g, t, at.base, rounds);
      if end.RoundDone? {
        RoundWhole(env, messages0, reply, index);
        RoundWhole(env, old(sess.messages), reply, index);
        RoundSettles(sess, env, old(sess.messages), messages0, reply, index, at);
      }
    }
    RoundLeaves(sess, env, old(sess.messages), reply, index, n, at.base);
  }

  lemma {:induction false} RoundWhole(env: Env, h: seq<Message>, reply: Reply, k: nat)
    ensures h + [AssistantCalls(reply)] + ToolMessages(env, reply.calls, Results(env, reply.calls, k), |reply.calls|) ==
            h + RoundWork(env, reply, k)
  {
  }

  /** How a round leaves the turn that began it at step t: what ends it, or that nothing does. */
  ghost predicate RoundEnds(env: Env, calls: seq<ToolCall>, index: nat, t: nat, rounds: seq<seq<Observation>>,
                            end: Option<Ending>) {
    var dead, panics := DiesWithin(env, t, RoundSteps(env, calls, index)), Panics(env, calls, index);
    || (dead && end == Some(Died))
    || (!dead && panics && end == Some(Panicked))
    || (!dead && !panics && env.endsTurn(index) && end == Some(EndedByTool))
    || (!dead && !panics && !env.endsTurn(index) && LoopStop(rounds) && end == Some(Capped(true)))
    || (!dead && !panics && !env.endsTurn(index) && !LoopStop(rounds) && end == None)
  }

  /** How the end of a round's results, and what comes after it, end the turn. */
  lemma {:induction false} RoundEndsSo(env: Env, calls: seq<ToolCall>, index: nat, t: nat,
                                       rounds: seq<seq<Observation>>, roundEnd: RoundEnd, end: Option<Ending>)
    requires roundEnd.RoundDied? <==> DiesWithin(env, t, RoundSteps(env, calls, index))
    requires roundEnd.RoundPanicked? ==> Panics(env, calls, index)
    requires roundEnd.RoundDone? ==> !Panics(env, calls, index) && AfterEnds(env, index, rounds, end)
    requires !roundEnd.RoundDone? ==> end == Some(if roundEnd.RoundDied? then Died else Panicked)
    ensures RoundEnds(env, calls, index, t, rounds, end)
  {
  }

  /** What a finished round leads to. */
  ghost predicate AfterEnds(env: Env, index: nat, rounds: seq<seq<Observation>>, end: Option<Ending>) {
    || (env.endsTurn(index) && end == Some(EndedByTool))
    || (!env.endsTurn(index) && LoopStop(rounds) && end == Some(Capped(true)))
    || (!env.endsTurn(index) && !LoopStop(rounds) && end == None)
  }

  lemma PrefixOfPrefix(a: seq<Message>, b: seq<Message>, c: seq<Message>)
    requires a <= b <= c
    ensures a <= c
  {
  }

  /** The first loop is answered with a warning. */
  method Warn(sess: Session, messages0: seq<Message>, ghost at: Marks) returns (messages: seq<Message>)
    requires Settled(sess, messages0, at)
    modifies sess`messages
    ensures Settled(sess, messages, at)
    ensures sess.messages == old(sess.messages) + [Plain(System, LOOP_WARNING)]
    ensures messages == messages0 + [Plain(System, LOOP_WARNING)]
    ensures WorkFrom(sess.messages, at.base) == WorkFrom(old(sess.messages), at.base)
    ensures WorkFrom(messages, |at.opening|) == WorkFrom(messages0, |at.opening|)
    ensures TalkFrom(messages, |at.opening|) == TalkFrom(messages0, |at.opening|) + [Plain(System, LOOP_WARNING)]
  {
    messages := AppendBoth(sess, messages0, Plain(System, LOOP_WARNING), at);
  }

  /** A round's calls and results, and what session and request grew by. */
  method RunRound(sess: Session, detector: ToolLoopDetector, env: Env, reply: Reply, index: nat,
                  messages0: seq<Message>, g0: Guard, t0: nat, ghost at: Marks, ghost rounds: seq<seq<Observation>>)
    returns (messages: seq<Message>, g: Guard, end: RoundEnd, t: nat)
    requires Wellbehaved(env) && reply.calls != [] && Settled(sess, messages0, at)
    requires detector.Valid() && GuardOk(g0, rounds)
    modifies sess`messages, sess`steerBuf, sess`accepted, detector
    ensures Leavable(sess, at.base) && old(sess.messages) + [AssistantCalls(reply)] <= sess.messages
    ensures end.RoundDied? <==> DiesWithin(env, t0, RoundSteps(env, reply.calls, index))
    ensures end.RoundPanicked? ==> Panics(env, reply.calls, index)
    ensures end.RoundDone? ==> t == t0 + 1 + |reply.calls|
    ensures Grew(WorkFrom(old(sess.messages), at.base), WorkFrom(sess.messages, at.base), RoundWork(env, reply, index), end.RoundDone?)
    ensures end.RoundDone? ==>
              && Settled(sess, messages, at) && !Panics(env, reply.calls, index) && detector.Valid()
              && WorkFrom(messages, |at.opening|) == WorkFrom(messages0, |at.opening|) + RoundWork(env, reply, index)
              && TalkFrom(messages, |at.opening|) == TalkFrom(messages0, |at.opening|) + RoundWork(env, reply, index)
              && GuardsTook(g0, g, rounds, RoundOf(env, reply.calls, index), old(detector.seen), detector.seen, end.looped)
  {
    var n;
    messages, g, end, t, n := RunCalls(sess, detector, env, reply, index, messages0, g0, t0, at, rounds);
    WorkOfRound(env, old(sess.messages), at.base, reply, Results(env, reply.calls, index), n);
    if end.RoundDone? {
      WorkOfRound(env, messages0, |at.opening|, reply, Results(env, reply.calls, index), n);
      RoundWhole(env, messages0, reply, index);
      TalkOfRound(env, messages0, |at.opening|, reply, index);
    }
  }

  /** What the model is told after these rounds: that it repeats itself, when the last one is the first to. */
  ghost function Warnings(rounds: seq<seq<Observation>>): seq<Message> {
    if rounds != [] && WarnedOnce(rounds, |rounds|) then [Plain(System, LOOP_WARNING)] else []
  }

  /** After one warning there is no other. */
  lemma {:induction false} WarnedBefore(rounds: seq<seq<Observation>>, round: seq<Observation>, from: nat)
    requires WarnedOnce(rounds, from)
    ensures Warnings(rounds + [round]) == []
  {
    assert (rounds + [round])[..|rounds|] == rounds;
    assert Detected(rounds, 0, from - 1);
  }

  /** After a finished round: it may end the turn, or warn of a loop, and then the steers follow. */
  method AfterRound(sess: Session, detector: ToolLoopDetector, env: Env, index: nat,
                    messages0: seq<Message>, g0: Guard, looped: bool, ghost at: Marks,
                    ghost rounds: seq<seq<Observation>>, ghost round: seq<Observation>, ghost seen: seq<Signature>, ghost from0: nat)
    returns (messages: seq<Message>, g: Guard, end: Option<Ending>, ghost from: nat)
    requires Settled(sess, messages0, at) && detector.Valid() && LoopGuard(rounds, seen, g0.warned, from0)
    requires GuardsTook(g0, g0, rounds, round, seen, detector.seen, looped)
    modifies sess`messages, sess`steerBuf, detector
    ensures Settled(sess, messages, at) && old(sess.messages) <= sess.messages
    ensures WorkFrom(sess.messages, at.base) == WorkFrom(old(sess.messages), at.base)
    ensures WorkFrom(messages, |at.opening|) == WorkFrom(messages0, |at.opening|)
    ensures AfterEnds(env, index, rounds + [round], end)
    ensures end.None? || end.value.Capped? ==>
              TalkFrom(messages, |at.opening|) == TalkFrom(messages0, |at.opening|) + Warnings(rounds + [round])
    ensures end.None? ==>
              && sess.steerBuf == [] && detector.Valid() && GuardOk(g, rounds + [round])
              && LoopGuard(rounds + [round], detector.seen, g.warned, from)
  {
    messages, g, from := messages0, g0, from0;
    if env.endsTurn(index) {
      end := Some(EndedByTool);
      return;
    }
    if g.warned {
      WarnedBefore(rounds, round, from0);
    }
    if looped && g.warned {
      LoopGuardStop(rounds, round, seen, from0);
      end := Some(Capped(true));
      return;
    }
    LoopGuardNoStop(rounds, round, seen, g.warned, from0);
    if looped {
      LoopGuardWarn(rounds, round, seen);
      from := |rounds| + 1;
      g := g.(warned := true);
      detector.Reset();
      messages := Warn(sess, messages, at);
    } else {
      LoopGuardQuiet(rounds, round, seen, g.warned, from0);
    }
    messages := FoldSteers(sess, messages, at);
    end := None;
  }

  /** Unless the turn has ended without another request, the request has grown by the round's work and warnings. */
  ghost predicate RoundIn(sess: Session, messages: seq<Message>, messages0: seq<Message>, work: seq<Message>,
                          warnings: seq<Message>, at: Marks, end: Option<Ending>)
    reads sess
  {
    || (end.Some? && !end.value.Capped?)
    || (Settled(sess, messages, at)
        && WorkFrom(messages, |at.opening|) == WorkFrom(messages0, |at.opening|) + work
        && TalkFrom(messages, |at.opening|) == TalkFrom(messages0, |at.opening|) + work + warnings)
  }

  /**
   * A whole tool round: the next model call follows unless `end` is set. Session and request grow by
   * the reply and the results of this very round, and the guards by their observations.
   */
  method ToolRound(sess: Session, detector: ToolLoopDetector, env: Env, reply: Reply, index: nat,
                   messages0: seq<Message>, g0: Guard, t0: nat,
                   ghost at: Marks, ghost rounds0: seq<seq<Observation>>, ghost from0: nat)
    returns (messages: seq<Message>, g: Guard, end: Option<Ending>, t: nat, ghost from: nat)
    requires Wellbehaved(env) && reply.calls != [] && Settled(sess, messages0, at)
    requires detector.Valid() && GuardOk(g0, rounds0) && LoopGuard(rounds0, detector.seen, g0.warned, from0)
    modifies sess`messages, sess`steerBuf, sess`accepted, detector
    ensures old(sess.messages) <= sess.messages && Leavable(sess, at.base)
    ensures RoundEnds(env, reply.calls, index, t0, rounds0 + [RoundOf(env, reply.calls, index)], end)
    ensures end.None? || end.value.Capped? ==> t == t0 + 1 + |reply.calls|
    ensures old(sess.messages) + [AssistantCalls(reply)] <= sess.messages
    ensures Grew(WorkFrom(old(sess.messages), at.base), WorkFrom(sess.messages, at.base), RoundWork(env, reply, index),
                 end != Some(Died) && end != Some(Panicked))
    ensures RoundIn(sess, messages, messages0, RoundWork(env, reply, index),
                    Warnings(rounds0 + [RoundOf(env, reply.calls, index)]), at, end)
    ensures end.None? ==>
              var rounds := rounds0 + [RoundOf(env, reply.calls, index)];
              detector.Valid() && GuardOk(g, rounds) && LoopGuard(rounds, detector.seen, g.warned, from)
  {
    ghost var seen, round := detector.seen, RoundOf(env, reply.calls, index);
    var roundEnd;
    from := from0;
    messages, g, roundEnd, t := RunRound(sess, detector, env, reply, index, messages0, g0, t0, at, rounds0);
    ghost var ran := sess.messages;
    if roundEnd.RoundDone? {
      messages, g, end, from :=
        AfterRound(sess, detector, env, index, messages, g, roundEnd.looped, at, rounds0, round, seen, from0);
    } else {
      end := Some(if roundEnd.RoundDied? then Died else Panicked);
    }
    PrefixOfPrefix(old(sess.messages) + [AssistantCalls(reply)], ran, sess.messages);
    RoundEndsSo(env, reply.calls, index, t0, rounds0 + [round], roundEnd, end);
  }
}
