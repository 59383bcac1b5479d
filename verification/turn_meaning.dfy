/**
 * What a turn's history says, told from the provider's replies and the executor's responses: the results
 * that each call of a round gets, and the last word for each way a turn can end.
 */
module TurnMeaning {
  import opened Wrappers
  import opened Messages
  import opened Text
  import opened Compaction
  import opened ImageContext
  import opened ToolRounds
  import opened TurnLoop

  /** The answer to a call of round k: what its last response says, or that it was put off or got none. */
  ghost predicate AnswersCall(env: Env, call: ToolCall, k: nat, j: nat, m: Message) {
    && m.role == Tool && m.callId == call.id && m.name == call.name && m.calls == []
    && exists result: CallResult :: m.content == env.present(result.text) &&
         if env.maxParallel > 0 && j >= env.maxParallel then result == CallResult(call.id, call.name, DEFERRED, None)
         else ResultOf(call, env.tools(k), result)
  }

  /** The reply that calls, as the provider gave it, then one answer to each of its calls, in call order. */
  ghost predicate RoundTold(env: Env, reply: Reply, k: nat, work: seq<Message>) {
    && |work| == 1 + |reply.calls| && work[0] == Message(Assistant, reply.content, [], reply.calls, "", "", false)
    && forall j :: 0 <= j < |reply.calls| ==> AnswersCall(env, reply.calls[j], k, j, work[1 + j])
  }

  lemma {:induction false} RoundWorkTells(env: Env, reply: Reply, k: nat)
    ensures RoundTold(env, reply, k, RoundWork(env, reply, k))
  {
    var work, results := RoundWork(env, reply, k), Results(env, reply.calls, k);
    forall j | 0 <= j < |reply.calls|
      ensures AnswersCall(env, reply.calls[j], k, j, work[1 + j])
    {
      MessageTells(env, reply.calls, k, j);
      assert work[1 + j] == ToolMessage(env, reply.calls[j], results[j]);
    }
  }

  lemma {:induction false} MessageTells(env: Env, calls: seq<ToolCall>, k: nat, j: nat)
    requires j < |calls|
    ensures AnswersCall(env, calls[j], k, j, ToolMessage(env, calls[j], Results(env, calls, k)[j]))
  {
    ResultsTell(env, calls, k, j);
  }

  lemma {:induction false} SaidExtends(env: Env, r: nat, n: nat)
    requires r <= n
    ensures SaidBefore(env, r) <= SaidBefore(env, n)
    decreases n - r
  {
    if r < n {
      SaidStep(env, r);
      SaidExtends(env, r + 1, n);
    }
  }

  lemma {:induction false} SaidStep(env: Env, r: nat)
    ensures SaidBefore(env, r + 1) == SaidBefore(env, r) + Said(env, r)
  {
  }

  /** Every round before request n stands in what was said before it, at its place. */
  lemma {:induction false} RoundInTurn(env: Env, r: nat, n: nat)
    requires r < n && HasRound(env, r)
    ensures var at, reply := |SaidBefore(env, r)|, env.model(r).reply;
            && at + 1 + |reply.calls| <= |SaidBefore(env, n)|
            && RoundTold(env, reply, |RoundsBefore(env, r)|, SaidBefore(env, n)[at..at + 1 + |reply.calls|])
  {
    var at, reply, k := |SaidBefore(env, r)|, env.model(r).reply, |RoundsBefore(env, r)|;
    RoundSaid(env, r);
    SaidExtends(env, r + 1, n);
    RoundWorkTells(env, reply, k);
    Middle(SaidBefore(env, r), RoundWork(env, reply, k), SaidBefore(env, n));
  }

  lemma Middle(before: seq<Message>, part: seq<Message>, whole: seq<Message>)
    requires before + part <= whole
    ensures whole[|before|..|before| + |part|] == part
  {
    assert whole[..|before + part|] == before + part;
  }

  predicate EndsWith(work: seq<Message>, m: Message) {
    work != [] && work[|work| - 1] == m
  }

  function Word(text: string): Message {
    Message(Assistant, text, [], [], "", "", false)
  }

  /** The last word of a turn, for each way it can end after its n-th request. */
  ghost predicate LastWord(env: Env, n: nat, end: Ending, work: seq<Message>) {
    match end
    case Done =>
      && n > 0 && env.model(n - 1).Answer? && !AllSpace(env.model(n - 1).reply.content)
      && EndsWith(work, Word(env.model(n - 1).reply.content))
    case EmptyReply =>
      && n > 0 && env.model(n - 1).Answer? && AllSpace(env.model(n - 1).reply.content)
      && EndsWith(work, Word(if env.model(n - 1).reply.truncated then CUT_OFF_NOTE else EMPTY_NOTE))
    case ModelFailed => n > 0 && env.model(n - 1).Error? && EndsWith(work, Word(env.model(n - 1).fallback))
    case ModelCanceled => n > 0 && env.model(n - 1).Canceled? && work == SaidBefore(env, n - 1)
    case EndedByTool => n > 0 && HasRound(env, n - 1) && env.endsTurn(|RoundsBefore(env, n - 1)|)
    case Capped(looped) =>
      && (looped || n == env.limit + DropsBefore(env, n))
      && (env.dies(StepsBefore(env, n)) ||
          EndsWith(work, Word((if env.final.Some? && env.final.value != "" then env.final.value else env.fallback(looped))
                              + env.notice(looped))))
    case NotConfigured => n == 0 && work == []
    case _ => true
  }

  lemma BlankIff(s: string)
    ensures TrimSpace(s) == "" <==> AllSpace(s)
  {
    if AllSpace(s) {
      assert s[..0] == "" && s[0..] == s && s[0..0] == "";
      StripsOnly(s, "");
    } else {
      var i :| 0 <= i < |s| && !IsSpace(s[i]);
      TrimNonEmpty(s, i);
    }
  }

  lemma {:induction false} AnswerLastWord(env: Env, n: nat, end: Ending)
    requires n > 0 && Concludes(env, n - 1) && end in {Done, EmptyReply}
    requires end.EmptyReply? <==> TrimSpace(env.model(n - 1).reply.content) == ""
    ensures LastWord(env, n, end, SaidBefore(env, n))
  {
    BlankIff(env.model(n - 1).reply.content);
    AnswerSaid(env, n - 1);
  }

  /** How a turn that ran its loop ends: the last word it leaves, and the reply that it comes from. */
  lemma {:induction false} EndTells(env: Env, n: nat, end: Ending, work: seq<Message>)
    requires RunsAs(env, n, end) && WorkLeft(env, n, end, work)
    ensures LastWord(env, n, end, work)
  {
    match end
    case Done => AnswerLastWord(env, n, end);
    case EmptyReply => AnswerLastWord(env, n, end);
    case ModelFailed => FailedLastWord(env, n, end);
    case ModelCanceled => FailedLastWord(env, n, end);
    case _ =>
  }

  lemma {:induction false} FailedLastWord(env: Env, n: nat, end: Ending)
    requires n > 0 && Stops(env, n - 1, end) && (end.ModelFailed? || end.ModelCanceled?)
    ensures LastWord(env, n, end, SaidBefore(env, n))
  {
    FailedPast(env, n - 1);
    assert SaidBefore(env, n - 1) + [] == SaidBefore(env, n - 1);
  }

  /**
   * When a reply is dropped: it was cut off at the output limit, and it either calls tools or says nothing,
   * and fewer than two were dropped before. So a call that may be cut off runs only after two tries more.
   */
  lemma {:induction false} DroppedIff(env: Env, r: nat)
    ensures Dropped(env, r) <==>
            env.model(r).Answer? && env.model(r).reply.truncated
            && (env.model(r).reply.calls != [] || env.model(r).reply.content == "") && DropsBefore(env, r) < 2
    ensures HasRound(env, r) && env.model(r).reply.truncated ==> DropsBefore(env, r) == 2
  {
  }

  /** Round r, answered call by call, in the work a turn leaves. */
  ghost predicate HoldsRound(env: Env, r: nat, work: seq<Message>)
    requires HasRound(env, r)
  {
    var at, reply := |SaidBefore(env, r)|, env.model(r).reply;
    at + 1 + |reply.calls| <= |work| && RoundTold(env, reply, |RoundsBefore(env, r)|, work[at..at + 1 + |reply.calls|])
  }

  lemma {:induction false} HoldsRoundLonger(env: Env, r: nat, n: nat, work: seq<Message>)
    requires r < n && HasRound(env, r) && SaidBefore(env, n) <= work
    ensures HoldsRound(env, r, work)
  {
    RoundInTurn(env, r, n);
    var at, reply := |SaidBefore(env, r)|, env.model(r).reply;
    assert work[at..at + 1 + |reply.calls|] == SaidBefore(env, n)[at..at + 1 + |reply.calls|];
  }

  /** Every request starts with the preamble and the history that compaction left, its images bounded. */
  lemma {:induction false} RequestsOpen(env: Env, h: seq<Message>, requests: seq<Request>, r: nat)
    requires RequestsOk(env, FirstMessages(h, env), requests) && r < |requests|
    ensures env.preamble + Recent(h) <= requests[r].messages
  {
    RequestsOkAt(env, FirstMessages(h, env), requests, r);
  }

  /**
   * What a turn starts from: the user's message goes into the history, which compaction may cut or summarise; and
   * that history, its images bounded, opens every request after the preamble.
   */
  lemma {:induction false} TurnOpens(env: Env, start: seq<Message>, user: Message, requests: seq<Request>,
                                     final: Option<Request>, end: Ending, left: seq<Message>, base: nat)
    requires TurnOk(env, start, user, requests, final, end, left, base) && !env.dies(0) && !env.dies(1)
    ensures base <= |left| && CompactsTo(start + [user], env.summarise, left[..base])
    ensures forall r :: 0 <= r < |requests| ==> env.preamble + Recent(left[..base]) <= requests[r].messages
    ensures final.Some? ==> env.preamble + Recent(left[..base]) <= final.value.messages
  {
    CompactedMeaning(start + [user], env.summarise);
    forall r | 0 <= r < |requests|
      ensures env.preamble + Recent(left[..base]) <= requests[r].messages
    {
      RequestsOpen(env, left[..base], requests, r);
    }
  }

  /**
   * What a turn leaves: nothing new but perhaps the user's message when it died at once; otherwise the last
   * word of its ending, and every round it finished with each call answered by what its last response says.
   */
  lemma {:induction false} TurnTells(env: Env, start: seq<Message>, user: Message, requests: seq<Request>,
                                     final: Option<Request>, end: Ending, left: seq<Message>, base: nat)
    requires TurnOk(env, start, user, requests, final, end, left, base)
    ensures if env.dies(0) then left == start else if env.dies(1) then left == start + [user]
            else base <= |left| && LastWord(env, |requests|, end, WorkFrom(left, base))
    ensures forall r: nat :: r < |requests| && HasRound(env, r) && (r + 1 < |requests| || (!end.Died? && !end.Panicked?)) ==>
              HoldsRound(env, r, WorkFrom(left, base))
  {
    if Ran(env, start, user, requests, final, end, left, base) {
      EndTells(env, |requests|, end, WorkFrom(left, base));
      RoundsLeft(env, |requests|, end, WorkFrom(left, base));
    }
  }

  lemma {:induction false} RoundsLeft(env: Env, n: nat, end: Ending, work: seq<Message>)
    requires WorkLeft(env, n, end, work)
    ensures forall r: nat :: r < n && HasRound(env, r) && (r + 1 < n || (!end.Died? && !end.Panicked?)) ==>
              HoldsRound(env, r, work)
  {
    forall r: nat | r < n && HasRound(env, r) && (r + 1 < n || (!end.Died? && !end.Panicked?))
      ensures HoldsRound(env, r, work)
    {
      HoldsRoundLonger(env, r, if end.Died? || end.Panicked? then n - 1 else n, work);
    }
  }
}
