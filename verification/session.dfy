/** A chat session: its history, undo snapshot and steer buffer, and orphan padding. */
module Sessions {
  import opened Wrappers
  import opened Messages

  class Session {
    var messages: seq<Message>
    var snapshot: Option<seq<Message>>
    var turnDepth: nat
    var steerBuf: seq<Message>
    // The steers accepted since the session was last idle, in arrival order.
    ghost var accepted: seq<Message>

    constructor ()
      ensures messages == [] && snapshot == None && turnDepth == 0 && steerBuf == [] && accepted == []
    {
      messages, snapshot, turnDepth, steerBuf, accepted := [], None, 0, [], [];
    }

    method Append(m: Message)
      modifies this`messages
      ensures messages == old(messages) + [m]
    {
      messages := messages + [m];
    }

    method ReplaceMessages(ms: seq<Message>)
      modifies this`messages
      ensures messages == ms
    {
      messages := ms;
    }

    method BeginTurn()
      modifies this`turnDepth, this`accepted
      ensures turnDepth == old(turnDepth) + 1
      ensures accepted == if old(turnDepth) == 0 then [] else old(accepted)
    {
      if turnDepth == 0 {
        accepted := [];
      }
      turnDepth := turnDepth + 1;
    }

    /** Ends one turn; the last one to end takes whatever steers are still buffered. */
    method EndTurn() returns (leftover: seq<Message>)
      modifies this`turnDepth, this`steerBuf
      ensures turnDepth == if old(turnDepth) > 0 then old(turnDepth) - 1 else 0
      ensures leftover + steerBuf == old(steerBuf)
      ensures if turnDepth > 0 then leftover == [] else steerBuf == []
    {
      if turnDepth > 0 {
        turnDepth := turnDepth - 1;
      }
      if turnDepth > 0 || |steerBuf| == 0 {
        return [];
      }
      leftover := steerBuf;
      steerBuf := [];
    }

    /** A steer is accepted exactly while a turn is active. */
    method PushSteerIfActive(m: Message) returns (ok: bool)
      modifies this`steerBuf, this`accepted
      ensures ok == (turnDepth > 0)
      ensures ok ==> steerBuf == old(steerBuf) + [m] && accepted == old(accepted) + [m]
      ensures !ok ==> steerBuf == old(steerBuf) && accepted == old(accepted)
    {
      if turnDepth == 0 {
        return false;
      }
      steerBuf := steerBuf + [m];
      accepted := accepted + [m];
      return true;
    }

    method DrainSteer() returns (drained: seq<Message>)
      modifies this`steerBuf
      ensures drained == old(steerBuf) && steerBuf == []
    {
      drained := steerBuf;
      steerBuf := [];
    }

    method Snapshot()
      modifies this`snapshot
      ensures snapshot == Some(messages)
    {
      snapshot := Some(messages);
    }

    method Undo() returns (ok: bool)
      modifies this`messages, this`snapshot
      ensures ok == old(snapshot).Some?
      ensures ok ==> messages == old(snapshot).value && snapshot == None
      ensures !ok ==> messages == old(messages) && snapshot == old(snapshot)
    {
      match snapshot
      case None => ok := false;
      case Some(saved) => messages, snapshot, ok := saved, None, true;
    }

    /** Pads, at turn exit, the calls of the latest calling message that have no result. */
    method PadOrphanToolResults()
      modifies this`messages
      ensures messages == Padded(old(messages))
    {
      var msgs := messages;
      var last := FindLastCalling(msgs);
      if last < 0 {
        assert msgs + [] == msgs;
        return;
      }
      var resolved := CollectResolved(msgs[last + 1..]);
      var calls := msgs[last].calls;
      for j := 0 to |calls|
        invariant messages == msgs + PadResults(calls[..j], resolved)
      {
        assert calls[..j + 1][..j] == calls[..j];
        if calls[j].id !in resolved {
          Append(ToolResult(calls[j], STOPPED));
        }
      }
      assert calls[..|calls|] == calls;
    }
  }

  method FindLastCalling(msgs: seq<Message>) returns (last: int)
    ensures last == LastCalling(msgs)
  {
    last := |msgs| - 1;
    assert msgs[..|msgs|] == msgs;
    while last >= 0 && !Calling(msgs[last])
      invariant -1 <= last < |msgs|
      invariant LastCalling(msgs) == LastCalling(msgs[..last + 1])
    {
      assert msgs[..last + 1][..last] == msgs[..last];
      last := last - 1;
    }
  }

  method CollectResolved(after: seq<Message>) returns (resolved: set<string>)
    ensures resolved == ResolvedIds(after)
  {
    resolved := {};
    for k := 0 to |after|
      invariant resolved == ResolvedIds(after[..k])
    {
      assert after[..k + 1][..k] == after[..k];
      if after[k].role == Tool && after[k].callId != "" {
        resolved := resolved + {after[k].callId};
      }
    }
    assert after[..|after|] == after;
  }

  const STOPPED: string := "(stopped — execution was interrupted before the tool returned)"

  /** Index of the latest calling message, -1 when there is none. */
  function LastCalling(h: seq<Message>): (i: int)
    ensures -1 <= i < |h|
    ensures i >= 0 ==> Calling(h[i])
  {
    if h == [] then -1
    else if Calling(h[|h| - 1]) then |h| - 1
    else LastCalling(h[..|h| - 1])
  }

  function ResolvedIds(s: seq<Message>): set<string> {
    if s == [] then {}
    else
      var m := s[|s| - 1];
      ResolvedIds(s[..|s| - 1]) + (if m.role == Tool && m.callId != "" then {m.callId} else {})
  }

  predicate IdAmong(calls: seq<ToolCall>, id: string) {
    exists j :: 0 <= j < |calls| && calls[j].id == id
  }

  lemma {:induction false} ResolvedMeaning(s: seq<Message>, calls: seq<ToolCall>)
    requires |s| <= |calls| && forall j :: 0 <= j < |s| ==> Answers(s[j], calls[j])
    ensures forall j :: 0 <= j < |s| && calls[j].id != "" ==> calls[j].id in ResolvedIds(s)
    ensures forall id :: id in ResolvedIds(s) ==> id != "" && IdAmong(calls[..|s|], id)
  {
    if s != [] {
      var n := |s| - 1;
      ResolvedMeaning(s[..n], calls);
      assert Answers(s[n], calls[n]);
    }
  }

  function PadResults(calls: seq<ToolCall>, resolved: set<string>): seq<Message> {
    if calls == [] then []
    else
      var c := calls[|calls| - 1];
      PadResults(calls[..|calls| - 1], resolved) + (if c.id in resolved then [] else [ToolResult(c, STOPPED)])
  }

  predicate OnlyPads(p: seq<Message>, resolved: set<string>) {
    forall j :: 0 <= j < |p| ==> p[j].role == Tool && p[j].callId !in resolved
  }

  lemma {:induction false} PadResultsKind(calls: seq<ToolCall>, resolved: set<string>)
    ensures OnlyPads(PadResults(calls, resolved), resolved)
  {
    if calls != [] {
      var n := |calls| - 1;
      PadResultsKind(calls[..n], resolved);
      if calls[n].id in resolved {
        assert PadResults(calls, resolved) == PadResults(calls[..n], resolved);
      } else {
        assert PadResults(calls, resolved) == PadResults(calls[..n], resolved) + [ToolResult(calls[n], STOPPED)];
      }
    }
  }

  /** The results padding adds for the calls at i, none for -1. */
  function PadsFor(h: seq<Message>, i: int): seq<Message>
    requires -1 <= i < |h|
  {
    if i < 0 then [] else PadResults(h[i].calls, ResolvedIds(h[i + 1..]))
  }

  /** What padding appends to h. */
  function Pads(h: seq<Message>): seq<Message> {
    PadsFor(h, LastCalling(h))
  }

  function Padded(h: seq<Message>): seq<Message> {
    h + Pads(h)
  }

  /** Some result after i carries this id, and it is one. */
  predicate AnsweredAfter(h: seq<Message>, i: int, id: string)
    requires -1 <= i < |h|
  {
    id != "" && exists k :: i < k < |h| && h[k].role == Tool && h[k].callId == id
  }

  predicate IsLastCalling(h: seq<Message>, i: int) {
    && -1 <= i < |h| && (i >= 0 ==> h[i].role == Assistant && h[i].calls != [])
    && forall k :: i < k < |h| ==> h[k].role != Assistant || h[k].calls == []
  }

  lemma {:induction false} LastCallingIs(h: seq<Message>)
    ensures IsLastCalling(h, LastCalling(h))
  {
    if h != [] && !Calling(h[|h| - 1]) {
      LastCallingIs(h[..|h| - 1]);
    }
  }

  lemma {:induction false} ResolvedIff(s: seq<Message>, id: string)
    ensures id in ResolvedIds(s) <==> id != "" && exists k :: 0 <= k < |s| && s[k].role == Tool && s[k].callId == id
  {
    if s != [] {
      ResolvedIff(s[..|s| - 1], id);
    }
  }

  predicate StoppedResult(m: Message, call: ToolCall) {
    Answers(m, call) && m.content == "(stopped — execution was interrupted before the tool returned)"
  }

  /** The pads are stopped results for the picked calls, in order: those whose ids are not resolved. */
  predicate PadsAre(calls: seq<ToolCall>, resolved: set<string>, picks: seq<nat>, pads: seq<Message>) {
    && (forall i, j :: 0 <= i < j < |picks| ==> picks[i] < picks[j])
    && (forall k :: 0 <= k < |calls| ==> (calls[k].id !in resolved <==> k in picks))
    && |pads| == |picks| && forall j :: 0 <= j < |picks| ==> picks[j] < |calls| && StoppedResult(pads[j], calls[picks[j]])
  }

  lemma {:induction false} PadsMore(front: seq<ToolCall>, c: ToolCall, resolved: set<string>, picks: seq<nat>,
                                    pads: seq<Message>)
    requires PadsAre(front, resolved, picks, pads) && c.id !in resolved
    ensures PadsAre(front + [c], resolved, picks + [|front|], pads + [ToolResult(c, STOPPED)])
  {
    var more := picks + [|front|];
    forall k | 0 <= k < |front + [c]|
      ensures (front + [c])[k].id !in resolved <==> k in more
    {
      if k < |front| {
        assert front[k].id !in resolved <==> k in picks;
      }
    }
  }

  lemma {:induction false} PadsSame(front: seq<ToolCall>, c: ToolCall, resolved: set<string>, picks: seq<nat>,
                                    pads: seq<Message>)
    requires PadsAre(front, resolved, picks, pads) && c.id in resolved
    ensures PadsAre(front + [c], resolved, picks, pads)
  {
    forall k | 0 <= k < |front + [c]|
      ensures (front + [c])[k].id !in resolved <==> k in picks
    {
      if k < |front| {
        assert front[k].id !in resolved <==> k in picks;
      }
    }
  }

  lemma {:induction false} PadResultsPick(calls: seq<ToolCall>, resolved: set<string>) returns (picks: seq<nat>)
    ensures PadsAre(calls, resolved, picks, PadResults(calls, resolved))
  {
    if calls == [] {
      picks := [];
    } else {
      var front, c := calls[..|calls| - 1], calls[|calls| - 1];
      picks := PadResultsPick(front, resolved);
      assert calls == front + [c];
      if c.id in resolved {
        PadsSame(front, c, resolved, picks, PadResults(front, resolved));
      } else {
        PadsMore(front, c, resolved, picks, PadResults(front, resolved));
        picks := picks + [|front|];
      }
    }
  }

  lemma {:induction false} ResolvedAfter(h: seq<Message>, i: int, id: string)
    requires -1 <= i < |h|
    ensures id in ResolvedIds(h[i + 1..]) <==> AnsweredAfter(h, i, id)
  {
    var after := h[i + 1..];
    ResolvedIff(after, id);
    if AnsweredAfter(h, i, id) {
      var k :| i < k < |h| && h[k].role == Tool && h[k].callId == id;
      assert after[k - i - 1] == h[k];
    }
  }

  ghost predicate ResolvedAre(h: seq<Message>, i: int, resolved: set<string>)
    requires -1 <= i < |h|
  {
    forall id :: id in resolved <==> AnsweredAfter(h, i, id)
  }

  lemma {:induction false} AllResolved(h: seq<Message>, i: int)
    requires -1 <= i < |h|
    ensures ResolvedAre(h, i, ResolvedIds(h[i + 1..]))
  {
    forall id
      ensures id in ResolvedIds(h[i + 1..]) <==> AnsweredAfter(h, i, id)
    {
      ResolvedAfter(h, i, id);
    }
  }

  /**
   * What padding adds, exactly: for each call of the latest calling message that no result after it carries the
   * id of, in order, a result that says that it was stopped; and nothing when no message calls.
   */
  lemma {:induction false} PadsTell(h: seq<Message>) returns (i: int, resolved: set<string>, picks: seq<nat>)
    ensures IsLastCalling(h, i) && ResolvedAre(h, i, resolved)
    ensures i < 0 ==> Pads(h) == []
    ensures i >= 0 ==> PadsAre(h[i].calls, resolved, picks, Pads(h))
  {
    LastCallingIs(h);
    i := LastCalling(h);
    resolved := ResolvedIds(h[i + 1..]);
    AllResolved(h, i);
    picks := [];
    if i >= 0 {
      picks := PadResultsPick(h[i].calls, resolved);
    }
  }

  /** res answers the first calls, in order. */
  predicate AnswersFirst(res: seq<Message>, calls: seq<ToolCall>) {
    |res| <= |calls| && forall j :: 0 <= j < |res| ==> Answers(res[j], calls[j])
  }

  /** The history p, then a calling message, then the results its round got before it was cut off. */
  ghost predicate CutOff(p: seq<Message>, asst: Message, res: seq<Message>) {
    Paired(p) && Calling(asst) && AnswersFirst(res, asst.calls)
  }

  function Round(asst: Message, res: seq<Message>): seq<Message> {
    [asst] + res
  }

  ghost predicate Interrupted(h: seq<Message>) {
    exists p, asst, res :: h == p + Round(asst, res) && CutOff(p, asst, res)
  }

  /** Padding by id fills a round that got k of its results iff the ids tell answered calls apart. */
  predicate Paddable(calls: seq<ToolCall>, k: nat)
    requires k <= |calls|
  {
    && (forall j :: 0 <= j < k ==> calls[j].id != "")
    && (forall a, b :: 0 <= a < k <= b < |calls| ==> calls[a].id != calls[b].id)
  }

  lemma {:induction false} PadResultsNone(calls: seq<ToolCall>, resolved: set<string>)
    ensures PadResults(calls, resolved) == [] <==> AllIn(calls, resolved)
  {
    if calls != [] {
      var n := |calls| - 1;
      PadResultsNone(calls[..n], resolved);
      assert calls == calls[..n] + [calls[n]];
      if AllIn(calls[..n], resolved) && calls[n].id in resolved {
        assert AllIn(calls, resolved);
      }
      if AllIn(calls, resolved) {
        assert forall j :: 0 <= j < n ==> calls[..n][j] == calls[j];
      }
    }
  }

  predicate AllIn(calls: seq<ToolCall>, resolved: set<string>) {
    forall j :: 0 <= j < |calls| ==> calls[j].id in resolved
  }

  predicate NoneIn(calls: seq<ToolCall>, resolved: set<string>) {
    forall j :: 0 <= j < |calls| ==> calls[j].id !in resolved
  }

  lemma {:induction false} PadResultsAll(calls: seq<ToolCall>, resolved: set<string>)
    requires NoneIn(calls, resolved)
    ensures |PadResults(calls, resolved)| == |calls|
    ensures AnswersFirst(PadResults(calls, resolved), calls)
  {
    if calls != [] {
      PadResultsAll(calls[..|calls| - 1], resolved);
    }
  }

  lemma {:induction false} PadResultsSplit(a: seq<ToolCall>, b: seq<ToolCall>, resolved: set<string>)
    ensures PadResults(a + b, resolved) == PadResults(a, resolved) + PadResults(b, resolved)
  {
    if b == [] {
      assert a + b == a;
    } else {
      PadResultsSplit(a, b[..|b| - 1], resolved);
      assert (a + b)[..|a + b| - 1] == a + b[..|b| - 1];
    }
  }

  lemma {:induction false} LastCallingAppend(h: seq<Message>, s: seq<Message>)
    requires forall j :: 0 <= j < |s| ==> !Calling(s[j])
    ensures LastCalling(h + s) == LastCalling(h)
  {
    if s == [] {
      assert h + s == h;
    } else {
      assert (h + s)[..|h + s| - 1] == h + s[..|s| - 1];
      LastCallingAppend(h, s[..|s| - 1]);
    }
  }

  lemma {:induction false} LastCallingRound(p: seq<Message>, asst: Message, res: seq<Message>)
    requires Calling(asst) && forall j :: 0 <= j < |res| ==> res[j].role == Tool
    ensures LastCalling(p + Round(asst, res)) == |p|
  {
    LastCallingHere(p, asst);
    LastCallingAppend(p + [asst], res);
    RoundSplit(p, asst, res);
  }

  lemma {:induction false} LastCallingHere(p: seq<Message>, asst: Message)
    requires Calling(asst)
    ensures LastCalling(p + [asst]) == |p|
  {
  }

  lemma RoundSplit(p: seq<Message>, asst: Message, res: seq<Message>)
    ensures p + Round(asst, res) == p + [asst] + res
  {
  }

  /** The pads of a cut-off round: those of its answered calls, then those of the rest. */
  lemma {:induction false} PaddedCutOff(p: seq<Message>, asst: Message, res: seq<Message>, r: set<string>)
    requires Calling(asst) && AnswersFirst(res, asst.calls) && r == ResolvedIds(res)
    ensures var k := |res|;
            Padded(p + Round(asst, res)) ==
            p + Round(asst, res + (PadResults(asst.calls[..k], r) + PadResults(asst.calls[k..], r)))
  {
    var k := |res|;
    forall j | 0 <= j < k ensures res[j].role == Tool { assert Answers(res[j], asst.calls[j]); }
    LastCallingRound(p, asst, res);
    PadsAt(p, asst, res);
    PadResultsAt(asst.calls, k, r);
    RoundAppend(p, asst, res, PadResults(asst.calls[..k], r) + PadResults(asst.calls[k..], r));
  }

  lemma {:induction false} PadResultsAt(calls: seq<ToolCall>, k: nat, r: set<string>)
    requires k <= |calls|
    ensures PadResults(calls, r) == PadResults(calls[..k], r) + PadResults(calls[k..], r)
  {
    assert calls == calls[..k] + calls[k..];
    PadResultsSplit(calls[..k], calls[k..], r);
  }

  lemma RoundAppend(p: seq<Message>, asst: Message, res: seq<Message>, more: seq<Message>)
    ensures p + Round(asst, res) + more == p + Round(asst, res + more)
  {
  }

  lemma {:induction false} PadsAt(p: seq<Message>, asst: Message, res: seq<Message>)
    requires LastCalling(p + Round(asst, res)) == |p|
    ensures Pads(p + Round(asst, res)) == PadResults(asst.calls, ResolvedIds(res))
  {
    var h := p + Round(asst, res);
    assert h[|p|] == asst && h[|p| + 1..] == res;
  }

  lemma RoundFilled(p: seq<Message>, asst: Message, res: seq<Message>, pads: seq<Message>)
    requires CutOff(p, asst, res) && |pads| == |asst.calls| - |res|
    requires AnswersFirst(pads, asst.calls[|res|..])
    ensures Paired(p + Round(asst, res + pads))
  {
    var all := res + pads;
    forall j | 0 <= j < |all| ensures Answers(all[j], asst.calls[j]) {
      if j >= |res| {
        assert Answers(pads[j - |res|], asst.calls[|res|..][j - |res|]);
      }
    }
    PairedRound(asst, all);
    PairedConcat(p, Round(asst, all));
  }

  lemma PadCompletesRound(p: seq<Message>, asst: Message, res: seq<Message>)
    requires CutOff(p, asst, res) && Paddable(asst.calls, |res|)
    ensures Paired(Padded(p + Round(asst, res)))
  {
    var calls, k, r := asst.calls, |res|, ResolvedIds(res);
    PaddedCutOff(p, asst, res, r);
    ResolvedMeaning(res, calls);
    assert AllIn(calls[..k], r);
    PadResultsNone(calls[..k], r);
    assert NoneIn(calls[k..], r);
    PadResultsAll(calls[k..], r);
    var pads := PadResults(calls[k..], r);
    assert [] + pads == pads;
    RoundFilled(p, asst, res, pads);
  }

  /** In a paired history that ends in a round, that round is complete. */
  /** In a paired history a round has no more results than calls. */
  lemma {:induction false} NoneToSpare(p: seq<Message>, asst: Message, all: seq<Message>)
    requires Calling(asst) && Paired(p + Round(asst, all))
    requires forall j :: 0 <= j < |all| ==> all[j].role == Tool
    ensures |all| <= |asst.calls|
  {
    var h, i, n := p + Round(asst, all), |p|, |asst.calls|;
    if |all| > n {
      var k := i + 1 + n;
      assert h[i] == asst && h[k] == all[n];
      var o: nat :| 0 <= o < k && Owns(h, o, k);
      assert Answered(h, o);
      OwnedIsTool(h, o, i);
      assert false;
    }
  }

  lemma {:induction false} LastRound(p: seq<Message>, asst: Message, all: seq<Message>)
    requires Calling(asst) && Paired(p + Round(asst, all))
    requires forall j :: 0 <= j < |all| ==> all[j].role == Tool
    ensures |all| == |asst.calls| && AnswersFirst(all, asst.calls)
  {
    var h, i, n := p + Round(asst, all), |p|, |asst.calls|;
    assert h[i] == asst && Answered(h, i);
    NoneToSpare(p, asst, all);
    forall j | 0 <= j < n ensures Answers(all[j], asst.calls[j]) {
      assert Answers(h[i + 1 + j], h[i].calls[j]);
      assert h[i + 1 + j] == all[j];
    }
  }

  /** If the pads complete the round then they answer exactly the calls that had no result. */
  lemma PadsFit(calls: seq<ToolCall>, res: seq<Message>, again: seq<Message>, rest: seq<Message>, r: set<string>)
    requires |res| <= |calls| && AnswersFirst(res + (again + rest), calls) && |res + (again + rest)| == |calls|
    requires OnlyPads(again, r) && OnlyPads(rest, r)
    ensures NoneIn(calls[|res|..], r)
  {
    var all := res + (again + rest);
    forall b | |res| <= b < |calls| ensures calls[b].id !in r {
      assert Answers(all[b], calls[b]);
      assert all[b] == (again + rest)[b - |res|];
    }
  }

  lemma PadNeedsUsableIds(p: seq<Message>, asst: Message, res: seq<Message>)
    requires CutOff(p, asst, res) && Paired(Padded(p + Round(asst, res)))
    ensures Paddable(asst.calls, |res|)
  {
    var calls, k, r := asst.calls, |res|, ResolvedIds(res);
    PaddedCutOff(p, asst, res, r);
    var again, rest := PadResults(calls[..k], r), PadResults(calls[k..], r);
    PadResultsKind(calls[..k], r);
    PadResultsKind(calls[k..], r);
    var all := res + (again + rest);
    forall j | 0 <= j < |all| ensures all[j].role == Tool {
      if j < k {
        assert Answers(res[j], calls[j]);
      } else {
        assert all[j] == (again + rest)[j - k];
      }
    }
    LastRound(p, asst, all);
    PadsFit(calls, res, again, rest, r);
    PadResultsAll(calls[k..], r);
    assert again == [];
    PadResultsNone(calls[..k], r);
    UsableIds(calls, res, r);
  }

  lemma {:induction false} UsableIds(calls: seq<ToolCall>, res: seq<Message>, r: set<string>)
    requires AnswersFirst(res, calls) && r == ResolvedIds(res)
    requires AllIn(calls[..|res|], r) && NoneIn(calls[|res|..], r)
    ensures Paddable(calls, |res|)
  {
    ResolvedMeaning(res, calls);
    forall j | 0 <= j < |res| ensures calls[j].id in r && calls[j].id != "" {
      assert calls[..|res|][j].id in r;
    }
    forall j | |res| <= j < |calls| ensures calls[j].id !in r {
      assert calls[|res|..][j - |res|].id !in r;
    }
  }

  /** Padding repairs a round cut off after some results exactly when its ids are usable. */
  lemma PadRestoresIff(p: seq<Message>, asst: Message, res: seq<Message>)
    requires CutOff(p, asst, res)
    ensures Paired(Padded(p + Round(asst, res))) <==> Paddable(asst.calls, |res|)
  {
    if Paddable(asst.calls, |res|) {
      PadCompletesRound(p, asst, res);
    }
    if Paired(Padded(p + Round(asst, res))) {
      PadNeedsUsableIds(p, asst, res);
    }
  }

  lemma {:induction false} ResolvedGrows(a: seq<Message>, b: seq<Message>)
    ensures ResolvedIds(a) <= ResolvedIds(a + b)
  {
    if b == [] {
      assert a + b == a;
    } else {
      ResolvedGrows(a, b[..|b| - 1]);
      assert (a + b)[..|a + b| - 1] == a + b[..|b| - 1];
    }
  }

  lemma {:induction false} SettledAnswers(h: seq<Message>, i: nat)
    requires i < |h| && Answered(h, i)
    ensures AnswersFirst(h[i + 1..][..|h[i].calls|], h[i].calls)
  {
    var calls, first := h[i].calls, h[i + 1..][..|h[i].calls|];
    forall j | 0 <= j < |calls| ensures Answers(first[j], calls[j]) {
      assert Answers(h[i + 1 + j], h[i].calls[j]);
    }
  }

  predicate NamedIds(calls: seq<ToolCall>) {
    forall j :: 0 <= j < |calls| ==> calls[j].id != ""
  }

  /** The ids of calls answered in place are all among the results, unless one is empty. */
  lemma {:induction false} SettledResolved(h: seq<Message>, i: nat)
    requires i < |h| && Answered(h, i) && NamedIds(h[i].calls)
    ensures AllIn(h[i].calls, ResolvedIds(h[i + 1..]))
  {
    var calls, s := h[i].calls, h[i + 1..];
    SettledAnswers(h, i);
    assert s == s[..|calls|] + s[|calls|..];
    ResolvedMeaning(s[..|calls|], calls);
    ResolvedGrows(s[..|calls|], s[|calls|..]);
  }

  lemma {:induction false} EmptyNeverResolved(s: seq<Message>)
    ensures "" !in ResolvedIds(s)
  {
    if s != [] {
      EmptyNeverResolved(s[..|s| - 1]);
    }
  }

  /** Calls answered in place get no pad exactly when none of their ids is empty. */
  lemma {:induction false} NoPadsIff(h: seq<Message>, i: nat)
    requires i < |h| && Answered(h, i)
    ensures PadResults(h[i].calls, ResolvedIds(h[i + 1..])) == [] <==> NamedIds(h[i].calls)
  {
    var calls, r := h[i].calls, ResolvedIds(h[i + 1..]);
    PadResultsNone(calls, r);
    EmptyNeverResolved(h[i + 1..]);
    if NamedIds(calls) {
      SettledResolved(h, i);
    } else {
      var j :| 0 <= j < |calls| && calls[j].id == "";
      assert calls[j].id !in r;
    }
  }

  /** Calls answered in place need no pads exactly when their ids are non-empty. */
  lemma {:induction false} PadIdleIff(h: seq<Message>, i: int)
    requires -1 <= i < |h| && (i >= 0 ==> Answered(h, i))
    ensures PadsFor(h, i) == [] <==> (i >= 0 ==> NamedIds(h[i].calls))
  {
    if i >= 0 {
      NoPadsIff(h, i);
    }
  }

  lemma SettledAt(h: seq<Message>, i: nat)
    requires Paired(h) && i < |h| && Calling(h[i])
    ensures Answered(h, i)
  {
  }

  /** A settled history gains no owner for another result: padding that adds one unpairs it. */
  lemma {:induction false} PadsOrphan(h: seq<Message>)
    requires Paired(h) && Pads(h) != []
    ensures !Paired(Padded(h))
  {
    var q := Padded(h);
    PadsAreTools(h);
    assert q[|h|] == Pads(h)[0];
    forall o | 0 <= o < |h| ensures !Owns(q, o, |h|) {
      if Calling(h[o]) {
        assert Answered(h, o);
      }
    }
  }

  /** How many calls of the latest calling message, at i, have their results. */
  function Got(h: seq<Message>, i: nat): (k: nat)
    requires i < |h|
    ensures k <= |h[i].calls|
  {
    var after := |h| - i - 1;
    if after <= |h[i].calls| then after else |h[i].calls|
  }

  /**
   * The ids of the latest calls are usable: each answered call has a non-empty one, which no
   * unanswered call shares. Once all are answered it is enough that none is empty.
   */
  predicate UsableIdsIn(h: seq<Message>) {
    var i := LastCalling(h);
    i >= 0 ==> Paddable(h[i].calls, Got(h, i))
  }

  /** In a settled history that comes down to one thing: no id of the latest calls is empty. */
  lemma {:induction false} PadSettledIff(h: seq<Message>)
    requires Paired(h)
    ensures Paired(Padded(h)) <==> UsableIdsIn(h)
    ensures var i := LastCalling(h); UsableIdsIn(h) <==> (i >= 0 ==> NamedIds(h[i].calls))
  {
    var i := LastCalling(h);
    if i >= 0 {
      SettledAt(h, i);
    }
    PadIdleIff(h, i);
    if Pads(h) == [] {
      assert h + [] == h;
    } else {
      PadsOrphan(h);
    }
  }

  lemma {:induction false} PadCutOffIff(p: seq<Message>, asst: Message, res: seq<Message>)
    requires CutOff(p, asst, res)
    ensures var h := p + Round(asst, res); Paired(Padded(h)) <==> UsableIdsIn(h)
  {
    forall j | 0 <= j < |res| ensures res[j].role == Tool { assert Answers(res[j], asst.calls[j]); }
    LastCallingRound(p, asst, res);
    assert (p + Round(asst, res))[|p|] == asst;
    PadRestoresIff(p, asst, res);
  }

  /** Settled or cut off inside a round: padding leaves a paired history exactly when the ids are usable. */
  lemma {:induction false} PadSettlesIff(h: seq<Message>)
    requires Paired(h) || Interrupted(h)
    ensures Paired(Padded(h)) <==> UsableIdsIn(h)
  {
    if Paired(h) {
      PadSettledIff(h);
    } else {
      var p: seq<Message>, asst: Message, res: seq<Message> :| h == p + Round(asst, res) && CutOff(p, asst, res);
      PadCutOffIff(p, asst, res);
    }
  }

  lemma {:induction false} InterruptedAfter(before: seq<Message>, p: seq<Message>, asst: Message, res: seq<Message>)
    requires Paired(before) && CutOff(p, asst, res)
    ensures Interrupted(before + (p + Round(asst, res)))
  {
    PairedConcat(before, p);
    assert before + (p + Round(asst, res)) == (before + p) + Round(asst, res);
    assert CutOff(before + p, asst, res);
  }

  /** A whole history of which the part from base on is settled or cut off. */
  lemma {:induction false} InterruptedWhole(h: seq<Message>, base: nat)
    requires base <= |h| && Paired(h[..base]) && (Paired(h[base..]) || Interrupted(h[base..]))
    ensures Paired(h) || Interrupted(h)
  {
    assert h == h[..base] + h[base..];
    if Paired(h[base..]) {
      PairedFromWhole(h, base);
    } else {
      var p: seq<Message>, asst: Message, res: seq<Message> :| h[base..] == p + Round(asst, res) && CutOff(p, asst, res);
      InterruptedAfter(h[..base], p, asst, res);
    }
  }

  /** One call without an id is enough: the round is answered and done with, and padding answers it again. */
  lemma {:induction false} EmptyIdBreaks(p: seq<Message>, asst: Message, result: Message, reply: Message)
    requires Paired(p) && asst.role == Assistant && asst.calls == [ToolCall("", result.name, "")]
    requires result.role == Tool && result.callId == ""
    requires reply.role == Assistant && reply.calls == []
    ensures var h := p + [asst, result, reply]; Paired(h) && !Paired(Padded(h))
  {
    var h := p + [asst, result, reply];
    assert Answers(result, asst.calls[0]);
    PairedRound(asst, [result]);
    PairedConcat(p, [asst] + [result]);
    PairedExtend(p + ([asst] + [result]), [reply]);
    assert h == p + ([asst] + [result]) + [reply];
    LastCallingHere(p, asst);
    LastCallingAppend(p + [asst], [result, reply]);
    assert h == p + [asst] + [result, reply];
    assert h[|p|].calls[0].id == "";
    PadSettlesIff(h);
  }

  lemma PadsAreTools(h: seq<Message>)
    ensures forall j :: 0 <= j < |Pads(h)| ==> Pads(h)[j].role == Tool
  {
    var at := LastCalling(h);
    if at >= 0 {
      PadResultsKind(h[at].calls, ResolvedIds(h[at + 1..]));
    }
  }

  /** Why padding runs before the steer flush: a steer appended first separates the pads from their call. */
  lemma FlushBeforePadBreaks(p: seq<Message>, asst: Message, res: seq<Message>, steer: Message)
    requires CutOff(p, asst, res) && |res| < |asst.calls|
    requires steer.role == User
    ensures !Paired(Padded(p + Round(asst, res) + [steer]))
  {
    var h := p + Round(asst, res) + [steer];
    var q := Padded(h);
    assert h[|p|] == asst && h[|p| + 1 + |res|] == steer;
    assert h <= q;
    if Paired(q) {
      assert Answered(q, |p|);
      OwnedIsTool(q, |p|, |p| + 1 + |res|);
      assert false;
    }
  }
}
