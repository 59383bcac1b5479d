/** Context compaction: pruning old tool results, then summarising old messages. */
module Compaction {
  import opened Wrappers
  import opened Messages
  import opened Text

  const DEFAULT_TOKEN_THRESHOLD := 80000
  const PRUNE_TURN_AGE := 20
  const INLINE_IMAGE_TOKENS := 1500
  const TRUNCATED: string := "[Result truncated - see memory logs]"
  const SUMMARY_HEADER: string := "[Conversation Summary]\n"

  /** The estimate of one message: text and call bytes over four, a flat cost per image. */
  function MessageTokens(m: Message): nat {
    ByteLen(m.content) / 4 + PartTokens(m.parts) + CallTokens(m.calls)
  }

  function PartTokens(parts: seq<Part>): nat {
    if parts == [] then 0
    else
      var p := parts[|parts| - 1];
      PartTokens(parts[..|parts| - 1]) +
      (if p.kind == "text" then ByteLen(p.text) / 4 else if p.kind == "image_url" then INLINE_IMAGE_TOKENS else 0)
  }

  function CallTokens(calls: seq<ToolCall>): nat {
    if calls == [] then 0
    else
      var c := calls[|calls| - 1];
      CallTokens(calls[..|calls| - 1]) + ByteLen(c.args) / 4 + ByteLen(c.name) / 4
  }

  function Tokens(h: seq<Message>): nat {
    if h == [] then 0 else Tokens(h[..|h| - 1]) + MessageTokens(h[|h| - 1])
  }

  // ----- how good the estimate is

  function PartBytes(parts: seq<Part>): nat {
    if parts == [] then 0
    else PartBytes(parts[..|parts| - 1]) + (if parts[|parts| - 1].kind == "text" then ByteLen(parts[|parts| - 1].text) else 0)
  }

  function Images(parts: seq<Part>): nat {
    if parts == [] then 0 else Images(parts[..|parts| - 1]) + (if parts[|parts| - 1].kind == "image_url" then 1 else 0)
  }

  function CallBytes(calls: seq<ToolCall>): nat {
    if calls == [] then 0
    else CallBytes(calls[..|calls| - 1]) + ByteLen(calls[|calls| - 1].args) + ByteLen(calls[|calls| - 1].name)
  }

  /** A message's bytes of text and calls, with 6000 for each image. */
  function Weight(m: Message): nat {
    ByteLen(m.content) + PartBytes(m.parts) + 6000 * Images(m.parts) + CallBytes(m.calls)
  }

  /** The texts whose quarter is rounded down on its own. */
  function Pieces(m: Message): nat {
    1 + |m.parts| + 2 * |m.calls|
  }

  function TotalOf(h: seq<Message>, f: Message -> nat): nat {
    if h == [] then 0 else TotalOf(h[..|h| - 1], f) + f(h[|h| - 1])
  }

  lemma {:induction false} PartsEstimate(parts: seq<Part>)
    ensures 4 * PartTokens(parts) <= PartBytes(parts) + 6000 * Images(parts) <= 4 * PartTokens(parts) + 3 * |parts|
  {
    if parts != [] {
      PartsEstimate(parts[..|parts| - 1]);
    }
  }

  lemma {:induction false} CallsEstimate(calls: seq<ToolCall>)
    ensures 4 * CallTokens(calls) <= CallBytes(calls) <= 4 * CallTokens(calls) + 6 * |calls|
  {
    if calls != [] {
      CallsEstimate(calls[..|calls| - 1]);
    }
  }

  /** The estimate is a quarter of all bytes, images at 6000 each, less the rounding of each text. */
  lemma {:induction false} TokensEstimate(h: seq<Message>)
    ensures 4 * Tokens(h) <= TotalOf(h, Weight) <= 4 * Tokens(h) + 3 * TotalOf(h, Pieces)
  {
    if h != [] {
      TokensEstimate(h[..|h| - 1]);
      PartsEstimate(h[|h| - 1].parts);
      CallsEstimate(h[|h| - 1].calls);
    }
  }

  method EstimateTokens(messages: seq<Message>) returns (total: nat)
    ensures total == Tokens(messages)
  {
    total := 0;
    for i := 0 to |messages|
      invariant total == Tokens(messages[..i])
    {
      assert messages[..i + 1][..i] == messages[..i];
      var m, before := messages[i], total;
      total := total + ByteLen(m.content) / 4;
      for j := 0 to |m.parts|
        invariant total == before + ByteLen(m.content) / 4 + PartTokens(m.parts[..j])
      {
        assert m.parts[..j + 1][..j] == m.parts[..j];
        var part := m.parts[j];
        if part.kind == "text" {
          total := total + ByteLen(part.text) / 4;
        } else if part.kind == "image_url" {
          total := total + INLINE_IMAGE_TOKENS;
        }
      }
      assert m.parts[..|m.parts|] == m.parts;
      for j := 0 to |m.calls|
        invariant total == before + ByteLen(m.content) / 4 + PartTokens(m.parts) + CallTokens(m.calls[..j])
      {
        assert m.calls[..j + 1][..j] == m.calls[..j];
        total := total + ByteLen(m.calls[j].args) / 4 + ByteLen(m.calls[j].name) / 4;
      }
      assert m.calls[..|m.calls|] == m.calls;
    }
    assert messages[..|messages|] == messages;
  }

  function PrunedMessage(m: Message): Message {
    if m.role == Tool && ByteLen(m.content) > 200
    then Message(Tool, TRUNCATED, [], [], m.callId, m.name, false)
    else m
  }

  /** Old large tool results are replaced by a placeholder; the recent messages stay. */
  function Pruned(h: seq<Message>): (r: seq<Message>)
    ensures |r| == |h|
    ensures forall i :: 0 <= i < |h| && |h| - PRUNE_TURN_AGE <= i ==> r[i] == h[i]
  {
    seq(|h|, i requires 0 <= i < |h| => if i < |h| - PRUNE_TURN_AGE then PrunedMessage(h[i]) else h[i])
  }

  method PruneOldToolResults(messages: seq<Message>) returns (result: seq<Message>)
    ensures result == Pruned(messages)
  {
    if |messages| <= PRUNE_TURN_AGE {
      return messages;
    }
    var cutoff := |messages| - PRUNE_TURN_AGE;
    result := messages;
    for i := 0 to cutoff
      invariant |result| == |messages|
      invariant forall j :: 0 <= j < i ==> result[j] == PrunedMessage(messages[j])
      invariant forall j :: i <= j < |messages| ==> result[j] == messages[j]
    {
      if result[i].role == Tool && ByteLen(result[i].content) > 200 {
        result := result[i := Message(Tool, TRUNCATED, [], [], result[i].callId, result[i].name, false)];
      }
    }
  }

  /** The first place at or after cutoff that is not a tool result. */
  function SafeCutoff(h: seq<Message>, cutoff: nat): (c: nat)
    requires cutoff <= |h|
    ensures cutoff <= c <= |h|
    ensures c == |h| || h[c].role != Tool
    ensures forall k :: cutoff <= k < c ==> h[k].role == Tool
    decreases |h| - cutoff
  {
    if cutoff < |h| && h[cutoff].role == Tool then SafeCutoff(h, cutoff + 1) else cutoff
  }

  method SafeCompactionCutoff(messages: seq<Message>, cutoff: int) returns (c: nat)
    requires cutoff <= |messages|
    ensures c == SafeCutoff(messages, if cutoff < 0 then 0 else cutoff)
  {
    c := if cutoff < 0 then 0 else cutoff;
    while c < |messages| && messages[c].role == Tool
      invariant c <= |messages|
      invariant SafeCutoff(messages, c) == SafeCutoff(messages, if cutoff < 0 then 0 else cutoff)
    {
      c := c + 1;
    }
  }

  /** The messages the summariser is asked to summarise; runtime-injected ones are left out. */
  function Transcript(older: seq<Message>): seq<Message> {
    if older == [] then []
    else
      var m := older[|older| - 1];
      Transcript(older[..|older| - 1]) + (if m.injected then [] else [m])
  }

  type Summariser = seq<Message> -> Option<string>

  /** One summary message, then the tail from the safe cutoff. */
  function Compressed(h: seq<Message>, summary: string): seq<Message>
    requires |h| > PRUNE_TURN_AGE
  {
    [Plain(User, SUMMARY_HEADER + summary)] + h[SafeCutoff(h, |h| - PRUNE_TURN_AGE)..]
  }

  /** What goes into the summary. */
  function Older(h: seq<Message>): seq<Message>
    requires |h| > PRUNE_TURN_AGE
  {
    h[..SafeCutoff(h, |h| - PRUNE_TURN_AGE)]
  }

  /** Step 2: None when the summariser fails. */
  function Compression(h: seq<Message>, summarise: Summariser): Option<seq<Message>> {
    if |h| <= PRUNE_TURN_AGE then Some(h)
    else
      match summarise(Transcript(Older(h)))
      case None => None
      case Some(summary) => Some(Compressed(h, summary))
  }

  /** `summarise` is the model call, None when it fails. */
  method CompressOlderMessages(messages: seq<Message>, summarise: Summariser) returns (result: Option<seq<Message>>)
    ensures result == Compression(messages, summarise)
  {
    if |messages| <= PRUNE_TURN_AGE {
      return Some(messages);
    }
    var cutoff := SafeCompactionCutoff(messages, |messages| - PRUNE_TURN_AGE);
    var older := messages[..cutoff];
    var text: seq<Message> := [];
    for i := 0 to cutoff
      invariant text == Transcript(older[..i])
    {
      assert older[..i + 1][..i] == older[..i];
      if !older[i].injected {
        text := text + [older[i]];
      }
    }
    assert older[..cutoff] == older;
    var reply := summarise(text);
    if reply.None? {
      return None;
    }
    return Some([Plain(User, SUMMARY_HEADER + reply.value)] + messages[cutoff..]);
  }

  function CompactSmall(small: seq<Message>, summarise: Summariser): seq<Message> {
    match Compression(small, summarise)
    case None => small
    case Some(c) => c
  }

  /** The compacted history as a function of the history and the summariser. */
  function Compacted(h: seq<Message>, summarise: Summariser): seq<Message> {
    if Tokens(h) < DEFAULT_TOKEN_THRESHOLD then h
    else if Tokens(Pruned(h)) < DEFAULT_TOKEN_THRESHOLD then Pruned(h)
    else CompactSmall(Pruned(h), summarise)
  }

  // ----- what compaction makes of a history, place by place

  /** Before the newest twenty messages each tool result over 200 bytes is cut, and nothing else changes. */
  predicate PrunesTo(h: seq<Message>, small: seq<Message>) {
    |small| == |h| &&
    forall i :: 0 <= i < |h| ==>
      if i < |h| - 20 && h[i].role == Tool && ByteLen(h[i].content) > 200
      then small[i] == Message(Tool, "[Result truncated - see memory logs]", [], [], h[i].callId, h[i].name, false)
      else small[i] == h[i]
  }

  /** What the summariser is asked to summarise: what is in front of c, runtime-injected messages left out. */
  ghost predicate AsksFor(h: seq<Message>, c: nat, asked: seq<Message>)
    requires c <= |h|
  {
    exists picks ::
      && Selects(h[..c], (m: Message) => !m.injected, picks) && |asked| == |picks|
      && forall i :: 0 <= i < |picks| ==> picks[i] < |h| && asked[i] == h[picks[i]]
  }

  /** c is the first place within the newest twenty messages, or past them, that is no tool result. */
  predicate CutsAt(h: seq<Message>, c: nat) {
    && |h| - 20 <= c <= |h| && (c < |h| ==> h[c].role != Tool)
    && forall i :: 0 <= |h| - 20 <= i < c ==> h[i].role == Tool
  }

  /** A summary in place of everything in front of c; the history as it is when there is no summary. */
  ghost predicate SummarisesTo(h: seq<Message>, summarise: Summariser, result: seq<Message>) {
    exists c: nat, asked: seq<Message> ::
      && CutsAt(h, c) && AsksFor(h, c, asked)
      && match summarise(asked)
         case None => result == h
         case Some(text) => result == [Message(User, "[Conversation Summary]\n" + text, [], [], "", "", false)] + h[c..]
  }

  ghost predicate CompactsTo(h: seq<Message>, summarise: Summariser, result: seq<Message>) {
    if Tokens(h) < 80000 then result == h
    else
      exists small :: PrunesTo(h, small) &&
        if Tokens(small) < 80000 || |small| <= 20 then result == small else SummarisesTo(small, summarise, result)
  }

  lemma {:induction false} TranscriptAsks(h: seq<Message>, c: nat) returns (picks: seq<nat>)
    requires c <= |h|
    ensures Selects(h[..c], (m: Message) => !m.injected, picks) && |Transcript(h[..c])| == |picks|
    ensures forall i :: 0 <= i < |picks| ==> picks[i] < |h| && Transcript(h[..c])[i] == h[picks[i]]
  {
    if c == 0 {
      picks := [];
    } else {
      picks := TranscriptAsks(h, c - 1);
      assert h[..c] == h[..c - 1] + [h[c - 1]];
      SelectsMore(h[..c - 1], (m: Message) => !m.injected, picks, h[c - 1]);
      picks := if h[c - 1].injected then picks else picks + [c - 1];
    }
  }

  lemma {:induction false} CompressionSummarises(h: seq<Message>, summarise: Summariser)
    requires |h| > PRUNE_TURN_AGE
    ensures SummarisesTo(h, summarise, CompactSmall(h, summarise))
  {
    var c := SafeCutoff(h, |h| - PRUNE_TURN_AGE);
    var picks := TranscriptAsks(h, c);
    assert CutsAt(h, c) && AsksFor(h, c, Transcript(Older(h)));
  }

  /** What `Compacted` is, told from the messages alone. */
  lemma {:induction false} CompactedMeaning(h: seq<Message>, summarise: Summariser)
    ensures CompactsTo(h, summarise, Compacted(h, summarise))
  {
    var small := Pruned(h);
    assert PrunesTo(h, small);
    if |small| > PRUNE_TURN_AGE {
      CompressionSummarises(small, summarise);
    }
  }

  method CompactMessages(messages: seq<Message>, summarise: Summariser)
    returns (result: seq<Message>, pruned: bool)
    ensures pruned <==> Tokens(messages) >= DEFAULT_TOKEN_THRESHOLD
    ensures result == Compacted(messages, summarise) && CompactsTo(messages, summarise, result)
  {
    CompactedMeaning(messages, summarise);
    var tokens := EstimateTokens(messages);
    if tokens < DEFAULT_TOKEN_THRESHOLD {
      return messages, false;
    }
    var small := PruneOldToolResults(messages);
    var after := EstimateTokens(small);
    if after < DEFAULT_TOKEN_THRESHOLD {
      return small, true;
    }
    var compressed := CompressOlderMessages(small, summarise);
    if compressed.None? {
      return small, true;
    }
    return compressed.value, true;
  }

  lemma PrunedPaired(h: seq<Message>)
    requires Paired(h)
    ensures Paired(Pruned(h))
  {
    PairedShape(h, Pruned(h));
  }

  lemma CompressedPaired(h: seq<Message>, summary: string)
    requires Paired(h) && |h| > PRUNE_TURN_AGE
    ensures Paired(Compressed(h, summary))
  {
    var cut := SafeCutoff(h, |h| - PRUNE_TURN_AGE);
    var head, tail := [Plain(User, SUMMARY_HEADER + summary)], h[cut..];
    PairedCut(h, cut);
    PairedInert(head);
    PairedConcat(head, tail);
  }

  lemma CompactSmallPaired(h: seq<Message>, summarise: Summariser)
    requires Paired(h)
    ensures Paired(CompactSmall(h, summarise))
  {
    if |h| > PRUNE_TURN_AGE {
      match summarise(Transcript(Older(h)))
      case None =>
      case Some(summary) => CompressedPaired(h, summary);
    }
  }

  /** Compaction keeps pairing, whatever the estimates and the summariser do. */
  lemma CompactedPaired(h: seq<Message>, summarise: Summariser)
    requires Paired(h)
    ensures Paired(Compacted(h, summarise))
  {
    PrunedPaired(h);
    CompactSmallPaired(Pruned(h), summarise);
  }

  /** How many of the newest messages compaction must leave alone. */
  function KeptCount(h: seq<Message>): (k: nat)
    ensures k <= |h| && k <= PRUNE_TURN_AGE
  {
    if |h| <= PRUNE_TURN_AGE then |h| else |h| - SafeCutoff(h, |h| - PRUNE_TURN_AGE)
  }

  predicate SameEnd(a: seq<Message>, b: seq<Message>, k: nat) {
    k <= |a| && k <= |b| && a[|a| - k..] == b[|b| - k..]
  }

  lemma {:induction false} SafeCutoffSame(a: seq<Message>, b: seq<Message>, cutoff: nat)
    requires cutoff <= |a| == |b| && forall i :: cutoff <= i < |a| ==> a[i] == b[i]
    ensures SafeCutoff(a, cutoff) == SafeCutoff(b, cutoff)
    decreases |a| - cutoff
  {
    if cutoff < |a| {
      SafeCutoffSame(a, b, cutoff + 1);
    }
  }

  lemma {:induction false} CompactSmallKeeps(h: seq<Message>, summarise: Summariser)
    ensures SameEnd(CompactSmall(h, summarise), h, KeptCount(h))
  {
    if |h| > PRUNE_TURN_AGE {
      var cut := SafeCutoff(h, |h| - PRUNE_TURN_AGE);
      match summarise(Transcript(Older(h)))
      case None =>
      case Some(summary) =>
        var c := Compressed(h, summary);
        assert c[|c| - KeptCount(h)..] == h[cut..];
    }
  }

  lemma {:induction false} PrunedKeeps(h: seq<Message>)
    ensures KeptCount(Pruned(h)) == KeptCount(h) && SameEnd(Pruned(h), h, KeptCount(h))
  {
    if |h| > PRUNE_TURN_AGE {
      SafeCutoffSame(h, Pruned(h), |h| - PRUNE_TURN_AGE);
    }
    forall i | |h| - KeptCount(h) <= i < |h| ensures Pruned(h)[i] == h[i] {}
  }

  /** A history of at most PRUNE_TURN_AGE messages, or a longer one's from the safe cutoff on, is kept as it is. */
  lemma {:induction false} CompactedKeepsTail(h: seq<Message>, summarise: Summariser)
    ensures SameEnd(Compacted(h, summarise), h, KeptCount(h))
  {
    PrunedKeeps(h);
    CompactSmallKeeps(Pruned(h), summarise);
  }

  /**
   * Without the cutoff's step past results, compression would orphan one: here the window of
   * PRUNE_TURN_AGE messages starts at the result of a call that went into the summary.
   */
  lemma UnsafeCutoffOrphans(call: ToolCall, filler: Message, summary: string)
    requires filler.role == User
    ensures var h := [Message(Assistant, "", [], [call], "", "", false), ToolResult(call, "")]
                     + seq(PRUNE_TURN_AGE - 1, i => filler);
            && Paired(h)
            && !Paired([Plain(User, SUMMARY_HEADER + summary)] + h[|h| - PRUNE_TURN_AGE..])
            && Paired(Compressed(h, summary))
  {
    var asst := Message(Assistant, "", [], [call], "", "", false);
    var rest := seq(PRUNE_TURN_AGE - 1, i => filler);
    var round := [asst, ToolResult(call, "")];
    var h := round + rest;
    assert round == [asst] + [ToolResult(call, "")];
    PairedRound(asst, [ToolResult(call, "")]);
    PairedInert(rest);
    PairedConcat(round, rest);
    var bad := [Plain(User, SUMMARY_HEADER + summary)] + h[|h| - PRUNE_TURN_AGE..];
    assert bad[1] == h[1] && bad[1].role == Tool;
    assert !Owns(bad, 0, 1);
    assert SafeCutoff(h, 1) == 2;
    PairedCut(h, 2);
    PairedInert([Plain(User, SUMMARY_HEADER + summary)]);
    PairedConcat([Plain(User, SUMMARY_HEADER + summary)], h[2..]);
  }
}
