/** Runs over a session: any sequence of turns and history-editing slash commands. */
module SessionRuns {
  import opened Wrappers
  import opened Messages
  import opened Sessions
  import opened Compaction
  import opened ImageContext
  import opened ToolRounds
  import opened TurnLoop

  datatype Op = Turn(user: Message, env: Env) | Compact(summarise: Summariser) | Retry | Undo

  ghost predicate OpOk(op: Op) {
    op.Turn? ==> Wellbehaved(op.env) && op.user.role == User
  }

  /** The history and what /undo would restore are both paired. */
  ghost predicate Healthy(sess: Session)
    reads sess
  {
    Paired(sess.messages) && (sess.snapshot.Some? ==> Paired(sess.snapshot.value))
  }

  predicate NoUserFrom(h: seq<Message>, k: nat) {
    forall j :: k <= j < |h| ==> h[j].role != User
  }

  /** /retry: snapshot, then cut the history in front of the newest user message. */
  method SlashRetry(sess: Session) returns (text: Option<string>)
    requires Idle(sess)
    modifies sess`messages, sess`snapshot
    ensures Idle(sess) && (old(Healthy(sess)) ==> Healthy(sess))
    ensures text.None? ==> sess.messages == old(sess.messages) && sess.snapshot == old(sess.snapshot)
    ensures text.None? ==> NoUserFrom(sess.messages, 0)
    ensures text.Some? ==>
              && sess.snapshot == Some(old(sess.messages))
              && sess.messages < old(sess.messages)
              && old(sess.messages)[|sess.messages|].role == User
              && old(sess.messages)[|sess.messages|].content == text.value
              && NoUserFrom(old(sess.messages), |sess.messages| + 1)
  {
    var msgs := sess.messages;
    var at := LastUser(msgs);
    if at < 0 {
      return None;
    }
    sess.Snapshot();
    if Paired(msgs) {
      PairedCut(msgs, at);
    }
    sess.ReplaceMessages(msgs[..at]);
    text := Some(msgs[at].content);
  }

  method LastUser(msgs: seq<Message>) returns (at: int)
    ensures -1 <= at < |msgs| && NoUserFrom(msgs, at + 1)
    ensures at >= 0 ==> msgs[at].role == User
  {
    at := |msgs| - 1;
    while at >= 0 && msgs[at].role != User
      invariant -1 <= at < |msgs|
      invariant NoUserFrom(msgs, at + 1)
    {
      at := at - 1;
    }
  }

  /**
   * Cutting h at c drops at most one user message and, after it, assistant messages only; and as many of
   * them as there are: what is left in front of a cut without a user message ends in neither.
   */
  predicate IsUndoCut(h: seq<Message>, c: nat) {
    && c <= |h| && (forall k :: c < k < |h| ==> h[k].role == Assistant)
    && (c < |h| ==> h[c].role == User || h[c].role == Assistant)
    && ((c < |h| && h[c].role == User) || c == 0 || (h[c - 1].role != User && h[c - 1].role != Assistant))
  }

  /** There is only one such cut. */
  lemma UndoCutUnique(h: seq<Message>, c: nat, d: nat)
    requires IsUndoCut(h, c) && IsUndoCut(h, d)
    ensures c == d
  {
  }

  /** /undo: the snapshot when there is one, else drop the trailing replies and the message they answer. */
  method SlashUndo(sess: Session) returns (done: bool)
    requires Idle(sess)
    modifies sess`messages, sess`snapshot
    ensures Idle(sess) && sess.snapshot == None && (old(Healthy(sess)) ==> Healthy(sess))
    ensures old(sess.snapshot).Some? ==> done && sess.messages == old(sess.snapshot).value
    ensures old(sess.snapshot).None? ==>
              && sess.messages <= old(sess.messages)
              && (done <==> |old(sess.messages)| >= 2)
              && (!done ==> sess.messages == old(sess.messages))
              && (done ==> IsUndoCut(old(sess.messages), |sess.messages|))
  {
    if sess.snapshot.Some? {
      done := sess.Undo();
      return;
    }
    var msgs := sess.messages;
    if |msgs| < 2 {
      return false;
    }
    var end := |msgs|;
    while end > 0 && msgs[end - 1].role == Assistant
      invariant 0 <= end <= |msgs|
      invariant end < |msgs| ==> msgs[end].role == Assistant
      invariant forall k :: end <= k < |msgs| ==> msgs[k].role == Assistant
    {
      end := end - 1;
    }
    if end > 0 && msgs[end - 1].role == User {
      end := end - 1;
    }
    if Paired(msgs) {
      PairedCut(msgs, end);
    }
    sess.ReplaceMessages(msgs[..end]);
    done := true;
  }

  lemma CompactedHealthy(h: seq<Message>, summarise: Summariser)
    ensures Paired(h) ==> Paired(Compacted(h, summarise))
  {
    if Paired(h) {
      CompactedPaired(h, summarise);
    }
  }

  /** /compact. */
  method SlashCompact(sess: Session, summarise: Summariser)
    requires Idle(sess)
    modifies sess`messages
    ensures Idle(sess) && sess.messages == Compacted(old(sess.messages), summarise)
    ensures old(Healthy(sess)) ==> Healthy(sess)
  {
    if |sess.messages| == 0 {
      assert Tokens(sess.messages) == 0;
      return;
    }
    CompactedHealthy(sess.messages, summarise);
    ReplaceCompacted(sess, summarise);
  }

  /** Every turn among the first n was left with usable ids. */
  ghost predicate UsableSoFar(lefts: seq<seq<Message>>, n: nat)
    requires n <= |lefts|
  {
    forall k :: 0 <= k < n ==> UsableIdsIn(lefts[k])
  }

  /** Up to and including the first turn left with unusable ids, every turn sends paired requests only. */
  ghost predicate RunOk(sent: seq<seq<Request>>, lefts: seq<seq<Message>>) {
    |sent| == |lefts| && forall k :: 0 <= k < |sent| && UsableSoFar(lefts, k) ==> AllPaired(sent[k])
  }

  lemma {:induction false} RunOkStep(sent: seq<seq<Request>>, lefts: seq<seq<Message>>, requests: seq<Request>,
                                     left: seq<Message>)
    requires RunOk(sent, lefts) && (UsableSoFar(lefts, |lefts|) ==> AllPaired(requests))
    ensures RunOk(sent + [requests], lefts + [left])
    ensures UsableSoFar(lefts + [left], |lefts| + 1) <==> UsableSoFar(lefts, |lefts|) && UsableIdsIn(left)
  {
    var all := lefts + [left];
    assert forall k :: 0 <= k < |lefts| ==> all[k] == lefts[k];
    assert all[|lefts|] == left;
    forall k | 0 <= k < |sent| + 1 && UsableSoFar(all, k) ensures AllPaired((sent + [requests])[k]) {
      assert UsableSoFar(lefts, k);
    }
  }

  /**
   * Any sequence of turns and slash commands on a new session, for any replies at all: turn k sends
   * only paired requests as long as every turn before it was left with usable ids, and while that is
   * so the history and the snapshot stay paired.
   */
  method RunSession(ops: seq<Op>) returns (sess: Session, sent: seq<seq<Request>>, ghost lefts: seq<seq<Message>>)
    requires forall k :: 0 <= k < |ops| ==> OpOk(ops[k])
    ensures fresh(sess) && Idle(sess) && RunOk(sent, lefts)
    ensures UsableSoFar(lefts, |lefts|) ==> Healthy(sess)
  {
    sess := new Session();
    sent, lefts := [], [];
    for k := 0 to |ops|
      invariant fresh(sess) && Idle(sess) && RunOk(sent, lefts)
      invariant UsableSoFar(lefts, |lefts|) ==> Healthy(sess)
    {
      match ops[k]
      case Turn(user, env) =>
        var requests, final, end;
        ghost var left, base, leftover;
        requests, final, end, left, base, leftover := HandleMessage(sess, user, env);
        RunOkStep(sent, lefts, Sent(requests, final), left);
        sent, lefts := sent + [Sent(requests, final)], lefts + [left];
      case Compact(summarise) => SlashCompact(sess, summarise);
      case Retry => var _ := SlashRetry(sess);
      case Undo => var _ := SlashUndo(sess);
    }
  }

  /** A paired history stays paired without the messages around it that neither call nor answer. */
  lemma {:induction false} PairedMiddle(a: seq<Message>, h: seq<Message>, s: seq<Message>)
    requires Paired(a + (h + s)) && Inert(a) && s != [] && s[0].role != Tool
    ensures Paired(h)
  {
    var q := a + (h + s);
    forall i | 0 <= i < |a| ensures !Owns(q, i, |a|) {
      assert q[i] == a[i];
    }
    PairedCut(q, |a|);
    assert q[|a|..] == h + s;
    PairedBefore(h, s);
  }

  /**
   * What an unpaired history leads to: unless compaction steps in, the first request of the next turn
   * is unpaired, whatever the user says.
   */
  lemma {:induction false} UnpairedShows(env: Env, h: seq<Message>, user: Message, q: Request)
    requires Wellbehaved(env) && user.role == User && !Paired(h)
    requires OpenedWith(h, user, env) == h + [user]
    requires FirstMessages(h + [user], env) <= q.messages
    ensures !Paired(q.messages)
  {
    var n, recent := |env.preamble|, Recent(h + [user]);
    RecentShape(h + [user]);
    var same, rest := recent[..|h|], q.messages[n + |h|..];
    assert recent == same + [recent[|h|]];
    assert q.messages == env.preamble + (same + rest);
    assert rest[0] == recent[|h|];
    if Paired(same) {
      PairedShape(same, h);
    }
    if Paired(q.messages) {
      PairedMiddle(env.preamble, same, rest);
    }
  }
}
