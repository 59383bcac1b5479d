/** Conversation messages, and what it means for tool calls and results to be paired. */
module Messages {
  import opened Wrappers

  datatype Role = User | Assistant | System | Tool

  datatype ToolCall = ToolCall(id: string, name: string, args: string)

  /** One part of a multimodal message; `url` is None when there is no image_url object. */
  datatype Part = Part(kind: string, text: string, url: Option<string>)

  datatype Message = Message(
    role: Role, content: string, parts: seq<Part>, calls: seq<ToolCall>,
    callId: string, name: string, injected: bool)

  function Plain(role: Role, content: string): Message {
    Message(role, content, [], [], "", "", false)
  }

  function ToolResult(call: ToolCall, content: string): Message {
    Message(Tool, content, [], [], call.id, call.name, false)
  }

  predicate Calling(m: Message) {
    m.role == Assistant && m.calls != []
  }

  predicate Answers(m: Message, call: ToolCall) {
    m.role == Tool && m.callId == call.id && m.name == call.name
  }

  /** The calling message at i is followed directly by one result per call, in call order. */
  predicate Answered(h: seq<Message>, i: nat)
    requires i < |h|
  {
    && i + |h[i].calls| < |h|
    && forall j :: 0 <= j < |h[i].calls| ==> Answers(h[i + 1 + j], h[i].calls[j])
  }

  /** k lies in the run of results that belongs to the calling message at i. */
  predicate Owns(h: seq<Message>, i: nat, k: nat)
    requires i < |h|
  {
    Calling(h[i]) && i < k <= i + |h[i].calls|
  }

  /** Every call is answered in place, and no result lacks its call. */
  ghost predicate Paired(h: seq<Message>) {
    && (forall i :: 0 <= i < |h| && Calling(h[i]) ==> Answered(h, i))
    && (forall k :: 0 <= k < |h| && h[k].role == Tool ==> exists i :: 0 <= i < k && Owns(h, i, k))
  }

  /** What the pairing of one message depends on. */
  predicate SameShape(a: Message, b: Message) {
    a.role == b.role && (a.role == Tool || a.calls == b.calls) && a.callId == b.callId && a.name == b.name
  }

  lemma {:induction false} PairedConcat(p: seq<Message>, s: seq<Message>)
    requires Paired(p) && Paired(s)
    ensures Paired(p + s)
  {
    var h := p + s;
    forall i | 0 <= i < |h| && Calling(h[i])
      ensures Answered(h, i)
    {
      if i < |p| {
        assert Answered(p, i);
        forall j | 0 <= j < |h[i].calls| ensures Answers(h[i + 1 + j], h[i].calls[j]) {
          assert Answers(p[i + 1 + j], p[i].calls[j]);
        }
      } else {
        assert Answered(s, i - |p|);
        forall j | 0 <= j < |h[i].calls| ensures Answers(h[i + 1 + j], h[i].calls[j]) {
          assert Answers(s[i - |p| + 1 + j], s[i - |p|].calls[j]);
        }
      }
    }
    forall k | 0 <= k < |h| && h[k].role == Tool
      ensures exists i :: 0 <= i < k && Owns(h, i, k)
    {
      if k < |p| {
        var i :| 0 <= i < k && Owns(p, i, k);
        assert Owns(h, i, k);
      } else {
        var i :| 0 <= i < k - |p| && Owns(s, i, k - |p|);
        assert Owns(h, |p| + i, k);
      }
    }
  }

  lemma OwnedIsTool(h: seq<Message>, i: nat, k: nat)
    requires i < |h| && Answered(h, i)
    ensures i < k <= i + |h[i].calls| ==> k < |h| && h[k].role == Tool
  {
    if i < k <= i + |h[i].calls| {
      assert Answers(h[i + 1 + (k - i - 1)], h[i].calls[k - i - 1]);
    }
  }

  /** Pairing survives a cut anywhere but in front of a tool result. */
  lemma {:induction false} PairedCut(h: seq<Message>, n: nat)
    requires Paired(h) && n <= |h|
    requires n == |h| || h[n].role != Tool
    ensures Paired(h[..n]) && Paired(h[n..])
  {
    var p, s := h[..n], h[n..];
    forall i | 0 <= i < n && Calling(p[i])
      ensures Answered(p, i)
    {
      assert Answered(h, i);
      OwnedIsTool(h, i, n);
      forall j | 0 <= j < |p[i].calls| ensures Answers(p[i + 1 + j], p[i].calls[j]) {
        assert Answers(h[i + 1 + j], h[i].calls[j]);
      }
    }
    forall i | 0 <= i < |s| && Calling(s[i])
      ensures Answered(s, i)
    {
      assert Answered(h, n + i);
      forall j | 0 <= j < |s[i].calls| ensures Answers(s[i + 1 + j], s[i].calls[j]) {
        assert Answers(h[n + i + 1 + j], h[n + i].calls[j]);
      }
    }
    forall k | 0 <= k < n && p[k].role == Tool
      ensures exists i :: 0 <= i < k && Owns(p, i, k)
    {
      var i :| 0 <= i < k && Owns(h, i, k);
      assert Owns(p, i, k);
    }
    forall k | 0 <= k < |s| && s[k].role == Tool
      ensures exists i :: 0 <= i < k && Owns(s, i, k)
    {
      var i :| 0 <= i < n + k && Owns(h, i, n + k);
      OwnedIsTool(h, i, n);
      assert Owns(s, i - n, k);
    }
  }

  lemma {:induction false} PairedShape(a: seq<Message>, b: seq<Message>)
    requires Paired(a) && |a| == |b|
    requires forall i :: 0 <= i < |a| ==> SameShape(a[i], b[i])
    ensures Paired(b)
  {
    forall i | 0 <= i < |b| && Calling(b[i])
      ensures Answered(b, i)
    {
      assert SameShape(a[i], b[i]);
      assert Answered(a, i);
      forall j | 0 <= j < |b[i].calls| ensures Answers(b[i + 1 + j], b[i].calls[j]) {
        assert Answers(a[i + 1 + j], a[i].calls[j]);
        assert SameShape(a[i + 1 + j], b[i + 1 + j]);
      }
    }
    forall k | 0 <= k < |b| && b[k].role == Tool
      ensures exists i :: 0 <= i < k && Owns(b, i, k)
    {
      assert SameShape(a[k], b[k]);
      var i :| 0 <= i < k && Owns(a, i, k);
      assert SameShape(a[i], b[i]);
      assert Owns(b, i, k);
    }
  }

  /** Messages that neither call nor answer. */
  predicate Inert(s: seq<Message>) {
    forall i :: 0 <= i < |s| ==> s[i].role != Tool && !Calling(s[i])
  }

  lemma PairedInert(s: seq<Message>)
    requires Inert(s)
    ensures Paired(s)
  {
  }

  lemma PairedExtend(h: seq<Message>, s: seq<Message>)
    requires Paired(h) && Inert(s)
    ensures Paired(h + s)
  {
    PairedInert(s);
    PairedConcat(h, s);
  }

  /** What precedes a message other than a result has to be paired on its own. */
  lemma PairedBefore(h: seq<Message>, s: seq<Message>)
    requires Paired(h + s) && (s == [] || s[0].role != Tool)
    ensures Paired(h)
  {
    PairedCut(h + s, |h|);
    assert (h + s)[..|h|] == h;
  }

  /** One complete round is paired on its own. */
  lemma {:induction false} PairedRound(asst: Message, results: seq<Message>)
    requires Calling(asst) && |results| == |asst.calls|
    requires forall j :: 0 <= j < |results| ==> Answers(results[j], asst.calls[j])
    ensures Paired([asst] + results)
  {
    var h := [asst] + results;
    assert forall j :: 1 <= j < |h| ==> Answers(h[j], asst.calls[j - 1]);
    assert forall j :: 0 <= j < |asst.calls| ==> Answers(h[0 + 1 + j], h[0].calls[j]);
    assert Answered(h, 0);
    forall k | 0 <= k < |h| && h[k].role == Tool
      ensures exists i :: 0 <= i < k && Owns(h, i, k)
    {
      assert Owns(h, 0, k);
    }
  }

  // ----- what was added from a position on

  /** What h holds from position base on is paired by itself. */
  ghost predicate PairedFrom(h: seq<Message>, base: nat) {
    base <= |h| && Paired(h[base..])
  }

  lemma PairedFromWhole(h: seq<Message>, base: nat)
    requires PairedFrom(h, base) && Paired(h[..base])
    ensures Paired(h)
  {
    PairedConcat(h[..base], h[base..]);
    assert h == h[..base] + h[base..];
  }

  lemma PairedFromExtend(h: seq<Message>, base: nat, s: seq<Message>)
    requires PairedFrom(h, base) && Inert(s)
    ensures PairedFrom(h + s, base)
  {
    PairedExtend(h[base..], s);
    assert (h + s)[base..] == h[base..] + s;
  }

  /** The messages of the given roles from position base on, in order. */
  function Picked(h: seq<Message>, base: nat, roles: set<Role>): seq<Message> {
    if |h| <= base then []
    else Picked(h[..|h| - 1], base, roles) + (if h[|h| - 1].role in roles then [h[|h| - 1]] else [])
  }

  lemma {:induction false} PickedStep(h: seq<Message>, base: nat, roles: set<Role>, m: Message)
    requires base <= |h|
    ensures Picked(h + [m], base, roles) == Picked(h, base, roles) + (if m.role in roles then [m] else [])
  {
    assert (h + [m])[..|h|] == h;
  }

  lemma {:induction false} PickedAll(h: seq<Message>, base: nat, roles: set<Role>, s: seq<Message>)
    requires base <= |h| && forall i :: 0 <= i < |s| ==> s[i].role in roles
    ensures Picked(h + s, base, roles) == Picked(h, base, roles) + s
  {
    if s == [] {
      assert h + s == h;
    } else {
      var n := |s| - 1;
      PickedAll(h, base, roles, s[..n]);
      PickedStep(h + s[..n], base, roles, s[n]);
      assert h + s == h + s[..n] + [s[n]];
      assert s == s[..n] + [s[n]];
    }
  }

  lemma {:induction false} PickedNone(h: seq<Message>, base: nat, roles: set<Role>, s: seq<Message>)
    requires base <= |h| && forall i :: 0 <= i < |s| ==> s[i].role !in roles
    ensures Picked(h + s, base, roles) == Picked(h, base, roles)
  {
    if s == [] {
      assert h + s == h;
    } else {
      var n := |s| - 1;
      PickedNone(h, base, roles, s[..n]);
      PickedStep(h + s[..n], base, roles, s[n]);
      assert h + s == h + s[..n] + [s[n]];
    }
  }

  /** The user's messages from position base on. */
  function UsersFrom(h: seq<Message>, base: nat): seq<Message> {
    Picked(h, base, {User})
  }

  /** What the model said and the tools returned from position base on. */
  function WorkFrom(h: seq<Message>, base: nat): seq<Message> {
    Picked(h, base, {Assistant, Tool})
  }

  /** Everything but the user's messages from position base on. */
  function TalkFrom(h: seq<Message>, base: nat): seq<Message> {
    Picked(h, base, {Assistant, Tool, System})
  }

  /** The user's messages from base on that come before the work's k-th message, all of them if there is none. */
  function UsersBefore(h: seq<Message>, base: nat, k: nat): seq<Message> {
    if |h| <= base || |WorkFrom(h, base)| <= k then UsersFrom(h, base)
    else UsersBefore(h[..|h| - 1], base, k)
  }

  /** Work comes first among what is added. */
  predicate WorkFirst(s: seq<Message>) {
    s == [] || s[0].role == Assistant || s[0].role == Tool
  }

  /** What is added, work first, does not change what stood before earlier work. */
  lemma {:induction false} UsersBeforeKept(h: seq<Message>, base: nat, s: seq<Message>, k: nat)
    requires base <= |h| && WorkFirst(s) && k <= |WorkFrom(h, base)|
    ensures UsersBefore(h + s, base, k) == UsersBefore(h, base, k)
    ensures s != [] ==> |WorkFrom(h + s, base)| > |WorkFrom(h, base)|
  {
    if s == [] {
      assert h + s == h;
    } else {
      var n := |s| - 1;
      UsersBeforeKept(h, base, s[..n], k);
      PickedStep(h + s[..n], base, {Assistant, Tool}, s[n]);
      assert h + s == h + s[..n] + [s[n]];
      assert (h + s)[..|h + s| - 1] == h + s[..n];
      if n == 0 {
        assert h + s[..0] == h;
      }
    }
  }
}
