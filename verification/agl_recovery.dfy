/** Which permission request is recovered from a session's history: the newest one still open. */
module AglRecovery {
  import opened AglStream
  import opened AglTales

  /** Request id, asked at j and left to the chat, has not been resolved since. */
  predicate OpenAt(envs: seq<Envelope>, j: nat)
    requires j < |envs|
  {
    && envs[j].event.PermissionRequest? && !envs[j].event.decided && envs[j].event.request != ""
    && forall i :: j < i < |envs| ==> envs[i].event != PermissionResolved(envs[j].event.request)
  }

  /** The open requests asked after start and before m, in order. */
  function OpenRequests(envs: seq<Envelope>, start: nat, m: nat): seq<string>
    requires start < m <= |envs|
    decreases m
  {
    if m == start + 1 then []
    else OpenRequests(envs, start, m - 1) + IfOpen(envs, m - 1)
  }

  function IfOpen(envs: seq<Envelope>, j: nat): seq<string>
    requires j < |envs|
  {
    if OpenAt(envs, j) then [envs[j].event.request] else []
  }

  /** No request id is asked twice after start. */
  predicate AskedOnce(envs: seq<Envelope>, start: nat) {
    forall i, j :: start < i < j < |envs| && envs[i].event.PermissionRequest? && envs[j].event.PermissionRequest? ==>
                     envs[i].event.request != envs[j].event.request
  }

  lemma {:induction false} OpenAreAsked(envs: seq<Envelope>, start: nat, m: nat, k: nat) returns (j: nat)
    requires start < m <= |envs| && k < |OpenRequests(envs, start, m)|
    ensures start < j < m && envs[j].event == PermissionRequest(OpenRequests(envs, start, m)[k], false)
    decreases m
  {
    if k < |OpenRequests(envs, start, m - 1)| {
      j := OpenAreAsked(envs, start, m - 1, k);
    } else {
      j := m - 1;
    }
  }

  lemma {:induction false} RemoveLast(ids: seq<string>, last: string, id: string)
    requires last != id || id !in ids
    ensures WithoutFirst(ids + [last], id) == if last == id then ids else WithoutFirst(ids, id) + [last]
  {
    var more := ids + [last];
    if ids == [] {
      assert more[1..] == [];
    } else {
      assert more[0] == ids[0] && more[1..] == ids[1..] + [last];
      if ids[0] != id {
        RemoveLast(ids[1..], last, id);
        assert last == id ==> [ids[0]] + ids[1..] == ids;
        assert last != id ==> [ids[0]] + (WithoutFirst(ids[1..], id) + [last]) == ([ids[0]] + WithoutFirst(ids[1..], id)) + [last];
      } else {
        assert last != id;
      }
    }
  }

  lemma {:induction false} NotOpenBefore(envs: seq<Envelope>, start: nat, m: nat)
    requires start < m < |envs| - 1 && AskedOnce(envs, start) && envs[m].event.PermissionRequest?
    ensures envs[m].event.request !in OpenRequests(envs[..|envs| - 1], start, m)
  {
    var front := envs[..|envs| - 1];
    var before := OpenRequests(front, start, m);
    forall k | 0 <= k < |before|
      ensures before[k] != envs[m].event.request
    {
      var j := OpenAreAsked(front, start, m, k);
      assert envs[j] == front[j];
    }
  }

  /** Taking a resolved request out of a list whose last request, if any, is new to it. */
  lemma {:induction false} WithoutTail(a: seq<string>, t: seq<string>, id: string)
    requires |t| <= 1 && (t != [] ==> t[0] !in a)
    ensures WithoutFirst(a + t, id) == WithoutFirst(a, id) + (if t == [id] then [] else t)
  {
    if t == [] {
      assert a + t == a && WithoutFirst(a, id) + t == WithoutFirst(a, id);
    } else {
      assert t == [t[0]];
      if t[0] == id {
        WithoutAbsent(a, id);
        assert a + [] == a;
      }
      RemoveLast(a, t[0], id);
    }
  }

  /** What one more entry leaves of a list of open requests. */
  function AfterEntry(open: seq<string>, e: Event): seq<string> {
    if e.PermissionResolved? then WithoutFirst(open, e.request) else open
  }

  lemma AfterTail(a: seq<string>, t: seq<string>, e: Event)
    requires |t| <= 1 && (t != [] ==> t[0] !in a)
    ensures AfterEntry(a + t, e) == AfterEntry(a, e) + (if e.PermissionResolved? && t == [e.request] then [] else t)
  {
    if e.PermissionResolved? {
      WithoutTail(a, t, e.request);
    }
  }

  /** One more entry: a resolution takes its request out, any other entry leaves the earlier requests open. */
  lemma {:induction false} OpenNext(envs: seq<Envelope>, start: nat, m: nat)
    requires envs != [] && start < m <= |envs| - 1 && AskedOnce(envs, start)
    ensures OpenRequests(envs, start, m) == AfterEntry(OpenRequests(envs[..|envs| - 1], start, m), envs[|envs| - 1].event)
    decreases m
  {
    var front, e := envs[..|envs| - 1], envs[|envs| - 1].event;
    if m > start + 1 {
      OpenNext(envs, start, m - 1);
      OpenTail(envs, start, m - 1);
      OpenLater(envs, m - 1);
      assert OpenRequests(envs, start, m) == OpenRequests(envs, start, m - 1) + IfOpen(envs, m - 1);
      assert OpenRequests(front, start, m) == OpenRequests(front, start, m - 1) + IfOpen(front, m - 1);
    }
  }

  /** What the last entry leaves of the requests up to m is what it leaves of the earlier ones and of the one at m. */
  lemma {:induction false} OpenTail(envs: seq<Envelope>, start: nat, m: nat)
    requires envs != [] && start < m < |envs| - 1 && AskedOnce(envs, start)
    ensures var front, e := envs[..|envs| - 1], envs[|envs| - 1].event;
            var before, last := OpenRequests(front, start, m), IfOpen(front, m);
            AfterEntry(before + last, e) ==
            AfterEntry(before, e) + (if e.PermissionResolved? && last == [e.request] then [] else last)
  {
    var front, e := envs[..|envs| - 1], envs[|envs| - 1].event;
    OpenLater(envs, m);
    if OpenAt(front, m) {
      NotOpenBefore(envs, start, m);
    }
    AfterTail(OpenRequests(front, start, m), IfOpen(front, m), e);
  }

  lemma OpenLater(envs: seq<Envelope>, j: nat)
    requires j < |envs| - 1
    ensures var front, e := envs[..|envs| - 1], envs[|envs| - 1].event;
            && IfOpen(envs, j) == (if e.PermissionResolved? && IfOpen(front, j) == [e.request] then [] else IfOpen(front, j))
            && front[j] == envs[j]
  {
    var front := envs[..|envs| - 1];
    assert forall i :: 0 <= i < |front| ==> front[i] == envs[i];
  }

  /** The request an entry opens, if it opens one. */
  function Opened(e: Event): seq<string> {
    if e.PermissionRequest? && !e.decided && e.request != "" then [e.request] else []
  }

  lemma LastOpen(envs: seq<Envelope>)
    requires envs != []
    ensures IfOpen(envs, |envs| - 1) == Opened(envs[|envs| - 1].event)
  {
  }

  lemma StepOpens(turn: string, pending: seq<string>, e: Event)
    requires turn != "" && !Boundary(e)
    ensures PendingStep(turn, pending, e) == AfterEntry(pending, e) + Opened(e)
  {
    assert AfterEntry(pending, e) + [] == AfterEntry(pending, e);
  }

  /** The scan's next pending requests, told by the last entry alone, while the turn runs on. */
  lemma {:induction false} PendingOne(envs: seq<Envelope>)
    requires envs != [] && !Boundary(envs[|envs| - 1].event) && ScanOf(envs[..|envs| - 1]).tale.turn != ""
    ensures ScanOf(envs).pending ==
            AfterEntry(ScanOf(envs[..|envs| - 1]).pending, envs[|envs| - 1].event) + IfOpen(envs, |envs| - 1)
  {
    LastOpen(envs);
    var front := ScanOf(envs[..|envs| - 1]);
    StepOpens(front.tale.turn, front.pending, envs[|envs| - 1].event);
  }

  /** With every request asked once, the scan's pending requests are exactly the open ones, in order. */
  lemma {:induction false} PendingIsOpen(envs: seq<Envelope>, start: nat)
    requires start < |envs| && RunningSince(Events(envs), start, |envs|, ScanOf(envs).tale.turn)
    requires ScanOf(envs).tale.turn != "" && AskedOnce(envs, start)
    ensures ScanOf(envs).pending == OpenRequests(envs, start, |envs|)
    decreases |envs|
  {
    var n := |envs|;
    if start < n - 1 {
      var front := envs[..n - 1];
      FrontRuns(envs, start);
      FrontAskedOnce(envs, start);
      PendingIsOpen(front, start);
      OpenNext(envs, start, n - 1);
      PendingOne(envs);
    } else {
      assert Events(envs)[start] == envs[start].event;
    }
  }

  lemma FrontAskedOnce(envs: seq<Envelope>, start: nat)
    requires envs != [] && AskedOnce(envs, start)
    ensures AskedOnce(envs[..|envs| - 1], start)
  {
  }

  /** What is recovered is the newest open request of the running turn, and it is recovered whenever there is one. */
  lemma {:induction false} RecoversNewestOpen(envs: seq<Envelope>, start: nat)
    requires start < |envs| && AskedOnce(envs, start) && ScanOf(envs).tale.turn != "" && ScanOf(envs).session != ""
    requires RunningSince(Events(envs), start, |envs|, ScanOf(envs).tale.turn)
    ensures var open := OpenRequests(envs, start, |envs|);
            && (Recover(envs).Some? <==> open != [])
            && (open != [] ==> Recover(envs).value.request == open[|open| - 1])
  {
    PendingIsOpen(envs, start);
  }
}
