/** Taking over a running turn from its agl session's history after a restart. */
module AglStream {
  import opened Wrappers
  import opened Text
  import opened AglTales

  // ----- recovering a permission request from the history

  datatype Envelope = Envelope(session: string, event: Event)

  datatype Scan = Scan(session: string, tale: Tale, pending: seq<string>)

  datatype Recovered = Recovered(session: string, turn: string, request: string, text: string)

  function WithoutFirst(ids: seq<string>, id: string): seq<string> {
    if ids == [] then [] else if ids[0] == id then ids[1..] else [ids[0]] + WithoutFirst(ids[1..], id)
  }

  function PendingStep(turn: string, pending: seq<string>, e: Event): seq<string> {
    match e
    case TurnStarted(_) => []
    case TurnEnded(_, _) => []
    case PermissionRequest(request, decided) =>
      if turn != "" && request != "" && !decided then pending + [request] else pending
    case PermissionResolved(request) => WithoutFirst(pending, request)
    case _ => pending
  }

  function ScanStep(s: Scan, env: Envelope): Scan {
    Scan(if env.session != "" then env.session else s.session, Tell(s.tale, env.event),
         PendingStep(s.tale.turn, s.pending, env.event))
  }

  function ScanOf(envs: seq<Envelope>): Scan {
    if envs == [] then Scan("", Tale("", ""), []) else ScanStep(ScanOf(envs[..|envs| - 1]), envs[|envs| - 1])
  }

  function Recover(envs: seq<Envelope>): Option<Recovered> {
    var s := ScanOf(envs);
    if s.tale.turn == "" || s.pending == [] || s.session == "" then None
    else Some(Recovered(s.session, s.tale.turn, s.pending[|s.pending| - 1], s.tale.text))
  }

  lemma DropAgain(ids: seq<string>, i: nat)
    requires 0 < i < |ids|
    ensures [ids[0]] + (ids[1..][..i - 1] + ids[1..][i..]) == ids[..i] + ids[i + 1..]
  {
  }

  lemma {:induction false} WithoutFirstAt(ids: seq<string>, id: string, i: nat)
    requires i < |ids| && ids[i] == id && forall k :: 0 <= k < i ==> ids[k] != id
    ensures WithoutFirst(ids, id) == ids[..i] + ids[i + 1..]
  {
    if i == 0 {
      assert ids[..0] + ids[1..] == ids[1..];
    } else {
      WithoutFirstAt(ids[1..], id, i - 1);
      DropAgain(ids, i);
    }
  }

  lemma {:induction false} WithoutAbsent(ids: seq<string>, id: string)
    requires id !in ids
    ensures WithoutFirst(ids, id) == ids
  {
    if ids != [] {
      WithoutAbsent(ids[1..], id);
      assert [ids[0]] + ids[1..] == ids;
    }
  }

  method RemoveFirst(ids: seq<string>, id: string) returns (r: seq<string>)
    ensures r == WithoutFirst(ids, id)
  {
    r := ids;
    var i := 0;
    while i < |ids|
      invariant 0 <= i <= |ids| && r == ids
      invariant forall k :: 0 <= k < i ==> ids[k] != id
    {
      if ids[i] == id {
        r := ids[..i] + ids[i + 1..];
        WithoutFirstAt(ids, id, i);
        return;
      }
      i := i + 1;
    }
    WithoutAbsent(ids, id);
  }

  method RecoverApproval(envs: seq<Envelope>) returns (r: Option<Recovered>)
    ensures r == Recover(envs)
  {
    var session, turn, text := "", "", "";
    var pending: seq<string> := [];
    var i := 0;
    while i < |envs|
      invariant 0 <= i <= |envs|
      invariant ScanOf(envs[..i]) == Scan(session, Tale(turn, text), pending)
    {
      assert envs[..i + 1][..i] == envs[..i];
      var e := envs[i].event;
      if envs[i].session != "" {
        session := envs[i].session;
      }
      match e {
        case TurnStarted(id) =>
          turn, pending, text := id, [], "";
        case TextDelta(commentary, delta) =>
          if turn != "" && !commentary && ByteLen(text) < MAX_REPLY_BYTES {
            text := text + delta;
          }
        case PermissionRequest(request, decided) =>
          if turn != "" && request != "" && !decided {
            pending := pending + [request];
          }
        case PermissionResolved(request) =>
          pending := RemoveFirst(pending, request);
        case TurnEnded(_, _) =>
          turn, pending, text := "", [], "";
        case _ =>
      }
      i := i + 1;
    }
    assert envs[..|envs|] == envs;
    if turn == "" || pending == [] || session == "" {
      return None;
    }
    return Some(Recovered(session, turn, pending[|pending| - 1], text));
  }

  function Events(envs: seq<Envelope>): seq<Event> {
    seq(|envs|, i requires 0 <= i < |envs| => envs[i].event)
  }

  lemma {:induction false} ScanTells(envs: seq<Envelope>)
    ensures ScanOf(envs).tale == TaleAt(Events(envs), |envs|)
  {
    if envs != [] {
      var front := envs[..|envs| - 1];
      ScanTells(front);
      assert Events(front) <= Events(envs);
      TaleExtends(Events(front), Events(envs), |front|);
    }
  }

  /** The requests a scan holds pending were all asked, and left to the chat, since the running turn started. */
  predicate AskedSince(envs: seq<Envelope>, start: nat, request: string) {
    exists j :: start < j < |envs| && envs[j].event == PermissionRequest(request, false)
  }

  predicate PendingAsked(envs: seq<Envelope>, start: nat) {
    forall k :: 0 <= k < |ScanOf(envs).pending| ==>
                  ScanOf(envs).pending[k] != "" && AskedSince(envs, start, ScanOf(envs).pending[k])
  }

  lemma {:induction false} WithoutFirstKeeps(ids: seq<string>, id: string, k: nat)
    requires k < |WithoutFirst(ids, id)|
    ensures WithoutFirst(ids, id)[k] in ids
  {
    if ids != [] && ids[0] != id && k > 0 {
      WithoutFirstKeeps(ids[1..], id, k - 1);
    }
  }

  lemma FrontRuns(envs: seq<Envelope>, start: nat)
    requires start < |envs| - 1 && RunningSince(Events(envs), start, |envs|, ScanOf(envs).tale.turn)
    ensures var front := envs[..|envs| - 1];
            && !Boundary(envs[|envs| - 1].event)
            && ScanOf(front).tale.turn == ScanOf(envs).tale.turn
            && RunningSince(Events(front), start, |front|, ScanOf(front).tale.turn)
  {
    var front := envs[..|envs| - 1];
    assert Events(envs)[|envs| - 1] == envs[|envs| - 1].event;
    assert !Boundary(Events(envs)[|envs| - 1]);
    assert forall j :: 0 <= j < |front| ==> Events(front)[j] == Events(envs)[j];
  }

  lemma {:induction false} PendingMeaning(envs: seq<Envelope>, start: nat)
    requires start < |envs| && RunningSince(Events(envs), start, |envs|, ScanOf(envs).tale.turn)
    ensures PendingAsked(envs, start)
    decreases |envs|
  {
    if start < |envs| - 1 {
      FrontRuns(envs, start);
      PendingMeaning(envs[..|envs| - 1], start);
      forall k | 0 <= k < |ScanOf(envs).pending|
        ensures ScanOf(envs).pending[k] != "" && AskedSince(envs, start, ScanOf(envs).pending[k])
      {
        PendingStepMeaning(envs, start, k);
      }
    } else {
      assert Events(envs)[start] == envs[start].event;
    }
  }

  lemma {:induction false} PendingStepMeaning(envs: seq<Envelope>, start: nat, k: nat)
    requires start < |envs| - 1 && PendingAsked(envs[..|envs| - 1], start) && k < |ScanOf(envs).pending|
    requires !Boundary(envs[|envs| - 1].event)
    ensures ScanOf(envs).pending[k] != "" && AskedSince(envs, start, ScanOf(envs).pending[k])
  {
    var front := envs[..|envs| - 1];
    var before := ScanOf(front).pending;
    var last := envs[|envs| - 1].event;
    var id := ScanOf(envs).pending[k];
    if last.PermissionRequest? && k == |before| {
      assert envs[|envs| - 1].event == PermissionRequest(id, false);
    } else {
      if last.PermissionResolved? {
        WithoutFirstKeeps(before, last.request, k);
      }
      assert id in before;
      var p :| 0 <= p < |before| && before[p] == id;
      var j :| start < j < |front| && front[j].event == PermissionRequest(id, false);
      assert envs[j] == front[j];
    }
  }

  /**
   * What is recovered: a request of the turn that is still running at the end of the history, asked
   * since that turn started, with that turn's text alone.
   */
  lemma RecoverMeaning(envs: seq<Envelope>) returns (start: nat)
    requires Recover(envs).Some?
    ensures var r := Recover(envs).value;
            && RunningSince(Events(envs), start, |envs|, r.turn)
            && Capped(Deltas(Events(envs), start + 1, |envs|), r.text)
            && r.request != "" && AskedSince(envs, start, r.request)
  {
    ScanTells(envs);
    start := TaleMeaning(Events(envs), |envs|);
    PendingMeaning(envs, start);
  }

  /** Where the recovered request was asked. */
  lemma RecoveredAsked(envs: seq<Envelope>) returns (j: nat)
    requires Recover(envs).Some?
    ensures j < |envs| && envs[j].event == PermissionRequest(Recover(envs).value.request, false)
  {
    var start := RecoverMeaning(envs);
    var request := Recover(envs).value.request;
    assert AskedSince(envs, start, request);
    j :| start < j < |envs| && envs[j].event == PermissionRequest(request, false);
  }

  // ----- the history is cut to its newest entries

  /** Where the window shows a turn running, it shows all that the whole history would. */
  lemma {:induction false} WindowAgrees(earlier: seq<Envelope>, window: seq<Envelope>)
    requires ScanOf(window).tale.turn != ""
    ensures ScanOf(earlier + window).tale == ScanOf(window).tale
    ensures ScanOf(earlier + window).pending == ScanOf(window).pending
    ensures ScanOf(window).session != "" ==> ScanOf(earlier + window).session == ScanOf(window).session
    decreases |window|
  {
    var n := |window| - 1;
    var whole := earlier + window;
    assert whole[..|whole| - 1] == earlier + window[..n];
    if window[n].event.TurnStarted? {
      WindowSession(earlier, window);
    } else {
      WindowAgrees(earlier, window[..n]);
    }
  }

  lemma {:induction false} WindowSession(earlier: seq<Envelope>, window: seq<Envelope>)
    requires window != []
    ensures ScanOf(window).session != "" ==> ScanOf(earlier + window).session == ScanOf(window).session
    decreases |window|
  {
    var n := |window| - 1;
    var whole := earlier + window;
    assert whole[..|whole| - 1] == earlier + window[..n];
    if window[n].session == "" && n > 0 {
      WindowSession(earlier, window[..n]);
    }
  }

  lemma WindowEnough(earlier: seq<Envelope>, window: seq<Envelope>)
    requires Recover(window).Some?
    ensures Recover(earlier + window) == Recover(window)
  {
    WindowAgrees(earlier, window);
  }

  // ----- resuming refines watching live

  /** A collector's own variables. */
  datatype Watch = Watch(ours: bool, buffer: string)

  /** `mine`: the turn ids outstanding for the chat when the event is handled. */
  function See(w: Watch, e: Event, mine: set<string>): Watch {
    match e
    case TurnStarted(id) => Watch(id in mine, "")
    case TextDelta(_, _) => if w.ours then w.(buffer := Keep(w.buffer, e)) else w
    case TurnEnded(_, _) => Watch(false, "")
    case _ => w
  }

  function Watched(log: seq<Event>, n: nat, mine: set<string>): Watch
    requires n <= |log|
  {
    if n == 0 then Watch(false, "") else See(Watched(log, n - 1, mine), log[n - 1], mine)
  }

  lemma {:induction false} WatchedTells(log: seq<Event>, n: nat, mine: set<string>)
    requires n <= |log| && "" !in mine
    ensures var w, t := Watched(log, n, mine), TaleAt(log, n);
            (w.ours <==> t.turn in mine) && w.buffer == if w.ours then t.text else ""
  {
    if n > 0 {
      WatchedTells(log, n - 1, mine);
    }
  }

  /** What the chat is sent at the first turn end among the coming events; a steered turn is no longer outstanding. */
  function NextAnswer(w: Watch, coming: seq<Event>, mine: set<string>): seq<Reply>
    decreases |coming|
  {
    if coming == [] then []
    else
      match coming[0]
      case TurnEnded(turn, outcome) => if turn in mine then FinalReplies(outcome, w.buffer) else []
      case Steered(turn) => NextAnswer(w, coming[1..], mine - {turn})
      case _ => NextAnswer(See(w, coming[0], mine), coming[1..], mine)
  }

  /** The environment's promise for a running turn: the next boundary, if any, is its own end. */
  predicate EndsNext(turn: string, coming: seq<Event>) {
    forall i :: 0 <= i < |coming| && (forall j :: 0 <= j < i ==> !Boundary(coming[j])) && Boundary(coming[i]) ==>
                  coming[i].TurnEnded? && coming[i].turn == turn
  }

  lemma {:induction false} SameAnswer(w: Watch, coming: seq<Event>, turn: string, a: set<string>, b: set<string>)
    requires EndsNext(turn, coming) && w.ours && (turn in a <==> turn in b)
    ensures NextAnswer(w, coming, a) == NextAnswer(w, coming, b)
    decreases |coming|
  {
    if coming != [] {
      assert Boundary(coming[0]) ==> coming[0].TurnEnded? && coming[0].turn == turn;
      if !Boundary(coming[0]) {
        assert EndsNext(turn, coming[1..]) by {
          EndsNextTail(turn, coming);
        }
        if coming[0].Steered? {
          SameAnswer(w, coming[1..], turn, a - {coming[0].turn}, b - {coming[0].turn});
        } else {
          SameAnswer(See(w, coming[0], a), coming[1..], turn, a, b);
        }
      }
    }
  }

  lemma EndsNextTail(turn: string, coming: seq<Event>)
    requires coming != [] && !Boundary(coming[0]) && EndsNext(turn, coming)
    ensures EndsNext(turn, coming[1..])
  {
    var rest := coming[1..];
    forall i | 0 <= i < |rest| && (forall j :: 0 <= j < i ==> !Boundary(rest[j])) && Boundary(rest[i])
      ensures rest[i].TurnEnded? && rest[i].turn == turn
    {
      forall j | 0 <= j < i + 1
        ensures !Boundary(coming[j])
      {
        if j > 0 {
          assert coming[j] == rest[j - 1];
        }
      }
      assert coming[i + 1] == rest[i];
    }
  }

  /**
   * Resuming refines watching live. Whatever part of the history the window shows, a collector seeded
   * with what was recovered from it, with the recovered turn as its only one, sends for that turn
   * exactly what a collector that saw the whole history, with any turns of its own, sends.
   */
  lemma {:induction false} ResumeRefinesLive(earlier: seq<Envelope>, window: seq<Envelope>, mine: set<string>,
                                             coming: seq<Event>)
    requires Recover(window).Some? && Recover(window).value.turn in mine && "" !in mine
    requires EndsNext(Recover(window).value.turn, coming)
    ensures var r := Recover(window).value;
            var live := Watched(Events(earlier + window), |earlier + window|, mine);
            && live == Watch(true, r.text)
            && NextAnswer(Watch(true, r.text), coming, {r.turn}) == NextAnswer(live, coming, mine)
  {
    var r := Recover(window).value;
    var all := earlier + window;
    WindowAgrees(earlier, window);
    ScanTells(all);
    WatchedTells(Events(all), |all|, mine);
    SameAnswer(Watch(true, r.text), coming, r.turn, {r.turn}, mine);
  }
}
