/**
 * One agl session's event stream: the running turn and its answer text, and what is sent when a turn
 * ends.
 */
module AglTales {
  import opened Text

  /** maxReplyBytes: 256 << 10. */
  const MAX_REPLY_BYTES := 0x40000

  const MSG_EMPTY_REPLY := "（已完成，没有文字回复）"
  const MSG_ABORTED := "（已停止）"

  datatype Outcome = Completed | Failed(error: string) | Aborted

  datatype Event =
    | TurnStarted(turn: string)
    | TextDelta(commentary: bool, text: string)
    | Steered(turn: string)
    | PermissionRequest(request: string, decided: bool)
    | PermissionResolved(request: string)
    | TurnEnded(turn: string, outcome: Outcome)
    | Other

  /** A delta is kept unless it is commentary or the buffer is already full. */
  function Keep(text: string, e: Event): string
    requires e.TextDelta?
  {
    if !e.commentary && ByteLen(text) < MAX_REPLY_BYTES then text + e.text else text
  }

  // ----- the running turn and its text, as the events tell them

  /** turn is "" when no turn is running. */
  datatype Tale = Tale(turn: string, text: string)

  function Tell(t: Tale, e: Event): Tale {
    match e
    case TurnStarted(id) => Tale(id, "")
    case TextDelta(_, _) => if t.turn != "" then t.(text := Keep(t.text, e)) else t
    case TurnEnded(_, _) => Tale("", "")
    case _ => t
  }

  function TaleAt(log: seq<Event>, n: nat): Tale
    requires n <= |log|
  {
    if n == 0 then Tale("", "") else Tell(TaleAt(log, n - 1), log[n - 1])
  }

  lemma {:induction false} TaleExtends(a: seq<Event>, b: seq<Event>, n: nat)
    requires n <= |a| && a <= b
    ensures TaleAt(a, n) == TaleAt(b, n)
  {
    if n > 0 {
      TaleExtends(a, b, n - 1);
    }
  }

  predicate Boundary(e: Event) {
    e.TurnStarted? || e.TurnEnded?
  }

  function Deltas(log: seq<Event>, i: nat, n: nat): seq<string>
    requires i <= n <= |log|
    decreases n
  {
    if n == i then []
    else
      var rest := Deltas(log, i, n - 1);
      if log[n - 1].TextDelta? && !log[n - 1].commentary then rest + [log[n - 1].text] else rest
  }

  function Flatten(parts: seq<string>): string {
    if parts == [] then "" else Flatten(parts[..|parts| - 1]) + parts[|parts| - 1]
  }

  /** text is all of the parts joined, or the first ones up to where the buffer was full. */
  predicate Capped(parts: seq<string>, text: string) {
    exists k: nat :: k <= |parts| && CappedAt(parts, text, k)
  }

  predicate CappedAt(parts: seq<string>, text: string, k: nat)
    requires k <= |parts|
  {
    && text == Flatten(parts[..k])
    && (k < |parts| ==> ByteLen(text) >= 256 * 1024)
    && forall j :: 0 <= j < k ==> ByteLen(Flatten(parts[..j])) < 256 * 1024
  }

  /** The turn being told has started at i, and nothing started or ended since. */
  predicate RunningSince(log: seq<Event>, i: nat, n: nat, turn: string)
    requires n <= |log|
  {
    i < n && log[i] == TurnStarted(turn) && forall j :: i < j < n ==> !Boundary(log[j])
  }

  lemma CappedGrows(parts: seq<string>, text: string, k: nat, delta: Event)
    requires k <= |parts| && CappedAt(parts, text, k) && delta.TextDelta? && !delta.commentary
    ensures Capped(parts + [delta.text], Keep(text, delta))
  {
    var more := parts + [delta.text];
    assert forall j :: 0 <= j <= |parts| ==> more[..j] == parts[..j];
    if ByteLen(text) < MAX_REPLY_BYTES {
      assert more[..|more|] == more && more[..|more| - 1] == parts;
      assert parts[..|parts|] == parts;
      assert CappedAt(more, Keep(text, delta), |more|);
    } else {
      assert CappedAt(more, Keep(text, delta), k);
    }
  }

  /**
   * What the running turn's text is: its non-commentary deltas since it started, in order, up to
   * the one that filled the buffer, and nothing of any other turn.
   */
  lemma {:induction false} TaleMeaning(log: seq<Event>, n: nat) returns (i: nat)
    requires n <= |log| && TaleAt(log, n).turn != ""
    ensures RunningSince(log, i, n, TaleAt(log, n).turn)
    ensures Capped(Deltas(log, i + 1, n), TaleAt(log, n).text)
  {
    var e := log[n - 1];
    if e.TurnStarted? {
      i := n - 1;
      assert CappedAt([], "", 0);
    } else {
      i := TaleMeaning(log, n - 1);
      var before := Deltas(log, i + 1, n - 1);
      if e.TextDelta? && !e.commentary {
        var k: nat :| k <= |before| && CappedAt(before, TaleAt(log, n - 1).text, k);
        CappedGrows(before, TaleAt(log, n - 1).text, k, e);
      }
    }
  }

  // ----- what the chat is sent at the end of a turn

  datatype Reply = Long(text: string) | Failure(error: string)

  function FinalReplies(outcome: Outcome, buffer: string): seq<Reply> {
    var text := TrimSpace(buffer);
    match outcome
    case Failed(error) =>
      (if text != "" then [Long(text)] else []) + [Failure(if error == "" then "unknown error" else error)]
    case Aborted => if text != "" then [Long(text + "\n" + MSG_ABORTED)] else []
    case Completed => [Long(if text == "" then MSG_EMPTY_REPLY else text)]
  }

  /** What the chat is sent, outcome by outcome, for a turn with this text. */
  ghost predicate Sends(outcome: Outcome, text: string, replies: seq<Reply>) {
    exists t :: Strips(text, t) && SendsStripped(outcome, t, replies)
  }

  predicate SendsStripped(outcome: Outcome, t: string, replies: seq<Reply>) {
    match outcome
    case Completed => |replies| == 1 && replies[0] == Long(if t == "" then "（已完成，没有文字回复）" else t)
    case Aborted => if t == "" then replies == [] else |replies| == 1 && replies[0] == Long(t + "\n" + "（已停止）")
    case Failed(error) =>
      && |replies| == (if t == "" then 1 else 2) && (t != "" ==> replies[0] == Long(t))
      && replies[|replies| - 1] == Failure(if error == "" then "unknown error" else error)
  }

  lemma FinalRepliesSend(outcome: Outcome, text: string)
    ensures Sends(outcome, text, FinalReplies(outcome, text))
  {
    TrimStrips(text);
    assert SendsStripped(outcome, TrimSpace(text), FinalReplies(outcome, text));
  }
}
