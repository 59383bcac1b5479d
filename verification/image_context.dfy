/** Bounding inline images: only the newest image-bearing user turn keeps some. */
module ImageContext {
  import opened Wrappers
  import opened Messages

  const MAX_IMAGES := 4
  const MAX_IMAGE_BYTES := 6 * 1024 * 1024
  const EARLIER_OMITTED: string := "[Earlier image omitted from inline model context]"
  const OVERSIZED_OMITTED: string := "[Some current images were omitted from inline model context because the combined image payload was too large]"

  predicate IsImage(p: Part) {
    p.kind == "image_url" && p.url.Some? && p.url.value != ""
  }

  predicate HasImage(m: Message) {
    exists j :: 0 <= j < |m.parts| && IsImage(m.parts[j])
  }

  predicate ImageTurn(m: Message) {
    m.role == User && HasImage(m)
  }

  function Images(parts: seq<Part>): seq<Part> {
    if parts == [] then []
    else Images(parts[..|parts| - 1]) + (if IsImage(parts[|parts| - 1]) then [parts[|parts| - 1]] else [])
  }

  function Others(parts: seq<Part>): seq<Part> {
    if parts == [] then []
    else Others(parts[..|parts| - 1]) + (if IsImage(parts[|parts| - 1]) then [] else [parts[|parts| - 1]])
  }

  /** Bytes of the image URLs; URLs are modelled as byte strings. */
  function ImageBytes(parts: seq<Part>): nat {
    if parts == [] then 0
    else
      var p := parts[|parts| - 1];
      ImageBytes(parts[..|parts| - 1]) + (if IsImage(p) then |p.url.value| else 0)
  }

  /** The index of the newest image-bearing user message, -1 when there is none. */
  function Latest(ms: seq<Message>): (i: int)
    ensures -1 <= i < |ms|
    ensures i >= 0 ==> ImageTurn(ms[i])
    ensures forall k :: i < k < |ms| ==> !ImageTurn(ms[k])
  {
    if ms == [] then -1
    else if ImageTurn(ms[|ms| - 1]) then |ms| - 1
    else Latest(ms[..|ms| - 1])
  }

  /** The parts kept of one message: images only of the newest turn, while count and bytes allow. */
  function Kept(parts: seq<Part>, newest: bool): seq<Part> {
    if parts == [] then []
    else
      var p, before := parts[|parts| - 1], Kept(parts[..|parts| - 1], newest);
      if !IsImage(p) then before + [p]
      else if newest && |Images(before)| < MAX_IMAGES && ImageBytes(before) + |p.url.value| <= MAX_IMAGE_BYTES
      then before + [p]
      else before
  }

  function Bounded(m: Message, newest: bool): Message {
    var kept := Kept(m.parts, newest);
    if |kept| == |m.parts| then m
    else
      var parts := kept + (if newest then [Part("text", OVERSIZED_OMITTED, None)] else []);
      m.(parts := parts, content := if parts == [] && m.content == "" then EARLIER_OMITTED else m.content)
  }

  function Recent(ms: seq<Message>): (r: seq<Message>)
    ensures |r| == |ms|
  {
    var last := Latest(ms);
    seq(|ms|, i requires 0 <= i < |ms| => if ImageTurn(ms[i]) then Bounded(ms[i], i == last) else ms[i])
  }

  method MessageHasInlineImage(m: Message) returns (b: bool)
    ensures b == HasImage(m)
  {
    for j := 0 to |m.parts|
      invariant forall k :: 0 <= k < j ==> !IsImage(m.parts[k])
    {
      if m.parts[j].kind == "image_url" && m.parts[j].url.Some? && m.parts[j].url.value != "" {
        return true;
      }
    }
    return false;
  }

  method LatestImageTurn(messages: seq<Message>) returns (latest: int)
    ensures latest == Latest(messages)
  {
    latest := -1;
    for i := 0 to |messages|
      invariant latest == Latest(messages[..i])
    {
      assert messages[..i + 1][..i] == messages[..i];
      var has := MessageHasInlineImage(messages[i]);
      if messages[i].role == User && has {
        latest := i;
      }
    }
    assert messages[..|messages|] == messages;
  }

  /** The inner loop over one message's parts, with the running count and bytes. */
  method KeepParts(all: seq<Part>, newest: bool, count0: nat, bytes0: nat)
    returns (parts: seq<Part>, omitted: nat, count: nat, bytes: nat)
    requires count0 == 0 && bytes0 == 0
    ensures parts == Kept(all, newest) && omitted == |all| - |parts|
    ensures !newest ==> count == 0 && bytes == 0
  {
    parts, omitted, count, bytes := [], 0, count0, bytes0;
    for j := 0 to |all|
      invariant parts == Kept(all[..j], newest)
      invariant count == |Images(parts)| && bytes == ImageBytes(parts)
      invariant omitted == j - |parts|
    {
      assert all[..j + 1][..j] == all[..j];
      var part := all[j];
      assert (parts + [part])[..|parts|] == parts;
      if part.kind != "image_url" || part.url.None? || part.url.value == "" {
        parts := parts + [part];
      } else {
        var keep := newest && count < MAX_IMAGES && bytes + |part.url.value| <= MAX_IMAGE_BYTES;
        if !keep {
          omitted := omitted + 1;
        } else {
          parts, count, bytes := parts + [part], count + 1, bytes + |part.url.value|;
        }
      }
    }
    assert all[..|all|] == all;
    if !newest {
      OlderKeepNone(all);
    }
  }

  /** One message rewritten; None when nothing is omitted from it. */
  method BoundMessage(message: Message, newest: bool, count0: nat, bytes0: nat)
    returns (changed: Option<Message>, count: nat, bytes: nat)
    requires count0 == 0 && bytes0 == 0
    ensures Bounded(message, newest) == if changed.None? then message else changed.value
    ensures !newest ==> count == 0 && bytes == 0
  {
    var parts, omitted;
    parts, omitted, count, bytes := KeepParts(message.parts, newest, count0, bytes0);
    if omitted == 0 {
      return None, count, bytes;
    }
    if newest {
      parts := parts + [Part("text", OVERSIZED_OMITTED, None)];
    }
    var out := message.(parts := parts);
    if |parts| == 0 && message.content == "" {
      out := out.(content := EARLIER_OMITTED);
    }
    changed := Some(out);
  }

  /** A copy is made on the first change only; the input is a value and stays as it was. */
  method ModelMessagesWithRecentImages(messages: seq<Message>) returns (out: seq<Message>)
    ensures out == Recent(messages)
  {
    var latest := LatestImageTurn(messages);
    out := messages;
    var count, bytes := 0, 0;
    ghost var goal := Recent(messages);
    for i := 0 to latest + 1
      invariant i <= latest ==> count == 0 && bytes == 0
      invariant |out| == |messages|
      invariant forall k :: 0 <= k < i ==> out[k] == goal[k]
      invariant forall k :: i <= k < |messages| ==> out[k] == messages[k]
    {
      var has := MessageHasInlineImage(messages[i]);
      if messages[i].role == User && has {
        var changed;
        changed, count, bytes := BoundMessage(messages[i], i == latest, count, bytes);
        if changed.Some? {
          out := out[i := changed.value];
        }
      }
    }
  }

  lemma {:induction false} OlderKeepNone(parts: seq<Part>)
    ensures Kept(parts, false) == Others(parts)
    ensures Images(Kept(parts, false)) == [] && ImageBytes(Kept(parts, false)) == 0
  {
    if parts != [] {
      OlderKeepNone(parts[..|parts| - 1]);
      var p, before := parts[|parts| - 1], Kept(parts[..|parts| - 1], false);
      assert (before + [p])[..|before|] == before;
    }
  }

  lemma {:induction false} KeptFacts(parts: seq<Part>, newest: bool)
    ensures var k := Kept(parts, newest);
            && |k| <= |parts|
            && Others(k) == Others(parts)
            && |Images(k)| <= MAX_IMAGES && ImageBytes(k) <= MAX_IMAGE_BYTES
            && Kept(k, newest) == k
  {
    if parts != [] {
      var n := |parts| - 1;
      var p, before := parts[n], Kept(parts[..n], newest);
      KeptFacts(parts[..n], newest);
      assert (before + [p])[..|before|] == before;
    }
  }

  lemma {:induction false} ImagesMeaning(parts: seq<Part>)
    ensures (Images(parts) == []) <==> forall j :: 0 <= j < |parts| ==> !IsImage(parts[j])
  {
    if parts != [] {
      var n := |parts| - 1;
      ImagesMeaning(parts[..n]);
      assert parts == parts[..n] + [parts[n]];
    }
  }

  lemma {:induction false} OthersMeaning(parts: seq<Part>)
    requires forall j :: 0 <= j < |parts| ==> !IsImage(parts[j])
    ensures Others(parts) == parts
  {
    if parts != [] {
      OthersMeaning(parts[..|parts| - 1]);
      assert parts == parts[..|parts| - 1] + [parts[|parts| - 1]];
    }
  }

  /** Adding a text part adds no image and no byte. */
  lemma {:induction false} NoticePart(parts: seq<Part>, p: Part)
    requires !IsImage(p)
    ensures Images(parts + [p]) == Images(parts) && ImageBytes(parts + [p]) == ImageBytes(parts)
    ensures Others(parts + [p]) == Others(parts) + [p]
  {
    assert (parts + [p])[..|parts|] == parts;
  }

  /** What a bounded message still has: its other parts in order, and images only within the limits. */
  lemma {:induction false} BoundedFacts(m: Message, newest: bool)
    ensures var b := Bounded(m, newest);
            && SameShape(m, b) && b.injected == m.injected
            && (Others(b.parts) == Others(m.parts) || (newest && Others(b.parts) == Others(m.parts) + [Part("text", OVERSIZED_OMITTED, None)]))
            && |Images(b.parts)| <= MAX_IMAGES && ImageBytes(b.parts) <= MAX_IMAGE_BYTES
            && (!newest ==> Images(b.parts) == [])
            && (b.content == m.content || (m.content == "" && b.parts == [] && b.content == EARLIER_OMITTED))
            && Kept(b.parts, newest) == b.parts
  {
    var kept := Kept(m.parts, newest);
    KeptFacts(m.parts, newest);
    if !newest {
      OlderKeepNone(m.parts);
    }
    if |kept| == |m.parts| {
      KeptFull(m.parts, newest);
    } else if newest {
      var p := Part("text", OVERSIZED_OMITTED, None);
      NoticePart(kept, p);
      assert (kept + [p])[..|kept|] == kept;
    } else {
      assert kept + [] == kept;
    }
  }

  lemma {:induction false} KeptFull(parts: seq<Part>, newest: bool)
    requires |Kept(parts, newest)| == |parts|
    ensures Kept(parts, newest) == parts
  {
    if parts != [] {
      var n := |parts| - 1;
      KeptFacts(parts[..n], newest);
      KeptFull(parts[..n], newest);
      assert parts == parts[..n] + [parts[n]];
    }
  }

  /** Every limit, for every message list. */
  lemma {:induction false} RecentWithinLimits(ms: seq<Message>, i: nat)
    requires i < |ms|
    ensures var r := Recent(ms)[i];
            && SameShape(ms[i], r) && r.injected == ms[i].injected
            && (ms[i].role != User ==> r == ms[i])
            && (Others(r.parts) == Others(ms[i].parts) || (i == Latest(ms) && Others(r.parts) == Others(ms[i].parts) + [Part("text", OVERSIZED_OMITTED, None)]))
            && (r.role == User && i != Latest(ms) ==> !HasImage(r))
            && (r.role == User ==> |Images(r.parts)| <= MAX_IMAGES && ImageBytes(r.parts) <= MAX_IMAGE_BYTES)
            && (r.content == ms[i].content || (ms[i].content == "" && r.parts == [] && r.content == EARLIER_OMITTED))
  {
    BoundedFacts(ms[i], i == Latest(ms));
    ImagesMeaning(Recent(ms)[i].parts);
    if ms[i].role == User && !ImageTurn(ms[i]) {
      ImagesMeaning(ms[i].parts);
      NoImageBytes(ms[i].parts);
    }
  }

  lemma {:induction false} NoImageBytes(parts: seq<Part>)
    requires Images(parts) == []
    ensures ImageBytes(parts) == 0
  {
    if parts != [] {
      NoImageBytes(parts[..|parts| - 1]);
    }
  }

  /** Bounding twice is bounding once. */
  lemma RecentIdempotent(ms: seq<Message>)
    ensures Recent(Recent(ms)) == Recent(ms)
  {
    var r, last := Recent(ms), Latest(ms);
    forall i | 0 <= i < |r|
      ensures ImageTurn(r[i]) ==> i == last
    {
      RecentWithinLimits(ms, i);
    }
    forall i | 0 <= i < |r|
      ensures Recent(r)[i] == r[i]
    {
      if ImageTurn(r[i]) {
        assert i == last == Latest(r);
        BoundedFacts(ms[i], true);
      }
    }
  }

  lemma RecentShape(ms: seq<Message>)
    ensures |Recent(ms)| == |ms| && forall i :: 0 <= i < |ms| ==> SameShape(ms[i], Recent(ms)[i]) && SameShape(Recent(ms)[i], ms[i])
  {
    forall i | 0 <= i < |ms| ensures SameShape(ms[i], Recent(ms)[i]) {
      RecentWithinLimits(ms, i);
    }
  }

  /** Request shape survives, so pairing does. */
  lemma RecentPaired(ms: seq<Message>)
    requires Paired(ms)
    ensures Paired(Recent(ms))
  {
    RecentShape(ms);
    PairedShape(ms, Recent(ms));
  }

  /** Images are dropped from the newest turn only when it breaks a limit. */
  lemma {:induction false} FittingTurnKept(parts: seq<Part>)
    requires |Images(parts)| <= MAX_IMAGES && ImageBytes(parts) <= MAX_IMAGE_BYTES
    ensures Kept(parts, true) == parts
  {
    if parts != [] {
      var n := |parts| - 1;
      FittingTurnKept(parts[..n]);
      assert parts == parts[..n] + [parts[n]];
    }
  }

  // ----- which images stay, part by part

  /** How many of the first n picked parts are images. */
  function PickedImages(parts: seq<Part>, picks: seq<nat>, n: nat): nat
    requires n <= |picks| && forall i :: 0 <= i < |picks| ==> picks[i] < |parts|
  {
    if n == 0 then 0 else PickedImages(parts, picks, n - 1) + (if IsImage(parts[picks[n - 1]]) then 1 else 0)
  }

  /** The bytes of the images among them. */
  function PickedBytes(parts: seq<Part>, picks: seq<nat>, n: nat): nat
    requires n <= |picks| && forall i :: 0 <= i < |picks| ==> picks[i] < |parts|
  {
    if n == 0 then 0
    else
      PickedBytes(parts, picks, n - 1) +
      (if IsImage(parts[picks[n - 1]]) then |parts[picks[n - 1]].url.value| else 0)
  }

  /** The first n picks are the ones in front of j. */
  predicate FrontOf(picks: seq<nat>, n: nat, j: nat) {
    n <= |picks| && (forall i :: 0 <= i < n ==> picks[i] < j) && forall i :: n <= i < |picks| ==> picks[i] >= j
  }

  /** The image at j fits with the images picked in front of it: fewer than four, and 6 MiB with it at most. */
  predicate FitsAt(parts: seq<Part>, picks: seq<nat>, n: nat, j: nat)
    requires n <= |picks| && (forall i :: 0 <= i < |picks| ==> picks[i] < |parts|) && j < |parts|
  {
    IsImage(parts[j]) ==>
      PickedImages(parts, picks, n) < 4 && PickedBytes(parts, picks, n) + |parts[j].url.value| <= 6 * 1024 * 1024
  }

  /** The places of the parts that stay: every other part, and each image that fits when its turn comes. */
  ghost predicate Stay(parts: seq<Part>, picks: seq<nat>) {
    && (forall i :: 0 <= i < |picks| ==> picks[i] < |parts|)
    && (forall i, j :: 0 <= i < j < |picks| ==> picks[i] < picks[j])
    && forall j: nat, n: nat :: j < |parts| && FrontOf(picks, n, j) ==> (j in picks <==> FitsAt(parts, picks, n, j))
  }

  lemma {:induction false} PickedSame(a: seq<Part>, b: seq<Part>, p: seq<nat>, q: seq<nat>, n: nat)
    requires a <= b && p <= q && n <= |p|
    requires (forall i :: 0 <= i < |p| ==> p[i] < |a|) && forall i :: 0 <= i < |q| ==> q[i] < |b|
    ensures PickedImages(a, p, n) == PickedImages(b, q, n) && PickedBytes(a, p, n) == PickedBytes(b, q, n)
  {
    if n > 0 {
      PickedSame(a, b, p, q, n - 1);
      assert q[n - 1] == p[n - 1] && b[p[n - 1]] == a[p[n - 1]];
    }
  }

  /** One more part, picked or not. */
  lemma {:induction false} StayMore(parts: seq<Part>, picks: seq<nat>, x: Part, more: seq<nat>)
    requires Stay(parts, picks)
    requires more == picks + (if FitsAt(parts + [x], picks, |picks|, |parts|) then [|parts|] else [])
    ensures Stay(parts + [x], more)
  {
    var all := parts + [x];
    forall j: nat, n: nat | j < |all| && FrontOf(more, n, j)
      ensures j in more <==> FitsAt(all, more, n, j)
    {
      if j < |parts| {
        StayEarlier(parts, picks, x, more, j, n);
      } else {
        AllInFront(picks, more, n, j);
        PickedSame(all, all, picks, more, n);
      }
    }
  }

  lemma AllInFront(picks: seq<nat>, more: seq<nat>, n: nat, m: nat)
    requires FrontOf(more, n, m) && (forall i :: 0 <= i < |picks| ==> picks[i] < m)
    requires more == picks || more == picks + [m]
    ensures n == |picks|
  {
    if n > 0 {
      assert more[n - 1] < m;
    }
    if n < |more| {
      assert more[n] >= m;
    }
  }

  lemma {:induction false} StayEarlier(parts: seq<Part>, picks: seq<nat>, x: Part, more: seq<nat>, j: nat, n: nat)
    requires Stay(parts, picks) && j < |parts| && picks <= more && FrontOf(more, n, j)
    requires more == picks || more == picks + [|parts|]
    ensures j in more <==> FitsAt(parts + [x], more, n, j)
  {
    assert |more| > |picks| ==> more[|picks|] == |parts|;
    assert forall i :: 0 <= i < |picks| ==> more[i] == picks[i];
    assert n <= |picks| && FrontOf(picks, n, j);
    PickedSame(parts, parts + [x], picks, more, n);
    assert j in picks <==> FitsAt(parts, picks, n, j);
  }

  predicate InRange(parts: seq<Part>, picks: seq<nat>) {
    forall i :: 0 <= i < |picks| ==> picks[i] < |parts|
  }

  /** kept is the picked parts, and its images have been counted. */
  predicate PickedAre(parts: seq<Part>, picks: seq<nat>, kept: seq<Part>)
    requires InRange(parts, picks)
  {
    && |kept| == |picks| && (forall i :: 0 <= i < |picks| ==> kept[i] == parts[picks[i]])
    && PickedImages(parts, picks, |picks|) == |Images(kept)| && PickedBytes(parts, picks, |picks|) == ImageBytes(kept)
  }

  /** The parts kept are the picked ones. */
  ghost predicate KeptAs(parts: seq<Part>, picks: seq<nat>) {
    Stay(parts, picks) && PickedAre(parts, picks, Kept(parts, true))
  }

  lemma {:induction false} KeptStays(parts: seq<Part>) returns (picks: seq<nat>)
    ensures KeptAs(parts, picks)
  {
    if parts == [] {
      picks := [];
    } else {
      var front, x := parts[..|parts| - 1], parts[|parts| - 1];
      assert parts == front + [x];
      picks := KeptStays(front);
      picks := KeptNext(front, picks, x);
    }
  }

  lemma {:induction false} KeptNext(front: seq<Part>, before: seq<nat>, x: Part) returns (picks: seq<nat>)
    requires KeptAs(front, before)
    ensures KeptAs(front + [x], picks)
  {
    var parts := front + [x];
    PickedWider(front, before, x, Kept(front, true));
    KeptOneMore(front, x);
    picks := before + (if FitsAt(parts, before, |before|, |front|) then [|front|] else []);
    if FitsAt(parts, before, |before|, |front|) {
      PickedMore(front, before, x, Kept(front, true));
    } else {
      assert picks == before;
    }
    StayMore(front, before, x, picks);
  }

  lemma {:induction false} PickedWider(front: seq<Part>, picks: seq<nat>, x: Part, kept: seq<Part>)
    requires InRange(front, picks) && PickedAre(front, picks, kept)
    ensures InRange(front + [x], picks) && PickedAre(front + [x], picks, kept)
  {
    PickedSame(front, front + [x], picks, picks, |picks|);
  }

  lemma {:induction false} PickedMore(front: seq<Part>, picks: seq<nat>, x: Part, kept: seq<Part>)
    requires InRange(front, picks) && PickedAre(front, picks, kept)
    ensures InRange(front + [x], picks + [|front|]) && PickedAre(front + [x], picks + [|front|], kept + [x])
  {
    PickedSame(front, front + [x], picks, picks + [|front|], |picks|);
    assert (kept + [x])[..|kept|] == kept;
  }

  lemma KeptOneMore(front: seq<Part>, x: Part)
    ensures var kept, all := Kept(front, true), front + [x];
            && Kept(all, true) ==
               (if !IsImage(x) || (|Images(kept)| < 4 && ImageBytes(kept) + |x.url.value| <= 6 * 1024 * 1024)
                                   then kept + [x] else kept)
            && Images(kept + [x]) == Images(kept) + (if IsImage(x) then [x] else [])
            && ImageBytes(kept + [x]) == ImageBytes(kept) + (if IsImage(x) then |x.url.value| else 0)
  {
    var kept := Kept(front, true);
    assert (front + [x])[..|front|] == front && (kept + [x])[..|kept|] == kept;
  }

  /**
   * The newest image turn, exactly: of its parts those stay that are no images or fit in their turn, and when some
   * did not the note that says so follows.
   */
  lemma {:induction false} NewestTurnKeeps(ms: seq<Message>) returns (picks: seq<nat>)
    requires Latest(ms) >= 0
    ensures var was, now := ms[Latest(ms)].parts, Recent(ms)[Latest(ms)].parts;
            && Stay(was, picks) && |now| == |picks| + (if |picks| == |was| then 0 else 1)
            && (forall i :: 0 <= i < |picks| ==> picks[i] < |was| && now[i] == was[picks[i]])
            && (|picks| < |was| ==> now[|picks|] == Part("text", OVERSIZED_OMITTED, None))
  {
    var was := ms[Latest(ms)].parts;
    picks := KeptStays(was);
    if |picks| == |was| {
      AllPicked(picks, |was|);
    }
  }

  lemma {:induction false} AllPicked(picks: seq<nat>, n: nat)
    requires |picks| == n && (forall i :: 0 <= i < n ==> picks[i] < n) && forall i, j :: 0 <= i < j < n ==> picks[i] < picks[j]
    ensures forall i :: 0 <= i < n ==> picks[i] == i
  {
    forall i | 0 <= i < n
      ensures picks[i] == i
    {
      Rises(picks, i);
      Room(picks, i);
    }
  }

  lemma {:induction false} Rises(picks: seq<nat>, i: nat)
    requires i < |picks| && forall i, j :: 0 <= i < j < |picks| ==> picks[i] < picks[j]
    ensures picks[i] >= i
  {
    if i > 0 {
      Rises(picks, i - 1);
    }
  }

  lemma {:induction false} Room(picks: seq<nat>, i: nat)
    requires i < |picks| && (forall i, j :: 0 <= i < j < |picks| ==> picks[i] < picks[j]) && picks[|picks| - 1] < |picks|
    ensures picks[i] <= i
    decreases |picks| - i
  {
    if i + 1 < |picks| {
      Room(picks, i + 1);
    }
  }
}
