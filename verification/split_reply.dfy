/** Splitting a reply into chat-sized bubbles. */
module SplitReplies {
  import opened Wrappers
  import opened Text
  import AglTales

  const MSG_TRUNCATED := "（回复过长，后面的内容已省略）"

  const MAX_REPLY_CHUNKS := 10

  /** The byte offset of the break is past half of the byte length of the head. */
  predicate PastHalf(head: string, i: int) {
    0 <= i <= |head| && ByteLen(head[..i]) > ByteLen(head) / 2
  }

  /** Where to cut a text of more than max characters: a paragraph break, else a line break, past half, else at max. */
  function CutAt(text: string, max: int): (c: nat)
    requires |text| > max
    ensures c <= |text| && (max >= 1 ==> 1 <= c <= max)
  {
    var n := if max <= 0 then 0 else max;
    var head := text[..n];
    var p, l := LastIndex(head, "\n\n"), LastIndex(head, "\n");
    if PastHalf(head, p) then p else if PastHalf(head, l) then l else n
  }

  /** The bubbles of a trimmed text, when n have been made. */
  function SplitFrom(text: string, max: int, n: nat): seq<string>
    requires n < MAX_REPLY_CHUNKS
    decreases MAX_REPLY_CHUNKS - n
  {
    if |text| <= max then [text]
    else
      var c := CutAt(text, max);
      var head, rest := TrimSpace(text[..c]), TrimSpace(text[c..]);
      if n + 1 == MAX_REPLY_CHUNKS then [if rest == "" then head else head + "\n" + MSG_TRUNCATED]
      else if rest == "" then [head]
      else [head] + SplitFrom(rest, max, n + 1)
  }

  function Split(text: string, max: int): seq<string> {
    if TrimSpace(text) == "" then [] else SplitFrom(TrimSpace(text), max, 0)
  }

  /** One cut of a text that is too long. */
  lemma SplitStep(text: string, max: int, n: nat)
    requires n < MAX_REPLY_CHUNKS && |text| > max
    ensures var c := CutAt(text, max);
            var head, rest := TrimSpace(text[..c]), TrimSpace(text[c..]);
            SplitFrom(text, max, n) ==
            if n + 1 == MAX_REPLY_CHUNKS then [if rest == "" then head else head + "\n" + MSG_TRUNCATED]
            else if rest == "" then [head]
            else [head] + SplitFrom(rest, max, n + 1)
  {
  }

  lemma {:induction false} SplitOn(out: seq<string>, text: string, max: int)
    requires |out| + 1 < MAX_REPLY_CHUNKS && |text| > max
    ensures var c := CutAt(text, max);
            var head, rest := TrimSpace(text[..c]), TrimSpace(text[c..]);
            out + SplitFrom(text, max, |out|) ==
            if rest == "" then out + [head] else (out + [head]) + SplitFrom(rest, max, |out| + 1)
  {
    SplitStep(text, max, |out|);
  }

  /** The inner loop finds the max-th character; a break past half of the head moves the cut. */
  method FindCut(text: string, max: int) returns (cut: nat)
    requires |text| > max
    ensures cut == CutAt(text, max)
  {
    cut := 0;
    var n := 0;
    while n < |text|
      invariant 0 <= n <= |text| && cut == 0 && (max >= 0 ==> n <= max)
      decreases |text| - n
    {
      if n == max {
        cut := n;
        break;
      }
      n := n + 1;
    }
    var head := text[..cut];
    var p, l := LastIndex(head, "\n\n"), LastIndex(head, "\n");
    if PastHalf(head, p) {
      cut := p;
    } else if PastHalf(head, l) {
      cut := l;
    }
  }

  // ----- the bubbles, told place by place

  /** The break b starts at i within head, past half of its bytes. */
  predicate BreaksAt(head: string, b: string, i: nat) {
    i <= |head| && b <= head[i..] && ByteLen(head[..i]) > ByteLen(head) / 2
  }

  /** The last such break. */
  predicate LastBreak(head: string, b: string, i: nat) {
    BreaksAt(head, b, i) && forall j :: i < j <= |head| ==> !(b <= head[j..])
  }

  /** A text of more than max characters is cut at a paragraph break, else at a line break, else at max. */
  predicate CutRule(text: string, max: nat, c: nat)
    requires |text| > max
  {
    var head := text[..max];
    || LastBreak(head, "\n\n", c)
    || ((forall i :: 0 <= i <= max ==> !BreaksAt(head, "\n\n", i))
        && (LastBreak(head, "\n", c) || ((forall i :: 0 <= i <= max ==> !BreaksAt(head, "\n", i)) && c == max)))
  }

  /**
   * The bubble of this number shows what is left when that fits, else the part that is cut off it; the tenth is
   * the last, marked if more is left; and next is what is left for the next one, if there is one.
   */
  ghost predicate BubbleOk(left: string, bubble: string, next: Option<string>, max: nat, number: nat) {
    || (|left| <= max && next == None && bubble == left)
    || (|left| > max && exists c: nat, head, rest ::
          && CutsTo(left, max, c, head, rest)
          && bubble == (if rest != "" && number == 10 then head + "\n" + "（回复过长，后面的内容已省略）" else head)
          && next == (if rest != "" && number < 10 then Some(rest) else None))
  }

  predicate CutsTo(left: string, max: nat, c: nat, head: string, rest: string)
    requires |left| > max
  {
    CutRule(left, max, c) && c <= max && Strips(left[..c], head) && Strips(left[c..], rest)
  }

  function Second(lefts: seq<string>): Option<string> {
    if |lefts| > 1 then Some(lefts[1]) else None
  }

  /** Bubbles, the first of them the one after `made` others, with what was left before each. */
  ghost predicate Bubbled(lefts: seq<string>, out: seq<string>, max: nat, made: nat) {
    && 1 <= |lefts| == |out| && BubbleOk(lefts[0], out[0], Second(lefts), max, made + 1)
    && (|lefts| > 1 ==> Bubbled(lefts[1..], out[1..], max, made + 1))
  }

  /** out is the bubbles of text, one after the other; none when there is only white space. */
  ghost predicate SplitsInto(text: string, max: nat, out: seq<string>) {
    || (Strips(text, "") && out == [])
    || (!Strips(text, "") && exists lefts: seq<string> :: Bubbled(lefts, out, max, 0) && Strips(text, lefts[0]))
  }

  lemma BreaksIff(head: string, b: string, i: nat)
    requires i <= |head| && b <= head[i..]
    ensures BreaksAt(head, b, i) <==> PastHalf(head, i)
  {
  }

  lemma LastBreakFound(head: string, b: string)
    ensures var l := LastIndex(head, b);
            if PastHalf(head, l) then LastBreak(head, b, l) else forall i :: 0 <= i <= |head| ==> !BreaksAt(head, b, i)
  {
    var l := LastIndex(head, b);
    if l >= 0 {
      BreaksIff(head, b, l);
    }
    if !PastHalf(head, l) {
      forall i | 0 <= i <= |head|
        ensures !BreaksAt(head, b, i)
      {
        if BreaksAt(head, b, i) {
          ByteLenMonotone(head, i, l);
        }
      }
    }
  }

  lemma CutAtRule(text: string, max: nat)
    requires |text| > max
    ensures CutRule(text, max, CutAt(text, max)) && CutAt(text, max) <= max
  {
    LastBreakFound(text[..max], "\n\n");
    LastBreakFound(text[..max], "\n");
  }

  lemma BubbleCut(text: string, max: nat, number: nat)
    requires |text| > max && number <= 10
    ensures var c := CutAt(text, max);
            var head, rest := TrimSpace(text[..c]), TrimSpace(text[c..]);
            BubbleOk(text, if rest != "" && number == 10 then head + "\n" + MSG_TRUNCATED else head,
                     if rest != "" && number < 10 then Some(rest) else None, max, number)
  {
    var c := CutAt(text, max);
    CutAtRule(text, max);
    TrimStrips(text[..c]);
    TrimStrips(text[c..]);
    assert CutsTo(text, max, c, TrimSpace(text[..c]), TrimSpace(text[c..]));
  }

  lemma BubblesMore(text: string, head: string, max: nat, n: nat, lefts: seq<string>, out: seq<string>)
    requires Bubbled(lefts, out, max, n + 1) && BubbleOk(text, head, Some(lefts[0]), max, n + 1)
    ensures Bubbled([text] + lefts, [head] + out, max, n)
  {
    assert ([text] + lefts)[1..] == lefts && ([head] + out)[1..] == out;
  }

  lemma {:induction false} SplitFromBubbles(text: string, max: nat, n: nat) returns (lefts: seq<string>)
    requires n < MAX_REPLY_CHUNKS
    ensures Bubbled(lefts, SplitFrom(text, max, n), max, n) && lefts[0] == text
    decreases MAX_REPLY_CHUNKS - n
  {
    lefts := [text];
    if |text| > max {
      var c := CutAt(text, max);
      var head, rest := TrimSpace(text[..c]), TrimSpace(text[c..]);
      BubbleCut(text, max, n + 1);
      SplitStep(text, max, n);
      if n + 1 < MAX_REPLY_CHUNKS && rest != "" {
        var more := SplitFromBubbles(rest, max, n + 1);
        BubblesMore(text, head, max, n, more, SplitFrom(rest, max, n + 1));
        lefts := [text] + more;
      }
    }
  }

  /** What `Split` is, told from the texts alone. */
  lemma {:induction false} SplitMeaning(text: string, max: nat)
    ensures SplitsInto(text, max, Split(text, max))
  {
    TrimStrips(text);
    if TrimSpace(text) != "" {
      if Strips(text, "") {
        StripsOnly(text, "");
      }
      var lefts := SplitFromBubbles(TrimSpace(text), max, 0);
    }
  }

  method SplitReply(text: string, max: int) returns (out: seq<string>)
    ensures out == Split(text, max)
  {
    var left := TrimSpace(text);
    out := [];
    if left == "" {
      return;
    }
    ghost var all := SplitFrom(left, max, 0);
    while left != ""
      invariant left != "" ==> |out| < MAX_REPLY_CHUNKS && out + SplitFrom(left, max, |out|) == all
      invariant left == "" ==> out == all
      decreases if left == "" then 0 else MAX_REPLY_CHUNKS - |out|
    {
      if |left| <= max {
        out := out + [left];
        break;
      }
      var cut := FindCut(left, max);
      SplitStep(left, max, |out|);
      if |out| + 1 < MAX_REPLY_CHUNKS {
        SplitOn(out, left, max);
      }
      ghost var before := out;
      out := out + [TrimSpace(left[..cut])];
      left := TrimSpace(left[cut..]);
      if |out| == MAX_REPLY_CHUNKS {
        if left != "" {
          out := out[..|out| - 1] + [out[|out| - 1] + "\n" + MSG_TRUNCATED];
        }
        assert out[..|before|] == before;
        break;
      }
    }
  }

  /** The text as it was cut: the parts shown, and what was left out after the last one. */
  datatype Cutting = Cutting(parts: seq<string>, left: string)

  /** How a cutting is shown: the last part carries the mark when something was left out. */
  function Bubbles(c: Cutting): seq<string> {
    if c.left == "" || c.parts == [] then c.parts
    else c.parts[..|c.parts| - 1] + [c.parts[|c.parts| - 1] + "\n" + MSG_TRUNCATED]
  }

  predicate PartsFit(parts: seq<string>, max: int) {
    forall i :: 0 <= i < |parts| ==> parts[i] != "" && |parts[i]| <= max && Trimmed(parts[i])
  }

  /** Every part is a non-empty bubble of at most max characters, and no non-space character is lost or moved. */
  predicate Conserves(text: string, max: int, room: nat, c: Cutting) {
    && 1 <= |c.parts| <= room && PartsFit(c.parts, max)
    && Solid(text) == Solid(AglTales.Flatten(c.parts)) + Solid(c.left)
    && (c.left != "" ==> |c.parts| == room && Solid(c.left) != "")
  }

  lemma {:induction false} FlattenCons(p: string, parts: seq<string>)
    ensures AglTales.Flatten([p] + parts) == p + AglTales.Flatten(parts)
  {
    if parts == [] {
      assert [p] + parts == [p];
      assert [p][..0] == [];
      assert AglTales.Flatten([p]) == "" + p;
    } else {
      assert ([p] + parts)[..|parts|] == [p] + parts[..|parts| - 1];
      FlattenCons(p, parts[..|parts| - 1]);
    }
  }

  lemma FlattenOne(p: string)
    ensures AglTales.Flatten([p]) == p
  {
    assert [p][..0] == [];
  }

  lemma {:induction false} SolidOfTrimmed(s: string)
    requires s != "" && Trimmed(s)
    ensures Solid(s) != ""
  {
  }

  lemma {:induction false} CutSolid(text: string, c: nat)
    requires c <= |text|
    ensures Solid(text) == Solid(TrimSpace(text[..c])) + Solid(TrimSpace(text[c..]))
  {
    assert text == text[..c] + text[c..];
    SolidConcat(text[..c], text[c..]);
    TrimKeepsSolid(text[..c]);
    TrimKeepsSolid(text[c..]);
  }

  lemma HeadFits(text: string, max: int)
    requires text != "" && Trimmed(text) && |text| > max >= 1
    ensures var h := TrimSpace(text[..CutAt(text, max)]); h != "" && |h| <= max && Trimmed(h)
  {
    var c := CutAt(text, max);
    TrimKeepsSolid(text[..c]);
    TrimNonEmpty(text[..c], 0);
  }

  lemma LastBubbles(head: string, rest: string)
    ensures Bubbles(Cutting([head], rest)) == [if rest == "" then head else head + "\n" + MSG_TRUNCATED]
  {
    assert [head][..0] == [];
  }

  /** One part, with what is left of the text, if anything. */
  lemma LastPart(text: string, head: string, rest: string, max: int, room: nat)
    requires CutOk(text, max, head, rest)
    requires room >= 1 && (rest != "" ==> room == 1)
    ensures Conserves(text, max, room, Cutting([head], rest))
  {
    FlattenOne(head);
    if rest != "" {
      SolidOfTrimmed(rest);
    }
  }

  lemma {:induction false} NextSolid(text: string, head: string, rest: string, flat: string, left: string)
    requires Solid(text) == Solid(head) + Solid(rest) && Solid(rest) == Solid(flat) + Solid(left)
    ensures Solid(text) == Solid(head + flat) + Solid(left)
  {
    SolidConcat(head, flat);
    Associate(Solid(head), Solid(flat), Solid(left));
  }

  lemma Associate(a: string, b: string, c: string)
    ensures a + (b + c) == (a + b) + c
  {
  }

  lemma NextFits(head: string, parts: seq<string>, max: int)
    requires head != "" && |head| <= max && Trimmed(head) && PartsFit(parts, max)
    ensures PartsFit([head] + parts, max)
  {
  }

  lemma NextBubbles(head: string, d: Cutting)
    requires d.parts != []
    ensures Bubbles(Cutting([head] + d.parts, d.left)) == [head] + Bubbles(d)
  {
    var n := |d.parts|;
    assert ([head] + d.parts)[..n] == [head] + d.parts[..n - 1];
    assert ([head] + d.parts)[n] == d.parts[n - 1];
  }

  /** A part in front of a cutting of the rest. */
  lemma NextPart(text: string, head: string, rest: string, max: int, room: nat, d: Cutting)
    requires CutOk(text, max, head, rest)
    requires Conserves(rest, max, room, d)
    ensures Conserves(text, max, room + 1, Cutting([head] + d.parts, d.left))
  {
    var flat := AglTales.Flatten(d.parts);
    assert Solid(text) == Solid(AglTales.Flatten([head] + d.parts)) + Solid(d.left) by {
      NextSolid(text, head, rest, flat, d.left);
      FlattenCons(head, d.parts);
    }
    NextFits(head, d.parts, max);
  }

  /** The cutting that SplitFrom shows. */
  function CuttingFrom(text: string, max: int, n: nat): (c: Cutting)
    requires n < MAX_REPLY_CHUNKS
    ensures c.parts != []
    decreases MAX_REPLY_CHUNKS - n
  {
    if |text| <= max then Cutting([text], "")
    else
      var k := CutAt(text, max);
      var head, rest := TrimSpace(text[..k]), TrimSpace(text[k..]);
      if n + 1 == MAX_REPLY_CHUNKS || rest == "" then Cutting([head], rest)
      else
        var d := CuttingFrom(rest, max, n + 1);
        Cutting([head] + d.parts, d.left)
  }

  lemma {:induction false} CuttingShown(text: string, max: int, n: nat)
    requires n < MAX_REPLY_CHUNKS
    ensures SplitFrom(text, max, n) == Bubbles(CuttingFrom(text, max, n))
    decreases MAX_REPLY_CHUNKS - n
  {
    if |text| <= max {
      LastBubbles(text, "");
    } else {
      var k := CutAt(text, max);
      var head, rest := TrimSpace(text[..k]), TrimSpace(text[k..]);
      SplitStep(text, max, n);
      if n + 1 == MAX_REPLY_CHUNKS || rest == "" {
        LastBubbles(head, rest);
      } else {
        CuttingShown(rest, max, n + 1);
        NextBubbles(head, CuttingFrom(rest, max, n + 1));
      }
    }
  }

  /** A cut yields a bubble and what is left, and loses nothing but white space. */
  predicate CutOk(text: string, max: int, head: string, rest: string) {
    && Solid(text) == Solid(head) + Solid(rest)
    && head != "" && |head| <= max && Trimmed(head) && Trimmed(rest)
  }

  lemma CutIsOk(text: string, max: int)
    requires text != "" && Trimmed(text) && |text| > max >= 1
    ensures var k := CutAt(text, max); CutOk(text, max, TrimSpace(text[..k]), TrimSpace(text[k..]))
  {
    var k := CutAt(text, max);
    CutSolid(text, k);
    HeadFits(text, max);
    TrimKeepsSolid(text[k..]);
  }

  lemma WholeIsOk(text: string, max: int)
    requires text != "" && Trimmed(text) && |text| <= max
    ensures CutOk(text, max, text, "")
  {
    assert Solid(text) + "" == Solid(text);
  }

  /** What a step of the cutting leaves. */
  lemma CuttingStep(text: string, max: int, n: nat)
    requires n < MAX_REPLY_CHUNKS && |text| > max
    ensures var k := CutAt(text, max);
            var head, rest := TrimSpace(text[..k]), TrimSpace(text[k..]);
            CuttingFrom(text, max, n) ==
            if n + 1 == MAX_REPLY_CHUNKS || rest == "" then Cutting([head], rest)
            else Cutting([head] + CuttingFrom(rest, max, n + 1).parts, CuttingFrom(rest, max, n + 1).left)
  {
  }

  /** From what is left of a text to the whole of it. */
  lemma ConservesStep(text: string, max: int, n: nat, head: string, rest: string, d: Cutting)
    requires n < MAX_REPLY_CHUNKS && CutOk(text, max, head, rest)
    requires n + 1 < MAX_REPLY_CHUNKS && rest != "" ==> Conserves(rest, max, MAX_REPLY_CHUNKS - (n + 1), d)
    ensures Conserves(text, max, MAX_REPLY_CHUNKS - n,
                      if n + 1 == MAX_REPLY_CHUNKS || rest == "" then Cutting([head], rest) else Cutting([head] + d.parts, d.left))
  {
    if n + 1 == MAX_REPLY_CHUNKS || rest == "" {
      LastPart(text, head, rest, max, MAX_REPLY_CHUNKS - n);
    } else {
      NextPart(text, head, rest, max, MAX_REPLY_CHUNKS - (n + 1), d);
    }
  }

  /** One cut of the text: a good bubble, what is left, and what the cutting makes of them. */
  lemma CutGives(text: string, max: int, n: nat) returns (head: string, rest: string)
    requires n < MAX_REPLY_CHUNKS && text != "" && Trimmed(text) && |text| > max >= 1
    ensures CutOk(text, max, head, rest)
    ensures CuttingFrom(text, max, n) ==
            if n + 1 == MAX_REPLY_CHUNKS || rest == "" then Cutting([head], rest)
            else Cutting([head] + CuttingFrom(rest, max, n + 1).parts, CuttingFrom(rest, max, n + 1).left)
  {
    var k := CutAt(text, max);
    head, rest := TrimSpace(text[..k]), TrimSpace(text[k..]);
    CutIsOk(text, max);
    CuttingStep(text, max, n);
  }

  /** The last cut: the bubble is the last one, and what is left of the text goes unshown. */
  lemma {:induction false} LastCutConserves(text: string, max: int, n: nat, head: string, rest: string, c: Cutting)
    requires n < MAX_REPLY_CHUNKS && CutOk(text, max, head, rest)
    requires (n + 1 == MAX_REPLY_CHUNKS || rest == "") && c == Cutting([head], rest)
    ensures Conserves(text, max, MAX_REPLY_CHUNKS - n, c)
  {
    ConservesStep(text, max, n, head, rest, Cutting([], ""));
  }

  /** A cut with more to come. */
  lemma {:induction false} NextCutConserves(text: string, max: int, n: nat, head: string, rest: string, d: Cutting,
                                            c: Cutting)
    requires n + 1 < MAX_REPLY_CHUNKS && rest != "" && CutOk(text, max, head, rest)
    requires Conserves(rest, max, MAX_REPLY_CHUNKS - (n + 1), d) && c == Cutting([head] + d.parts, d.left)
    ensures Conserves(text, max, MAX_REPLY_CHUNKS - n, c)
  {
    ConservesStep(text, max, n, head, rest, d);
  }

  /** The whole text as one bubble. */
  lemma {:induction false} WholeConserves(text: string, max: int, n: nat)
    requires n < MAX_REPLY_CHUNKS && text != "" && Trimmed(text) && |text| <= max
    ensures Conserves(text, max, MAX_REPLY_CHUNKS - n, CuttingFrom(text, max, n))
  {
    WholeIsOk(text, max);
    LastPart(text, text, "", max, MAX_REPLY_CHUNKS - n);
  }

  lemma {:induction false} CuttingConserves(text: string, max: int, n: nat)
    requires max >= 1 && n < MAX_REPLY_CHUNKS && text != "" && Trimmed(text)
    ensures Conserves(text, max, MAX_REPLY_CHUNKS - n, CuttingFrom(text, max, n))
    decreases MAX_REPLY_CHUNKS - n
  {
    if |text| <= max {
      WholeConserves(text, max, n);
    } else {
      var head, rest := CutGives(text, max, n);
      if n + 1 < MAX_REPLY_CHUNKS && rest != "" {
        CuttingConserves(rest, max, n + 1);
        NextCutConserves(text, max, n, head, rest, CuttingFrom(rest, max, n + 1), CuttingFrom(text, max, n));
      } else {
        LastCutConserves(text, max, n, head, rest, CuttingFrom(text, max, n));
      }
    }
  }

  /**
   * For max at least 1 a reply becomes at most ten bubbles, non-empty and within max characters but for
   * the tenth's mark; the non-space characters are the reply's, in order, all of them unless the tenth
   * is marked, and then all up to a point with some left out.
   */
  lemma SplitConserves(text: string, max: int) returns (c: Cutting)
    requires max >= 1 && TrimSpace(text) != ""
    ensures Conserves(text, max, MAX_REPLY_CHUNKS, c) && Split(text, max) == Bubbles(c)
  {
    TrimKeepsSolid(text);
    c := CuttingFrom(TrimSpace(text), max, 0);
    CuttingShown(TrimSpace(text), max, 0);
    CuttingConserves(TrimSpace(text), max, 0);
  }

  /** For max below 1 nothing of the reply is shown: nine empty bubbles and the mark. */
  lemma {:induction false} SplitNothing(text: string, max: int, n: nat)
    requires max < 1 && n < MAX_REPLY_CHUNKS && text != "" && Trimmed(text)
    ensures SplitFrom(text, max, n) == seq(MAX_REPLY_CHUNKS - 1 - n, i => "") + ["\n" + MSG_TRUNCATED]
    decreases MAX_REPLY_CHUNKS - n
  {
    assert CutAt(text, max) == 0;
    assert text[..0] == "" && text[0..] == text;
    TrimIdle(text);
    TrimIdle("");
    if n + 1 < MAX_REPLY_CHUNKS {
      SplitNothing(text, max, n + 1);
      assert seq(MAX_REPLY_CHUNKS - 1 - n, i => "") == [""] + seq(MAX_REPLY_CHUNKS - 2 - n, i => "");
    } else {
      assert "" + "\n" + MSG_TRUNCATED == "\n" + MSG_TRUNCATED;
    }
  }

  /** A text that has to be cut is cut at its last paragraph break past half of the window, when there is one. */
  lemma CutPrefersParagraphs(text: string, max: int, i: nat)
    requires |text| > max >= 1 && i <= max && "\n\n" <= text[..max][i..] && PastHalf(text[..max], i)
    ensures var c := CutAt(text, max); i <= c && "\n\n" <= text[..max][c..]
  {
    var head := text[..max];
    var p := LastIndex(head, "\n\n");
    assert p >= i;
    ByteLenMonotone(head, i, p);
  }

  /** With no paragraph break past half, the cut is at the last line break past half, and with neither at max. */
  lemma CutElseAtLines(text: string, max: int)
    requires |text| > max >= 1
    requires forall j :: 0 <= j <= max && "\n\n" <= text[..max][j..] ==> !PastHalf(text[..max], j)
    ensures var c, head := CutAt(text, max), text[..max];
            && (forall i :: 0 <= i < max && head[i] == '\n' && PastHalf(head, i) ==> i <= c && c < max && head[c] == '\n')
            && ((forall i :: 0 <= i < max && head[i] == '\n' ==> !PastHalf(head, i)) ==> c == max)
  {
    var head := text[..max];
    var l := LastIndex(head, "\n");
    forall i | 0 <= i <= |head|
      ensures "\n" <= head[i..] <==> i < |head| && head[i] == '\n'
    {
    }
    forall i | 0 <= i < max && head[i] == '\n' && PastHalf(head, i)
      ensures PastHalf(head, l)
    {
      ByteLenMonotone(head, i, l);
    }
  }
}
