/** Cutting UTF-8 text by bytes: the caps on tool results and on strings from a machine. */
module Utf8 {
  newtype byte = b: int | 0 <= b < 0x100

  type Bytes = seq<byte>

  predicate Continuation(b: byte) {
    0x80 <= b < 0xC0
  }

  /** utf8.RuneStart. */
  predicate RuneStart(b: byte) {
    !Continuation(b)
  }

  /** Bytes of the character that this first byte announces, 0 for a byte that starts none. */
  function Announced(b: byte): nat {
    if b < 0x80 then 1 else if 0xC2 <= b < 0xE0 then 2 else if 0xE0 <= b < 0xF0 then 3 else if 0xF0 <= b < 0xF5 then 4 else 0
  }

  /** The second byte's range, narrower after the first bytes of overlong, surrogate and too large forms. */
  predicate SecondOk(a: byte, b: byte) {
    && Continuation(b)
    && (a == 0xE0 ==> b >= 0xA0) && (a == 0xED ==> b < 0xA0)
    && (a == 0xF0 ==> b >= 0x90) && (a == 0xF4 ==> b < 0x90)
  }

  /** Size of the well-formed character at the start of s (RFC 3629, sections 3 and 4), 0 if there is none. */
  function Size(s: Bytes): (n: nat)
    ensures n <= |s| && n <= 4
  {
    if s == [] then 0
    else
      var n := Announced(s[0]);
      if n == 0 || n > |s| then 0
      else if n >= 2 && !SecondOk(s[0], s[1]) then 0
      else if n >= 3 && !Continuation(s[2]) then 0
      else if n == 4 && !Continuation(s[3]) then 0
      else n
  }

  /** utf8.ValidString. */
  predicate Valid(s: Bytes) {
    s == [] || (Size(s) > 0 && Valid(s[Size(s)..]))
  }

  lemma {:induction false} ValidPrefixIff(s: Bytes, k: nat)
    requires Valid(s) && k <= |s|
    ensures Valid(s[..k]) <==> k == |s| || RuneStart(s[k])
    decreases |s|
  {
    if s == [] {
      assert s[..k] == [];
    } else if k == 0 {
      assert RuneStart(s[0]);
    } else {
      var z := Size(s);
      if k < z {
        InsideCharacter(s, k);
      } else {
        assert Size(s[..k]) == z;
        assert s[..k][z..] == s[z..][..k - z];
        ValidPrefixIff(s[z..], k - z);
      }
    }
  }

  lemma InsideCharacter(s: Bytes, k: nat)
    requires 0 < k < Size(s)
    ensures !RuneStart(s[k]) && !Valid(s[..k])
  {
    assert s[..k][0] == s[0];
    assert Size(s[..k]) == 0;
  }

  lemma {:induction false} ValidSuffix(s: Bytes, k: nat)
    requires Valid(s) && k <= |s| && (k == |s| || RuneStart(s[k]))
    ensures Valid(s[k..])
    decreases |s|
  {
    if k == 0 {
      assert s[0..] == s;
    } else if s != [] {
      var z := Size(s);
      if k < z {
        InsideCharacter(s, k);
      } else {
        assert s[k..] == s[z..][k - z..];
        ValidSuffix(s[z..], k - z);
      }
    }
  }

  predicate EndOrStart(s: Bytes, j: nat) {
    j == |s| || (j < |s| && RuneStart(s[j]))
  }

  /** No four bytes in a row of a valid text are all continuations. */
  lemma {:induction false} StartNearby(s: Bytes, k: nat) returns (i: nat, j: nat)
    requires Valid(s) && k < |s|
    ensures k - 3 <= i <= k && RuneStart(s[i])
    ensures k <= j <= k + 3 && EndOrStart(s, j)
    decreases |s|
  {
    var z := Size(s);
    if k < z {
      i := 0;
      j := if k == 0 then 0 else z;
      if z < |s| {
        assert Valid(s[z..]) && RuneStart(s[z..][0]);
      }
    } else {
      i, j := StartNearby(s[z..], k - z);
      i, j := i + z, j + z;
    }
  }

  // ----- cutting

  /** The longest valid prefix of s of at most n bytes is s[..k]. */
  predicate LongestValid(s: Bytes, n: nat, k: nat) {
    k <= n && k <= |s| && Valid(s[..k]) && forall j :: k < j <= n && j <= |s| ==> !Valid(s[..j])
  }

  /** Where truncating leaves off, for any bytes: the last rune start up to n, or the beginning. */
  predicate CutBefore(s: Bytes, n: nat, k: nat) {
    && k <= n < |s| && (k == 0 || RuneStart(s[k])) && forall j :: k < j <= n ==> !RuneStart(s[j])
  }

  /** Where the tail begins, for any bytes: the first rune start from |s| - n on, or the end. */
  predicate CutAfter(s: Bytes, n: nat, k: nat) {
    && |s| - n <= k <= |s| && (k == |s| || RuneStart(s[k])) && forall j :: |s| - n <= j < k && 0 <= j ==> !RuneStart(s[j])
  }

  method TruncateUtf8(s: Bytes, n: nat) returns (r: Bytes)
    ensures |s| <= n ==> r == s
    ensures |s| > n ==> |r| <= n && r == s[..|r|] && CutBefore(s, n, |r|)
  {
    if |s| <= n {
      return s;
    }
    var k := n;
    while k > 0 && !RuneStart(s[k])
      invariant 0 <= k <= n && forall j :: k < j <= n ==> !RuneStart(s[j])
    {
      k := k - 1;
    }
    r := s[..k];
  }

  method TailUtf8(s: Bytes, n: nat) returns (r: Bytes)
    ensures |s| <= n ==> r == s
    ensures |s| > n ==> |r| <= n && r == s[|s| - |r|..] && CutAfter(s, n, |s| - |r|)
  {
    if |s| <= n {
      return s;
    }
    var i := |s| - n;
    while i < |s| && !RuneStart(s[i])
      invariant |s| - n <= i <= |s| && forall j :: |s| - n <= j < i ==> !RuneStart(s[j])
    {
      i := i + 1;
    }
    r := s[i..];
  }

  /** clipN on a trimmed string, and clipError. */
  method ClipN(s: Bytes, n: nat) returns (r: Bytes)
    ensures |s| <= n ==> r == s
    ensures |s| > n ==> |r| <= n && r == s[..|r|] && LongestValid(s, n, |r|)
  {
    if |s| <= n {
      return s;
    }
    r := s[..n];
    while !Valid(r)
      invariant |r| <= n && r == s[..|r|] && forall j :: |r| < j <= n ==> !Valid(s[..j])
      decreases |r|
    {
      assert r[..|r| - 1] == s[..|r| - 1];
      r := r[..|r| - 1];
    }
  }

  /** On valid text cutting at the last rune start and shrinking to validity agree, and lose at most 3 bytes more than asked. */
  lemma {:induction false} TruncateIsClip(s: Bytes, n: nat, k: nat)
    requires Valid(s) && |s| > n
    ensures CutBefore(s, n, k) <==> LongestValid(s, n, k)
    ensures CutBefore(s, n, k) ==> n - 3 <= k
  {
    forall j | 0 <= j <= n
      ensures Valid(s[..j]) <==> RuneStart(s[j])
    {
      ValidPrefixIff(s, j);
    }
    var i, j := StartNearby(s, n);
    assert Valid(s[..0]) by {
      assert s[..0] == [];
    }
  }

  lemma {:induction false} TailIsValid(s: Bytes, n: nat, k: nat)
    requires Valid(s) && n < |s| && CutAfter(s, n, k)
    ensures Valid(s[k..]) && (n > 0 ==> k <= |s| - n + 3)
  {
    ValidSuffix(s, k);
    if n > 0 {
      var i, j := StartNearby(s, |s| - n);
    }
  }

  // ----- capping a tool's result

  const MAX_TOOL_RESULT_BYTES := 64 * 1024
  const TOOL_RESULT_HEAD_BYTES := 48 * 1024
  const TOOL_RESULT_TAIL_BYTES := 12 * 1024

  /** What enters the model's context: the result, or its two ends with the sizes of the whole and of the gap. */
  datatype Capped = Whole(content: Bytes) | Excerpt(head: Bytes, total: nat, omitted: nat, tail: Bytes)

  /**
   * A result that fits is untouched. Of a longer one the excerpt is its beginning and its end, which do
   * not overlap; the omitted count is exactly what lies between; and of valid text both are valid and at
   * most 3 bytes short of their limits.
   */
  method CapToolResult(content: Bytes) returns (r: Capped)
    ensures |content| <= MAX_TOOL_RESULT_BYTES <==> r.Whole?
    ensures r.Whole? ==> r.content == content
    ensures r.Excerpt? ==>
              && |r.head| <= TOOL_RESULT_HEAD_BYTES && |r.tail| <= TOOL_RESULT_TAIL_BYTES
              && r.total == |content| && |r.head| + r.omitted + |r.tail| == |content| && r.omitted > 0
              && r.head == content[..|r.head|] && r.tail == content[|r.head| + r.omitted..]
    ensures r.Excerpt? && Valid(content) ==>
              && Valid(r.head) && Valid(r.tail)
              && |r.head| >= TOOL_RESULT_HEAD_BYTES - 3 && |r.tail| >= TOOL_RESULT_TAIL_BYTES - 3
  {
    if |content| <= MAX_TOOL_RESULT_BYTES {
      return Whole(content);
    }
    var head := TruncateUtf8(content, TOOL_RESULT_HEAD_BYTES);
    var tail := TailUtf8(content, TOOL_RESULT_TAIL_BYTES);
    EndsValid(content, |head|, |content| - |tail|);
    r := Excerpt(head, |content|, |content| - |head| - |tail|, tail);
  }

  lemma {:induction false} EndsValid(content: Bytes, a: nat, b: nat)
    requires |content| > MAX_TOOL_RESULT_BYTES
    requires CutBefore(content, TOOL_RESULT_HEAD_BYTES, a) && CutAfter(content, TOOL_RESULT_TAIL_BYTES, b)
    ensures Valid(content) ==> Valid(content[..a]) && Valid(content[b..])
    ensures Valid(content) ==> a >= TOOL_RESULT_HEAD_BYTES - 3 && |content| - b >= TOOL_RESULT_TAIL_BYTES - 3
  {
    if Valid(content) {
      TruncateIsClip(content, TOOL_RESULT_HEAD_BYTES, a);
      TailIsValid(content, TOOL_RESULT_TAIL_BYTES, b);
    }
  }

  /** MaxToolResultBytes of a local agent's run: 8 << 10. */
  const MAX_RUN_RESULT_BYTES := 8 * 1024

  /** capResult: the text shown, of which so many bytes of so many. */
  method CapResult(text: Bytes) returns (shown: Bytes, truncated: bool)
    ensures truncated <==> |text| > MAX_RUN_RESULT_BYTES
    ensures !truncated ==> shown == text
    ensures truncated ==> |shown| <= |text| && shown == text[..|shown|] && CutBefore(text, MAX_RUN_RESULT_BYTES, |shown|)
    ensures Valid(text) ==> Valid(shown)
  {
    if |text| <= MAX_RUN_RESULT_BYTES {
      return text, false;
    }
    var cut := MAX_RUN_RESULT_BYTES;
    while cut > 0 && !RuneStart(text[cut])
      invariant 0 <= cut <= MAX_RUN_RESULT_BYTES
      invariant forall j :: cut < j <= MAX_RUN_RESULT_BYTES ==> !RuneStart(text[j])
    {
      cut := cut - 1;
    }
    shown, truncated := text[..cut], true;
    if Valid(text) {
      TruncateIsClip(text, MAX_RUN_RESULT_BYTES, cut);
    }
  }
}
