/** Text as Unicode scalars: UTF-8 width, white space, trimming, searching. */
module Text {
  /** Bytes of c in UTF-8 (RFC 3629, section 3). */
  function Width(c: char): (w: nat)
    ensures 1 <= w <= 4
  {
    if c as int < 0x80 then 1 else if c as int < 0x800 then 2 else if c as int < 0x10000 then 3 else 4
  }

  function ByteLen(s: string): (n: nat)
    ensures |s| <= n <= 4 * |s|
  {
    if s == "" then 0 else ByteLen(s[..|s| - 1]) + Width(s[|s| - 1])
  }

  lemma {:induction false} ByteLenMonotone(s: string, i: nat, j: nat)
    requires i <= j <= |s|
    ensures ByteLen(s[..i]) <= ByteLen(s[..j])
    ensures i < j ==> ByteLen(s[..i]) < ByteLen(s[..j])
  {
    if i < j {
      assert s[..j][..j - 1] == s[..j - 1];
      ByteLenMonotone(s, i, j - 1);
    }
  }

  /** unicode.IsSpace. */
  predicate IsSpace(c: char) {
    || c == ' ' || '\t' <= c <= '\r'
    || c as int == 0x85 || c as int == 0xA0 || c as int == 0x1680
    || 0x2000 <= c as int <= 0x200A
    || c as int == 0x2028 || c as int == 0x2029 || c as int == 0x202F
    || c as int == 0x205F || c as int == 0x3000
  }

  function TrimLeft(s: string): string {
    if s != "" && IsSpace(s[0]) then TrimLeft(s[1..]) else s
  }

  function TrimRight(s: string): string {
    if s != "" && IsSpace(s[|s| - 1]) then TrimRight(s[..|s| - 1]) else s
  }

  function TrimSpace(s: string): string {
    TrimRight(TrimLeft(s))
  }

  /** Starts and ends with a non-space, or is empty. */
  predicate Trimmed(s: string) {
    s != "" ==> !IsSpace(s[0]) && !IsSpace(s[|s| - 1])
  }

  predicate AllSpace(s: string) {
    forall i :: 0 <= i < |s| ==> IsSpace(s[i])
  }

  /** What trimming removes, on each side, is white space only. */
  lemma {:induction false} TrimLeftSplit(s: string) returns (a: string)
    ensures AllSpace(a) && s == a + TrimLeft(s)
    ensures TrimLeft(s) != "" ==> !IsSpace(TrimLeft(s)[0])
  {
    a := "";
    if s != "" && IsSpace(s[0]) {
      var b := TrimLeftSplit(s[1..]);
      a := [s[0]] + b;
      assert s == [s[0]] + s[1..] && TrimLeft(s) == TrimLeft(s[1..]);
    }
  }

  lemma {:induction false} TrimRightSplit(s: string) returns (b: string)
    ensures AllSpace(b) && s == TrimRight(s) + b
    ensures TrimRight(s) != "" ==> !IsSpace(TrimRight(s)[|TrimRight(s)| - 1])
  {
    b := "";
    if s != "" && IsSpace(s[|s| - 1]) {
      var a := TrimRightSplit(s[..|s| - 1]);
      b := a + [s[|s| - 1]];
      assert s == s[..|s| - 1] + [s[|s| - 1]];
    }
  }

  lemma TrimSplit(s: string) returns (a: string, b: string)
    ensures AllSpace(a) && AllSpace(b) && s == a + TrimSpace(s) + b
    ensures Trimmed(TrimSpace(s))
  {
    a := TrimLeftSplit(s);
    b := TrimRightSplit(TrimLeft(s));
    assert s == a + (TrimSpace(s) + b);
    if TrimSpace(s) != "" {
      assert TrimLeft(s)[0] == TrimSpace(s)[0];
    }
  }

  /** t is s without the white space at its ends. */
  predicate Strips(s: string, t: string) {
    Trimmed(t) && exists i, j :: 0 <= i <= j <= |s| && AllSpace(s[..i]) && AllSpace(s[j..]) && t == s[i..j]
  }

  lemma TrimStrips(s: string)
    ensures Strips(s, TrimSpace(s))
  {
    var a, b := TrimSplit(s);
    var i, j := |a|, |a| + |TrimSpace(s)|;
    assert s[..i] == a && s[j..] == b && s[i..j] == TrimSpace(s);
  }

  lemma {:induction false} TrimLeftSkips(a: string, s: string)
    requires AllSpace(a)
    ensures TrimLeft(a + s) == TrimLeft(s)
  {
    if a == "" {
      assert a + s == s;
    } else {
      assert (a + s)[1..] == a[1..] + s;
      TrimLeftSkips(a[1..], s);
    }
  }

  lemma {:induction false} TrimRightSkips(s: string, b: string)
    requires AllSpace(b)
    ensures TrimRight(s + b) == TrimRight(s)
  {
    if b == "" {
      assert s + b == s;
    } else {
      assert (s + b)[..|s + b| - 1] == s + b[..|b| - 1];
      TrimRightSkips(s, b[..|b| - 1]);
    }
  }

  lemma Thirds(s: string, i: nat, j: nat)
    requires i <= j <= |s|
    ensures s == s[..i] + (s[i..j] + s[j..])
  {
  }

  /** There is only one such t. */
  lemma StripsOnly(s: string, t: string)
    requires Strips(s, t)
    ensures TrimSpace(s) == t
  {
    var i, j :| 0 <= i <= j <= |s| && AllSpace(s[..i]) && AllSpace(s[j..]) && t == s[i..j];
    Thirds(s, i, j);
    TrimLeftSkips(s[..i], t + s[j..]);
    StripsEnd(t, s[j..]);
  }

  lemma StripsEnd(t: string, b: string)
    requires Trimmed(t) && AllSpace(b)
    ensures TrimSpace(t + b) == t
  {
    if t == "" {
      assert t + b == b == b + "";
      TrimLeftSkips(b, "");
    } else {
      TrimRightSkips(t, b);
    }
  }

  /** The characters of s that are not white space, in order. */
  function Solid(s: string): string {
    if s == "" then ""
    else Solid(s[..|s| - 1]) + (if IsSpace(s[|s| - 1]) then "" else [s[|s| - 1]])
  }

  lemma {:induction false} SolidConcat(a: string, b: string)
    ensures Solid(a + b) == Solid(a) + Solid(b)
  {
    if b == "" {
      assert a + b == a;
    } else {
      SolidConcat(a, b[..|b| - 1]);
      assert (a + b)[..|a + b| - 1] == a + b[..|b| - 1];
    }
  }

  lemma {:induction false} SolidSpace(s: string)
    requires AllSpace(s)
    ensures Solid(s) == ""
  {
    if s != "" {
      SolidSpace(s[..|s| - 1]);
    }
  }

  /** Trimming neither adds nor loses a non-space character, and is idempotent. */
  lemma {:induction false} TrimKeepsSolid(s: string)
    ensures Solid(TrimSpace(s)) == Solid(s)
    ensures Trimmed(TrimSpace(s)) && |TrimSpace(s)| <= |s|
  {
    var a, b := TrimSplit(s);
    SolidConcat(a + TrimSpace(s), b);
    SolidConcat(a, TrimSpace(s));
    SolidSpace(a);
    SolidSpace(b);
  }

  /** A text with a non-space character does not trim to nothing. */
  lemma TrimNonEmpty(s: string, i: nat)
    requires i < |s| && !IsSpace(s[i])
    ensures TrimSpace(s) != ""
  {
    var a, b := TrimSplit(s);
    assert AllSpace(a + b);
    assert a + "" + b == a + b;
  }

  lemma TrimIdle(s: string)
    requires Trimmed(s)
    ensures TrimSpace(s) == s
  {
  }

  predicate Contains(s: string, p: string) {
    exists i :: 0 <= i <= |s| && p <= s[i..]
  }

  predicate Occurs(p: string, s: string) {
    exists i, j :: 0 <= i <= j <= |s| && s[i..j] == p
  }

  lemma ContainsIff(s: string, p: string)
    ensures Contains(s, p) <==> Occurs(p, s)
  {
    if i :| 0 <= i <= |s| && p <= s[i..] {
      assert s[i..i + |p|] == s[i..][..|p|] == p;
    }
    if i, j :| 0 <= i <= j <= |s| && s[i..j] == p {
      assert s[i..][..j - i] == s[i..j];
    }
  }

  /** strings.LastIndex: the last place p occurs in s, -1 when it does not. */
  function LastIndex(s: string, p: string): (i: int)
    ensures -1 <= i <= |s|
    ensures i >= 0 ==> p <= s[i..]
    ensures forall j :: i < j <= |s| ==> !(p <= s[j..])
  {
    LastIndexFrom(s, p, |s|)
  }

  function LastIndexFrom(s: string, p: string, n: nat): (i: int)
    requires n <= |s|
    ensures -1 <= i <= n
    ensures i >= 0 ==> p <= s[i..]
    ensures forall j :: i < j <= n ==> !(p <= s[j..])
    decreases n
  {
    if p <= s[n..] then n else if n == 0 then -1 else LastIndexFrom(s, p, n - 1)
  }
}
