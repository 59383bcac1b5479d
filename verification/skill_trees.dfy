/** Trees of files and the encoding that the bundled-skill hash is taken over. */
module SkillTrees {
  import opened Wrappers

  /** Contents by relative path, with '/' between segments. */
  type Tree = map<string, string>

  // ----- the order of a walk: by name in each directory, a directory's files where its name comes

  function Rank(c: char): nat {
    if c == '/' then 0 else c as int + 1
  }

  predicate Before(p: string, q: string) {
    if q == "" then false
    else if p == "" then true
    else if p[0] == q[0] then Before(p[1..], q[1..])
    else Rank(p[0]) < Rank(q[0])
  }

  lemma {:induction false} BeforeIrreflexive(p: string)
    ensures !Before(p, p)
  {
    if p != "" {
      BeforeIrreflexive(p[1..]);
    }
  }

  lemma {:induction false} BeforeTransitive(p: string, q: string, r: string)
    requires Before(p, q) && Before(q, r)
    ensures Before(p, r)
  {
    if p != "" && p[0] == q[0] == r[0] {
      BeforeTransitive(p[1..], q[1..], r[1..]);
    }
  }

  lemma {:induction false} BeforeTotal(p: string, q: string)
    requires p != q
    ensures Before(p, q) || Before(q, p)
  {
    if p != "" && q != "" && p[0] == q[0] {
      assert p == [p[0]] + p[1..] && q == [q[0]] + q[1..];
      BeforeTotal(p[1..], q[1..]);
    }
  }

  ghost predicate First(p: string, paths: set<string>) {
    p in paths && forall q :: q in paths && q != p ==> Before(p, q)
  }

  lemma {:induction false} FirstExists(paths: set<string>)
    requires paths != {}
    ensures exists p :: First(p, paths)
    decreases |paths|
  {
    var a :| a in paths;
    var rest := paths - {a};
    if rest == {} {
      assert paths == {a} by {
        assert forall q :: q in paths ==> q in rest || q == a;
      }
      assert First(a, paths);
    } else {
      FirstExists(rest);
      var b :| First(b, rest);
      BeforeTotal(a, b);
      var p := if Before(a, b) then a else b;
      forall q | q in paths && q != p
        ensures Before(p, q)
      {
        if p == a && q != b {
          BeforeTransitive(a, b, q);
        }
      }
      assert First(p, paths);
    }
  }

  ghost function Walk(paths: set<string>): seq<string>
    decreases |paths|
  {
    if paths == {} then []
    else
      FirstExists(paths);
      var p :| First(p, paths);
      [p] + Walk(paths - {p})
  }

  /** The paths in walking order, each once. */
  ghost predicate IsWalk(ps: seq<string>, paths: set<string>) {
    && (forall i, j :: 0 <= i < j < |ps| ==> Before(ps[i], ps[j]))
    && (forall p :: p in ps <==> p in paths)
  }

  lemma {:induction false} WalkIsWalk(paths: set<string>)
    ensures IsWalk(Walk(paths), paths)
    decreases |paths|
  {
    if paths != {} {
      var p := Walk(paths)[0];
      assert First(p, paths);
      WalkIsWalk(paths - {p});
      assert Walk(paths)[1..] == Walk(paths - {p});
      forall j | 0 < j < |Walk(paths)|
        ensures Before(p, Walk(paths)[j])
      {
        assert Walk(paths)[j] in Walk(paths - {p});
      }
    }
  }

  lemma NonEmptyWalk(ps: seq<string>, paths: set<string>)
    requires IsWalk(ps, paths) && ps != []
    ensures paths != {}
  {
    assert ps[0] in ps;
  }

  lemma {:induction false} WalkUnique(ps: seq<string>, qs: seq<string>, paths: set<string>)
    requires IsWalk(ps, paths) && IsWalk(qs, paths)
    ensures ps == qs
    decreases |ps|
  {
    if ps == [] {
      assert paths == {};
      if qs != [] {
        NonEmptyWalk(qs, paths);
      }
    } else {
      assert ps[0] in qs;
      SameHead(ps, qs, paths);
      TailWalks(ps, paths);
      TailWalks(qs, paths);
      WalkUnique(ps[1..], qs[1..], paths - {ps[0]});
    }
  }

  lemma SameHead(ps: seq<string>, qs: seq<string>, paths: set<string>)
    requires IsWalk(ps, paths) && IsWalk(qs, paths) && ps != [] && qs != []
    ensures ps[0] == qs[0]
  {
    assert ps[0] in qs && qs[0] in ps;
    var i :| 0 <= i < |qs| && qs[i] == ps[0];
    var j :| 0 <= j < |ps| && ps[j] == qs[0];
    if i > 0 && j > 0 {
      BeforeTransitive(ps[0], qs[0], ps[0]);
      BeforeIrreflexive(ps[0]);
    }
  }

  lemma TailWalks(ps: seq<string>, paths: set<string>)
    requires IsWalk(ps, paths) && ps != []
    ensures IsWalk(ps[1..], paths - {ps[0]})
  {
    var t := ps[1..];
    forall p | p in t
      ensures p in paths - {ps[0]}
    {
      var i :| 0 <= i < |t| && t[i] == p;
      assert ps[i + 1] == p && Before(ps[0], ps[i + 1]);
      BeforeIrreflexive(p);
      assert p in ps;
    }
    forall p | p in paths - {ps[0]}
      ensures p in t
    {
      assert p in ps;
      var i :| 0 <= i < |ps| && ps[i] == p;
      assert t[i - 1] == p;
    }
  }

  // ----- hidden files

  /** Some segment of the path starts with a dot. */
  predicate Hidden(path: string) {
    exists i :: 0 <= i < |path| && path[i] == '.' && (i == 0 || path[i - 1] == '/')
  }

  function Visible(t: Tree): Tree {
    map p | p in t && !Hidden(p) :: t[p]
  }

  // ----- the encoding: path, length and contents of each file

  function Digit(d: nat): char
    requires d < 10
  {
    (('0' as int) + d) as char
  }

  function Decimal(n: nat): string {
    if n < 10 then [Digit(n)] else Decimal(n / 10) + [Digit(n % 10)]
  }

  predicate AllDigits(s: string) {
    forall i :: 0 <= i < |s| ==> '0' <= s[i] <= '9'
  }

  function ParseDecimal(s: string): nat
    requires AllDigits(s)
  {
    if s == "" then 0 else ParseDecimal(s[..|s| - 1]) * 10 + (s[|s| - 1] as int - '0' as int)
  }

  lemma {:induction false} DecimalParses(n: nat)
    ensures AllDigits(Decimal(n)) && Decimal(n) != "" && ParseDecimal(Decimal(n)) == n
  {
    if n < 10 {
      assert [Digit(n)][..0] == "";
    } else {
      DecimalParses(n / 10);
      assert Decimal(n)[..|Decimal(n)| - 1] == Decimal(n / 10);
    }
  }

  function EncodeFile(path: string, content: string): string {
    path + "\n" + Decimal(|content|) + "\n" + content + "\n"
  }

  datatype File = File(path: string, content: string)

  function Encode(files: seq<File>): string {
    if files == [] then "" else EncodeFile(files[0].path, files[0].content) + Encode(files[1..])
  }

  lemma {:induction false} EncodeAppend(files: seq<File>, f: File)
    ensures Encode(files + [f]) == Encode(files) + EncodeFile(f.path, f.content)
  {
    if files == [] {
      assert Encode([f]) == EncodeFile(f.path, f.content) + Encode([f][1..]);
    } else {
      assert (files + [f])[1..] == files[1..] + [f];
      EncodeAppend(files[1..], f);
    }
  }

  predicate LineFree(s: string) {
    forall i :: 0 <= i < |s| ==> s[i] != '\n'
  }

  /** The line at the start of s, and what follows its newline. */
  function FirstLine(s: string): (r: Option<(string, string)>)
    ensures r.Some? ==> |r.value.1| < |s|
  {
    if s == "" then None
    else if s[0] == '\n' then Some(("", s[1..]))
    else
      var r := FirstLine(s[1..]);
      if r.None? then None else Some(([s[0]] + r.value.0, r.value.1))
  }

  lemma {:induction false} FirstLineOf(line: string, rest: string)
    requires LineFree(line)
    ensures FirstLine(line + "\n" + rest) == Some((line, rest))
  {
    var s := line + "\n" + rest;
    if line == "" {
      assert s[1..] == rest;
    } else {
      assert s[1..] == line[1..] + "\n" + rest;
      FirstLineOf(line[1..], rest);
      assert [line[0]] + line[1..] == line;
    }
  }

  function Decode(s: string): Option<seq<File>>
    decreases |s|
  {
    if s == "" then Some([])
    else
      var path := FirstLine(s);
      if path.None? then None
      else
        var size := FirstLine(path.value.1);
        if size.None? || !AllDigits(size.value.0) || size.value.0 == "" then None
        else
          var n, body := ParseDecimal(size.value.0), size.value.1;
          if n >= |body| || body[n] != '\n' then None
          else
            var rest := Decode(body[n + 1..]);
            if rest.None? then None else Some([File(path.value.0, body[..n])] + rest.value)
  }

  predicate LineFreePaths(files: seq<File>) {
    forall i :: 0 <= i < |files| ==> LineFree(files[i].path)
  }

  lemma DigitsLineFree(s: string)
    requires AllDigits(s)
    ensures LineFree(s)
  {
  }

  /** Parsing one encoded file leaves exactly what followed it. */
  lemma {:induction false} DecodeFile(path: string, content: string, rest: string)
    requires LineFree(path)
    ensures var s := EncodeFile(path, content) + rest;
            && FirstLine(s) == Some((path, Decimal(|content|) + "\n" + (content + "\n" + rest)))
            && FirstLine(Decimal(|content|) + "\n" + (content + "\n" + rest)) == Some((Decimal(|content|), content + "\n" + rest))
  {
    var s := EncodeFile(path, content) + rest;
    var tail := content + "\n" + rest;
    assert s == path + "\n" + (Decimal(|content|) + "\n" + tail);
    FirstLineOf(path, Decimal(|content|) + "\n" + tail);
    DecimalParses(|content|);
    DigitsLineFree(Decimal(|content|));
    FirstLineOf(Decimal(|content|), tail);
  }

  /** The encoding decodes to the files it was made from, when no path has a newline. */
  lemma {:induction false} DecodeEncode(files: seq<File>)
    requires LineFreePaths(files)
    ensures Decode(Encode(files)) == Some(files)
  {
    if files != [] {
      var f, rest := files[0], Encode(files[1..]);
      DecodeFile(f.path, f.content, rest);
      DecimalParses(|f.content|);
      var body := f.content + "\n" + rest;
      assert body[|f.content|] == '\n' && body[..|f.content|] == f.content && body[|f.content| + 1..] == rest;
      DecodeEncode(files[1..]);
      assert [File(f.path, f.content)] + files[1..] == files;
    }
  }

  /** With a newline in a path, different files can have one encoding. */
  lemma NewlinesCollide()
    ensures Encode([File("a", "x"), File("b", "")]) == Encode([File("a\n1\nx\nb", "")])
  {
    var two := [File("a", "x"), File("b", "")];
    var one := [File("a\n1\nx\nb", "")];
    assert two[1..] == [File("b", "")] && two[1..][1..] == [] && one[1..] == [];
    assert Encode(two) == EncodeFile("a", "x") + (EncodeFile("b", "") + "");
    assert Encode(one) == EncodeFile("a\n1\nx\nb", "") + "";
    assert EncodeFile("a", "x") == "a\n1\nx\n";
    assert EncodeFile("b", "") == "b\n0\n\n";
    assert EncodeFile("a\n1\nx\nb", "") == "a\n1\nx\nb\n0\n\n";
  }

  // ----- the hash of a tree

  /** sha256, taken to tell apart whatever differs; Junk is a sidecar text that is no hash. */
  datatype Hash = Sha256(of: string) | Junk(text: string)

  function FilesOf(ps: seq<string>, t: Tree): seq<File>
    requires forall p :: p in ps ==> p in t
  {
    seq(|ps|, i requires 0 <= i < |ps| => File(ps[i], t[ps[i]]))
  }

  ghost function TreeHash(t: Tree): Hash {
    WalkIsWalk(t.Keys);
    Sha256(Encode(FilesOf(Walk(t.Keys), t)))
  }

  predicate LineFreeTree(t: Tree) {
    forall p :: p in t ==> LineFree(p)
  }

  lemma TreeHashInjective(t: Tree, u: Tree)
    requires LineFreeTree(t) && LineFreeTree(u)
    ensures TreeHash(t) == TreeHash(u) <==> t == u
  {
    if TreeHash(t) == TreeHash(u) {
      var ps, qs := Walk(t.Keys), Walk(u.Keys);
      WalkIsWalk(t.Keys);
      WalkIsWalk(u.Keys);
      DecodeEncode(FilesOf(ps, t));
      DecodeEncode(FilesOf(qs, u));
      SameFilesSameTree(ps, t, qs, u);
    }
  }

  lemma SameFilesSameTree(ps: seq<string>, t: Tree, qs: seq<string>, u: Tree)
    requires IsWalk(ps, t.Keys) && IsWalk(qs, u.Keys) && FilesOf(ps, t) == FilesOf(qs, u)
    ensures t == u
  {
    assert |ps| == |FilesOf(ps, t)| == |qs|;
    forall i | 0 <= i < |ps|
      ensures ps[i] == qs[i] && t[ps[i]] == u[ps[i]]
    {
      assert FilesOf(ps, t)[i] == FilesOf(qs, u)[i];
    }
    assert ps == qs;
    forall p | p in t
      ensures p in u && t[p] == u[p]
    {
      assert p in ps;
    }
    forall p | p in u
      ensures p in t
    {
      assert p in qs;
    }
  }

  function Shown(ps: seq<string>): seq<string> {
    if ps == [] then []
    else Shown(ps[..|ps| - 1]) + (if Hidden(ps[|ps| - 1]) then [] else [ps[|ps| - 1]])
  }

  lemma {:induction false} ShownPaths(ps: seq<string>, p: string)
    ensures p in Shown(ps) <==> p in ps && !Hidden(p)
  {
    if ps != [] {
      ShownPaths(ps[..|ps| - 1], p);
      assert ps == ps[..|ps| - 1] + [ps[|ps| - 1]];
    }
  }

  predicate InOrder(ps: seq<string>) {
    forall i, j :: 0 <= i < j < |ps| ==> Before(ps[i], ps[j])
  }

  lemma {:induction false} ShownInOrder(ps: seq<string>)
    requires InOrder(ps)
    ensures InOrder(Shown(ps))
  {
    if ps != [] {
      var front, last := ps[..|ps| - 1], ps[|ps| - 1];
      ShownInOrder(front);
      forall i | 0 <= i < |Shown(front)|
        ensures Before(Shown(front)[i], last)
      {
        ShownPaths(front, Shown(front)[i]);
        assert Shown(front)[i] in front;
      }
    }
  }

  /** Skipping the hidden files of a walk is walking the visible ones. */
  lemma {:induction false} ShownWalk(t: Tree, walk: seq<string>)
    requires IsWalk(walk, t.Keys)
    ensures (forall p :: p in Shown(walk) ==> p in t) && Sha256(Encode(FilesOf(Shown(walk), t))) == TreeHash(Visible(t))
  {
    forall p
      ensures p in Shown(walk) <==> p in Visible(t).Keys
    {
      ShownPaths(walk, p);
    }
    ShownInOrder(walk);
    WalkIsWalk(Visible(t).Keys);
    WalkUnique(Shown(walk), Walk(Visible(t).Keys), Visible(t).Keys);
    assert FilesOf(Shown(walk), t) == FilesOf(Shown(walk), Visible(t));
  }

  /** What hashing one more file of the walk adds. */
  lemma ShownStep(walk: seq<string>, i: nat, t: Tree)
    requires i < |walk| && walk[i] in t && forall p :: p in Shown(walk[..i]) ==> p in t
    ensures forall p :: p in Shown(walk[..i + 1]) ==> p in t
    ensures Encode(FilesOf(Shown(walk[..i + 1]), t)) ==
            Encode(FilesOf(Shown(walk[..i]), t)) + (if Hidden(walk[i]) then "" else EncodeFile(walk[i], t[walk[i]]))
  {
    var p, before := walk[i], Shown(walk[..i]);
    assert walk[..i + 1][..i] == walk[..i];
    if Hidden(p) {
      assert Shown(walk[..i + 1]) == before;
    } else {
      assert Shown(walk[..i + 1]) == before + [p];
      assert FilesOf(before + [p], t) == FilesOf(before, t) + [File(p, t[p])];
      EncodeAppend(FilesOf(before, t), File(p, t[p]));
    }
  }

  /** The hash walk over a tree on disk: every file in walking order, the hidden ones skipped. */
  method DiskTreeHash(t: Tree, walk: seq<string>) returns (h: Hash)
    requires IsWalk(walk, t.Keys)
    ensures h == TreeHash(Visible(t))
  {
    var text := "";
    ShownWalk(t, walk);
    var i := 0;
    while i < |walk|
      invariant 0 <= i <= |walk|
      invariant forall p :: p in Shown(walk[..i]) ==> p in t
      invariant text == Encode(FilesOf(Shown(walk[..i]), t))
    {
      var p := walk[i];
      assert p in walk;
      ShownStep(walk, i, t);
      if !Hidden(p) {
        text := text + EncodeFile(p, t[p]);
      }
      i := i + 1;
    }
    assert walk[..i] == walk;
    h := Sha256(text);
  }

  /** The hash walk over an embedded tree: every file in walking order. */
  method EmbedTreeHash(t: Tree, walk: seq<string>) returns (h: Hash)
    requires IsWalk(walk, t.Keys)
    ensures h == TreeHash(t)
  {
    var text := "";
    var i := 0;
    while i < |walk|
      invariant 0 <= i <= |walk|
      invariant forall p :: p in walk[..i] ==> p in t
      invariant text == Encode(FilesOf(walk[..i], t))
    {
      var p := walk[i];
      assert p in walk;
      assert walk[..i + 1] == walk[..i] + [p];
      EncodeAppend(FilesOf(walk[..i], t), File(p, t[p]));
      assert FilesOf(walk[..i + 1], t) == FilesOf(walk[..i], t) + [File(p, t[p])];
      text := text + EncodeFile(p, t[p]);
      i := i + 1;
    }
    assert walk[..i] == walk;
    WalkIsWalk(t.Keys);
    WalkUnique(walk, Walk(t.Keys), t.Keys);
    h := Sha256(text);
  }
}
