/** Installing, upgrading and retiring the skills bundled with the binary. */
module BundledSkills {
  import opened Wrappers
  import opened SkillTrees

  const SIDECAR := ".bundled-hash"
  const SKILL_FILE := "SKILL.md"

  /** A skill's directory: its files but the sidecar, and the hash the sidecar holds. One with nothing is absent. */
  datatype Dir = Dir(files: Tree, sidecar: Option<Hash>)

  const ABSENT := Dir(map[], None)

  datatype Decision = Fresh | UpToDate | Overwrite | AdoptSidecar | UserModified

  /** There is something at SKILL.md, a file or a directory of files. */
  predicate HasSkillFile(files: Tree) {
    exists p :: p in files && (p == SKILL_FILE || SKILL_FILE + "/" <= p)
  }

  function DecideFrom(present: bool, disk: Hash, sidecar: Option<Hash>, bundle: Hash): Decision {
    if !present then Fresh
    else if sidecar.None? then (if disk == bundle then AdoptSidecar else UserModified)
    else if disk != sidecar.value then UserModified
    else if sidecar.value == bundle then UpToDate
    else Overwrite
  }

  ghost function Decide(d: Dir, bundle: Tree): Decision {
    DecideFrom(HasSkillFile(d.files), TreeHash(Visible(d.files)), d.sidecar, TreeHash(bundle))
  }

  /** The files that copying a bundle leaves: a sidecar it might ship is written over. */
  function Shipped(bundle: Tree): Tree {
    map p | p in bundle && p != SIDECAR :: bundle[p]
  }

  /** What is done about a bundle, given the hashes of the visible tree on disk and of the bundle. */
  function InstallWith(d: Dir, bundle: Tree, disk: Hash, hash: Hash): Dir {
    match DecideFrom(HasSkillFile(d.files), disk, d.sidecar, hash)
    case Fresh => Dir(d.files + Shipped(bundle), Some(hash))
    case Overwrite => Dir(Shipped(bundle), Some(hash))
    case AdoptSidecar => Dir(d.files, Some(hash))
    case UpToDate => d
    case UserModified => d
  }

  ghost function Install(d: Dir, bundle: Tree): Dir {
    InstallWith(d, bundle, TreeHash(Visible(d.files)), TreeHash(bundle))
  }

  ghost function Retire(d: Dir): Dir {
    if d.sidecar == Some(TreeHash(Visible(d.files))) then ABSENT else d
  }

  /** What the binary that starts has for a skill name. */
  datatype Offer = Bundled(tree: Tree) | Retired | Nothing

  ghost function Started(d: Dir, o: Offer): Dir {
    match o
    case Bundled(tree) => Install(d, tree)
    case Retired => Retire(d)
    case Nothing => d
  }

  // ----- starting twice

  /** Whatever the second look at the disk finds, after an installation there is nothing more to do. */
  lemma InstalledAgain(d: Dir, bundle: Tree, disk: Hash, hash: Hash, again: Hash)
    requires InstallWith(d, bundle, disk, hash).files == d.files ==> again == disk
    ensures var n := InstallWith(d, bundle, disk, hash); InstallWith(n, bundle, again, hash) == n
  {
    var s := Shipped(bundle);
    assert (d.files + s) + s == d.files + s;
    assert s + s == s;
  }

  lemma InstallTwice(d: Dir, bundle: Tree)
    ensures Install(Install(d, bundle), bundle) == Install(d, bundle)
  {
    InstalledAgain(d, bundle, TreeHash(Visible(d.files)), TreeHash(bundle), TreeHash(Visible(Install(d, bundle).files)));
  }

  /** A second start with the same binary changes nothing. */
  lemma SecondStartIdle(d: Dir, o: Offer)
    ensures Started(Started(d, o), o) == Started(d, o)
  {
    if o.Bundled? {
      InstallTwice(d, o.tree);
    }
  }

  // ----- histories of a skill's directory

  datatype Step = Edit(files: Tree) | Remove | Start(offer: Offer)

  /** last: the bundle whose hash the sidecar holds. */
  datatype State = State(dir: Dir, last: Option<Tree>)

  const EMPTY := State(ABSENT, None)

  ghost function Next(s: State, step: Step): State {
    match step
    case Edit(files) => s.(dir := s.dir.(files := files - {SIDECAR}))
    case Remove => EMPTY
    case Start(offer) =>
      var d := Started(s.dir, offer);
      State(d, if d.sidecar == s.dir.sidecar then s.last else if offer.Bundled? then Some(offer.tree) else None)
  }

  ghost function Run(s: State, steps: seq<Step>): State
    decreases |steps|
  {
    if steps == [] then s else Run(Next(s, steps[0]), steps[1..])
  }

  ghost predicate Inv(s: State) {
    s.dir.sidecar == if s.last.None? then None else Some(TreeHash(s.last.value))
  }

  lemma NextKeeps(s: State, step: Step)
    requires Inv(s)
    ensures Inv(Next(s, step))
  {
  }

  lemma {:induction false} RunKeeps(s: State, steps: seq<Step>)
    requires Inv(s)
    ensures Inv(Run(s, steps))
    decreases |steps|
  {
    if steps != [] {
      NextKeeps(s, steps[0]);
      RunKeeps(Next(s, steps[0]), steps[1..]);
    }
  }

  /** No path has a newline, neither in what is seen on disk nor in the last bundle. */
  predicate LineFreeState(s: State) {
    LineFreeTree(Visible(s.dir.files)) && (s.last.Some? ==> LineFreeTree(s.last.value))
  }

  /** The tree as the user sees it is not the last bundle that was installed or adopted, or there was none. */
  predicate Touched(s: State) {
    s.last.None? || Visible(s.dir.files) != s.last.value
  }

  /**
   * Whatever edits, upgrades and starts came before: a tree that has its SKILL.md and differs from
   * the last bundle keeps all its files at every start, be the skill bundled, retired or neither.
   */
  lemma {:induction false} EditsAreKept(steps: seq<Step>, offer: Offer)
    requires var s := Run(EMPTY, steps); HasSkillFile(s.dir.files) && Touched(s) && LineFreeState(s)
    ensures Started(Run(EMPTY, steps).dir, offer).files == Run(EMPTY, steps).dir.files
  {
    RunKeeps(EMPTY, steps);
    EditKept(Run(EMPTY, steps), offer);
  }

  lemma EditKept(s: State, offer: Offer)
    requires Inv(s) && HasSkillFile(s.dir.files) && Touched(s) && LineFreeState(s)
    ensures Started(s.dir, offer).files == s.dir.files
  {
    if s.last.Some? {
      TreeHashInjective(Visible(s.dir.files), s.last.value);
    }
  }

  /** An untouched tree becomes the newest bundle at the next start, and goes when the skill is retired. */
  lemma {:induction false} UntouchedFollows(steps: seq<Step>, newest: Tree)
    requires var s := Run(EMPTY, steps); HasSkillFile(s.dir.files) && !Touched(s) && LineFreeState(s) && LineFreeTree(newest)
    ensures var s := Run(EMPTY, steps);
            && Started(s.dir, Bundled(newest)).files == (if newest == s.last.value then s.dir.files else Shipped(newest))
            && Started(s.dir, Bundled(newest)).sidecar == Some(TreeHash(newest))
            && Started(s.dir, Retired) == ABSENT
  {
    RunKeeps(EMPTY, steps);
    UntouchedNext(Run(EMPTY, steps), newest);
  }

  lemma UntouchedNext(s: State, newest: Tree)
    requires Inv(s) && HasSkillFile(s.dir.files) && !Touched(s) && LineFreeState(s) && LineFreeTree(newest)
    ensures Started(s.dir, Bundled(newest)).files == (if newest == s.last.value then s.dir.files else Shipped(newest))
    ensures Started(s.dir, Bundled(newest)).sidecar == Some(TreeHash(newest))
    ensures Started(s.dir, Retired) == ABSENT
  {
    TreeHashInjective(s.last.value, newest);
  }

  lemma InstallAbsent(bundle: Tree)
    ensures Install(ABSENT, bundle) == Dir(Shipped(bundle), Some(TreeHash(bundle)))
  {
    assert map[] + Shipped(bundle) == Shipped(bundle);
    assert !HasSkillFile(ABSENT.files);
  }

  lemma VisibleShipped(bundle: Tree)
    ensures Visible(Shipped(bundle)) == Visible(bundle)
  {
    assert Hidden(SIDECAR) by {
      assert SIDECAR[0] == '.';
    }
  }

  /** A bundle without hidden files stays upgradable once installed; one with a hidden file never is. */
  lemma UpgradedIffNothingHidden(bundle: Tree, newest: Tree)
    requires SKILL_FILE in bundle && LineFreeTree(bundle) && LineFreeTree(newest) && bundle != newest
    ensures Decide(Install(ABSENT, bundle), newest) == Overwrite <==> Visible(bundle) == bundle
  {
    InstallAbsent(bundle);
    VisibleShipped(bundle);
    assert SKILL_FILE in Shipped(bundle);
    TreeHashInjective(Visible(bundle), bundle);
    TreeHashInjective(bundle, newest);
  }

  lemma {:induction false} Then(s: State, steps: seq<Step>, step: Step)
    ensures Run(s, steps + [step]) == Next(Run(s, steps), step)
    decreases |steps|
  {
    if steps == [] {
      assert steps + [step] == [step];
    } else {
      assert (steps + [step])[1..] == steps[1..] + [step];
      Then(Next(s, steps[0]), steps[1..], step);
    }
  }

  /** A bundle as the binaries ship them: a SKILL.md, no hidden file, no newline in a path. */
  predicate Plain(bundle: Tree) {
    SKILL_FILE in bundle && LineFreeTree(bundle) && Visible(bundle) == bundle
  }

  function Starts(bundles: seq<Tree>): seq<Step> {
    seq(|bundles|, i requires 0 <= i < |bundles| => Start(Bundled(bundles[i])))
  }

  lemma PlainShipped(bundle: Tree)
    requires Plain(bundle)
    ensures Shipped(bundle) == bundle && map[] + Shipped(bundle) == bundle
  {
    assert Hidden(SIDECAR) by {
      assert SIDECAR[0] == '.';
    }
    assert SIDECAR !in Visible(bundle);
  }

  /** The directory as a bundle leaves it, untouched since. */
  ghost function AsShipped(bundle: Tree): State {
    State(Dir(bundle, Some(TreeHash(bundle))), Some(bundle))
  }

  lemma FirstTracks(newest: Tree)
    requires Plain(newest)
    ensures Next(EMPTY, Start(Bundled(newest))) == AsShipped(newest)
  {
    PlainShipped(newest);
  }

  lemma NextTracks(last: Tree, newest: Tree)
    requires Plain(last) && Plain(newest)
    ensures Next(AsShipped(last), Start(Bundled(newest))) == AsShipped(newest)
  {
    PlainShipped(newest);
    assert HasSkillFile(last);
    UntouchedNext(AsShipped(last), newest);
    TreeHashInjective(last, newest);
  }

  /** Through any sequence of upgrades a directory nobody touches is the newest bundle, exactly. */
  lemma {:induction false} StartsTrackNewest(bundles: seq<Tree>)
    requires bundles != [] && forall i :: 0 <= i < |bundles| ==> Plain(bundles[i])
    ensures Run(EMPTY, Starts(bundles)) == AsShipped(bundles[|bundles| - 1])
  {
    var n := |bundles| - 1;
    var front, newest := bundles[..n], bundles[n];
    assert Starts(bundles) == Starts(front) + [Start(Bundled(newest))];
    Then(EMPTY, Starts(front), Start(Bundled(newest)));
    if n == 0 {
      assert Run(EMPTY, Starts(front)) == EMPTY;
      FirstTracks(newest);
    } else {
      StartsTrackNewest(front);
      NextTracks(front[n - 1], newest);
    }
  }

  /**
   * A directory from before there were sidecars: one that is what the bundle has is adopted as it is, and
   * then follows the next bundle; any other is left alone, sidecar and all.
   */
  lemma AdoptedFollows(d: Dir, bundle: Tree, newest: Tree)
    requires HasSkillFile(d.files) && d.sidecar.None?
    requires LineFreeTree(d.files) && LineFreeTree(bundle) && LineFreeTree(newest)
    ensures Visible(d.files) == bundle ==>
              && Install(d, bundle) == Dir(d.files, Some(TreeHash(bundle)))
              && (newest != bundle ==> Install(Install(d, bundle), newest) == Dir(Shipped(newest), Some(TreeHash(newest))))
    ensures Visible(d.files) != bundle ==> Install(d, bundle) == d
  {
    TreeHashInjective(Visible(d.files), bundle);
    TreeHashInjective(bundle, newest);
  }

  /** Without a SKILL.md the bundle is copied over what is there: other files stay. */
  lemma FreshKeepsOthers(d: Dir, bundle: Tree, p: string)
    requires !HasSkillFile(d.files)
    ensures var n := Install(d, bundle);
            && n.sidecar == Some(TreeHash(bundle))
            && (p in n.files <==> p in d.files || (p in bundle && p != SIDECAR))
            && (p in n.files ==> n.files[p] == if p in bundle && p != SIDECAR then bundle[p] else d.files[p])
  {
  }

  // ----- the installer's loops

  /** Reading a directory tree in walking order. */
  method ReadWalk(paths: set<string>) returns (ps: seq<string>)
    ensures IsWalk(ps, paths)
  {
    ps := [];
    var left := paths;
    while left != {}
      invariant left <= paths && InOrder(ps)
      invariant forall p :: p in ps <==> p in paths - left
      invariant forall p, q :: p in ps && q in left ==> Before(p, q)
      decreases left
    {
      var p := SmallestOf(left);
      ps := ps + [p];
      left := left - {p};
    }
  }

  method SmallestOf(paths: set<string>) returns (p: string)
    requires paths != {}
    ensures First(p, paths)
  {
    p :| p in paths;
    var left := paths - {p};
    while left != {}
      invariant p in paths && left <= paths && p !in left
      invariant forall q :: q in paths && q !in left && q != p ==> Before(p, q)
      decreases left
    {
      var q :| q in left;
      BeforeTotal(p, q);
      if Before(q, p) {
        forall r | r in paths && r !in left && r != p
          ensures Before(q, r)
        {
          BeforeTransitive(q, p, r);
        }
        p := q;
      }
      left := left - {q};
    }
  }

  /** The bundle's files at these paths. */
  function At(bundle: Tree, paths: set<string>): Tree {
    map p | p in bundle && p in paths && p != SIDECAR :: bundle[p]
  }

  lemma CopyOne(files: Tree, bundle: Tree, done: set<string>, p: string)
    requires p in bundle
    ensures files + At(bundle, done + {p}) ==
            if p == SIDECAR then files + At(bundle, done) else (files + At(bundle, done))[p := bundle[p]]
  {
  }

  /** Copying every file of the bundle, in walking order, over what is there. */
  method CopyTree(files: Tree, bundle: Tree, walk: seq<string>) returns (n: Tree)
    requires IsWalk(walk, bundle.Keys)
    ensures n == files + Shipped(bundle)
  {
    n := files;
    ghost var done: set<string> := {};
    assert At(bundle, done) == map[];
    var i := 0;
    while i < |walk|
      invariant 0 <= i <= |walk| && done <= bundle.Keys
      invariant forall j :: 0 <= j < i ==> walk[j] in done
      invariant n == files + At(bundle, done)
    {
      assert walk[i] in walk;
      CopyOne(files, bundle, done, walk[i]);
      if walk[i] != SIDECAR {
        n := n[walk[i] := bundle[walk[i]]];
      }
      done := done + {walk[i]};
      i := i + 1;
    }
    assert forall p :: p in bundle ==> p in walk;
    assert done == bundle.Keys;
    assert At(bundle, done) == Shipped(bundle);
  }

  method Act(d: Dir, bundle: Tree, bundleWalk: seq<string>, disk: Hash, hash: Hash) returns (n: Dir)
    requires IsWalk(bundleWalk, bundle.Keys)
    ensures n == InstallWith(d, bundle, disk, hash)
  {
    match DecideFrom(HasSkillFile(d.files), disk, d.sidecar, hash) {
      case Fresh =>
        var files := CopyTree(d.files, bundle, bundleWalk);
        n := Dir(files, Some(hash));
      case Overwrite =>
        var files := CopyTree(map[], bundle, bundleWalk);
        assert files == Shipped(bundle);
        n := Dir(files, Some(hash));
      case AdoptSidecar =>
        n := d.(sidecar := Some(hash));
      case UpToDate =>
        n := d;
      case UserModified =>
        n := d;
    }
  }

  method InstallSkill(d: Dir, bundle: Tree) returns (n: Dir)
    ensures n == Install(d, bundle)
  {
    var bundleWalk := ReadWalk(bundle.Keys);
    var bundleHash := EmbedTreeHash(bundle, bundleWalk);
    var diskWalk := ReadWalk(d.files.Keys);
    var diskHash := DiskTreeHash(d.files, diskWalk);
    n := Act(d, bundle, bundleWalk, diskHash, bundleHash);
  }

  method RetireSkill(d: Dir) returns (n: Dir)
    ensures n == Retire(d)
  {
    n := d;
    if d.sidecar.Some? {
      var walk := ReadWalk(d.files.Keys);
      var disk := DiskTreeHash(d.files, walk);
      if disk == d.sidecar.value {
        n := ABSENT;
      }
    }
  }

  datatype Bundle = Bundle(name: string, tree: Tree)

  function Of(dirs: map<string, Dir>, name: string): Dir {
    if name in dirs then dirs[name] else ABSENT
  }

  predicate NamesDiffer(bundles: seq<Bundle>) {
    forall i, j :: 0 <= i < j < |bundles| ==> bundles[i].name != bundles[j].name
  }

  /** The bundles installed one after the other. */
  ghost function AllInstalled(dirs: map<string, Dir>, bundles: seq<Bundle>): map<string, Dir> {
    if bundles == [] then dirs
    else
      var last, before := bundles[|bundles| - 1], AllInstalled(dirs, bundles[..|bundles| - 1]);
      before[last.name := Install(Of(before, last.name), last.tree)]
  }

  /** A directory that no bundle is named after is not touched. */
  lemma {:induction false} AllInstalledOther(dirs: map<string, Dir>, bundles: seq<Bundle>, name: string)
    requires forall i :: 0 <= i < |bundles| ==> bundles[i].name != name
    ensures Of(AllInstalled(dirs, bundles), name) == Of(dirs, name)
  {
    if bundles != [] {
      AllInstalledOther(dirs, bundles[..|bundles| - 1], name);
    }
  }

  /** A skill's directory is what installing its own bundle makes of it. */
  lemma {:induction false} AllInstalledAt(dirs: map<string, Dir>, bundles: seq<Bundle>, i: nat)
    requires NamesDiffer(bundles) && i < |bundles|
    ensures Of(AllInstalled(dirs, bundles), bundles[i].name) == Install(Of(dirs, bundles[i].name), bundles[i].tree)
  {
    var n := |bundles| - 1;
    if i < n {
      AllInstalledAt(dirs, bundles[..n], i);
      assert bundles[..n][i] == bundles[i];
    } else {
      AllInstalledOther(dirs, bundles[..n], bundles[n].name);
    }
  }

  /** The managed skills directory. */
  class SkillsRoot {
    var dirs: map<string, Dir>

    constructor ()
      ensures dirs == map[]
    {
      dirs := map[];
    }

    /** Each bundled skill is installed into its own directory. */
    method InstallBundled(bundles: seq<Bundle>)
      modifies this
      ensures dirs == AllInstalled(old(dirs), bundles)
    {
      for i := 0 to |bundles|
        invariant dirs == AllInstalled(old(dirs), bundles[..i])
      {
        assert bundles[..i + 1][..i] == bundles[..i];
        var n := InstallSkill(Of(dirs, bundles[i].name), bundles[i].tree);
        dirs := dirs[bundles[i].name := n];
      }
      assert bundles[..|bundles|] == bundles;
    }

    /** Each retired skill goes if it is as shipped; no other directory is touched. */
    method RetireBundled(names: seq<string>)
      modifies this
      ensures forall name :: Of(dirs, name) == RetiredIn(old(dirs), names, name)
    {
      var i := 0;
      while i < |names|
        invariant 0 <= i <= |names|
        invariant forall name :: Of(dirs, name) == RetiredIn(old(dirs), names[..i], name)
      {
        RetireOne(old(dirs), names[..i], names[i]);
        var n := RetireSkill(Of(dirs, names[i]));
        assert names[..i + 1] == names[..i] + [names[i]];
        dirs := dirs[names[i] := n];
        i := i + 1;
      }
      assert names[..i] == names;
    }
  }

  ghost function RetiredIn(dirs: map<string, Dir>, names: seq<string>, name: string): Dir {
    if name in names then Retire(Of(dirs, name)) else Of(dirs, name)
  }

  lemma RetireOne(dirs: map<string, Dir>, names: seq<string>, next: string)
    ensures RetiredIn(dirs, names + [next], next) == Retire(RetiredIn(dirs, names, next))
    ensures forall name :: name != next ==> RetiredIn(dirs, names + [next], name) == RetiredIn(dirs, names, name)
  {
    SecondStartIdle(Of(dirs, next), Retired);
  }
}
