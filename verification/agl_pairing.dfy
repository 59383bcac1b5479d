/**
 * Pairing computers with accounts: at most one active machine record for each computer (its agl id)
 * at each hub address (the scope), however pairings interleave.
 */
module AglPairing {
  import opened Wrappers

  datatype Machine = Machine(user: string, aglId: string, scope: string, active: bool)

  type Table = map<string, Machine>

  /** One row of a listing: the record's id, and its scope when it was listed. */
  datatype Row = Row(id: string, scope: string)

  // ----- the store's atomic operations, none of which touches a revoked record

  predicate ActiveOf(t: Table, id: string, aglId: string) {
    id in t && t[id].active && t[id].aglId == aglId
  }

  function SetToken(t: Table, id: string, scope: string): Table {
    if id in t && t[id].active then t[id := t[id].(scope := scope)] else t
  }

  function Revoke(t: Table, id: string): Table {
    if id in t && t[id].active then t[id := t[id].(active := false)] else t
  }

  ghost predicate Listed(t: Table, aglId: string, rows: seq<Row>) {
    && (forall r :: r in rows ==> ActiveOf(t, r.id, aglId) && t[r.id].scope == r.scope)
    && (forall id :: ActiveOf(t, id, aglId) ==> Row(id, t[id].scope) in rows)
  }

  /** Two different active records of one computer at one hub address. */
  predicate Clash(t: Table, a: string, b: string) {
    && a != b && a in t && b in t && t[a].active && t[b].active
    && t[a].aglId == t[b].aglId && t[a].scope == t[b].scope
  }

  // ----- pairings, one goroutine each

  datatype Pc =
    | Finding | Moving(prev: string) | Creating
    | Listing(keep: string) | Revoking(keep: string, others: seq<Row>)
    | Paired(keep: string) | GivenUp

  /** `missed`: a listing or a revocation failed, or the pairing was cut short, after it chose its record. */
  datatype Pairing = Pairing(user: string, aglId: string, scope: string, pc: Pc, missed: bool)

  datatype State = State(table: Table, pairings: seq<Pairing>)

  datatype Step =
    | Begin(user: string, aglId: string, scope: string)
    | Find(found: Option<string>)
    | Move(ok: bool)
    | Create(id: string, ok: bool)
    | List(rows: Option<seq<Row>>)
    | RevokeNext(ok: bool)
    | Halt
    | UserRevokes(id: string)

  predicate Keeping(p: Pairing) {
    p.pc.Listing? || p.pc.Revoking? || p.pc.Paired?
  }

  predicate Ended(p: Pairing) {
    p.pc.Paired? || p.pc.GivenUp?
  }

  /** One step of pairing p: the new table and the new pairing. A step that does not apply changes nothing. */
  ghost function Advance(t: Table, p: Pairing, step: Step): (Table, Pairing) {
    match (p.pc, step)
    case (Finding, Find(found)) =>
      if found.Some? && ActiveOf(t, found.value, p.aglId) && t[found.value].user == p.user
      then (t, p.(pc := Moving(found.value)))
      else (t, p.(pc := Creating))
    case (Moving(prev), Move(ok)) =>
      if ok then (SetToken(t, prev, p.scope), p.(pc := Listing(prev))) else (t, p.(pc := GivenUp))
    case (Creating, Create(id, ok)) =>
      if ok && id !in t then (t[id := Machine(p.user, p.aglId, p.scope, true)], p.(pc := Listing(id)))
      else (t, p.(pc := GivenUp))
    case (Listing(keep), List(rows)) =>
      if rows.None? then (t, p.(pc := Paired(keep), missed := true))
      else if Listed(t, p.aglId, rows.value) then (t, p.(pc := Revoking(keep, rows.value)))
      else (t, p)
    case (Revoking(keep, others), RevokeNext(ok)) => (
      if others == [] then (t, p.(pc := Paired(keep)))
      else
        var q := p.(pc := Revoking(keep, others[1..]));
        if others[0].id == keep || others[0].scope != p.scope then (t, q)
        else if ok then (Revoke(t, others[0].id), q)
        else (t, q.(missed := true)))
    case (_, Halt) =>
      if p.pc.Listing? || p.pc.Revoking? then (t, p.(pc := Paired(p.pc.keep), missed := true))
      else if Ended(p) then (t, p)
      else (t, p.(pc := GivenUp))
    case _ => (t, p)
  }

  ghost function Next(s: State, i: nat, step: Step): State {
    match step
    case Begin(user, aglId, scope) => s.(pairings := s.pairings + [Pairing(user, aglId, scope, Finding, false)])
    case UserRevokes(id) => s.(table := Revoke(s.table, id))
    case _ =>
      if i >= |s.pairings| then s
      else
        var (t, p) := Advance(s.table, s.pairings[i], step);
        State(t, s.pairings[i := p])
  }

  /** A run: each step names the pairing that takes it. */
  ghost function RunFrom(s: State, steps: seq<(nat, Step)>): State
    decreases |steps|
  {
    if steps == [] then s else RunFrom(Next(s, steps[0].0, steps[0].1), steps[1..])
  }

  // ----- who is going to resolve a clash

  predicate StillToRevoke(p: Pairing, id: string) {
    p.pc.Listing? || (p.pc.Revoking? && Row(id, p.scope) in p.pc.others)
  }

  /** p keeps one of the two records and is going to revoke the other, or it missed it. */
  predicate Resolves(p: Pairing, m: Machine, a: string, b: string) {
    && Keeping(p) && p.aglId == m.aglId && p.scope == m.scope
    && (p.pc.keep == a || p.pc.keep == b)
    && (p.missed || StillToRevoke(p, if p.pc.keep == a then b else a))
  }

  predicate ResolvedBySome(s: State, a: string, b: string)
    requires a in s.table
  {
    exists i :: 0 <= i < |s.pairings| && Resolves(s.pairings[i], s.table[a], a, b)
  }

  ghost predicate Resolved(s: State) {
    forall a, b :: Clash(s.table, a, b) ==> ResolvedBySome(s, a, b)
  }

  /** The record a pairing is about to move is one of its own computer. */
  predicate MovesItsOwn(t: Table, p: Pairing) {
    p.pc.Moving? ==> p.pc.prev in t && t[p.pc.prev].aglId == p.aglId
  }

  predicate OwnMoves(s: State) {
    forall i :: 0 <= i < |s.pairings| ==> MovesItsOwn(s.table, s.pairings[i])
  }

  ghost predicate Inv(s: State) {
    Resolved(s) && OwnMoves(s)
  }

  /** Records are never dropped, and stay records of their computer. */
  ghost predicate SameComputers(t: Table, u: Table) {
    forall id :: id in t ==> id in u && u[id].aglId == t[id].aglId
  }

  lemma OwnMovesNext(s: State, i: nat, step: Step)
    requires OwnMoves(s)
    ensures OwnMoves(Next(s, i, step))
  {
    var n := Next(s, i, step);
    assert SameComputers(s.table, n.table);
    forall j | 0 <= j < |n.pairings|
      ensures MovesItsOwn(n.table, n.pairings[j])
    {
      if j < |s.pairings| && n.pairings[j] == s.pairings[j] {
        assert MovesItsOwn(s.table, s.pairings[j]);
      }
    }
  }

  /** A step of p leaves each clash that it resolved resolved, if the clash is still there. */
  lemma ResolverKept(t: Table, p: Pairing, step: Step, a: string, b: string)
    requires Clash(t, a, b) && Resolves(p, t[a], a, b)
    ensures var (u, q) := Advance(t, p, step); Clash(u, a, b) ==> Resolves(q, u[a], a, b)
  {
    if p.pc.Revoking? && p.pc.others != [] {
      var head, tail := p.pc.others[0], p.pc.others[1..];
      assert p.pc.others == [head] + tail;
    }
  }

  /** A step that makes a clash is one that has just chosen its record, and resolves it. */
  lemma NewClashResolved(t: Table, p: Pairing, step: Step, a: string, b: string)
    requires !Clash(t, a, b) && MovesItsOwn(t, p)
    ensures var (u, q) := Advance(t, p, step); Clash(u, a, b) ==> Resolves(q, u[a], a, b)
  {
  }

  /** A step changes no record's computer, and no scope of a clash that was there and still is. */
  lemma ClashKeepsPlace(t: Table, p: Pairing, step: Step, a: string, b: string)
    requires Clash(t, a, b)
    ensures var (u, q) := Advance(t, p, step);
            Clash(u, a, b) ==> u[a] == t[a] || Resolves(q, u[a], a, b)
  {
  }

  lemma ClashNext(s: State, i: nat, step: Step, a: string, b: string)
    requires Inv(s) && i < |s.pairings| && !step.Begin? && !step.UserRevokes?
    requires Clash(Next(s, i, step).table, a, b)
    ensures ResolvedBySome(Next(s, i, step), a, b)
  {
    var n := Next(s, i, step);
    var p := s.pairings[i];
    assert n.pairings[i] == Advance(s.table, p, step).1;
    if Clash(s.table, a, b) {
      var j :| 0 <= j < |s.pairings| && Resolves(s.pairings[j], s.table[a], a, b);
      ClashKeepsPlace(s.table, p, step, a, b);
      if j == i {
        ResolverKept(s.table, p, step, a, b);
        assert Resolves(n.pairings[i], n.table[a], a, b);
      } else {
        assert n.pairings[j] == s.pairings[j];
        assert Resolves(n.pairings[j], n.table[a], a, b) || Resolves(n.pairings[i], n.table[a], a, b);
      }
    } else {
      NewClashResolved(s.table, p, step, a, b);
      assert Resolves(n.pairings[i], n.table[a], a, b);
    }
  }

  lemma InvNext(s: State, i: nat, step: Step)
    requires Inv(s)
    ensures Inv(Next(s, i, step))
  {
    OwnMovesNext(s, i, step);
    var n := Next(s, i, step);
    forall a, b | Clash(n.table, a, b)
      ensures ResolvedBySome(n, a, b)
    {
      if step.Begin? || step.UserRevokes? {
        assert Clash(s.table, a, b);
        var j :| 0 <= j < |s.pairings| && Resolves(s.pairings[j], s.table[a], a, b);
        assert n.pairings[j] == s.pairings[j];
      } else if i < |s.pairings| {
        ClashNext(s, i, step, a, b);
      }
    }
  }

  lemma {:induction false} InvFrom(s: State, steps: seq<(nat, Step)>)
    requires Inv(s)
    ensures Inv(RunFrom(s, steps))
    decreases |steps|
  {
    if steps != [] {
      InvNext(s, steps[0].0, steps[0].1);
      InvFrom(Next(s, steps[0].0, steps[0].1), steps[1..]);
    }
  }

  ghost predicate OneRecordEach(t: Table) {
    forall a, b :: !Clash(t, a, b)
  }

  predicate AllEnded(s: State) {
    forall i :: 0 <= i < |s.pairings| ==> Ended(s.pairings[i])
  }

  /**
   * Once all pairings have ended, two active records of one computer at one address remain only
   * where a pairing at that very place that kept one of them missed the other.
   */
  lemma {:induction false} LeftoverWasMissed(t: Table, steps: seq<(nat, Step)>, a: string, b: string)
    requires OneRecordEach(t)
    requires var s := RunFrom(State(t, []), steps); AllEnded(s) && Clash(s.table, a, b)
    ensures var s := RunFrom(State(t, []), steps);
            exists i :: 0 <= i < |s.pairings| && s.pairings[i].missed && Resolves(s.pairings[i], s.table[a], a, b)
  {
    InvFrom(State(t, []), steps);
    var s := RunFrom(State(t, []), steps);
    var i :| 0 <= i < |s.pairings| && Resolves(s.pairings[i], s.table[a], a, b);
    assert Ended(s.pairings[i]);
  }

  /** With every listing and revocation made, each computer has at most one active record at each address. */
  lemma {:induction false} OneRecordWhenAllEnded(t: Table, steps: seq<(nat, Step)>)
    requires OneRecordEach(t)
    requires var s := RunFrom(State(t, []), steps);
             AllEnded(s) && forall i :: 0 <= i < |s.pairings| ==> !s.pairings[i].missed
    ensures OneRecordEach(RunFrom(State(t, []), steps).table)
  {
    var s := RunFrom(State(t, []), steps);
    forall a, b
      ensures !Clash(s.table, a, b)
    {
      if Clash(s.table, a, b) {
        LeftoverWasMissed(t, steps, a, b);
      }
    }
  }

  /** The record a pairing keeps once it has chosen one, if it has. */
  function KeptBy(p: Pairing): Option<string> {
    match p.pc
    case Listing(keep) => Some(keep)
    case Revoking(keep, _) => Some(keep)
    case Paired(keep) => Some(keep)
    case _ => None
  }

  /**
   * How a pairing comes by its record: it makes a new active one of its user, computer and address; or it
   * moves an active one of that user and computer to its address, unless that was revoked meanwhile.
   */
  lemma PairingChooses(t: Table, p: Pairing, step: Step)
    requires KeptBy(p) == None && KeptBy(Advance(t, p, step).1).Some?
    ensures var (u, q) := Advance(t, p, step); var keep := KeptBy(q).value;
            && q.pc == Listing(keep) && !step.Halt?
            && (keep !in t ==> u == t[keep := Machine(p.user, p.aglId, p.scope, true)] || (u == t && p.pc == Moving(keep)))
            && (keep in t ==> (p.pc == Moving(keep)
                               && u == (if t[keep].active then t[keep := t[keep].(scope := p.scope)] else t)))
  {
  }

  /** A pairing finds, to move it, only an active record of its own user and computer; and finds it if told of it. */
  lemma PairingFinds(t: Table, p: Pairing, found: Option<string>)
    requires p.pc.Finding?
    ensures var (u, q) := Advance(t, p, Find(found));
            && u == t
            && (q.pc.Moving? <==> found.Some? && found.value in t && t[found.value].active
                                  && t[found.value].user == p.user && t[found.value].aglId == p.aglId)
            && (q.pc.Moving? ==> q.pc.prev == found.value) && (!q.pc.Moving? ==> q.pc.Creating?)
  {
  }

  /** A pairing revokes only what it listed at its own computer and address, and never the record it keeps. */
  lemma RevokesOnlyListed(t: Table, p: Pairing, step: Step, id: string)
    requires id in t && t[id].active
    ensures var (u, q) := Advance(t, p, step);
            && id in u && u[id].user == t[id].user && u[id].aglId == t[id].aglId
            && (!u[id].active ==> p.pc.Revoking? && p.pc.others != [] && p.pc.others[0] == Row(id, p.scope) && id != p.pc.keep)
            && (u[id].scope != t[id].scope ==> p.pc == Moving(id) && u[id].scope == p.scope)
  {
  }

  lemma RevokedNext(s: State, i: nat, step: Step, id: string)
    requires id in s.table && !s.table[id].active
    ensures id in Next(s, i, step).table && Next(s, i, step).table[id] == s.table[id]
  {
  }

  /** A revoked record is never touched again, whatever pairings and users do. */
  lemma {:induction false} RevokedStays(s: State, steps: seq<(nat, Step)>, id: string)
    requires id in s.table && !s.table[id].active
    ensures id in RunFrom(s, steps).table && RunFrom(s, steps).table[id] == s.table[id]
    decreases |steps|
  {
    if steps != [] {
      RevokedNext(s, steps[0].0, steps[0].1, id);
      RevokedStays(Next(s, steps[0].0, steps[0].1), steps[1..], id);
    }
  }

  // ----- two runs that show what the rule does not promise

  lemma {:induction false} Then(s: State, steps: seq<(nat, Step)>, i: nat, step: Step)
    ensures RunFrom(s, steps + [(i, step)]) == Next(RunFrom(s, steps), i, step)
    decreases |steps|
  {
    if steps == [] {
      assert steps + [(i, step)] == [(i, step)];
    } else {
      assert (steps + [(i, step)])[1..] == steps[1..] + [(i, step)];
      Then(Next(s, steps[0].0, steps[0].1), steps[1..], i, step);
    }
  }

  const ANN := Machine("ann", "laptop", "here", true)
  const BEN := Machine("ben", "laptop", "here", true)

  /** Two accounts pair the same computer at once, up to where both have chosen their record. */
  lemma BothChosen() returns (steps: seq<(nat, Step)>)
    ensures RunFrom(State(map[], []), steps) ==
            State(map["a" := ANN, "b" := BEN],
                  [Pairing("ann", "laptop", "here", Listing("a"), false), Pairing("ben", "laptop", "here", Listing("b"), false)])
  {
    var s := State(map[], []);
    steps := [];
    Then(s, steps, 0, Begin("ann", "laptop", "here")); steps := steps + [(0, Begin("ann", "laptop", "here"))];
    Then(s, steps, 0, Begin("ben", "laptop", "here")); steps := steps + [(0, Begin("ben", "laptop", "here"))];
    Then(s, steps, 0, Find(None)); steps := steps + [(0, Find(None))];
    Then(s, steps, 1, Find(None)); steps := steps + [(1, Find(None))];
    Then(s, steps, 0, Create("a", true)); steps := steps + [(0, Create("a", true))];
    Then(s, steps, 1, Create("b", true)); steps := steps + [(1, Create("b", true))];
  }

  const ROWS := [Row("a", "here"), Row("b", "here")]

  lemma BothListed() returns (steps: seq<(nat, Step)>)
    ensures RunFrom(State(map[], []), steps) ==
            State(map["a" := ANN, "b" := BEN],
                  [Pairing("ann", "laptop", "here", Revoking("a", ROWS), false),
                   Pairing("ben", "laptop", "here", Revoking("b", ROWS), false)])
  {
    var s := State(map[], []);
    steps := BothChosen();
    assert Listed(map["a" := ANN, "b" := BEN], "laptop", ROWS) by {
      assert ROWS[0] in ROWS && ROWS[1] in ROWS;
    }
    Then(s, steps, 0, List(Some(ROWS))); steps := steps + [(0, List(Some(ROWS)))];
    Then(s, steps, 1, List(Some(ROWS))); steps := steps + [(1, List(Some(ROWS)))];
  }

  lemma FirstEnded() returns (steps: seq<(nat, Step)>)
    ensures RunFrom(State(map[], []), steps) ==
            State(map["a" := ANN, "b" := BEN.(active := false)],
                  [Pairing("ann", "laptop", "here", Paired("a"), false),
                   Pairing("ben", "laptop", "here", Revoking("b", ROWS), false)])
  {
    var s := State(map[], []);
    steps := BothListed();
    Then(s, steps, 0, RevokeNext(true)); steps := steps + [(0, RevokeNext(true))];
    Then(s, steps, 0, RevokeNext(true)); steps := steps + [(0, RevokeNext(true))];
    Then(s, steps, 0, RevokeNext(true)); steps := steps + [(0, RevokeNext(true))];
  }

  lemma BothEnded() returns (steps: seq<(nat, Step)>)
    ensures RunFrom(State(map[], []), steps) ==
            State(map["a" := ANN.(active := false), "b" := BEN.(active := false)],
                  [Pairing("ann", "laptop", "here", Paired("a"), false), Pairing("ben", "laptop", "here", Paired("b"), false)])
  {
    var s := State(map[], []);
    steps := FirstEnded();
    Then(s, steps, 1, RevokeNext(true)); steps := steps + [(1, RevokeNext(true))];
    Then(s, steps, 1, RevokeNext(true)); steps := steps + [(1, RevokeNext(true))];
    Then(s, steps, 1, RevokeNext(true)); steps := steps + [(1, RevokeNext(true))];
  }

  /** Each of two simultaneous pairings may revoke the other's record: at most one, and here none, stays. */
  lemma BothMayBeRevoked()
    ensures exists steps :: var s := RunFrom(State(map[], []), steps);
                            && AllEnded(s) && |s.pairings| == 2 && !s.pairings[0].missed && !s.pairings[1].missed
                            && forall id :: id in s.table ==> !s.table[id].active
  {
    var steps := BothEnded();
    assert AllEnded(RunFrom(State(map[], []), steps));
  }

  // ----- the revoking loop as one pairing runs it on its own

  predicate Spared(m: Machine, id: string, keep: string, aglId: string, scope: string) {
    id == keep || m.aglId != aglId || m.scope != scope
  }

  class MachineStore {
    var table: Table

    constructor (t: Table)
      ensures table == t
    {
      table := t;
    }

    method RevokeMachine(id: string)
      modifies this
      ensures table == Revoke(old(table), id)
    {
      if id in table && table[id].active {
        table := table[id := table[id].(active := false)];
      }
    }

    /** `rows` is what the listing returned, `ok` says which revocations succeed. */
    method RevokeReplaced(keep: string, aglId: string, scope: string, rows: seq<Row>, ok: seq<bool>)
      requires Listed(table, aglId, rows) && |ok| == |rows|
      modifies this
      ensures table.Keys == old(table.Keys)
      ensures forall id :: id in table && Spared(old(table)[id], id, keep, aglId, scope) ==> table[id] == old(table)[id]
      ensures forall id :: id in table ==> table[id] == old(table)[id] || table[id] == old(table)[id].(active := false)
      ensures (forall k :: 0 <= k < |ok| ==> ok[k]) ==>
                forall id :: id != keep && ActiveOf(table, id, aglId) ==> table[id].scope != scope
    {
      var i := 0;
      while i < |rows|
        invariant 0 <= i <= |rows|
        invariant table.Keys == old(table.Keys)
        invariant forall id :: id in table && Spared(old(table)[id], id, keep, aglId, scope) ==> table[id] == old(table)[id]
        invariant forall id :: id in table ==> table[id] == old(table)[id] || table[id] == old(table)[id].(active := false)
        invariant forall k :: 0 <= k < i && ok[k] && rows[k].id != keep && rows[k].scope == scope ==>
                    rows[k].id in table && !table[rows[k].id].active
      {
        if rows[i].id == keep || rows[i].scope != scope {
          i := i + 1;
          continue;
        }
        if ok[i] {
          RevokeMachine(rows[i].id);
        }
        i := i + 1;
      }
    }
  }
}
