/** Session grants: what "2" to a permission request allows from then on, for a day. */
module AglGrants {
  import opened Wrappers
  import AglChat

  /** maxGrants. */
  const MAX_GRANTS := 10000

  function GrantKey(machine: string, session: string): string {
    machine + "\0" + session
  }

  predicate NulFree(s: string) {
    forall i :: 0 <= i < |s| ==> s[i] != '\0'
  }

  /** Keys of NUL-free machine ids tell machine and session apart. */
  lemma GrantKeyInjective(m: string, s: string, n: string, t: string)
    requires NulFree(m) && NulFree(n)
    ensures GrantKey(m, s) == GrantKey(n, t) <==> m == n && s == t
  {
    var a, b := GrantKey(m, s), GrantKey(n, t);
    FirstNul(m, s);
    FirstNul(n, t);
    if a == b {
      assert |m| == |n|;
      assert m == a[..|m|] && n == b[..|n|];
      assert s == a[|m| + 1..] && t == b[|n| + 1..];
    }
  }

  lemma FirstNul(m: string, s: string)
    requires NulFree(m)
    ensures GrantKey(m, s)[|m|] == '\0' && forall i :: 0 <= i < |m| ==> GrantKey(m, s)[i] != '\0'
  {
  }

  /** With a NUL in a machine id, two machines can share a key. */
  lemma GrantKeysCollide()
    ensures GrantKey("a\0b", "c") == GrantKey("a", "b\0c")
  {
    assert "a\0b" + "\0" + "c" == "a" + "\0" + "b\0c";
  }

  /** One allow_session decision taken down, with the time. */
  datatype Noted = Noted(key: string, at: nat)

  /** A decision for this key not older than a day. */
  predicate Fresh(noted: seq<Noted>, key: string, now: nat) {
    exists i :: 0 <= i < |noted| && FreshAt(noted[i], key, now)
  }

  predicate FreshAt(n: Noted, key: string, now: nat) {
    n.key == key && n.at <= now <= n.at + 24 * 60 * 60
  }

  predicate Expired(t: nat, now: nat) {
    now > t + AglChat.GRANT_TTL
  }

  type Table = map<string, nat>

  /** Each entry is a decision that was noted. */
  predicate Backed(table: Table, noted: seq<Noted>) {
    forall k :: k in table ==> Noted(k, table[k]) in noted
  }

  /** Each decision is in the table, or superseded there, or expired, or its key was evicted. */
  predicate Covers(table: Table, noted: seq<Noted>, evicted: set<string>, now: nat) {
    forall i :: 0 <= i < |noted| ==> Kept(table, noted[i], now) || noted[i].key in evicted
  }

  predicate Kept(table: Table, n: Noted, now: nat) {
    Expired(n.at, now) || (n.key in table && n.at <= table[n.key])
  }

  predicate Past(noted: seq<Noted>, now: nat) {
    forall i :: 0 <= i < |noted| ==> noted[i].at <= now
  }

  lemma NoteCovers(table: Table, noted: seq<Noted>, evicted: set<string>, key: string, now: nat)
    requires Covers(table, noted, evicted, now) && Past(noted, now)
    ensures Covers(table[key := now], noted + [Noted(key, now)], evicted - {key}, now)
  {
  }

  lemma NoteBacks(table: Table, noted: seq<Noted>, key: string, now: nat)
    requires Backed(table, noted)
    ensures Backed(table[key := now], noted + [Noted(key, now)])
  {
    var n := noted + [Noted(key, now)];
    assert n[|noted|] == Noted(key, now);
    forall k | k in table && k != key
      ensures Noted(k, table[k]) in n
    {
      assert Noted(k, table[k]) in noted;
    }
  }

  /** An entry may go when it has expired, or as an evicted one. */
  lemma DropCovers(table: Table, noted: seq<Noted>, evicted: set<string>, key: string, now: nat)
    requires Covers(table, noted, evicted, now) && key in table
    ensures Covers(table - {key}, noted, if Expired(table[key], now) then evicted else evicted + {key}, now)
  {
  }

  lemma LaterCovers(table: Table, noted: seq<Noted>, evicted: set<string>, was: nat, now: nat)
    requires Covers(table, noted, evicted, was) && was <= now
    ensures Covers(table, noted, evicted, now)
  {
  }

  lemma FoundIsFresh(table: Table, noted: seq<Noted>, key: string, now: nat)
    requires Backed(table, noted) && Past(noted, now) && key in table && !Expired(table[key], now)
    ensures Fresh(noted, key, now)
  {
    var i :| 0 <= i < |noted| && noted[i] == Noted(key, table[key]);
    assert FreshAt(noted[i], key, now);
  }

  lemma FreshIsFound(table: Table, noted: seq<Noted>, evicted: set<string>, key: string, now: nat)
    requires Covers(table, noted, evicted, now) && Fresh(noted, key, now) && key !in evicted
    ensures key in table && !Expired(table[key], now)
  {
    var i :| 0 <= i < |noted| && FreshAt(noted[i], key, now);
    assert Kept(table, noted[i], now);
  }

  /** The entries of table that have not expired, but for the victim's. */
  ghost predicate Spared(table: Table, left: Table, now: nat, victim: Option<string>) {
    && (forall k :: k in left <==> k in table && !Expired(table[k], now) && victim != Some(k))
    && (forall k :: k in left ==> left[k] == table[k])
    && (victim.Some? ==> victim.value in table && !Expired(table[victim.value], now))
  }

  ghost predicate Visiting(table: Table, now: Table, todo: set<string>, time: nat, victim: Option<string>) {
    && (forall k :: k in now <==> k in table && (k in todo || (!Expired(table[k], time) && victim != Some(k))))
    && (forall k :: k in now ==> now[k] == table[k])
    && (victim.Some? ==> victim.value in table && victim.value !in todo && !Expired(table[victim.value], time))
  }

  lemma DropSize(table: Table, key: string)
    requires key in table
    ensures |table - {key}| == |table| - 1
  {
    assert (table - {key}).Keys == table.Keys - {key};
  }

  /** One more key is visited: it goes when it has expired, or as the victim. */
  lemma VisitingStep(table: Table, now: Table, todo: set<string>, time: nat, victim: Option<string>, k: string)
    requires Visiting(table, now, todo, time, victim) && k in todo && k in now
    ensures Expired(now[k], time) ==> Visiting(table, now - {k}, todo - {k}, time, victim)
    ensures !Expired(now[k], time) ==> Visiting(table, now, todo - {k}, time, victim)
    ensures !Expired(now[k], time) && victim.None? ==> Visiting(table, now - {k}, todo - {k}, time, Some(k))
  {
  }

  function Victims(victim: Option<string>): set<string> {
    if victim.Some? then {victim.value} else {}
  }

  /**
   * The table. noted is every decision since the start, now the last time it was used, and evicted the
   * keys whose last decision had to make room before it expired.
   */
  class SessionGrants {
    var at: Table
    ghost var noted: seq<Noted>
    ghost var now: nat
    ghost var evicted: set<string>

    ghost predicate Valid()
      reads this
    {
      |at| <= MAX_GRANTS && Backed(at, noted) && Past(noted, now) && Covers(at, noted, evicted, now)
    }

    constructor ()
      ensures Valid() && noted == [] && evicted == {}
    {
      at, noted, now, evicted := map[], [], 0, {};
    }

    /** Only a session-wide decision is noted; a full table evicts at most one other key for it. */
    method Note(machine: string, session: string, decision: AglChat.Decision,
                time: nat) returns (ghost victim: Option<string>)
      requires Valid() && now <= time
      modifies this
      ensures Valid() && now == time
      ensures var key, noting := GrantKey(machine, session), decision.AllowSession? && machine != "" && session != "";
              && noted == old(noted) + (if noting then [Noted(key, time)] else [])
              && evicted == (if noting then old(evicted) + Victims(victim) - {key} else old(evicted))
      ensures victim.Some? ==> |old(at)| == MAX_GRANTS && victim.value in old(at)
    {
      LaterCovers(at, noted, evicted, now, time);
      now, victim := time, None;
      if !decision.AllowSession? || machine == "" || session == "" {
        return;
      }
      if |at| >= MAX_GRANTS {
        victim := MakeRoom(time);
      }
      Enter(GrantKey(machine, session), time);
    }

    method Enter(key: string, time: nat)
      requires Valid() && now == time && |at| < MAX_GRANTS
      modifies `at, `noted, `evicted
      ensures Valid() && at == old(at)[key := time]
      ensures noted == old(noted) + [Noted(key, time)] && evicted == old(evicted) - {key}
    {
      NoteBacks(at, noted, key, time);
      NoteCovers(at, noted, evicted, key, time);
      SizeAfter(at, key, time);
      at := at[key := time];
      noted := noted + [Noted(key, time)];
      evicted := evicted - {key};
    }

    /**
     * The eviction loop, over the keys in any order: the first one it visits goes whatever its age, as
     * the table is full; after that only expired ones do. So every expired entry goes and at most one other.
     */
    method MakeRoom(time: nat) returns (ghost victim: Option<string>)
      requires Backed(at, noted) && now == time && Covers(at, noted, evicted, time) && |at| == MAX_GRANTS
      modifies `at, `evicted
      ensures |at| < MAX_GRANTS && Spared(old(at), at, time, victim)
      ensures Backed(at, noted) && Covers(at, noted, evicted, time) && evicted == old(evicted) + Victims(victim)
    {
      victim := None;
      var left := at.Keys;
      while left != {}
        invariant left <= at.Keys && Backed(at, noted) && |at| <= MAX_GRANTS
        invariant |at| == MAX_GRANTS ==> left == old(at).Keys && at == old(at) && victim == None
        invariant Visiting(old(at), at, left, time, victim)
        invariant Covers(at, noted, evicted, time) && evicted == old(evicted) + Victims(victim)
        decreases left
      {
        var k :| k in left;
        VisitingStep(old(at), at, left, time, victim, k);
        left := left - {k};
        if Expired(at[k], time) || |at| >= MAX_GRANTS {
          if !Expired(at[k], time) {
            victim := Some(k);
          }
          Drop(k, time);
        }
      }
    }

    method Drop(key: string, time: nat)
      requires key in at && Backed(at, noted) && Covers(at, noted, evicted, time)
      modifies `at, `evicted
      ensures at == old(at) - {key} && |at| == |old(at)| - 1
      ensures evicted == if Expired(old(at)[key], time) then old(evicted) else old(evicted) + {key}
      ensures Backed(at, noted) && Covers(at, noted, evicted, time)
    {
      DropCovers(at, noted, evicted, key, time);
      DropSize(at, key);
      if !Expired(at[key], time) {
        evicted := evicted + {key};
      }
      at := at - {key};
    }

    /** A grant it reports is a decision of the last day; and it reports each of those whose key was not evicted. */
    method Has(machine: string, session: string, time: nat) returns (granted: bool)
      requires Valid() && now <= time
      modifies this
      ensures Valid() && now == time && noted == old(noted) && evicted == old(evicted)
      ensures granted ==> Fresh(noted, GrantKey(machine, session), time)
      ensures GrantKey(machine, session) !in evicted ==> (granted <==> Fresh(noted, GrantKey(machine, session), time))
    {
      LaterCovers(at, noted, evicted, now, time);
      now := time;
      var key := GrantKey(machine, session);
      granted := key in at;
      if granted && Expired(at[key], time) {
        Drop(key, time);
        granted := false;
      }
      if granted {
        FoundIsFresh(at, noted, key, time);
      } else if Fresh(noted, key, time) && key !in evicted {
        FreshIsFound(at, noted, evicted, key, time);
      }
    }
  }

  lemma SizeAfter(table: Table, key: string, time: nat)
    requires |table| < MAX_GRANTS || key in table
    requires |table| <= MAX_GRANTS
    ensures |table[key := time]| <= MAX_GRANTS
  {
    assert table[key := time].Keys == table.Keys + {key};
  }
}
