/** The table that keeps Agent Communication Protocol runs for later queries. */
module AcpRunTable {
  /** acpRunLimit, and acpRunTTL in seconds. */
  const RUN_LIMIT := 1000
  const RUN_TTL: nat := 24 * 60 * 60

  /** Creation times by run id. */
  type Runs = map<string, nat>

  predicate Expired(created: nat, now: nat) {
    created + RUN_TTL < now
  }

  function Unexpired(runs: Runs, now: nat): Runs {
    map id | id in runs && !Expired(runs[id], now) :: runs[id]
  }

  predicate Oldest(runs: Runs, id: string) {
    id in runs && forall other :: other in runs ==> runs[id] <= runs[other]
  }

  method FindOldest(runs: Runs) returns (id: string)
    requires runs != map[]
    ensures Oldest(runs, id)
  {
    id :| id in runs;
    var left := runs.Keys - {id};
    while left != {}
      invariant id in runs && left <= runs.Keys
      invariant forall other :: other in runs && other !in left ==> runs[id] <= runs[other]
      decreases left
    {
      var other :| other in left;
      if runs[other] < runs[id] {
        id := other;
      }
      left := left - {other};
    }
  }

  lemma SizeWithout(runs: Runs, id: string)
    requires id in runs
    ensures |runs - {id}| == |runs| - 1
  {
    assert (runs - {id}).Keys == runs.Keys - {id};
  }

  lemma SizeWith(runs: Runs, id: string, created: nat)
    ensures |runs[id := created]| <= |runs| + 1
  {
    assert runs[id := created].Keys == runs.Keys + {id};
  }

  lemma SizeSubset(a: set<string>, b: set<string>)
    requires a <= b
    ensures |a| <= |b|
  {
    if a != {} {
      var x :| x in a;
      SizeSubset(a - {x}, b - {x});
    }
  }

  class RunTable {
    var runs: Runs

    constructor ()
      ensures runs == map[]
    {
      runs := map[];
    }

    /**
     * The new run is in, the expired ones are out, and the limit is kept: an unexpired run goes only
     * where the table is full of them, and then the one that goes is an oldest one.
     */
    method Store(id: string, created: nat, now: nat)
      requires |runs| <= RUN_LIMIT
      modifies this
      ensures |runs| <= RUN_LIMIT && id in runs && runs[id] == created
      ensures |Unexpired(old(runs), now)| < RUN_LIMIT ==> runs == Unexpired(old(runs), now)[id := created]
      ensures |Unexpired(old(runs), now)| == RUN_LIMIT ==>
                exists gone :: Oldest(Unexpired(old(runs), now), gone)
                               && runs == (Unexpired(old(runs), now) - {gone})[id := created]
    {
      var left := runs.Keys;
      while left != {}
        invariant left <= runs.Keys <= old(runs).Keys
        invariant forall k :: k in runs ==> runs[k] == old(runs)[k]
        invariant forall k :: k in old(runs) ==> (k in runs <==> k in left || !Expired(old(runs)[k], now))
        decreases left
      {
        var k :| k in left;
        left := left - {k};
        if Expired(runs[k], now) {
          runs := runs - {k};
        }
      }
      assert runs == Unexpired(old(runs), now);
      SizeSubset(runs.Keys, old(runs).Keys);
      if |runs| >= RUN_LIMIT {
        var oldest := FindOldest(runs);
        SizeWithout(runs, oldest);
        runs := runs - {oldest};
      }
      SizeWith(runs, id, created);
      runs := runs[id := created];
    }
  }
}
