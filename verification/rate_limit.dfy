/** The per-user sliding-window rate limiter, over an abstract non-decreasing clock. */
module RateLimit {
  const WINDOW := 60000000000 // one minute, in nanoseconds

  function Cutoff(now: int): int {
    now - WINDOW
  }

  /** How many entries at the front of ts are before cutoff: what pruning drops. */
  function Expired(ts: seq<int>, cutoff: int): (n: nat)
    ensures n <= |ts|
    ensures forall i :: 0 <= i < n ==> ts[i] < cutoff
    ensures n < |ts| ==> ts[n] >= cutoff
  {
    if ts != [] && ts[0] < cutoff then 1 + Expired(ts[1..], cutoff) else 0
  }

  predicate Sorted(ts: seq<int>) {
    forall i, j :: 0 <= i < j < |ts| ==> ts[i] <= ts[j]
  }

  /** The entries of ts in the closed interval from lo to hi. */
  function Count(ts: seq<int>, lo: int, hi: int): (n: nat)
    ensures n <= |ts|
  {
    if ts == [] then 0
    else Count(ts[..|ts| - 1], lo, hi) + (if lo <= ts[|ts| - 1] <= hi then 1 else 0)
  }

  lemma {:induction false} CountAfter(ts: seq<int>, k: nat, lo: int, hi: int)
    requires k <= |ts| && forall i :: 0 <= i < k ==> ts[i] < lo
    ensures Count(ts, lo, hi) <= |ts| - k
    ensures Sorted(ts) && (k < |ts| ==> ts[k] >= lo) && (ts != [] ==> ts[|ts| - 1] <= hi) ==> Count(ts, lo, hi) == |ts| - k
  {
    if k < |ts| {
      CountAfter(ts[..|ts| - 1], k, lo, hi);
    } else if k > 0 {
      CountAfter(ts[..|ts| - 1], k - 1, lo, hi);
    }
  }

  /** The decision made from the whole log of accepted requests. */
  predicate Permits(log: seq<int>, now: int, rpm: nat) {
    Count(log, Cutoff(now), now) < rpm
  }

  /** A log in time order in which every request was permitted by the ones before it. */
  predicate Obeys(log: seq<int>, rpm: nat) {
    log == [] ||
    var before, t := log[..|log| - 1], log[|log| - 1];
    Obeys(before, rpm) && Permits(before, t, rpm) && forall i :: 0 <= i < |before| ==> before[i] <= t
  }

  lemma {:induction false} ObeysSorted(log: seq<int>, rpm: nat)
    requires Obeys(log, rpm)
    ensures Sorted(log)
  {
    if log != [] {
      ObeysSorted(log[..|log| - 1], rpm);
    }
  }

  lemma {:induction false} CountWider(ts: seq<int>, lo: int, hi: int, lo2: int, hi2: int)
    requires lo2 <= lo && hi <= hi2
    ensures Count(ts, lo, hi) <= Count(ts, lo2, hi2)
  {
    if ts != [] {
      CountWider(ts[..|ts| - 1], lo, hi, lo2, hi2);
    }
  }

  lemma {:induction false} CountCapped(ts: seq<int>, lo: int, hi: int, hi2: int)
    requires hi <= hi2 && forall i :: 0 <= i < |ts| ==> ts[i] <= hi
    ensures Count(ts, lo, hi) == Count(ts, lo, hi2)
  {
    if ts != [] {
      CountCapped(ts[..|ts| - 1], lo, hi, hi2);
    }
  }

  /** No closed interval of one window's length holds more than rpm accepted requests. */
  lemma {:induction false} WindowBound(log: seq<int>, rpm: nat, a: int)
    requires Obeys(log, rpm)
    ensures Count(log, a, a + WINDOW) <= rpm
  {
    if log != [] {
      var n := |log| - 1;
      var before, t := log[..n], log[n];
      WindowBound(before, rpm, a);
      if a <= t <= a + WINDOW {
        CountCapped(before, a, t, a + WINDOW);
        CountWider(before, a, t, Cutoff(t), t);
      }
    }
  }

  predicate AllBefore(ts: seq<int>, t: int) {
    forall i :: 0 <= i < |ts| ==> ts[i] < t
  }

  predicate AllUpTo(ts: seq<int>, t: int) {
    forall i :: 0 <= i < |ts| ==> ts[i] <= t
  }

  /** The log is what was pruned away, which no decision from now on can count, then the window. */
  ghost predicate Tracked(gone: seq<int>, kept: seq<int>, clock: int, rpm: nat) {
    Obeys(gone + kept, rpm) && AllUpTo(gone + kept, clock) && AllBefore(gone, Cutoff(clock))
  }

  /** After pruning, the window's length is what the whole log counts. */
  lemma {:induction false} TrackedPrune(gone: seq<int>, kept: seq<int>, now: int, rpm: nat)
    requires Tracked(gone, kept, now, rpm)
    ensures var k := Expired(kept, Cutoff(now));
            && Tracked(gone + kept[..k], kept[k..], now, rpm)
            && gone + kept == gone + kept[..k] + kept[k..]
            && |kept[k..]| == Count(gone + kept, Cutoff(now), now)
  {
    var k := Expired(kept, Cutoff(now));
    assert kept == kept[..k] + kept[k..];
    assert gone + kept == gone + kept[..k] + kept[k..];
    ObeysSorted(gone + kept, rpm);
    CountTail(gone + kept[..k], kept[k..], Cutoff(now), now);
  }

  /** Behind entries that are too old, everything up to now counts. */
  lemma {:induction false} CountTail(a: seq<int>, b: seq<int>, lo: int, hi: int)
    requires AllBefore(a, lo) && Sorted(a + b) && AllUpTo(a + b, hi) && (b != [] ==> b[0] >= lo)
    ensures Count(a + b, lo, hi) == |b|
  {
    var ts := a + b;
    assert forall i :: 0 <= i < |a| ==> ts[i] == a[i];
    if b != [] {
      assert ts[|a|] == b[0] && ts[|ts| - 1] <= hi;
    }
    CountAfter(ts, |a|, lo, hi);
  }

  lemma TrackedAccept(gone: seq<int>, kept: seq<int>, now: int, rpm: nat)
    requires Tracked(gone, kept, now, rpm) && Permits(gone + kept, now, rpm)
    ensures Tracked(gone, kept + [now], now, rpm)
    ensures gone + (kept + [now]) == (gone + kept) + [now]
  {
    var all := (gone + kept) + [now];
    assert gone + (kept + [now]) == all;
    assert all[..|all| - 1] == gone + kept;
  }

  type Times = map<string, seq<int>>

  function At(m: Times, user: string): seq<int> {
    if user in m then m[user] else []
  }

  /** Every request of user ever accepted, in order: what pruning dropped, then the window. */
  function LogOf(dropped: Times, windows: Times, user: string): seq<int> {
    At(dropped, user) + At(windows, user)
  }

  ghost predicate Sound(dropped: Times, windows: Times, clock: int, rpm: nat) {
    forall u: string :: Tracked(At(dropped, u), At(windows, u), clock, rpm)
  }

  lemma SoundLater(dropped: Times, windows: Times, clock: int, now: int, rpm: nat)
    requires Sound(dropped, windows, clock, rpm) && clock <= now
    ensures Sound(dropped, windows, now, rpm)
  {
    forall u: string ensures Tracked(At(dropped, u), At(windows, u), now, rpm) {
      assert Tracked(At(dropped, u), At(windows, u), clock, rpm);
    }
  }

  /** Replacing one user's entries by tracked ones. */
  lemma SoundUpdate(dropped: Times, windows: Times, d: Times, w: Times, user: string, now: int, rpm: nat)
    requires Sound(dropped, windows, now, rpm)
    requires Tracked(At(d, user), At(w, user), now, rpm)
    requires forall u :: u != user ==> At(d, u) == At(dropped, u) && At(w, u) == At(windows, u)
    ensures Sound(d, w, now, rpm)
    ensures forall u :: u != user ==> LogOf(d, w, u) == LogOf(dropped, windows, u)
  {
    forall u: string ensures Tracked(At(d, u), At(w, u), now, rpm) {
      assert u == user || Tracked(At(dropped, u), At(windows, u), now, rpm);
    }
  }

  function PrunedDropped(dropped: Times, windows: Times, user: string, now: int): Times {
    var kept := At(windows, user);
    dropped[user := At(dropped, user) + kept[..Expired(kept, Cutoff(now))]]
  }

  function PrunedWindow(windows: Times, user: string, now: int): seq<int> {
    At(windows, user)[Expired(At(windows, user), Cutoff(now))..]
  }

  lemma PrunedAt(dropped: Times, windows: Times, user: string, now: int)
    ensures var d, w := PrunedDropped(dropped, windows, user, now), windows[user := PrunedWindow(windows, user, now)];
            var gone, kept := At(dropped, user), At(windows, user);
            var k := Expired(kept, Cutoff(now));
            && At(d, user) == gone + kept[..k] && At(w, user) == kept[k..]
            && forall u :: u != user ==> At(d, u) == At(dropped, u) && At(w, u) == At(windows, u)
  {
  }

  lemma PrunedLogs(dropped: Times, windows: Times, user: string, now: int)
    ensures var d, w := PrunedDropped(dropped, windows, user, now), windows[user := PrunedWindow(windows, user, now)];
            SameLogs(dropped, windows, d, w)
  {
    PrunedAt(dropped, windows, user, now);
    SplitSame(At(dropped, user), At(windows, user), Expired(At(windows, user), Cutoff(now)));
  }

  lemma SplitSame(gone: seq<int>, kept: seq<int>, k: nat)
    requires k <= |kept|
    ensures (gone + kept[..k]) + kept[k..] == gone + kept
  {
  }

  /** Pruning one user changes no log. */
  lemma SoundPrune(dropped: Times, windows: Times, user: string, now: int, rpm: nat)
    requires Sound(dropped, windows, now, rpm)
    ensures var d, w := PrunedDropped(dropped, windows, user, now), windows[user := PrunedWindow(windows, user, now)];
            Sound(d, w, now, rpm) && SameLogs(dropped, windows, d, w)
  {
    var gone, kept := At(dropped, user), At(windows, user);
    var d, w := PrunedDropped(dropped, windows, user, now), windows[user := PrunedWindow(windows, user, now)];
    assert Tracked(At(d, user), At(w, user), now, rpm) by {
      assert Tracked(gone, kept, now, rpm);
      TrackedPrune(gone, kept, now, rpm);
      PrunedAt(dropped, windows, user, now);
    }
    PrunedLogs(dropped, windows, user, now);
    PrunedAt(dropped, windows, user, now);
    SoundUpdate(dropped, windows, d, w, user, now, rpm);
  }

  ghost predicate SameLogs(dropped: Times, windows: Times, d: Times, w: Times) {
    forall u :: LogOf(d, w, u) == LogOf(dropped, windows, u)
  }

  /** What purging leaves of one user's window: nothing at all when it is empty. */
  function Purged(windows: Times, user: string, now: int): Times {
    var kept := PrunedWindow(windows, user, now);
    if kept == [] then windows - {user} else windows[user := kept]
  }

  lemma SoundPurge(dropped: Times, windows: Times, user: string, now: int, rpm: nat)
    requires Sound(dropped, windows, now, rpm)
    ensures var d, w := PrunedDropped(dropped, windows, user, now), Purged(windows, user, now);
            Sound(d, w, now, rpm) && SameLogs(dropped, windows, d, w)
  {
    SoundPrune(dropped, windows, user, now, rpm);
    var d, w := PrunedDropped(dropped, windows, user, now), windows[user := PrunedWindow(windows, user, now)];
    SoundUpdate(d, w, d, Purged(windows, user, now), user, now, rpm);
  }

  lemma SoundAccept(dropped: Times, windows: Times, user: string, now: int, rpm: nat)
    requires Sound(dropped, windows, now, rpm) && Permits(LogOf(dropped, windows, user), now, rpm)
    ensures var w := windows[user := At(windows, user) + [now]];
            && Sound(dropped, w, now, rpm)
            && LogOf(dropped, w, user) == LogOf(dropped, windows, user) + [now]
            && forall u :: u != user ==> LogOf(dropped, w, u) == LogOf(dropped, windows, u)
  {
    assert Tracked(At(dropped, user), At(windows, user), now, rpm);
    TrackedAccept(At(dropped, user), At(windows, user), now, rpm);
    SoundUpdate(dropped, windows, dropped, windows[user := At(windows, user) + [now]], user, now, rpm);
  }

  /** The latest rpm accepted requests are at most a minute old. */
  predicate FullMinute(log: seq<int>, now: int, rpm: nat) {
    |log| >= rpm > 0 && log[|log| - rpm] >= now - 60 * 1000 * 1000 * 1000
  }

  /** Refused exactly when the rpm-th latest accepted request is at most a minute old. */
  lemma {:induction false} PermitsIff(dropped: Times, windows: Times, user: string, now: int, rpm: nat)
    requires Sound(dropped, windows, now, rpm) && rpm > 0
    ensures var log := LogOf(dropped, windows, user);
            !Permits(log, now, rpm) <==> FullMinute(log, now, rpm)
  {
    var log := LogOf(dropped, windows, user);
    assert Tracked(At(dropped, user), At(windows, user), now, rpm);
    ObeysSorted(log, rpm);
    var k := Expired(log, Cutoff(now));
    CountAfter(log, k, Cutoff(now), now);
  }

  /** In every reachable limiter, no user has more than rpm requests accepted in any one window. */
  lemma LimiterBound(dropped: Times, windows: Times, clock: int, rpm: nat, user: string, a: int)
    requires Sound(dropped, windows, clock, rpm)
    ensures Count(LogOf(dropped, windows, user), a, a + WINDOW) <= rpm
  {
    assert Tracked(At(dropped, user), At(windows, user), clock, rpm);
    WindowBound(LogOf(dropped, windows, user), rpm, a);
  }

  class RateLimiter {
    const rpm: nat
    var windows: Times
    // What pruning dropped, per user, and the latest time seen.
    ghost var dropped: Times
    ghost var clock: int

    ghost function Log(user: string): seq<int>
      reads this
    {
      LogOf(dropped, windows, user)
    }

    ghost predicate Valid()
      reads this
    {
      Sound(dropped, windows, clock, rpm)
    }

    /** newRateLimiter: a limit of zero or less means no limit. */
    constructor (limit: int, now: int)
      ensures Valid() && rpm == (if limit <= 0 then 0 else limit) && clock == now
      ensures forall u :: Log(u) == []
    {
      rpm, windows, dropped, clock := if limit <= 0 then 0 else limit, map[], map[], now;
    }

    /** Drops the entries that have left the window. */
    static method Prune(ts: seq<int>, cutoff: int) returns (kept: seq<int>)
      ensures kept == ts[Expired(ts, cutoff)..]
    {
      var start := 0;
      while start < |ts| && ts[start] < cutoff
        invariant start <= |ts| && Expired(ts, cutoff) == start + Expired(ts[start..], cutoff)
      {
        start := start + 1;
      }
      kept := ts[start..];
    }

    /**
     * Permits the request exactly when the whole log does, so a refusal means rpm requests were
     * accepted in the preceding window. An accepted request is logged; nothing else changes the log.
     */
    method Allow(user: string, now: int) returns (ok: bool)
      requires Valid() && clock <= now
      modifies this
      ensures Valid() && clock == now
      ensures ok <==> rpm == 0 || Permits(old(Log(user)), now, rpm)
      ensures !ok <==> rpm > 0 && FullMinute(old(Log(user)), now, rpm)
      ensures Log(user) == if ok && rpm > 0 then old(Log(user)) + [now] else old(Log(user))
      ensures forall u :: u != user ==> Log(u) == old(Log(u))
    {
      SoundLater(dropped, windows, clock, now, rpm);
      clock := now;
      if rpm <= 0 {
        return true;
      }
      PermitsIff(dropped, windows, user, now, rpm);
      SoundPrune(dropped, windows, user, now, rpm);
      assert Tracked(At(dropped, user), At(windows, user), now, rpm);
      TrackedPrune(At(dropped, user), At(windows, user), now, rpm);
      var ts := Prune(At(windows, user), Cutoff(now));
      dropped := PrunedDropped(dropped, windows, user, now);
      windows := windows[user := ts];
      if |ts| >= rpm {
        return false;
      }
      SoundAccept(dropped, windows, user, now, rpm);
      windows := windows[user := ts + [now]];
      return true;
    }

    /** The periodic purge: no log changes, so no decision to come does. */
    method Cleanup(now: int)
      requires Valid() && clock <= now
      modifies this
      ensures Valid() && clock == now && SameLogs(old(dropped), old(windows), dropped, windows)
      ensures forall u :: u in windows ==> u in old(windows) && windows[u] != []
    {
      SoundLater(dropped, windows, clock, now, rpm);
      clock := now;
      var todo := windows.Keys;
      while todo != {}
        invariant Valid() && clock == now && SameLogs(old(dropped), old(windows), dropped, windows)
        invariant todo <= windows.Keys <= old(windows).Keys
        invariant forall u :: u in windows && u !in todo ==> windows[u] != []
        decreases todo
      {
        var u :| u in todo;
        SoundPurge(dropped, windows, u, now, rpm);
        var ts := Prune(windows[u], Cutoff(now));
        dropped := PrunedDropped(dropped, windows, u, now);
        windows := if ts == [] then windows - {u} else windows[u := ts];
        todo := todo - {u};
      }
    }
  }
}
