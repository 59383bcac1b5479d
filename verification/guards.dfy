/** The running guards of a turn's tool loop, and what they mean over the whole result history. */
module Guards {
  import opened Wrappers
  import opened Messages
  import opened Text

  const SAME_TOOL_LIMIT := 2
  const FAILED_ROUNDS_LIMIT := 3
  const FAILED_CALLS_LIMIT := 10
  const LOOP_THRESHOLD := 3
  const RETRY_HINT: string := "[Analyze the error above and try a different approach.]"

  /** One processed result: the call it answers, its text, whether it failed and how. */
  datatype Observation = Observation(call: ToolCall, result: string, failed: bool, summary: string)

  predicate IsFailedToolResult(err: Option<string>, content: string) {
    || err.Some?
    || "HTTP 4" <= TrimSpace(content) || "HTTP 5" <= TrimSpace(content)
    || Contains(TrimSpace(content), RETRY_HINT)
  }

  // ----- same-tool failure streak

  datatype Streak = Streak(count: nat, tool: string, text: string)

  const NO_STREAK := Streak(0, "", "")

  function UpdateStreak(s: Streak, tool: string, failed: bool, summary: string): Streak {
    if failed then
      if tool == s.tool then Streak(s.count + 1, s.tool, summary) else Streak(1, tool, summary)
    else if tool == s.tool then Streak(0, "", s.text)
    else s
  }

  function StreakOf(log: seq<Observation>): Streak {
    if log == [] then NO_STREAK
    else
      var o := log[|log| - 1];
      UpdateStreak(StreakOf(log[..|log| - 1]), o.call.name, o.failed, o.summary)
  }

  /** o ends any streak of tool t: t succeeded, or another tool failed. */
  predicate EndsStreak(o: Observation, t: string) {
    (o.call.name == t && !o.failed) || (o.call.name != t && o.failed)
  }

  /** Just past the last observation that ends a streak of t. */
  function StreakStart(log: seq<Observation>, t: string): (n: nat)
    ensures n <= |log|
    ensures n > 0 ==> EndsStreak(log[n - 1], t)
    ensures forall k :: n <= k < |log| ==> !EndsStreak(log[k], t)
  {
    if log == [] then 0
    else if EndsStreak(log[|log| - 1], t) then |log|
    else StreakStart(log[..|log| - 1], t)
  }

  function Failures(log: seq<Observation>, t: string): nat {
    if log == [] then 0
    else
      var o := log[|log| - 1];
      Failures(log[..|log| - 1], t) + (if o.failed && o.call.name == t then 1 else 0)
  }

  /** The tool of the last failure in log. */
  function LastFailing(log: seq<Observation>): Option<string> {
    if log == [] then None
    else if log[|log| - 1].failed then Some(log[|log| - 1].call.name)
    else LastFailing(log[..|log| - 1])
  }

  /** The failures of t since it last succeeded or another tool failed. */
  function RecentFailures(log: seq<Observation>, t: string): nat {
    Failures(log[StreakStart(log, t)..], t)
  }

  lemma RecentFailuresStep(log: seq<Observation>, o: Observation, t: string)
    ensures RecentFailures(log + [o], t) ==
            if EndsStreak(o, t) then 0 else RecentFailures(log, t) + (if o.failed then 1 else 0)
  {
    assert (log + [o])[..|log|] == log;
    var k := StreakStart(log, t);
    assert (log + [o])[k..] == log[k..] + [o];
    assert (log[k..] + [o])[..|log[k..]|] == log[k..];
    assert o.failed && !EndsStreak(o, t) ==> o.call.name == t;
  }

  /**
   * The running streak counts the failures of the last failing tool since that tool last succeeded
   * or another tool failed; every other tool's count is zero.
   */
  lemma {:induction false} StreakMeaning(log: seq<Observation>, t: string)
    ensures RecentFailures(log, t) == if LastFailing(log) == Some(t) then StreakOf(log).count else 0
    ensures StreakOf(log).count > 0 ==> LastFailing(log) == Some(StreakOf(log).tool)
    ensures StreakOf(log).count == 0 ==> StreakOf(log).tool == ""
  {
    if log != [] {
      var before, o := log[..|log| - 1], log[|log| - 1];
      StreakMeaning(before, t);
      assert log == before + [o];
      RecentFailuresStep(before, o, t);
      StreakStep(before, o);
    }
  }

  lemma {:induction false} StreakStep(log: seq<Observation>, o: Observation)
    ensures StreakOf(log + [o]) == UpdateStreak(StreakOf(log), o.call.name, o.failed, o.summary)
    ensures LastFailing(log + [o]) == if o.failed then Some(o.call.name) else LastFailing(log)
    ensures FailedCalls(log + [o]) == FailedCalls(log) + (if o.failed then 1 else 0)
  {
    assert (log + [o])[..|log|] == log;
  }

  // ----- rounds

  predicate AllFailed(round: seq<Observation>) {
    round != [] && forall j :: 0 <= j < |round| ==> round[j].failed
  }

  /** How many rounds at the end of the turn so far had nothing but failures. */
  function FailedRounds(rounds: seq<seq<Observation>>): (n: nat)
    ensures n <= |rounds|
    ensures forall k :: |rounds| - n <= k < |rounds| ==> AllFailed(rounds[k])
    ensures n < |rounds| ==> !AllFailed(rounds[|rounds| - n - 1])
  {
    if rounds == [] || !AllFailed(rounds[|rounds| - 1]) then 0
    else FailedRounds(rounds[..|rounds| - 1]) + 1
  }

  function FailedCalls(log: seq<Observation>): nat {
    if log == [] then 0
    else FailedCalls(log[..|log| - 1]) + (if log[|log| - 1].failed then 1 else 0)
  }

  function Flat(rounds: seq<seq<Observation>>): seq<Observation> {
    if rounds == [] then [] else Flat(rounds[..|rounds| - 1]) + rounds[|rounds| - 1]
  }

  /** Whether the next model call may use tools, read off the whole history of the turn. */
  predicate ToolsAllowed(rounds: seq<seq<Observation>>) {
    && StreakOf(Flat(rounds)).count < SAME_TOOL_LIMIT
    && FailedRounds(rounds) < FAILED_ROUNDS_LIMIT
    && FailedCalls(Flat(rounds)) < FAILED_CALLS_LIMIT
  }

  /** Why tools are withheld: a tool's failures in a row, rounds in a row, or failed calls in all. */
  datatype StopReason = SameTool(tool: string, times: nat) | RoundsFailed(times: nat) | CallsFailed(times: nat)

  /** The reason given when there are several: the tool's first, then the rounds. */
  function WhyWithheld(rounds: seq<seq<Observation>>): StopReason {
    var streak := StreakOf(Flat(rounds));
    if streak.count >= SAME_TOOL_LIMIT then SameTool(streak.tool, streak.count)
    else if FailedRounds(rounds) >= FAILED_ROUNDS_LIMIT then RoundsFailed(FailedRounds(rounds))
    else CallsFailed(FailedCalls(Flat(rounds)))
  }

  /** The tool named is one that has failed that often since it last succeeded or another one failed. */
  lemma {:induction false} WhyMeaning(rounds: seq<seq<Observation>>)
    requires !ToolsAllowed(rounds)
    ensures match WhyWithheld(rounds)
            case SameTool(tool, times) => times == RecentFailures(Flat(rounds), tool) >= 2
            case RoundsFailed(times) => ThreeFailedRounds(rounds) && forall t :: RecentFailures(Flat(rounds), t) < 2
            case CallsFailed(times) =>
              times == FailedCalls(Flat(rounds)) >= 10 && !ThreeFailedRounds(rounds) && forall t :: RecentFailures(Flat(rounds), t) < 2
  {
    var log := Flat(rounds);
    StreakMeaning(log, StreakOf(log).tool);
    StreakIff(log);
    FailedRoundsThree(rounds);
  }

  /** The places of the failures in log. */
  predicate FailuresAt(log: seq<Observation>, picks: seq<nat>) {
    && (forall i, j :: 0 <= i < j < |picks| ==> picks[i] < picks[j])
    && (forall i :: 0 <= i < |picks| ==> picks[i] < |log| && log[picks[i]].failed)
    && forall k :: 0 <= k < |log| && log[k].failed ==> k in picks
  }

  lemma {:induction false} FailedCallsCount(log: seq<Observation>) returns (picks: seq<nat>)
    ensures FailuresAt(log, picks) && |picks| == FailedCalls(log)
  {
    if log == [] {
      picks := [];
    } else {
      var front := log[..|log| - 1];
      picks := FailedCallsCount(front);
      assert forall k :: 0 <= k < |front| ==> log[k] == front[k];
      if log[|log| - 1].failed {
        picks := picks + [|log| - 1];
      }
    }
  }

  /** The last three rounds had nothing but failures. */
  predicate ThreeFailedRounds(rounds: seq<seq<Observation>>) {
    |rounds| >= 3 && AllFailed(rounds[|rounds| - 1]) && AllFailed(rounds[|rounds| - 2]) && AllFailed(rounds[|rounds| - 3])
  }

  /**
   * When tools are withheld: a tool has failed twice since it last succeeded or another one failed, the last
   * three rounds failed altogether, or ten calls of the turn have failed.
   */
  lemma {:induction false} ToolsWithheldIff(rounds: seq<seq<Observation>>) returns (picks: seq<nat>)
    ensures FailuresAt(Flat(rounds), picks)
    ensures !ToolsAllowed(rounds) <==>
            || (exists t :: RecentFailures(Flat(rounds), t) >= 2)
            || ThreeFailedRounds(rounds) || |picks| >= 10
  {
    picks := FailedCallsCount(Flat(rounds));
    StreakIff(Flat(rounds));
    FailedRoundsThree(rounds);
  }

  lemma {:induction false} StreakIff(log: seq<Observation>)
    ensures StreakOf(log).count >= 2 <==> exists t :: RecentFailures(log, t) >= 2
  {
    if StreakOf(log).count >= 2 {
      StreakMeaning(log, StreakOf(log).tool);
      assert RecentFailures(log, StreakOf(log).tool) >= 2;
    }
    if t :| RecentFailures(log, t) >= 2 {
      StreakMeaning(log, t);
    }
  }

  lemma FailedRoundsThree(rounds: seq<seq<Observation>>)
    ensures FailedRounds(rounds) >= 3 <==> ThreeFailedRounds(rounds)
  {
    var n := FailedRounds(rounds);
    assert n < |rounds| ==> !AllFailed(rounds[|rounds| - n - 1]);
  }

  /** A result has failed with an error, or when its text starts like an HTTP error or holds the retry hint. */
  lemma FailedIff(err: Option<string>, content: string, t: string)
    requires Strips(content, t)
    ensures IsFailedToolResult(err, content) <==>
            || err != None || (|t| >= 6 && (t[..6] == "HTTP 4" || t[..6] == "HTTP 5"))
            || Occurs("[Analyze the error above and try a different approach.]", t)
  {
    StripsOnly(content, t);
    ContainsIff(t, RETRY_HINT);
    assert t[..if |t| >= 6 then 6 else |t|] == if |t| >= 6 then t[..6] else t;
  }

  // ----- identical-call loops

  /**
   * What makes two calls the same: name, arguments and trimmed result. The hashes of arguments and
   * result stand for the texts themselves (sha256 is treated as injective, and as never all zero).
   */
  datatype Signature = Signature(name: string, args: string, result: string)

  function Sig(call: ToolCall, result: string): Signature {
    Signature(call.name, call.args, TrimSpace(result))
  }

  /** Two calls count as the same exactly when name and arguments agree, and the results but for their ends' white space. */
  lemma SameSigIff(a: ToolCall, x: string, b: ToolCall, y: string)
    ensures Sig(a, x) == Sig(b, y) <==> a.name == b.name && a.args == b.args && exists t :: Strips(x, t) && Strips(y, t)
  {
    TrimStrips(x);
    TrimStrips(y);
    if t :| Strips(x, t) && Strips(y, t) {
      StripsOnly(x, t);
      StripsOnly(y, t);
    }
  }

  /** Length of the run of equal elements at the end of s. */
  function Run(s: seq<Signature>): (n: nat)
    ensures n <= |s| && (s != [] ==> n >= 1)
  {
    if |s| <= 1 then |s|
    else if s[|s| - 1] == s[|s| - 2] then Run(s[..|s| - 1]) + 1
    else 1
  }

  /** Run is the longest suffix of equal elements, and nothing else is. */
  lemma {:induction false} RunMeaning(s: seq<Signature>, n: nat)
    requires s != [] && 1 <= n <= |s|
    ensures n == Run(s) <==>
            && (forall k :: |s| - n <= k < |s| ==> s[k] == s[|s| - 1])
            && (n < |s| ==> s[|s| - n - 1] != s[|s| - 1])
  {
    if |s| > 1 && s[|s| - 1] == s[|s| - 2] {
      var t := s[..|s| - 1];
      if n > 1 {
        RunMeaning(t, n - 1);
        if forall k :: |s| - n <= k < |s| ==> s[k] == s[|s| - 1] {
          assert forall k :: |t| - (n - 1) <= k < |t| ==> t[k] == s[k];
        }
        if n - 1 == Run(t) {
          assert forall k :: |s| - n <= k < |s| - 1 ==> s[k] == t[k];
        }
      }
    }
  }

  predicate LastThreeSame(s: seq<Signature>) {
    |s| >= 3 && s[|s| - 1] == s[|s| - 2] == s[|s| - 3]
  }

  lemma {:induction false} RunOfThree(s: seq<Signature>)
    ensures Run(s) >= 3 <==> LastThreeSame(s)
  {
    if |s| > 1 && s[|s| - 1] == s[|s| - 2] {
      var t := s[..|s| - 1];
      assert Run(t) >= 2 <==> |t| > 1 && t[|t| - 1] == t[|t| - 2];
    }
  }

  class ToolLoopDetector {
    // None is the zero signature of a fresh detector.
    var last: Option<Signature>
    var consecutive: nat
    // What was observed since the last reset.
    ghost var seen: seq<Signature>

    ghost predicate Valid()
      reads this
    {
      && consecutive == Run(seen)
      && last == if seen == [] then None else Some(seen[|seen| - 1])
    }

    constructor ()
      ensures Valid() && seen == []
    {
      last, consecutive, seen := None, 0, [];
    }

    method Observe(call: ToolCall, result: string) returns (detected: bool)
      requires Valid()
      modifies this
      ensures Valid() && seen == old(seen) + [Sig(call, result)]
      ensures detected <==> Run(seen) >= LOOP_THRESHOLD
      ensures detected <==> LastThreeSame(seen)
    {
      var sig := Sig(call, result);
      if last == Some(sig) {
        consecutive := consecutive + 1;
      } else {
        consecutive := 1;
        last := Some(sig);
      }
      assert (seen + [sig])[..|seen|] == seen;
      seen := seen + [sig];
      RunOfThree(seen);
      detected := consecutive >= LOOP_THRESHOLD;
      assert consecutive == Run(seen);
    }

    method Reset()
      modifies this
      ensures Valid() && seen == []
    {
      last, consecutive, seen := None, 0, [];
    }
  }

  function Sigs(round: seq<Observation>): seq<Signature> {
    seq(|round|, j requires 0 <= j < |round| => Sig(round[j].call, round[j].result))
  }

  function FlatSigs(rounds: seq<seq<Observation>>): seq<Signature> {
    if rounds == [] then [] else FlatSigs(rounds[..|rounds| - 1]) + Sigs(rounds[|rounds| - 1])
  }

  /** Some result of round completes a run of LOOP_THRESHOLD, counting from the signatures before. */
  predicate LoopsIn(before: seq<Signature>, round: seq<Signature>) {
    exists j :: 1 <= j <= |round| && Run(before + round[..j]) >= LOOP_THRESHOLD
  }

  /** Round r repeats itself, counting calls from round from on. */
  predicate Detected(rounds: seq<seq<Observation>>, from: nat, r: nat)
    requires from <= r < |rounds|
  {
    LoopsIn(FlatSigs(rounds[from..r]), Sigs(rounds[r]))
  }

  ghost predicate NoLoop(rounds: seq<seq<Observation>>) {
    forall r :: 0 <= r < |rounds| ==> !Detected(rounds, 0, r)
  }

  /** Exactly one loop so far: round from - 1 was the first to repeat, and none did since. */
  ghost predicate WarnedOnce(rounds: seq<seq<Observation>>, from: nat) {
    && 1 <= from <= |rounds| && NoLoop(rounds[..from - 1]) && Detected(rounds, 0, from - 1)
    && (forall r :: from <= r < |rounds| ==> !Detected(rounds, from, r))
  }

  /** The last round repeats itself again after an earlier loop that was warned about. */
  ghost predicate LoopStop(rounds: seq<seq<Observation>>) {
    rounds != [] && exists from :: StoppedAfter(rounds, from)
  }

  ghost predicate StoppedAfter(rounds: seq<seq<Observation>>, from: nat)
    requires rounds != []
  {
    from < |rounds| && WarnedOnce(rounds[..|rounds| - 1], from) && Detected(rounds, from, |rounds| - 1)
  }

  // Appending a round leaves every earlier verdict as it was.
  lemma DetectedStable(rounds: seq<seq<Observation>>, more: seq<seq<Observation>>, from: nat, r: nat)
    requires from <= r < |rounds|
    ensures Detected(rounds + more, from, r) == Detected(rounds, from, r)
  {
    assert (rounds + more)[from..r] == rounds[from..r];
  }
}
