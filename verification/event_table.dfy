/**
 * The hub's lossless queues under publications that overlap: registering and unregistering wait for all
 * of them, but the pushes of two publications may fall in any order.
 */
module EventTable {
  import opened EventHub

  type QueueId = nat

  /** A publication under way: the queues it has still to push to, the first of them perhaps not signalled yet. */
  datatype Publication<E> = Publication(key: string, e: E, left: seq<QueueId>, sending: bool)

  datatype State<E> = State(table: Table<QueueId>, queues: seq<QueueState<E>>, running: seq<Publication<E>>,
                            home: map<QueueId, string>, log: Table<E>, since: map<QueueId, nat>)

  datatype Step<E> =
    | Register(key: string)
    | Unregister(key: string, i: nat)
    | Begin(key: string, e: E)
    | Advance(p: nat)
    | Wake(q: QueueId)
    | TakeAll(q: QueueId)

  function Empty<E>(): State<E> {
    State(map[], [], [], map[], map[], map[])
  }

  /** The table changes only while nothing is being published. */
  predicate CanRun<E>(s: State<E>, step: Step<E>) {
    match step
    case Register(_) => s.running == []
    case Unregister(key, i) => s.running == [] && i < |ListOf(s.table, key)|
    case Begin(_, _) => true
    case Advance(p) => p < |s.running| && forall i :: 0 <= i < |s.running[p].left| ==> s.running[p].left[i] < |s.queues|
    case Wake(q) => q < |s.queues|
    case TakeAll(q) => q < |s.queues|
  }

  /** The next lock-held block or channel operation of one publication; the last one ends it. */
  function Advanced<E>(s: State<E>, p: nat): State<E>
    requires CanRun(s, Advance(p))
  {
    var r := s.running[p];
    if r.left == [] then s.(running := Without(s.running, p))
    else
      var q := r.left[0];
      if r.sending then
        s.(queues := s.queues[q := Next(s.queues[q], SendToken)],
           running := s.running[p := r.(left := r.left[1..], sending := false)])
      else
        s.(queues := s.queues[q := Next(s.queues[q], AppendItem(r.e))], running := s.running[p := r.(sending := true)])
  }

  /** Steps that cannot run do nothing. */
  function After<E>(s: State<E>, step: Step<E>): State<E> {
    if !CanRun(s, step) then s
    else
      match step
      case Register(key) =>
        var q := |s.queues|;
        s.(table := Subscribed(s.table, key, q), queues := s.queues + [Fresh()], home := s.home[q := key],
           since := s.since[q := |ListOf(s.log, key)|])
      case Unregister(key, i) => s.(table := Unsubscribed(s.table, key, i))
      case Begin(key, e) =>
        s.(running := s.running + [Publication(key, e, ListOf(s.table, key), false)],
           log := s.log[key := ListOf(s.log, key) + [e]])
      case Advance(p) => Advanced(s, p)
      case Wake(q) => s.(queues := s.queues[q := Next(s.queues[q], ReceiveToken)])
      case TakeAll(q) => s.(queues := s.queues[q := Next(s.queues[q], TakeItems)])
  }

  function RunAll<E>(steps: seq<Step<E>>): State<E> {
    if steps == [] then Empty() else After(RunAll(steps[..|steps| - 1]), steps[|steps| - 1])
  }

  // ----- what publications under way still owe a queue

  function Unsent<E>(r: Publication<E>): seq<QueueId> {
    if r.sending && r.left != [] then r.left[1..] else r.left
  }

  /** The publication has yet to append to q, or (signal) yet to signal what it appended there. */
  predicate Owes<E>(r: Publication<E>, q: QueueId, signal: bool) {
    if signal then r.sending && r.left != [] && r.left[0] == q else q in Unsent(r)
  }

  function Share<E>(r: Publication<E>, q: QueueId, signal: bool): multiset<E> {
    if Owes(r, q, signal) then multiset{r.e} else multiset{}
  }

  function Owed<E>(running: seq<Publication<E>>, q: QueueId, signal: bool): multiset<E> {
    if running == [] then multiset{} else Share(running[0], q, signal) + Owed(running[1..], q, signal)
  }

  lemma Regroup<E>(a: multiset<E>, b: multiset<E>, c: multiset<E>)
    ensures a + (b + c) == (a + b) + c
  {
  }

  lemma OwedFirst<E>(r: Publication<E>, running: seq<Publication<E>>, q: QueueId, signal: bool)
    ensures Owed([r] + running, q, signal) == Share(r, q, signal) + Owed(running, q, signal)
  {
    assert ([r] + running)[1..] == running;
  }

  lemma {:induction false} OwedSplit<E>(running: seq<Publication<E>>, p: nat, q: QueueId, signal: bool)
    requires p < |running|
    ensures Owed(running, q, signal) == Owed(Without(running, p), q, signal) + Share(running[p], q, signal)
  {
    var r, more := running[0], running[1..];
    assert running == [r] + more;
    if p == 0 {
      assert Without(running, p) == more;
    } else {
      var rest := Without(more, p - 1);
      assert Without(running, p) == [r] + rest && more[p - 1] == running[p];
      OwedSplit(more, p - 1, q, signal);
      OwedFirst(r, more, q, signal);
      OwedFirst(r, rest, q, signal);
      Regroup(Share(r, q, signal), Owed(rest, q, signal), Share(running[p], q, signal));
    }
  }

  lemma OwedReplaced<E>(running: seq<Publication<E>>, p: nat, r: Publication<E>, q: QueueId, signal: bool)
    requires p < |running|
    ensures var rest := Owed(Without(running, p), q, signal);
            && Owed(running, q, signal) == rest + Share(running[p], q, signal)
            && Owed(running[p := r], q, signal) == rest + Share(r, q, signal)
  {
    OwedSplit(running, p, q, signal);
    OwedSplit(running[p := r], p, q, signal);
    assert Without(running[p := r], p) == Without(running, p);
  }

  lemma OwedMore<E>(running: seq<Publication<E>>, r: Publication<E>, q: QueueId, signal: bool)
    ensures Owed(running + [r], q, signal) == Owed(running, q, signal) + Share(r, q, signal)
  {
    OwedSplit(running + [r], |running|, q, signal);
    assert Without(running + [r], |running|) == running;
  }

  // ----- what every interleaving keeps

  /** A publication goes to registered queues of its key, each once. */
  predicate Aimed<E>(r: Publication<E>, table: Table<QueueId>) {
    && Distinct(r.left) && (r.sending ==> r.left != [])
    && forall i :: 0 <= i < |r.left| ==> r.left[i] in ListOf(table, r.key)
  }

  /** With what is owed, all of the log from there on. */
  predicate Covers<E(==)>(published: seq<E>, owed: multiset<E>, log: seq<E>, from: nat) {
    from <= |log| && multiset(published) + owed == multiset(log[from..])
  }

  /** The queue got everything published since it came, but for what is still owed to it. */
  predicate GivenAll<E(==)>(s: State<E>, k: string, q: QueueId) {
    && q < |s.queues| && q in s.since
    && Covers(s.queues[q].published, Owed(s.running, q, false), ListOf(s.log, k), s.since[q])
  }

  predicate QueueOk<E(==)>(s: State<E>, q: QueueId)
    requires q < |s.queues|
  {
    Sound(s.queues[q]) && s.queues[q].pushers == |Owed(s.running, q, true)|
  }

  ghost predicate Inv<E>(s: State<E>) {
    && Placed(s.table, s.home) && (forall q :: q in s.home ==> q < |s.queues|)
    && (forall p :: 0 <= p < |s.running| ==> Aimed(s.running[p], s.table))
    && (forall k, i :: k in s.table && 0 <= i < |s.table[k]| ==> GivenAll(s, k, s.table[k][i]))
    && (forall q :: 0 <= q < |s.queues| ==> QueueOk(s, q))
  }

  /** The next operation of a publication on queue q: an append settles what it owed there, a signal the rest. */
  ghost predicate PushMove<E>(r0: Publication<E>, r: Publication<E>, q: QueueId, step: QueueStep<E>) {
    && (forall x, signal :: x != q ==> Share(r, x, signal) == Share(r0, x, signal))
    && (|| (step == AppendItem(r.e) && Share(r0, q, false) == multiset{r.e} && Share(r, q, false) == multiset{}
            && Share(r0, q, true) == multiset{} && Share(r, q, true) == multiset{r.e})
        || (step == SendToken && Share(r0, q, false) == Share(r, q, false)
            && Share(r0, q, true) == multiset{r.e} && Share(r, q, true) == multiset{}))
  }

  function PushedState<E>(s: State<E>, p: nat, r: Publication<E>, q: QueueId, step: QueueStep<E>): State<E>
    requires p < |s.running| && q < |s.queues|
  {
    s.(queues := s.queues[q := Next(s.queues[q], step)], running := s.running[p := r])
  }

  /** As many signals outstanding as there are pushers between append and signal. */
  lemma {:induction false} SignalsCount<E>(s: State<E>, p: nat, r: Publication<E>, q: QueueId, step: QueueStep<E>)
    requires p < |s.running| && q < |s.queues| && s.queues[q].pushers == |Owed(s.running, q, true)|
    requires PushMove(s.running[p], r, q, step)
    ensures Enabled(s.queues[q], step)
    ensures |Owed(s.running[p := r], q, true)| == s.queues[q].pushers + (if step.AppendItem? then 1 else -1)
  {
    var rest := Owed(Without(s.running, p), q, true);
    OwedReplaced(s.running, p, r, q, true);
    assert |rest + multiset{r.e}| == |rest| + 1 && |rest + multiset{}| == |rest|;
  }

  lemma {:induction false} PushSignals<E>(s: State<E>, p: nat, r: Publication<E>, q: QueueId, step: QueueStep<E>, x: QueueId)
    requires p < |s.running| && q < |s.queues| && x < |s.queues| && QueueOk(s, x) && PushMove(s.running[p], r, q, step)
    ensures QueueOk(PushedState(s, p, r, q, step), x)
  {
    if x == q {
      SignalsCount(s, p, r, q, step);
    } else {
      OwedReplaced(s.running, p, r, x, true);
      assert Share(r, x, true) == Share(s.running[p], x, true);
    }
  }

  lemma {:induction false} PushGives<E>(s: State<E>, p: nat, r: Publication<E>, q: QueueId, step: QueueStep<E>,
                                         k: string, x: QueueId)
    requires p < |s.running| && q < |s.queues| && GivenAll(s, k, x) && PushMove(s.running[p], r, q, step)
    requires step.SendToken? || step.AppendItem?
    ensures GivenAll(PushedState(s, p, r, q, step), k, x)
  {
    OwedReplaced(s.running, p, r, x, false);
  }

  lemma {:induction false} PushKeeps<E>(s: State<E>, p: nat, r: Publication<E>, q: QueueId, step: QueueStep<E>)
    requires Inv(s) && p < |s.running| && Aimed(r, s.table) && q < |s.queues|
    requires PushMove(s.running[p], r, q, step)
    ensures Inv(PushedState(s, p, r, q, step))
  {
    forall x | 0 <= x < |s.queues|
      ensures QueueOk(PushedState(s, p, r, q, step), x)
    {
      PushSignals(s, p, r, q, step, x);
    }
    forall k, i | k in s.table && 0 <= i < |s.table[k]|
      ensures GivenAll(PushedState(s, p, r, q, step), k, s.table[k][i])
    {
      PushGives(s, p, r, q, step, k, s.table[k][i]);
    }
  }

  /** A publication that owes nothing ends. */
  lemma {:induction false} EndKeeps<E>(s: State<E>, p: nat)
    requires Inv(s) && CanRun(s, Advance(p)) && s.running[p].left == []
    ensures Inv(Advanced(s, p))
  {
    var s' := Advanced(s, p);
    forall x | 0 <= x < |s.queues|
      ensures QueueOk(s', x)
    {
      assert QueueOk(s, x);
      OwedSplit(s.running, p, x, true);
    }
    forall k, i | k in s.table && 0 <= i < |s.table[k]|
      ensures GivenAll(s', k, s.table[k][i])
    {
      assert GivenAll(s, k, s.table[k][i]);
      OwedSplit(s.running, p, s.table[k][i], false);
    }
  }

  lemma AppendMove<E>(r: Publication<E>)
    requires Distinct(r.left) && r.left != [] && !r.sending
    ensures PushMove(r, r.(sending := true), r.left[0], AppendItem(r.e))
  {
    assert r.left == [r.left[0]] + r.left[1..];
    assert r.left[0] !in r.left[1..];
  }

  lemma SignalMove<E>(r: Publication<E>)
    requires Distinct(r.left) && r.left != [] && r.sending
    ensures PushMove(r, r.(left := r.left[1..], sending := false), r.left[0], SendToken)
  {
  }

  lemma {:induction false} AdvanceKeeps<E>(s: State<E>, p: nat)
    requires Inv(s) && CanRun(s, Advance(p))
    ensures Inv(Advanced(s, p))
  {
    var r := s.running[p];
    assert Aimed(r, s.table);
    if r.left == [] {
      EndKeeps(s, p);
    } else if r.sending {
      SignalMove(r);
      PushKeeps(s, p, r.(left := r.left[1..], sending := false), r.left[0], SendToken);
    } else {
      AppendMove(r);
      PushKeeps(s, p, r.(sending := true), r.left[0], AppendItem(r.e));
    }
  }

  lemma {:induction false} BeginSignals<E>(s: State<E>, key: string, e: E, x: QueueId)
    requires x < |s.queues| && QueueOk(s, x)
    ensures QueueOk(After(s, Begin(key, e)), x)
  {
    OwedMore(s.running, Publication(key, e, ListOf(s.table, key), false), x, true);
  }

  lemma CoversMore<E>(published: seq<E>, owed: multiset<E>, log: seq<E>, from: nat, e: E)
    requires Covers(published, owed, log, from)
    ensures Covers(published, owed + multiset{e}, log + [e], from)
  {
    assert (log + [e])[from..] == log[from..] + [e];
    Regroup(multiset(published), owed, multiset{e});
  }

  lemma BeginOwes<E>(running: seq<Publication<E>>, r: Publication<E>, q: QueueId)
    requires !r.sending
    ensures var owed := Owed(running, q, false);
            Owed(running + [r], q, false) == if q in r.left then owed + multiset{r.e} else owed
  {
    OwedMore(running, r, q, false);
  }

  lemma {:induction false} BeginGives<E>(s: State<E>, key: string, e: E, k: string, q: QueueId)
    requires GivenAll(s, k, q) && (q in ListOf(s.table, key) <==> k == key)
    ensures GivenAll(After(s, Begin(key, e)), k, q)
  {
    BeginOwes(s.running, Publication(key, e, ListOf(s.table, key), false), q);
    if k == key {
      CoversMore(s.queues[q].published, Owed(s.running, q, false), ListOf(s.log, k), s.since[q], e);
    }
  }

  lemma {:induction false} BeginKeeps<E>(s: State<E>, key: string, e: E)
    requires Inv(s)
    ensures Inv(After(s, Begin(key, e)))
  {
    var s' := After(s, Begin(key, e));
    forall x | 0 <= x < |s'.queues|
      ensures QueueOk(s', x)
    {
      BeginSignals(s, key, e, x);
    }
    forall k, i | k in s'.table && 0 <= i < |s'.table[k]|
      ensures GivenAll(s', k, s'.table[k][i])
    {
      ListedAtHome(s.table, s.home, k, i, key);
      BeginGives(s, key, e, k, s.table[k][i]);
    }
  }

  lemma {:induction false} ReadKeeps<E>(s: State<E>, q: QueueId, step: QueueStep<E>)
    requires Inv(s) && q < |s.queues| && (step.ReceiveToken? || step.TakeItems?)
    ensures Inv(s.(queues := s.queues[q := Next(s.queues[q], step)]))
  {
    var s' := s.(queues := s.queues[q := Next(s.queues[q], step)]);
    forall x | 0 <= x < |s'.queues|
      ensures QueueOk(s', x)
    {
      assert QueueOk(s, x);
    }
    forall k, i | k in s'.table && 0 <= i < |s'.table[k]|
      ensures GivenAll(s', k, s'.table[k][i])
    {
      assert GivenAll(s, k, s.table[k][i]);
    }
  }

  lemma {:induction false} RegisterKeeps<E>(s: State<E>, key: string)
    requires Inv(s) && s.running == []
    ensures Inv(After(s, Register(key)))
  {
    var s', q := After(s, Register(key)), |s.queues|;
    SubscribedPlaced(s.table, s.home, key, q);
    forall x | 0 <= x < |s'.queues|
      ensures QueueOk(s', x)
    {
      if x < q {
        assert QueueOk(s, x);
      }
    }
    forall k, i | k in s'.table && 0 <= i < |s'.table[k]|
      ensures GivenAll(s', k, s'.table[k][i])
    {
      if k in s.table && i < |s.table[k]| {
        assert GivenAll(s, k, s.table[k][i]);
      }
    }
  }

  lemma {:induction false} UnregisterKeeps<E>(s: State<E>, key: string, i: nat)
    requires Inv(s) && CanRun(s, Unregister(key, i))
    ensures Inv(After(s, Unregister(key, i)))
  {
    var s' := After(s, Unregister(key, i));
    UnsubscribedPlaced(s.table, s.home, key, i);
    forall x | 0 <= x < |s'.queues|
      ensures QueueOk(s', x)
    {
      assert QueueOk(s, x);
    }
    forall k, j | k in s'.table && 0 <= j < |s'.table[k]|
      ensures GivenAll(s', k, s'.table[k][j])
    {
      var q := s'.table[k][j];
      var l :| 0 <= l < |ListOf(s.table, k)| && ListOf(s.table, k)[l] == q;
      assert GivenAll(s, k, s.table[k][l]);
    }
  }

  lemma {:induction false} StepKeeps<E>(s: State<E>, step: Step<E>)
    requires Inv(s)
    ensures Inv(After(s, step))
  {
    if CanRun(s, step) {
      match step
      case Register(key) => RegisterKeeps(s, key);
      case Unregister(key, i) => UnregisterKeeps(s, key, i);
      case Begin(key, e) => BeginKeeps(s, key, e);
      case Advance(p) => AdvanceKeeps(s, p);
      case Wake(q) => ReadKeeps(s, q, ReceiveToken);
      case TakeAll(q) => ReadKeeps(s, q, TakeItems);
    }
  }

  lemma {:induction false} RunKeeps<E>(steps: seq<Step<E>>)
    ensures Inv(RunAll(steps))
  {
    if steps != [] {
      RunKeeps(steps[..|steps| - 1]);
      StepKeeps(RunAll(steps[..|steps| - 1]), steps[|steps| - 1]);
    }
  }

  /** What a registered queue's reader has after its next wake-up and Take. */
  function ReadOut<E>(q: QueueState<E>): seq<E> {
    Next(if q.woken then q else Next(q, ReceiveToken), TakeItems).taken
  }

  /**
   * However publications overlap, once none is under way a registered queue's reader gets each event
   * published under its key since the registration, each as often as it was published.
   */
  lemma {:induction false} EachReaderGetsAll<E>(steps: seq<Step<E>>, k: string, i: nat)
    requires var s := RunAll(steps); s.running == [] && i < |ListOf(s.table, k)|
    ensures var s := RunAll(steps);
            var q := ListOf(s.table, k)[i];
            && q < |s.queues| && q in s.since && s.since[q] <= |ListOf(s.log, k)|
            && ReadOut(s.queues[q]) == s.queues[q].published
            && multiset(s.queues[q].published) == multiset(ListOf(s.log, k)[s.since[q]..])
  {
    var s := RunAll(steps);
    RunKeeps(steps);
    var q := ListOf(s.table, k)[i];
    assert GivenAll(s, k, s.table[k][i]);
    assert QueueOk(s, q);
    assert s.queues[q].taken + [] == s.queues[q].taken;
  }

  // ----- two publications at once

  ghost predicate Reached<E(!new)>(s: State<E>) {
    exists steps :: RunAll(steps) == s
  }

  lemma Onward<E(!new)>(s: State<E>, step: Step<E>)
    requires Reached(s)
    ensures Reached(After(s, step))
  {
    var steps :| RunAll(steps) == s;
    assert (steps + [step])[..|steps|] == steps;
    assert RunAll(steps + [step]) == After(s, step);
  }

  /** A publication's push to its next queue, nothing else in between. */
  lemma Pushes<E(!new)>(s: State<E>, p: nat) returns (n: State<E>)
    requires Reached(s) && p < |s.running| && s.running[p].left != [] && !s.running[p].sending && CanRun(s, Advance(p))
    ensures var r := s.running[p];
            && Reached(n) && n.table == s.table && n.running == s.running[p := r.(left := r.left[1..])]
            && n.queues == s.queues[r.left[0] := Pushed(s.queues[r.left[0]], r.e)]
  {
    Onward(s, Advance(p));
    n := After(s, Advance(p));
    Onward(n, Advance(p));
    n := After(n, Advance(p));
  }

  lemma BothSubscribe() returns (s: State<int>)
    ensures Reached(s) && ListOf(s.table, "k") == [0, 1] && s.queues == [Fresh(), Fresh()] && s.running == []
  {
    assert RunAll<int>([]) == Empty();
    Onward<int>(Empty(), Register("k"));
    s := After<int>(Empty(), Register("k"));
    assert ListOf(s.table, "k") == [0];
    Onward(s, Register("k"));
    s := After(s, Register("k"));
  }

  lemma Begins(s: State<int>, e: int) returns (n: State<int>)
    requires Reached(s)
    ensures Reached(n) && n.table == s.table && n.queues == s.queues
    ensures n.running == s.running + [Publication("k", e, ListOf(s.table, "k"), false)]
  {
    Onward(s, Begin("k", e));
    n := After(s, Begin("k", e));
  }

  /** Both have begun, and each has pushed to the first queue. */
  lemma BothPushFirst() returns (s: State<int>)
    ensures Reached(s) && ListOf(s.table, "k") == [0, 1] && |s.queues| == 2 && s.queues[1] == Fresh()
    ensures s.queues[0].published == [1, 2]
    ensures s.running == [Publication("k", 1, [1], false), Publication("k", 2, [1], false)]
  {
    s := BothSubscribe();
    s := Begins(s, 1);
    s := Begins(s, 2);
    s := Pushes(s, 0);
    s := Pushes(s, 1);
  }

  /** Two queues of one key may be given the same two events in opposite orders. */
  lemma OrdersMayDiffer() returns (s: State<int>)
    ensures Reached(s) && ListOf(s.table, "k") == [0, 1] && |s.queues| == 2
    ensures s.queues[0].published == [1, 2] && s.queues[1].published == [2, 1]
  {
    s := BothPushFirst();
    s := Pushes(s, 1);
    s := Pushes(s, 0);
  }
}
