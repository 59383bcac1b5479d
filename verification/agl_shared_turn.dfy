/**
 * A run of the bridge in which two chats answer one turn: a session's name leaves out the channel and
 * the account, so a chat of the same agent can adopt the turn that another one waits for.
 */
module AglSharedTurn {
  import opened Wrappers
  import opened AglTales
  import opened AglChat
  import opened AglStream
  import Answers = AglAnswers
  import Allows = AglAllows
  import B = AglBridge

  const HELLO := Allows.Message("m2", "hello")
  const YES := Allows.Message("m2", "2")
  const SEEN := Allows.SEEN
  const ALL := SEEN + [TurnEnded("t0", Completed)]

  ghost predicate Reached(s: B.State) {
    exists steps :: B.Run(B.EMPTY, steps) == s
  }

  lemma {:induction false} RunSplit(s: B.State, a: seq<B.Step>, b: seq<B.Step>)
    ensures B.Run(s, a + b) == B.Run(B.Run(s, a), b)
    decreases |a|
  {
    if a == [] {
      assert a + b == b;
    } else {
      assert (a + b)[1..] == a[1..] + b;
      RunSplit(B.Next(s, a[0]), a[1..], b);
    }
  }

  lemma Onward(s: B.State, step: B.Step)
    requires Reached(s)
    ensures Reached(B.Next(s, step))
  {
    var steps :| B.Run(B.EMPTY, steps) == s;
    RunSplit(B.EMPTY, steps, [step]);
    assert [step][1..] == [];
    assert B.Run(B.EMPTY, steps + [step]) == B.Next(s, step);
  }

  /** Chat i takes a step of its own; the other chats' records stay. */
  lemma Talks(s: B.State, i: nat, step: Step) returns (n: B.State)
    requires Reached(s) && i < |s.chats.boxes| && B.Takes(s.chats.boxes[i], s.issued, step)
    ensures Reached(n) && n == B.Next(s, B.Talk(i, step)) && |n.chats.boxes| == |s.chats.boxes|
    ensures n.chats.boxes[i] == B.Talked(s.chats.boxes[i], s.shared, step)
    ensures n.shared == B.SharedOf(Next(B.With(s.chats.boxes[i].world, s.shared), step))
    ensures forall k :: 0 <= k < |s.chats.boxes| && k != i ==> n.chats.boxes[k] == s.chats.boxes[k]
    ensures n.issued == s.issued + B.IssuedIn(step) && n.chats.table == s.chats.table
  {
    Onward(s, B.Talk(i, step));
    n := B.Next(s, B.Talk(i, step));
  }

  /** A message comes in for a new chat, and its worker takes it. */
  lemma Arrives(s: B.State, key: string, m: Inbound) returns (n: B.State)
    requires Reached(s) && key !in s.chats.table
    ensures Reached(n) && n.shared == s.shared && n.issued == s.issued && |n.chats.boxes| == |s.chats.boxes| + 1
    ensures n.chats.boxes[..|s.chats.boxes|] == s.chats.boxes && n.chats.table == s.chats.table[key := |s.chats.boxes|]
    ensures var b := n.chats.boxes[|s.chats.boxes|]; b.world == EMPTY && b.worker == B.Busy(m, None, false)
  {
    Onward(s, B.Handle(key, m));
    n := B.Next(s, B.Handle(key, m));
    var i := |s.chats.boxes|;
    assert n.chats.boxes[i].inbox == [] + [m];
    Onward(n, B.Take(i));
    n := B.Next(n, B.Take(i));
  }

  predicate Waiting(w: World, pos: nat, watch: Watch) {
    && w.chat == Chat("m2", "s", false, true, {"t0"}, None, Some(0), 3)
    && w.collectors == [Collector(3, Allows.P2, pos, watch, true, false, Looping)]
    && w.answers == []
  }

  lemma FirstEnters() returns (s: B.State)
    ensures Reached(s) && |s.chats.boxes| == 1 && s.shared == B.EMPTY.shared && s.chats.table == map["a" := 0]
    ensures var b := s.chats.boxes[0];
            && b.world == Next(EMPTY, Enter(HELLO, Allows.MACHINES)) && b.worker == B.Busy(HELLO, Some(Allows.MACHINES), false)
    ensures s.issued == {}
  {
    assert B.Run(B.EMPTY, []) == B.EMPTY;
    s := Arrives(B.EMPTY, "a", HELLO);
    Allows.Enters(EMPTY, "m2");
    assert B.With(EMPTY, s.shared) == EMPTY;
    s := Talks(s, 0, Enter(HELLO, Allows.MACHINES));
  }

  /** The first chat prompts its session. */
  lemma FirstOpens() returns (s: B.State)
    ensures Reached(s) && |s.chats.boxes| == 1 && s.shared == B.EMPTY.shared && s.chats.table == map["a" := 0]
    ensures Waiting(s.chats.boxes[0].world, 0, Watch(false, ""))
  {
    s := FirstEnters();
    Allows.Enters(EMPTY, "m2");
    assert B.With(s.chats.boxes[0].world, s.shared) == s.chats.boxes[0].world;
    var open := Open("s", false, "t0", 0);
    assert NothingSent(s.shared.env);
    s := Talks(s, 0, open);
  }

  predicate NothingSent(env: Env) {
    env == EMPTY.env && Log(env, Allows.P2) == []
  }

  /** The machine sends an event of the session. */
  lemma Sends(s: B.State, e: Event, before: seq<Event>) returns (n: B.State)
    requires Reached(s) && |s.chats.boxes| > 0
    requires Log(s.shared.env, Allows.P2) == before && MayEmit(s.shared.env, Allows.P2, e)
    ensures Reached(n) && Log(n.shared.env, Allows.P2) == before + [e]
    ensures n.shared == s.shared.(env := Emit(s.shared.env, Allows.P2, e)) && n.chats.table == s.chats.table
    ensures |n.chats.boxes| == |s.chats.boxes|
    ensures forall k :: 0 <= k < |s.chats.boxes| ==> B.With(n.chats.boxes[k].world, n.shared) == B.With(s.chats.boxes[k].world, n.shared)
  {
    n := Talks(s, 0, Emits(Allows.P2, e));
    Answers.LogEmits(s.shared.env, Allows.P2, e);
  }

  lemma SeenTold()
    ensures TaleAt(ALL, 0).turn == "" && TaleAt(ALL, 1).turn == "t0" && TaleAt(ALL, 2).turn == "t0"
    ensures TaleAt(SEEN[..1], 1).turn == "t0" && TaleAt(SEEN, 2).turn == "t0" && TaleAt([], 0).turn == ""
  {
    TaleExtends(SEEN[..1], ALL, 1);
    TaleExtends(SEEN, ALL, 2);
  }

  lemma TurnRuns() returns (s: B.State)
    ensures Reached(s) && |s.chats.boxes| == 1 && s.chats.table == map["a" := 0] && Log(s.shared.env, Allows.P2) == SEEN
    ensures Waiting(s.chats.boxes[0].world, 0, Watch(false, ""))
  {
    SeenTold();
    s := FirstOpens();
    assert Log(s.shared.env, Allows.P2) == [];
    s := Sends(s, SEEN[0], []);
    assert [] + [SEEN[0]] == SEEN[..1];
    s := Sends(s, SEEN[1], SEEN[..1]);
    assert SEEN[..1] + [SEEN[1]] == SEEN;
  }

  const WINDOW := [Envelope("s", SEEN[0]), Envelope("s", SEEN[1])]

  /** The second chat's worker, alone: asked nothing itself, it finds the open request and takes over its turn. */
  lemma EntersBound(w: World) returns (v: World)
    requires w == B.With(EMPTY, B.SharedOf(w))
    ensures v == Next(w, Enter(YES, Allows.MACHINES)) && SharedSame(w, v)
    ensures v == w.(chat := Chat("m2", "", false, false, {}, None, None, 1))
  {
    Allows.SeenScan();
    v := Next(w, Enter(YES, Allows.MACHINES));
  }

  lemma Recovers(w: World) returns (v: World)
    requires w.chat == Chat("m2", "", false, false, {}, None, None, 1) && w.worker.Ready? && Log(w.env, Allows.P2) == SEEN
    ensures v == Next(w, Recover(YES, Allows.MACHINES, WINDOW)) && SharedSame(w, v)
    ensures v == w.(worker := Recovering(Allows.P2, Recovered("s", "t0", "r0", ""), 2, AllowSession, Permit(YES, Allows.MACHINES)))
  {
    Allows.SeenScan();
    assert Shows(WINDOW, Log(w.env, Allows.P2));
    v := Next(w, Recover(YES, Allows.MACHINES, WINDOW));
  }

  lemma Adopts(w: World) returns (v: World)
    requires w.chat == Chat("m2", "", false, false, {}, None, None, 1) && w.collectors == [] && w.answers == []
    requires Log(w.env, Allows.P2) == SEEN
    requires w.worker == Recovering(Allows.P2, Recovered("s", "t0", "r0", ""), 2, AllowSession, Permit(YES, Allows.MACHINES))
    ensures v == Next(w, Adopt(2)) && SharedSame(w, v) && Waiting(v, 2, Watch(true, ""))
  {
    v := Next(w, Adopt(2));
  }

  predicate TwoChats(s: B.State) {
    |s.chats.boxes| == 2 && Log(s.shared.env, Allows.P2) == SEEN && Waiting(s.chats.boxes[0].world, 0, Watch(false, ""))
  }

  lemma SecondEnters() returns (s: B.State)
    ensures Reached(s) && TwoChats(s)
    ensures var b := s.chats.boxes[1];
            && b.world == B.With(EMPTY, s.shared).(chat := Chat("m2", "", false, false, {}, None, None, 1))
            && b.worker == B.Busy(YES, Some(Allows.MACHINES), false)
  {
    s := TurnRuns();
    s := Arrives(s, "b", YES);
    var v := EntersBound(B.With(EMPTY, s.shared));
    s := Talks(s, 1, Enter(YES, Allows.MACHINES));
    assert s.chats.boxes[1].world == v;
  }

  /** The second chat adopts the turn the first one waits for. */
  lemma SecondAdopts() returns (s: B.State)
    ensures Reached(s) && TwoChats(s) && Waiting(s.chats.boxes[1].world, 2, Watch(true, ""))
  {
    s := SecondEnters();
    var r := Recovers(B.With(s.chats.boxes[1].world, s.shared));
    s := Talks(s, 1, Recover(YES, Allows.MACHINES, WINDOW));
    assert s.chats.boxes[1].world == r && B.With(r, s.shared) == r;
    var v := Adopts(r);
    s := Talks(s, 1, Adopt(2));
    assert s.chats.boxes[1].world == v;
  }

  /** The collector of one waiting chat has read n events. */
  lemma FirstReads(w: World) returns (v: World)
    requires Waiting(w, 0, Watch(false, "")) && Log(w.env, Allows.P2) == ALL
    ensures v == Next(Next(Next(w, Deliver(0)), Deliver(0)), AnswerRequest(0, false))
    ensures v.collectors == [Collector(3, Allows.P2, 2, Watch(true, ""), true, false, Looping)]
    ensures v.chat.gen == 3 && v.chat.outstanding == {"t0"} && v.answers == [] && v.env == w.env
    ensures SharedSame(w, v)
  {
    v := Next(w, Deliver(0));
    assert v == w.(collectors := [Collector(3, Allows.P2, 1, Watch(true, ""), true, false, Looping)]);
    v := Next(v, Deliver(0));
    assert v == w.(collectors := [Collector(3, Allows.P2, 2, Watch(true, ""), true, false, Asking("m2", "r0"))]);
    v := Next(v, AnswerRequest(0, false));
  }

  predicate SharedSame(w: World, v: World) {
    B.SharedOf(v) == B.SharedOf(w)
  }

  /** The turn ends, and the chat that waits for it answers. */
  lemma EndAnswers(w: World)
    requires w.collectors == [Collector(3, Allows.P2, 2, Watch(true, ""), true, false, Looping)]
    requires w.chat.gen == 3 && "t0" in w.chat.outstanding && w.answers == [] && Log(w.env, Allows.P2) == ALL
    ensures |Next(w, Deliver(0)).answers| == 1 && Next(w, Deliver(0)).answers[0].turn == "t0" && SharedSame(w, Next(w, Deliver(0)))
  {
    assert ALL[2] == TurnEnded("t0", Completed);
  }

  /** The first chat's collector reads the start and the request, which it shows, and then the end. */
  lemma FirstAnswers(s: B.State) returns (n: B.State)
    requires Reached(s) && |s.chats.boxes| == 2 && Log(s.shared.env, Allows.P2) == ALL
    requires Waiting(B.With(s.chats.boxes[0].world, s.shared), 0, Watch(false, ""))
    ensures Reached(n) && |n.chats.boxes| == 2 && n.shared == s.shared && n.chats.boxes[1] == s.chats.boxes[1]
    ensures B.Answered(n.chats.boxes[0], "t0")
  {
    var w := B.With(s.chats.boxes[0].world, s.shared);
    var one := Next(w, Deliver(0));
    var two := Next(one, Deliver(0));
    var read := FirstReads(w);
    n := Talks(s, 0, Deliver(0));
    assert B.With(n.chats.boxes[0].world, n.shared) == one;
    n := Talks(n, 0, Deliver(0));
    assert B.With(n.chats.boxes[0].world, n.shared) == two;
    n := Talks(n, 0, AnswerRequest(0, false));
    assert B.With(n.chats.boxes[0].world, n.shared) == read;
    EndAnswers(read);
    n := Talks(n, 0, Deliver(0));
  }

  lemma SecondAnswers(s: B.State) returns (n: B.State)
    requires Reached(s) && |s.chats.boxes| == 2 && Log(s.shared.env, Allows.P2) == ALL
    requires Waiting(B.With(s.chats.boxes[1].world, s.shared), 2, Watch(true, ""))
    ensures Reached(n) && |n.chats.boxes| == 2 && n.chats.boxes[0] == s.chats.boxes[0]
    ensures B.Answered(n.chats.boxes[1], "t0")
  {
    EndAnswers(B.With(s.chats.boxes[1].world, s.shared));
    n := Talks(s, 1, Deliver(0));
  }

  /** Two chats answer one turn: the one that prompted it, and the one that adopted it. */
  lemma BothAnswer()
    ensures exists s :: Reached(s) && |s.chats.boxes| == 2
                        && B.Answered(s.chats.boxes[0], "t0") && B.Answered(s.chats.boxes[1], "t0")
  {
    SeenTold();
    var s := SecondAdopts();
    var e := Sends(s, TurnEnded("t0", Completed), SEEN);
    assert Waiting(B.With(e.chats.boxes[0].world, e.shared), 0, Watch(false, ""));
    assert Waiting(B.With(e.chats.boxes[1].world, e.shared), 2, Watch(true, ""));
    var f := FirstAnswers(e);
    var n := SecondAnswers(f);
    assert B.Answered(n.chats.boxes[0], "t0");
  }
}
