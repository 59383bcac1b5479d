/**
 * A machine link: matching responses to the requests that wait for them, closing the link, and the
 * hub's table of live links.
 */
module AglLink {
  import opened Wrappers

  // ----- one link: requests in flight

  /** What is sent on a request's channel: a response message with the id it carried, or the close. */
  datatype Answer = Reply(id: nat, body: string) | Offline

  datatype Outcome = Got(answer: Answer) | LinkClosed | Expired

  datatype Pc = Sending | Waiting | Leaving(outcome: Outcome) | Returned(outcome: Outcome)

  /** A request: its id, what its one-place channel holds, how many sends the channel took, and where it stands. */
  datatype Slot = Slot(id: nat, channel: seq<Answer>, sends: nat, pc: Pc)

  const CAPACITY := 1

  /** The read loop has taken slot `slot` out of the table and is about to send it `answer`. */
  datatype Holding = Holding(slot: nat, answer: Answer)

  datatype Link = Link(
    closed: bool, drained: bool, slots: seq<Slot>, pending: map<nat, nat>, reader: Option<Holding>, read: seq<Answer>)

  datatype Step =
    | Register(id: nat)
    | Sent(slot: nat)
    | Receive(slot: nat)
    | Leave(slot: nat, expired: bool)
    | Deregister(slot: nat)
    | Read(id: nat, body: string)
    | Hand
    | Close
    | DrainAll

  function Push(s: Slot, a: Answer): Slot {
    s.(channel := s.channel + [a], sends := s.sends + 1)
  }

  /** Of the requests in the table, those whose ids are in `ids` have been sent the close. */
  function Swept(slots: seq<Slot>, table: map<nat, nat>, ids: set<nat>): seq<Slot> {
    seq(|slots|, i requires 0 <= i < |slots| =>
      if slots[i].id in ids && slots[i].id in table && table[slots[i].id] == i then Push(slots[i], Offline) else slots[i])
  }

  /** Every request still in the table is sent the close, and leaves the table. */
  function Drained(l: Link): Link {
    l.(pending := map[], drained := true, slots := Swept(l.slots, l.pending, l.pending.Keys))
  }

  function SetPc(l: Link, i: nat, pc: Pc): Link
    requires i < |l.slots|
  {
    l.(slots := l.slots[i := l.slots[i].(pc := pc)])
  }

  predicate UsedId(l: Link, id: nat) {
    exists i :: 0 <= i < |l.slots| && l.slots[i].id == id
  }

  function RequestStep(l: Link, step: Step): Link {
    match step
    case Register(id) =>
      if UsedId(l, id) then l
      else l.(slots := l.slots + [Slot(id, [], 0, Sending)], pending := l.pending[id := |l.slots|])
    case Sent(i) => if i < |l.slots| && l.slots[i].pc.Sending? then SetPc(l, i, Waiting) else l
    case Receive(i) =>
      if i < |l.slots| && l.slots[i].pc.Waiting? && l.slots[i].channel != [] then
        var s := l.slots[i];
        l.(slots := l.slots[i := s.(channel := s.channel[1..], pc := Leaving(Got(s.channel[0])))])
      else l
    case Leave(i, expired) =>
      if i < |l.slots| && (l.slots[i].pc.Sending? || l.slots[i].pc.Waiting?) && (expired || l.closed)
      then SetPc(l, i, Leaving(if expired then Expired else LinkClosed))
      else l
    case Deregister(i) =>
      if i < |l.slots| && l.slots[i].pc.Leaving?
      then SetPc(l, i, Returned(l.slots[i].pc.outcome)).(pending := l.pending - {l.slots[i].id})
      else l
    case _ => l
  }

  /** The read loop and close. A send on a full channel blocks: the step then does nothing. */
  function LinkStep(l: Link, step: Step): Link {
    match step
    case Read(id, body) =>
      if l.reader.Some? then l
      else
        var seen := l.(read := l.read + [Reply(id, body)]);
        if id in l.pending
        then seen.(reader := Some(Holding(l.pending[id], Reply(id, body))), pending := l.pending - {id})
        else seen
    case Hand =>
      if l.reader.Some? && !ReaderBlocks(l) && l.reader.value.slot < |l.slots| then
        var i := l.reader.value.slot;
        l.(slots := l.slots[i := Push(l.slots[i], l.reader.value.answer)], reader := None)
      else l
    case Close => l.(closed := true)
    case DrainAll => if l.closed && !l.drained && !CloseBlocks(l) then Drained(l) else l
    case _ => l
  }

  predicate ReaderBlocks(l: Link) {
    && l.reader.Some? && l.reader.value.slot < |l.slots|
    && |l.slots[l.reader.value.slot].channel| >= CAPACITY
  }

  predicate CloseBlocks(l: Link) {
    exists i :: 0 <= i < |l.slots| && InTable(l, i) && |l.slots[i].channel| >= CAPACITY
  }

  predicate InTable(l: Link, i: nat)
    requires i < |l.slots|
  {
    l.slots[i].id in l.pending && l.pending[l.slots[i].id] == i
  }

  function Next(l: Link, step: Step): Link {
    if step.Read? || step.Hand? || step.Close? || step.DrainAll? then LinkStep(l, step) else RequestStep(l, step)
  }

  function Run(l: Link, steps: seq<Step>): Link
    decreases |steps|
  {
    if steps == [] then l else Run(Next(l, steps[0]), steps[1..])
  }

  const FRESH := Link(false, false, [], map[], None, [])

  // ----- what holds in every reachable state

  /** An answer is a response that was read with this request's own id, or the close of a closed link. */
  predicate Meant(l: Link, id: nat, a: Answer) {
    match a
    case Reply(other, _) => other == id && a in l.read
    case Offline => l.closed
  }

  predicate OutcomeOk(l: Link, id: nat, o: Outcome) {
    match o
    case Got(a) => Meant(l, id, a)
    case LinkClosed => l.closed
    case Expired => true
  }

  predicate SlotOk(l: Link, s: Slot) {
    && |s.channel| <= s.sends <= 1
    && (s.channel != [] ==> Meant(l, s.id, s.channel[0]))
    && (s.pc.Leaving? || s.pc.Returned? ==> OutcomeOk(l, s.id, s.pc.outcome))
  }

  predicate SlotsOk(l: Link) {
    forall i :: 0 <= i < |l.slots| ==> SlotOk(l, l.slots[i])
  }

  predicate IdsUnique(l: Link) {
    forall i, j :: 0 <= i < j < |l.slots| ==> l.slots[i].id != l.slots[j].id
  }

  predicate TableOk(l: Link) {
    forall id :: id in l.pending ==> l.pending[id] < |l.slots| && l.slots[l.pending[id]].id == id && l.slots[l.pending[id]].sends == 0
  }

  predicate ReaderOk(l: Link) {
    l.reader.Some? ==>
      && l.reader.value.slot < |l.slots|
      && var s := l.slots[l.reader.value.slot];
         s.sends == 0 && s.id !in l.pending && l.reader.value.answer.Reply? && Meant(l, s.id, l.reader.value.answer)
  }

  predicate Inv(l: Link) {
    SlotsOk(l) && IdsUnique(l) && TableOk(l) && ReaderOk(l)
  }

  lemma RequestKeepsSlots(l: Link, step: Step)
    requires Inv(l)
    ensures SlotsOk(RequestStep(l, step)) && IdsUnique(RequestStep(l, step))
  {
  }

  lemma RequestKeepsTable(l: Link, step: Step)
    requires Inv(l)
    ensures TableOk(RequestStep(l, step))
  {
  }

  lemma RequestKeepsReader(l: Link, step: Step)
    requires Inv(l)
    ensures ReaderOk(RequestStep(l, step))
  {
  }

  lemma ReadKeeps(l: Link, step: Step)
    requires Inv(l) && (step.Read? || step.Close?)
    ensures Inv(LinkStep(l, step))
  {
    var n := LinkStep(l, step);
    forall i | 0 <= i < |n.slots|
      ensures SlotOk(n, n.slots[i])
    {
      assert SlotOk(l, l.slots[i]);
    }
    if step.Read? && l.reader.None? {
      assert n.read[|n.read| - 1] == Reply(step.id, step.body);
    }
  }

  lemma HandKeeps(l: Link)
    requires Inv(l)
    ensures Inv(LinkStep(l, Hand))
  {
  }

  lemma DrainKeeps(l: Link)
    requires Inv(l) && l.closed
    ensures Inv(Drained(l))
  {
    var n := Drained(l);
    forall i | 0 <= i < |n.slots|
      ensures SlotOk(n, n.slots[i])
    {
      assert SlotOk(l, l.slots[i]);
    }
    assert IdsUnique(n);
  }

  lemma InvNext(l: Link, step: Step)
    requires Inv(l)
    ensures Inv(Next(l, step))
  {
    match step
    case Hand => HandKeeps(l);
    case DrainAll => if l.closed { DrainKeeps(l); }
    case Read(_, _) => ReadKeeps(l, step);
    case Close => ReadKeeps(l, step);
    case _ =>
      RequestKeepsSlots(l, step);
      RequestKeepsTable(l, step);
      RequestKeepsReader(l, step);
  }

  lemma {:induction false} InvRun(l: Link, steps: seq<Step>)
    requires Inv(l)
    ensures Inv(Run(l, steps))
    decreases |steps|
  {
    if steps != [] {
      InvNext(l, steps[0]);
      InvRun(Next(l, steps[0]), steps[1..]);
    }
  }

  /** Each request's channel takes at most one send, so neither the read loop nor close ever blocks on one. */
  lemma {:induction false} NobodyBlocks(steps: seq<Step>)
    ensures var l := Run(FRESH, steps);
            && !ReaderBlocks(l) && !CloseBlocks(l)
            && forall i :: 0 <= i < |l.slots| ==> l.slots[i].sends <= 1
  {
    InvRun(FRESH, steps);
  }

  /** What a request returns is a response the machine sent with that request's own id, or the end of the link. */
  lemma {:induction false} OwnAnswerOnly(steps: seq<Step>, i: nat)
    requires var l := Run(FRESH, steps); i < |l.slots| && l.slots[i].pc.Returned?
    ensures var l := Run(FRESH, steps);
            match l.slots[i].pc.outcome
            case Got(Reply(id, body)) => id == l.slots[i].id && Reply(id, body) in l.read
            case Got(Offline) => l.closed
            case LinkClosed => l.closed
            case Expired => true
  {
    InvRun(FRESH, steps);
    assert SlotOk(Run(FRESH, steps), Run(FRESH, steps).slots[i]);
  }

  /**
   * A response reaches its request: read while the request waits for it, it is handed over, and the request
   * returns it by its own next steps and takes its entry along.
   */
  lemma {:induction false} ReplyIsReturned(steps: seq<Step>, i: nat, body: string)
    requires var l := Run(FRESH, steps); i < |l.slots| && l.slots[i].pc.Waiting? && InTable(l, i) && l.reader.None?
    ensures var l := Run(FRESH, steps);
            var id := l.slots[i].id;
            var n := Next(Next(Next(Next(l, Read(id, body)), Hand), Receive(i)), Deregister(i));
            n.slots[i].pc == Returned(Got(Reply(id, body))) && id !in n.pending
  {
    InvRun(FRESH, steps);
    var l := Run(FRESH, steps);
    var id := l.slots[i].id;
    assert SlotOk(l, l.slots[i]) && l.slots[i].sends == 0;
    var a := Next(l, Read(id, body));
    assert a.reader == Some(Holding(i, Reply(id, body))) && !ReaderBlocks(a);
    var b := Next(a, Hand);
    assert b.slots[i].channel == [Reply(id, body)];
  }

  /** Closing tells every request that still waits in the table, and empties it. */
  lemma ClosedIsTold(l: Link, i: nat)
    requires l.closed && !l.drained && !CloseBlocks(l) && i < |l.slots|
    ensures var n := Next(l, DrainAll);
            && n.pending == map[] && n.drained && |n.slots| == |l.slots|
            && n.slots[i].channel == l.slots[i].channel + (if InTable(l, i) then [Offline] else [])
  {
    assert l.slots[i].channel + [] == l.slots[i].channel;
  }

  predicate ReturnedNow(l: Link, i: nat) {
    i < |l.slots| && l.slots[i].pc.Returned?
  }

  /**
   * Once the link has closed, whether close has swept the table yet or not, each request that has not
   * returned can do so by its own next steps, also one registered after the sweep, and takes its entry along.
   */
  lemma {:induction false} ClosedLetsGo(steps: seq<Step>, i: nat)
    requires var l := Run(FRESH, steps); l.closed && i < |l.slots|
    ensures var l := Next(Next(Run(FRESH, steps), Leave(i, false)), Deregister(i));
            ReturnedNow(l, i) && (Run(FRESH, steps).slots[i].pc.Returned? || l.slots[i].id !in l.pending)
  {
    InvRun(FRESH, steps);
  }

  lemma {:induction false} RunSplit(l: Link, steps: seq<Step>, more: seq<Step>)
    ensures Run(l, steps + more) == Run(Run(l, steps), more)
    decreases |steps|
  {
    if steps == [] {
      assert steps + more == more;
    } else {
      assert (steps + more)[1..] == steps[1..] + more;
      RunSplit(Next(l, steps[0]), steps[1..], more);
    }
  }

  lemma {:induction false} OutcomeStays(l: Link, steps: seq<Step>, i: nat)
    requires ReturnedNow(l, i)
    ensures ReturnedNow(Run(l, steps), i) && Run(l, steps).slots[i].pc == l.slots[i].pc
    decreases |steps|
  {
    if steps != [] {
      OutcomeNext(l, steps[0], i);
      OutcomeStays(Next(l, steps[0]), steps[1..], i);
    }
  }

  lemma OutcomeNext(l: Link, step: Step, i: nat)
    requires ReturnedNow(l, i)
    ensures ReturnedNow(Next(l, step), i) && Next(l, step).slots[i].pc == l.slots[i].pc
  {
  }

  /** A late response, read after its request has returned, reaches nobody. */
  lemma {:induction false} LateReplyIgnored(steps: seq<Step>, more: seq<Step>, i: nat)
    requires ReturnedNow(Run(FRESH, steps), i)
    ensures ReturnedNow(Run(FRESH, steps + more), i)
    ensures Run(FRESH, steps + more).slots[i].pc == Run(FRESH, steps).slots[i].pc
  {
    RunSplit(FRESH, steps, more);
    OutcomeStays(Run(FRESH, steps), more, i);
  }

  predicate ReadyToSweep(slots: seq<Slot>, table: map<nat, nat>) {
    && (forall id :: id in table ==> table[id] < |slots| && slots[table[id]].id == id && slots[table[id]].channel == [])
    && forall i, j :: 0 <= i < j < |slots| ==> slots[i].id != slots[j].id
  }

  lemma SweepOne(slots: seq<Slot>, table: map<nat, nat>, ids: set<nat>, id: nat)
    requires ReadyToSweep(slots, table) && id in table && id !in ids
    ensures var i := table[id]; var s := Swept(slots, table, ids);
            s[i] == slots[i] && Swept(slots, table, ids + {id}) == s[i := Push(s[i], Offline)]
  {
    var i := table[id];
    assert forall j :: 0 <= j < |slots| && j != i ==> slots[j].id != id;
  }

  /** The link as close finds it: the table and the channels. */
  class Conn {
    var closed: bool
    var pending: map<nat, nat>
    var slots: seq<Slot>

    constructor ()
      ensures !closed && pending == map[] && slots == []
    {
      closed, pending, slots := false, map[], [];
    }

    /** The body of the once: each send finds room, and what it leaves is the drained link. */
    method Shut()
      requires ReadyToSweep(slots, pending)
      modifies this
      ensures closed
      ensures var l := Drained(Link(true, false, old(slots), old(pending), None, []));
              pending == l.pending && slots == l.slots
    {
      closed := true;
      ghost var done: set<nat> := {};
      assert slots == Swept(slots, pending, {});
      while pending != map[]
        invariant closed
        invariant done <= old(pending).Keys
        invariant pending == old(pending) - done
        invariant slots == Swept(old(slots), old(pending), done)
        decreases old(pending).Keys - done
      {
        var id :| id in pending;
        var i := pending[id];
        SweepOne(old(slots), old(pending), done, id);
        assert |slots[i].channel| < CAPACITY;
        slots := slots[i := Push(slots[i], Offline)];
        pending := pending - {id};
        done := done + {id};
      }
      assert forall id :: id in old(pending) && id !in done ==> id in pending;
      assert done == old(pending).Keys;
    }
  }

  lemma {:induction false} ReachableIsReady(steps: seq<Step>)
    ensures ReadyToSweep(Run(FRESH, steps).slots, Run(FRESH, steps).pending)
  {
    InvRun(FRESH, steps);
    var l := Run(FRESH, steps);
    forall id | id in l.pending
      ensures l.slots[l.pending[id]].channel == []
    {
      assert SlotOk(l, l.slots[l.pending[id]]);
    }
  }

  // ----- the hub's table of live links

  /** What has happened to the table: a link registered for a machine, a link's goroutine ended, a machine was cut off. */
  datatype Happening = Served(machine: string, link: nat) | Ended(machine: string, link: nat) | CutOff(machine: string)

  type Conns = map<string, nat>

  function Apply(t: Conns, h: Happening): Conns {
    match h
    case Served(m, c) => t[m := c]
    case Ended(m, c) => if m in t && t[m] == c then t - {m} else t
    case CutOff(m) => t - {m}
  }

  function After(log: seq<Happening>): Conns {
    if log == [] then map[] else Apply(After(log[..|log| - 1]), log[|log| - 1])
  }

  /** Link c of machine m was registered at step i, and nothing since has replaced, ended or cut it off. */
  predicate LiveSince(log: seq<Happening>, m: string, c: nat, i: nat) {
    && i < |log| && log[i] == Served(m, c)
    && forall j :: i < j < |log| ==> log[j].machine != m || (log[j].Ended? && log[j].link != c)
  }

  lemma {:induction false} OnlineSound(log: seq<Happening>, m: string) returns (i: nat)
    requires m in After(log)
    ensures LiveSince(log, m, After(log)[m], i)
  {
    var last := log[|log| - 1];
    var before := log[..|log| - 1];
    if last.Served? && last.machine == m {
      i := |log| - 1;
    } else {
      i := OnlineSound(before, m);
      assert forall j :: 0 <= j < |before| ==> before[j] == log[j];
    }
  }

  lemma {:induction false} OnlineComplete(log: seq<Happening>, m: string, c: nat, i: nat)
    requires LiveSince(log, m, c, i)
    ensures m in After(log) && After(log)[m] == c
  {
    var before := log[..|log| - 1];
    if i < |log| - 1 {
      assert LiveSince(before, m, c, i);
      OnlineComplete(before, m, c, i);
    }
  }

  /**
   * The table holds link c for machine m exactly when c is the last link registered for m and neither
   * its own end nor a cut-off has come since: the late end of a replaced link never removes its successor.
   */
  lemma {:induction false} OnlineIff(log: seq<Happening>, m: string, c: nat)
    ensures (m in After(log) && After(log)[m] == c) <==> exists i :: LiveSince(log, m, c, i)
  {
    if m in After(log) && After(log)[m] == c {
      var i := OnlineSound(log, m);
    }
    if i :| LiveSince(log, m, c, i) {
      OnlineComplete(log, m, c, i);
    }
  }

  class Hub {
    var conns: Conns
    ghost var log: seq<Happening>

    ghost predicate Valid()
      reads this
    {
      conns == After(log)
    }

    constructor ()
      ensures Valid() && log == []
    {
      conns, log := map[], [];
    }

    ghost method Note(h: Happening)
      modifies `log
      ensures log == old(log) + [h] && After(log) == Apply(After(old(log)), h)
    {
      log := log + [h];
      assert log[..|log| - 1] == old(log);
    }

    method Serve(m: string, c: nat) returns (replaced: Option<nat>)
      requires Valid()
      modifies this
      ensures Valid() && log == old(log) + [Served(m, c)]
      ensures replaced == if m in old(conns) then Some(old(conns)[m]) else None
    {
      replaced := if m in conns then Some(conns[m]) else None;
      conns := conns[m := c];
      Note(Served(m, c));
    }

    method Exit(m: string, c: nat)
      requires Valid()
      modifies this
      ensures Valid() && log == old(log) + [Ended(m, c)]
    {
      if m in conns && conns[m] == c {
        conns := conns - {m};
      }
      Note(Ended(m, c));
    }

    method Disconnect(m: string) returns (cut: Option<nat>)
      requires Valid()
      modifies this
      ensures Valid() && log == old(log) + [CutOff(m)]
      ensures cut == if m in old(conns) then Some(old(conns)[m]) else None
    {
      cut := if m in conns then Some(conns[m]) else None;
      conns := conns - {m};
      Note(CutOff(m));
    }

    /** What Online answers, told from the history alone. */
    method Online(m: string) returns (online: bool)
      requires Valid()
      ensures online <==> exists c, i :: LiveSince(log, m, c, i)
    {
      online := m in conns;
      if online {
        OnlineIff(log, m, conns[m]);
      }
      ghost var l := log;
      forall c: nat, i: nat | LiveSince(l, m, c, i)
        ensures m in conns
      {
        OnlineIff(l, m, c);
      }
    }
  }
}
