/** The lifecycle of an Agent Communication Protocol 0.2 run under concurrent cancels. */
module AcpRun {
  datatype Status = Created | InProgress | Cancelling | Cancelled | Completed | Failed

  predicate Terminal(s: Status) {
    s.Cancelled? || s.Completed? || s.Failed?
  }

  datatype Event =
    | RunCreated | RunInProgress
    | MessageCreated | MessagePart(part: string) | MessageCompleted(parts: seq<string>)
    | RunEnded(status: Status)

  /** What acpRunState holds under its lock; `cancel` says whether the cancel function is set. */
  datatype Record = Record(status: Status, output: seq<seq<string>>, events: seq<Event>, cancel: bool)

  function SetCancel(r: Record): (Record, bool) {
    (r.(cancel := true), r.status == Cancelling)
  }

  /** The new record, whether the cancel is accepted, and whether a cancel function is called. */
  function RequestCancel(r: Record): (Record, bool, bool) {
    if r.status == Created || r.status == InProgress then (r.(status := Cancelling), true, r.cancel)
    else (r, false, false)
  }

  function Finish(r: Record, status: Status): Record {
    r.(status := status, cancel := false)
  }

  function AddEvent(r: Record, e: Event): Record {
    r.(events := r.events + [e])
  }

  class AcpRunState {
    var status: Status
    var output: seq<seq<string>>
    var events: seq<Event>
    var cancel: bool

    function View(): Record
      reads this
    {
      Record(status, output, events, cancel)
    }

    constructor ()
      ensures View() == Record(Created, [], [], false)
    {
      status, output, events, cancel := Created, [], [], false;
    }

    method AddEventLocked(e: Event)
      modifies this
      ensures View() == AddEvent(old(View()), e)
    {
      events := events + [e];
    }

    method SetStatusLocked(s: Status)
      modifies this
      ensures View() == old(View()).(status := s)
    {
      status := s;
    }

    method SetOutputLocked(o: seq<seq<string>>)
      modifies this
      ensures View() == old(View()).(output := o)
    {
      output := o;
    }

    method SetCancelLocked() returns (call: bool)
      modifies this
      ensures (View(), call) == SetCancel(old(View()))
      ensures View() == old(View()).(cancel := true) && (call <==> old(status) == Cancelling)
    {
      cancel := true;
      call := status == Cancelling;
    }

    method RequestCancelLocked() returns (accepted: bool, call: bool)
      modifies this
      ensures (View(), accepted, call) == RequestCancel(old(View()))
      ensures accepted <==> old(status) == Created || old(status) == InProgress
      ensures call <==> accepted && old(cancel)
      ensures View() == if accepted then old(View()).(status := Cancelling) else old(View())
    {
      accepted, call := false, false;
      if status == Created || status == InProgress {
        status := Cancelling;
        call := cancel;
        accepted := true;
      }
    }

    method FinishLocked(s: Status)
      modifies this
      ensures View() == Finish(old(View()), s)
    {
      status := s;
      cancel := false;
    }
  }

  // ----- the run's goroutine against any number of cancel requests

  datatype Pc =
    | Starting | CallingBack(call: bool) | FirstCheck
    | EmitCreated | SettingProgress | EmitProgress
    | Streaming | EmitPart(part: string)
    | ErrorCheck(failed: bool) | LastCheck | SettingOutput | EmitCompleted
    | Finishing(end: Status) | EmitEnd | Done

  /**
   * r is shared; the rest belongs to the run's goroutine (pc, parts, early), to the context
   * (ctxDone) and to cancel requests between their lock and their call (calls).
   */
  datatype State = State(
    r: Record, pc: Pc, started: bool, parts: seq<string>, early: bool, ctxDone: bool, calls: nat,
    accepted: bool, acceptedEarly: bool)

  function Start(): State {
    State(Record(Created, [], [], false), Starting, false, [], false, false, 0, false, false)
  }

  // What the environment decides at a step of the run: the next chunk, the end, a stream error.
  datatype Chunk = Content(part: string) | End(failed: bool)

  datatype Step = Execute(chunk: Chunk) | Cancel | CancelCall | ContextEnds

  function ExecuteStep(s: State, chunk: Chunk): State {
    match s.pc
    case Starting =>
      var (r, call) := SetCancel(s.r);
      s.(r := r, pc := CallingBack(call))
    case CallingBack(call) => s.(ctxDone := s.ctxDone || call, pc := FirstCheck)
    case FirstCheck =>
      if s.r.status == Cancelling then s.(pc := Finishing(Cancelled), early := true) else s.(pc := EmitCreated)
    case EmitCreated => s.(r := AddEvent(s.r, RunCreated), pc := SettingProgress)
    case SettingProgress => s.(r := s.r.(status := InProgress), pc := EmitProgress)
    case EmitProgress => s.(r := AddEvent(s.r, RunInProgress), pc := Streaming)
    case Streaming => (
      match chunk
      case End(failed) => s.(pc := ErrorCheck(failed))
      case Content(part) =>
        if part == "" then s
        else
        var r := if s.started then s.r else AddEvent(s.r, MessageCreated);
        s.(r := r, started := true, parts := s.parts + [part], pc := EmitPart(part)))
    case EmitPart(part) => s.(r := AddEvent(s.r, MessagePart(part)), pc := Streaming)
    case ErrorCheck(failed) => s.(pc := if failed && !s.ctxDone then Finishing(Failed) else LastCheck)
    case LastCheck =>
      if s.ctxDone || s.r.status == Cancelling then s.(pc := Finishing(Cancelled))
      else s.(pc := if s.started then SettingOutput else Finishing(Completed))
    case SettingOutput => s.(r := s.r.(output := [s.parts]), pc := EmitCompleted)
    case EmitCompleted => s.(r := AddEvent(s.r, MessageCompleted(s.parts)), pc := Finishing(Completed))
    case Finishing(end) => s.(r := Finish(s.r, end), pc := EmitEnd)
    case EmitEnd => s.(r := AddEvent(s.r, RunEnded(s.r.status)), pc := Done)
    case Done => s
  }

  predicate BeforeFirstCheck(pc: Pc) {
    pc.Starting? || pc.CallingBack? || pc.FirstCheck?
  }

  function Next(s: State, step: Step): State {
    match step
    case Execute(chunk) => ExecuteStep(s, chunk)
    case Cancel =>
      var (r, accepted, call) := RequestCancel(s.r);
      s.(r := r, calls := s.calls + (if call then 1 else 0), accepted := s.accepted || accepted,
         acceptedEarly := s.acceptedEarly || (accepted && BeforeFirstCheck(s.pc)))
    case CancelCall => if s.calls == 0 then s else s.(calls := s.calls - 1, ctxDone := true)
    case ContextEnds => s.(ctxDone := true)
  }

  function RunFrom(s: State, steps: seq<Step>): State
    decreases |steps|
  {
    if steps == [] then s else RunFrom(Next(s, steps[0]), steps[1..])
  }

  function Run(steps: seq<Step>): State {
    RunFrom(Start(), steps)
  }

  function PartEvents(parts: seq<string>): seq<Event> {
    seq(|parts|, i requires 0 <= i < |parts| => MessagePart(parts[i]))
  }

  /** The events of the one message, if it was started. */
  function MessageEvents(started: bool, parts: seq<string>): seq<Event> {
    if started then [MessageCreated] + PartEvents(parts) else []
  }

  /** The event log, told from where the run stands. */
  function ExpectedEvents(s: State): seq<Event> {
    var head := [RunCreated, RunInProgress] + MessageEvents(s.started, s.parts);
    var closed := if s.started then head + [MessageCompleted(s.parts)] else head;
    match s.pc
    case Starting => []
    case CallingBack(_) => []
    case FirstCheck => []
    case EmitCreated => []
    case SettingProgress => [RunCreated]
    case EmitProgress => [RunCreated]
    case EmitPart(_) =>
      [RunCreated, RunInProgress] + (if s.parts == [] then [] else MessageEvents(true, s.parts[..|s.parts| - 1]))
    case Finishing(end) => if s.early then [] else if end == Completed then closed else head
    case EmitEnd => if s.early then [] else if s.r.status == Completed then closed else head
    case Done => (if s.early then [] else if s.r.status == Completed then closed else head) + [RunEnded(s.r.status)]
    case _ => head
  }

  predicate Finished(pc: Pc) {
    pc.EmitEnd? || pc.Done?
  }

  predicate Opening(pc: Pc) {
    BeforeFirstCheck(pc) || pc.EmitCreated? || pc.SettingProgress? || pc.EmitProgress?
  }

  predicate LogInv(s: State) {
    && s.r.events == ExpectedEvents(s)
    && (s.pc.EmitPart? ==> s.started && s.parts != [] && s.parts[|s.parts| - 1] == s.pc.part)
    && (Opening(s.pc) || s.early ==> !s.started)
    && (s.started <==> s.parts != [])
    && (s.early ==> Finished(s.pc) || s.pc == Finishing(Cancelled))
    && (s.pc.SettingOutput? || s.pc.EmitCompleted? ==> s.started)
  }

  predicate FlowInv(s: State) {
    && (s.r.cancel <==> !s.pc.Starting? && !Finished(s.pc))
    && (Terminal(s.r.status) <==> Finished(s.pc))
    && (s.pc.Finishing? ==> Terminal(s.pc.end))
    && (s.early ==> s.pc == Finishing(Cancelled) || (Finished(s.pc) && s.r.status == Cancelled))
    && (s.accepted ==> CancelReaches(s))
    && (s.acceptedEarly ==> EndsCancelled(s))
  }

  /** The output is set exactly when the message has been closed. */
  predicate OutputInv(s: State) {
    && (s.started <==> s.parts != [])
    && (s.pc.EmitCompleted? || s.pc.SettingOutput? ==> s.started)
    && var closed := s.pc.EmitCompleted? || s.pc == Finishing(Completed) || (Finished(s.pc) && s.r.status == Completed);
       s.r.output == if closed && s.started then [s.parts] else []
  }

  predicate Inv(s: State) {
    LogInv(s) && FlowInv(s) && OutputInv(s)
  }

  /** The context is cancelled, or somebody is still due to cancel it. */
  predicate CancelReaches(s: State) {
    || s.ctxDone || s.calls > 0
    || (s.pc.Starting? && s.r.status == Cancelling)
    || (s.pc.CallingBack? && s.pc.call)
  }

  predicate EndsCancelled(s: State) {
    || (BeforeFirstCheck(s.pc) && s.r.status == Cancelling)
    || (s.pc == Finishing(Cancelled) && s.early)
    || (Finished(s.pc) && s.r.status == Cancelled && s.early)
  }

  lemma LogStreams(s: State, chunk: Chunk)
    requires LogInv(s) && s.pc.Streaming?
    ensures LogInv(ExecuteStep(s, chunk))
  {
    var t := ExecuteStep(s, chunk);
    if chunk.Content? && chunk.part != "" {
      assert t.parts[..|t.parts| - 1] == s.parts;
      assert PartEvents([]) == [];
      assert [MessageCreated] + PartEvents([]) == [MessageCreated];
    }
  }

  lemma LogEmitsPart(s: State, chunk: Chunk)
    requires LogInv(s) && s.pc.EmitPart?
    ensures LogInv(ExecuteStep(s, chunk))
  {
    MessageMore(s.parts, s.r.events);
  }

  /** The log of a message with one more part. */
  lemma MessageMore(parts: seq<string>, log: seq<Event>)
    requires parts != [] && log == [RunCreated, RunInProgress] + MessageEvents(true, parts[..|parts| - 1])
    ensures log + [MessagePart(parts[|parts| - 1])] == [RunCreated, RunInProgress] + MessageEvents(true, parts)
  {
    var front := parts[..|parts| - 1];
    assert PartEvents(parts) == PartEvents(front) + [MessagePart(parts[|parts| - 1])];
  }

  lemma LogOpens(s: State, chunk: Chunk)
    requires LogInv(s) && Opening(s.pc)
    ensures LogInv(ExecuteStep(s, chunk))
  {
    assert [RunCreated, RunInProgress] + [] == [RunCreated, RunInProgress];
  }

  lemma LogCloses(s: State, chunk: Chunk)
    requires LogInv(s) && (s.pc.ErrorCheck? || s.pc.LastCheck? || s.pc.SettingOutput? || s.pc.EmitCompleted?)
    ensures LogInv(ExecuteStep(s, chunk))
  {
  }

  lemma LogEnds(s: State, chunk: Chunk)
    requires LogInv(s) && FlowInv(s) && (s.pc.Finishing? || s.pc.EmitEnd? || s.pc.Done?)
    ensures LogInv(ExecuteStep(s, chunk))
  {
  }

  lemma LogNext(s: State, step: Step)
    requires LogInv(s) && FlowInv(s)
    ensures LogInv(Next(s, step))
  {
    if step.Execute? {
      if s.pc.Streaming? {
        LogStreams(s, step.chunk);
      } else if s.pc.EmitPart? {
        LogEmitsPart(s, step.chunk);
      } else if Opening(s.pc) {
        LogOpens(s, step.chunk);
      } else if s.pc.Finishing? || s.pc.EmitEnd? || s.pc.Done? {
        LogEnds(s, step.chunk);
      } else {
        LogCloses(s, step.chunk);
      }
    } else {
      LogOthers(s, step);
    }
  }

  /** Cancels and context ends log nothing. */
  lemma LogOthers(s: State, step: Step)
    requires LogInv(s) && FlowInv(s) && !step.Execute?
    ensures LogInv(Next(s, step))
  {
  }

  predicate FlowKept(s: State, t: State) {
    FlowInv(t) && (Terminal(s.r.status) ==> t.r.status == s.r.status && t.r.output == s.r.output)
  }

  lemma FlowOpens(s: State, chunk: Chunk)
    requires FlowInv(s) && BeforeFirstCheck(s.pc)
    ensures FlowKept(s, ExecuteStep(s, chunk))
  {
  }

  lemma FlowEmits(s: State, chunk: Chunk)
    requires FlowInv(s) && !BeforeFirstCheck(s.pc) && (Opening(s.pc) || s.pc.Streaming? || s.pc.EmitPart?)
    ensures FlowKept(s, ExecuteStep(s, chunk))
  {
  }

  lemma FlowCloses(s: State, chunk: Chunk)
    requires FlowInv(s) && (s.pc.ErrorCheck? || s.pc.LastCheck? || s.pc.SettingOutput? || s.pc.EmitCompleted?)
    ensures FlowKept(s, ExecuteStep(s, chunk))
  {
  }

  lemma FlowEnds(s: State, chunk: Chunk)
    requires FlowInv(s) && (s.pc.Finishing? || Finished(s.pc))
    ensures FlowKept(s, ExecuteStep(s, chunk))
  {
  }

  lemma FlowExecutes(s: State, chunk: Chunk)
    requires FlowInv(s)
    ensures FlowKept(s, ExecuteStep(s, chunk))
  {
    if BeforeFirstCheck(s.pc) {
      FlowOpens(s, chunk);
    } else if s.pc.Finishing? || Finished(s.pc) {
      FlowEnds(s, chunk);
    } else if Opening(s.pc) || s.pc.Streaming? || s.pc.EmitPart? {
      FlowEmits(s, chunk);
    } else {
      FlowCloses(s, chunk);
    }
  }

  lemma FlowNext(s: State, step: Step)
    requires FlowInv(s)
    ensures FlowKept(s, Next(s, step))
  {
    match step
    case Execute(chunk) => FlowExecutes(s, chunk);
    case Cancel =>
    case CancelCall =>
    case ContextEnds =>
  }

  lemma OutputExecutes(s: State, chunk: Chunk)
    requires OutputInv(s) && FlowInv(s)
    ensures OutputInv(ExecuteStep(s, chunk))
  {
    if Opening(s.pc) || s.pc.Streaming? || s.pc.EmitPart? {
      OutputStreams(s, chunk);
    }
  }

  lemma OutputStreams(s: State, chunk: Chunk)
    requires OutputInv(s) && FlowInv(s) && (Opening(s.pc) || s.pc.Streaming? || s.pc.EmitPart?)
    ensures OutputInv(ExecuteStep(s, chunk))
  {
  }

  lemma OutputNext(s: State, step: Step)
    requires OutputInv(s) && FlowInv(s)
    ensures OutputInv(Next(s, step))
  {
    match step
    case Execute(chunk) => OutputExecutes(s, chunk);
    case Cancel =>
    case CancelCall =>
    case ContextEnds =>
  }

  lemma {:induction false} InvFrom(s: State, steps: seq<Step>)
    requires Inv(s)
    ensures Inv(RunFrom(s, steps))
    ensures Terminal(s.r.status) ==> RunFrom(s, steps).r.status == s.r.status && RunFrom(s, steps).r.output == s.r.output
    decreases |steps|
  {
    if steps != [] {
      LogNext(s, steps[0]);
      FlowNext(s, steps[0]);
      OutputNext(s, steps[0]);
      InvFrom(Next(s, steps[0]), steps[1..]);
    }
  }

  lemma RunInv(steps: seq<Step>)
    ensures Inv(Run(steps))
  {
    InvFrom(Start(), steps);
  }

  lemma {:induction false} RunSplit(s: State, steps: seq<Step>, more: seq<Step>)
    ensures RunFrom(s, steps + more) == RunFrom(RunFrom(s, steps), more)
    decreases |steps|
  {
    if steps == [] {
      assert steps + more == more;
    } else {
      assert (steps + more)[1..] == steps[1..] + more;
      RunSplit(Next(s, steps[0]), steps[1..], more);
    }
  }

  /** An accepted cancel always reaches the context, once the calls under way have been made. */
  lemma AcceptedCancelReaches(steps: seq<Step>)
    ensures var s := Run(steps);
            s.accepted && s.calls == 0 && !s.pc.Starting? && !s.pc.CallingBack? ==> s.ctxDone
  {
    RunInv(steps);
  }

  /** A cancel accepted before the run's first check ends the run cancelled, with nothing else logged. */
  lemma EarlyCancelWins(steps: seq<Step>)
    ensures var s := Run(steps);
            s.acceptedEarly && s.pc.Done? ==> s.r.status == Cancelled && s.r.events == [RunEnded(Cancelled)]
  {
    RunInv(steps);
  }

  /** A terminal status and the output under it never change, whatever happens next. */
  lemma TerminalIsFinal(steps: seq<Step>, more: seq<Step>)
    requires Terminal(Run(steps).r.status)
    ensures Run(steps + more).r.status == Run(steps).r.status
    ensures Run(steps + more).r.output == Run(steps).r.output
  {
    RunInv(steps);
    RunSplit(Start(), steps, more);
    InvFrom(Run(steps), more);
  }

  /**
   * A run's whole log: one terminal event, last, naming the status; before it nothing, or the two
   * opening events and at most one message; and a completed run's output is the parts emitted.
   */
  lemma FinishedLog(steps: seq<Step>)
    requires Run(steps).pc.Done?
    ensures var s := Run(steps);
            && Terminal(s.r.status)
            && (s.r.events == [RunEnded(s.r.status)] ||
                s.r.events == [RunCreated, RunInProgress] + MessageEvents(s.started, s.parts)
                              + (if s.r.status == Completed && s.started then [MessageCompleted(s.parts)] else [])
                              + [RunEnded(s.r.status)])
            && (s.r.status == Completed ==> s.r.output == if s.started then [s.parts] else [])
  {
    RunInv(steps);
    var s := Run(steps);
    var head := [RunCreated, RunInProgress] + MessageEvents(s.started, s.parts);
    assert head + [] == head;
  }

  // ----- which check decides how a run ends

  /** The check at which the run's goroutine stands will settle how the run ends. */
  predicate Decisive(s: State) {
    || (s.pc.FirstCheck? && s.r.status == Cancelling)
    || (s.pc.ErrorCheck? && s.pc.failed && !s.ctxDone)
    || s.pc.LastCheck?
  }

  /** The status that check settles on. */
  function Verdict(s: State): Status {
    if s.pc.FirstCheck? then Cancelled
    else if s.pc.ErrorCheck? then Failed
    else if s.ctxDone || s.r.status == Cancelling then Cancelled
    else Completed
  }

  /** The run is bound to end so. */
  predicate BoundTo(s: State, end: Status) {
    || s.pc == Finishing(end)
    || (end == Completed && (s.pc.SettingOutput? || s.pc.EmitCompleted?))
    || (Finished(s.pc) && s.r.status == end)
  }

  lemma BoundExecutes(s: State, chunk: Chunk, end: Status)
    requires FlowInv(s) && BoundTo(s, end)
    ensures BoundTo(ExecuteStep(s, chunk), end)
  {
  }

  lemma BoundNext(s: State, step: Step, end: Status)
    requires FlowInv(s) && BoundTo(s, end)
    ensures BoundTo(Next(s, step), end)
  {
    if step.Execute? {
      BoundExecutes(s, step.chunk, end);
    }
  }

  lemma {:induction false} BoundStays(s: State, steps: seq<Step>, end: Status)
    requires FlowInv(s) && BoundTo(s, end)
    ensures BoundTo(RunFrom(s, steps), end)
    decreases |steps|
  {
    if steps != [] {
      BoundNext(s, steps[0], end);
      FlowNext(s, steps[0]);
      BoundStays(Next(s, steps[0]), steps[1..], end);
    }
  }

  lemma DecisiveBinds(s: State, chunk: Chunk)
    requires Decisive(s)
    ensures BoundTo(ExecuteStep(s, chunk), Verdict(s))
  {
  }

  /**
   * The end of a run, exactly: once its goroutine makes a decisive check, the run ends as that check
   * finds it, whatever is asked or cancelled afterwards. So a run that has accepted a cancel and
   * reaches its last check ends cancelled iff its context has ended or its status still says cancelling.
   */
  lemma {:induction false} CheckDecides(steps: seq<Step>, chunk: Chunk, more: seq<Step>)
    requires Decisive(Run(steps)) && Run(steps + [Execute(chunk)] + more).pc.Done?
    ensures Run(steps + [Execute(chunk)] + more).r.status == Verdict(Run(steps))
    ensures var s := Run(steps);
            s.pc.LastCheck? ==>
              (Run(steps + [Execute(chunk)] + more).r.status == Cancelled <==> s.ctxDone || s.r.status == Cancelling)
  {
    RunInv(steps);
    var s := Run(steps);
    Then(steps, Execute(chunk));
    RunSplit(Start(), steps + [Execute(chunk)], more);
    DecisiveBinds(s, chunk);
    FlowNext(s, Execute(chunk));
    BoundStays(ExecuteStep(s, chunk), more, Verdict(s));
  }

  /** The run's goroutine has made its decisive check within these steps. */
  ghost predicate Decided(steps: seq<Step>) {
    exists k :: 0 <= k < |steps| && steps[k].Execute? && Decisive(Run(steps[..k]))
  }

  predicate PastChecks(pc: Pc) {
    pc.SettingOutput? || pc.EmitCompleted? || pc.Finishing? || Finished(pc)
  }

  lemma PastOnlyByCheck(s: State, step: Step)
    requires FlowInv(s) && PastChecks(Next(s, step).pc)
    ensures PastChecks(s.pc) || (step.Execute? && Decisive(s))
  {
  }

  /** Every run that finishes has made one. */
  lemma {:induction false} FinishedWasDecided(steps: seq<Step>)
    requires PastChecks(Run(steps).pc)
    ensures Decided(steps)
    decreases |steps|
  {
    if steps != [] {
      var k := |steps| - 1;
      var before := steps[..k];
      assert steps == before + [steps[k]];
      Then(before, steps[k]);
      RunInv(before);
      PastOnlyByCheck(Run(before), steps[k]);
      if PastChecks(Run(before).pc) {
        FinishedWasDecided(before);
        var i :| 0 <= i < k && before[i].Execute? && Decisive(Run(before[..i]));
        assert before[..i] == steps[..i];
      }
    }
  }

  /** A finished run's status is the verdict of its decisive check. */
  lemma {:induction false} EndsByVerdict(steps: seq<Step>)
    requires Run(steps).pc.Done?
    ensures exists k :: 0 <= k < |steps| && Decisive(Run(steps[..k])) && Run(steps).r.status == Verdict(Run(steps[..k]))
  {
    FinishedWasDecided(steps);
    var k :| 0 <= k < |steps| && steps[k].Execute? && Decisive(Run(steps[..k]));
    assert steps == steps[..k] + [steps[k]] + steps[k + 1..];
    CheckDecides(steps[..k], steps[k].chunk, steps[k + 1..]);
  }

  // ----- what the stream delivers, and what becomes of it

  /** Step k of the run reads this chunk from the stream. */
  ghost predicate Reads(steps: seq<Step>, k: nat, chunk: Chunk) {
    k < |steps| && steps[k] == Execute(chunk) && Run(steps[..k]).pc.Streaming?
  }

  /** The contents read, in order; empty ones say nothing. */
  ghost function Received(steps: seq<Step>): seq<string> {
    if steps == [] then []
    else
      var k := |steps| - 1;
      Received(steps[..k]) + PartRead(Run(steps[..k]), steps[k])
  }

  /** What one step adds to the parts. */
  function PartRead(s: State, step: Step): seq<string> {
    if step.Execute? && step.chunk.Content? && step.chunk.part != "" && s.pc.Streaming? then [step.chunk.part] else []
  }

  lemma StepReads(s: State, step: Step)
    ensures Next(s, step).parts == s.parts + PartRead(s, step)
  {
    assert s.parts + [] == s.parts;
  }

  lemma LastStep(steps: seq<Step>)
    requires steps != []
    ensures Run(steps) == Next(Run(steps[..|steps| - 1]), steps[|steps| - 1])
  {
    assert steps == steps[..|steps| - 1] + [steps[|steps| - 1]];
    Then(steps[..|steps| - 1], steps[|steps| - 1]);
  }

  lemma {:induction false} PartsReceived(steps: seq<Step>)
    ensures Run(steps).parts == Received(steps)
  {
    if steps != [] {
      var k := |steps| - 1;
      PartsReceived(steps[..k]);
      LastStep(steps);
      StepReads(Run(steps[..k]), steps[k]);
    }
  }

  /** The goroutine takes no step of its own from i on, up to j. */
  predicate Waits(steps: seq<Step>, i: nat, j: nat) {
    forall m :: i <= m < j && m < |steps| ==> !steps[m].Execute?
  }

  /** The last own step has read this end of the stream. */
  ghost predicate JustEnded(steps: seq<Step>, k: nat, failed: bool) {
    Reads(steps, k, End(failed)) && Waits(steps, k + 1, |steps|)
  }

  lemma ExecuteEnds(s: State, chunk: Chunk)
    requires ExecuteStep(s, chunk).pc.ErrorCheck?
    ensures s.pc.Streaming? && chunk == End(ExecuteStep(s, chunk).pc.failed)
  {
    if Opening(s.pc) || s.pc.EmitPart? {
      OpensUnstreamed(s, chunk);
    }
  }

  lemma StepEnds(s: State, step: Step)
    requires Next(s, step).pc.ErrorCheck?
    ensures if step.Execute? then s.pc.Streaming? && step.chunk == End(Next(s, step).pc.failed) else s.pc == Next(s, step).pc
  {
    if step.Execute? {
      ExecuteEnds(s, step.chunk);
    }
  }

  lemma {:induction false} CheckFollowsEnd(steps: seq<Step>) returns (k: nat)
    requires Run(steps).pc.ErrorCheck?
    ensures JustEnded(steps, k, Run(steps).pc.failed)
  {
    var n := |steps| - 1;
    var before := steps[..n];
    LastStep(steps);
    StepEnds(Run(before), steps[n]);
    if steps[n].Execute? {
      k := n;
    } else {
      k := CheckFollowsEnd(before);
      assert before[..k] == steps[..k];
    }
  }

  lemma {:induction false} EndLeadsToCheck(steps: seq<Step>, k: nat, failed: bool)
    requires JustEnded(steps, k, failed)
    ensures Run(steps).pc == ErrorCheck(failed)
  {
    var n := |steps| - 1;
    var before := steps[..n];
    LastStep(steps);
    if k < n {
      assert before[..k] == steps[..k];
      EndLeadsToCheck(before, k, failed);
    }
  }

  /** The stream ended in an error, and the context was alive when the run looked, at its next own step j. */
  ghost predicate FailedStream(steps: seq<Step>, k: nat, j: nat) {
    && k < j < |steps| && Reads(steps, k, End(true)) && Waits(steps, k + 1, j) && steps[j].Execute?
    && !Run(steps[..j]).ctxDone
  }

  lemma {:induction false} FailedStreamFails(steps: seq<Step>, k: nat, j: nat)
    requires Run(steps).pc.Done? && FailedStream(steps, k, j)
    ensures Run(steps).r.status == Failed
  {
    var before := steps[..j];
    assert before[..k] == steps[..k];
    EndLeadsToCheck(before, k, true);
    assert steps == before + [steps[j]] + steps[j + 1..];
    CheckDecides(before, steps[j].chunk, steps[j + 1..]);
  }

  /** A finished run has failed if and only if it read an error from the stream while its context was alive. */
  lemma {:induction false} FailsIffStreamDoes(steps: seq<Step>)
    requires Run(steps).pc.Done?
    ensures Run(steps).r.status == Failed <==> exists k: nat, j: nat :: FailedStream(steps, k, j)
  {
    if k: nat, j: nat :| FailedStream(steps, k, j) {
      FailedStreamFails(steps, k, j);
    }
    if Run(steps).r.status == Failed {
      FinishedWasDecided(steps);
      var j :| 0 <= j < |steps| && steps[j].Execute? && Decisive(Run(steps[..j]));
      assert steps == steps[..j] + [steps[j]] + steps[j + 1..];
      CheckDecides(steps[..j], steps[j].chunk, steps[j + 1..]);
      var k := CheckFollowsEnd(steps[..j]);
      assert steps[..j][..k] == steps[..k];
      assert FailedStream(steps, k, j);
    }
  }

  predicate Streamed(pc: Pc) {
    pc.ErrorCheck? || pc.LastCheck? || PastChecks(pc)
  }

  lemma EndRead(s: State, chunk: Chunk)
    requires Streamed(ExecuteStep(s, chunk).pc) && !ExecuteStep(s, chunk).early
    ensures !s.early && (Streamed(s.pc) || (s.pc.Streaming? && chunk.End?))
  {
    if Opening(s.pc) || s.pc.EmitPart? {
      OpensUnstreamed(s, chunk);
    }
  }

  lemma OpensUnstreamed(s: State, chunk: Chunk)
    requires Opening(s.pc) || s.pc.EmitPart?
    ensures var n := ExecuteStep(s, chunk); !n.pc.ErrorCheck? && (n.early || n.pc.Streaming? || Opening(n.pc))
  {
  }

  lemma StepStreamed(s: State, step: Step)
    requires Streamed(Next(s, step).pc) && !Next(s, step).early
    ensures !s.early && (Streamed(s.pc) || (step.Execute? && s.pc.Streaming? && step.chunk.End?))
  {
    if step.Execute? {
      EndRead(s, step.chunk);
    }
  }

  lemma {:induction false} StreamedToEnd(steps: seq<Step>)
    requires Streamed(Run(steps).pc) && !Run(steps).early
    ensures exists k: nat, failed :: Reads(steps, k, End(failed))
    decreases |steps|
  {
    var n := |steps| - 1;
    var before := steps[..n];
    LastStep(steps);
    StepStreamed(Run(before), steps[n]);
    if Streamed(Run(before).pc) {
      StreamedToEnd(before);
      var k: nat, failed :| Reads(before, k, End(failed));
      assert before[..k] == steps[..k];
      assert Reads(steps, k, End(failed));
    } else {
      assert Reads(steps, n, End(steps[n].chunk.failed));
    }
  }

  /**
   * What a finished run makes of its stream. One that got past its first check has read the stream to its
   * end; every part read is logged, in order, in one message; and a completed run's output is that message.
   */
  lemma {:induction false} StreamIsRelayed(steps: seq<Step>)
    requires Run(steps).pc.Done?
    ensures var s, parts := Run(steps), Received(steps);
            || (s.r.status == Cancelled && s.r.events == [RunEnded(Cancelled)] && parts == [] && s.r.output == [])
            || ((exists k: nat, failed :: Reads(steps, k, End(failed)))
                && [RunCreated, RunInProgress] + (if parts == [] then [] else [MessageCreated] + PartEvents(parts)) <= s.r.events
                && s.r.output == (if s.r.status == Completed && parts != [] then [parts] else []))
  {
    RunInv(steps);
    PartsReceived(steps);
    if !Run(steps).early {
      StreamedToEnd(steps);
    }
    FinishedLog(steps);
  }

  predicate BeforeLastCheck(pc: Pc) {
    Opening(pc) || pc.Streaming? || pc.EmitPart? || pc.ErrorCheck? || pc.LastCheck?
  }

  /** The context has ended in time, or the run is bound to end cancelled. */
  predicate EndsInTime(s: State) {
    (s.ctxDone && BeforeLastCheck(s.pc)) || BoundTo(s, Cancelled)
  }

  lemma InTimeNext(s: State, step: Step)
    requires FlowInv(s) && EndsInTime(s)
    ensures EndsInTime(Next(s, step))
  {
    if BoundTo(s, Cancelled) {
      BoundNext(s, step, Cancelled);
    }
  }

  lemma {:induction false} InTimeStays(s: State, steps: seq<Step>)
    requires FlowInv(s) && EndsInTime(s)
    ensures EndsInTime(RunFrom(s, steps))
    decreases |steps|
  {
    if steps != [] {
      InTimeNext(s, steps[0]);
      FlowNext(s, steps[0]);
      InTimeStays(Next(s, steps[0]), steps[1..]);
    }
  }

  /** A run whose context ends, by a cancel or otherwise, before its last check has passed ends cancelled. */
  lemma CancelInTimeWins(steps: seq<Step>, more: seq<Step>)
    requires Run(steps).ctxDone && BeforeLastCheck(Run(steps).pc)
    ensures Run(steps + more).pc.Done? ==> Run(steps + more).r.status == Cancelled
  {
    RunInv(steps);
    RunSplit(Start(), steps, more);
    InTimeStays(Run(steps), more);
  }

  // ----- two ways to lose an accepted cancel

  /** n steps of the goroutine in a run without content. */
  function Quick(n: nat): seq<Step> {
    seq(n, i => Execute(End(false)))
  }

  function Executed(s: State, n: nat): State {
    if n == 0 then s else ExecuteStep(Executed(s, n - 1), End(false))
  }

  lemma {:induction false} QuickRun(steps: seq<Step>, n: nat)
    ensures Run(steps + Quick(n)) == Executed(Run(steps), n)
  {
    if n == 0 {
      assert steps + Quick(0) == steps;
    } else {
      QuickRun(steps, n - 1);
      assert steps + Quick(n) == steps + Quick(n - 1) + [Execute(End(false))];
      Then(steps + Quick(n - 1), Execute(End(false)));
    }
  }

  /** Nothing emitted, the context alive, the goroutine at pc. */
  predicate At(s: State, pc: Pc, status: Status, accepted: bool) {
    s.pc == pc && s.r.status == status && s.accepted == accepted && !s.ctxDone && !s.started
  }

  predicate AcceptedButCompleted(s: State) {
    s.accepted && s.pc.Done? && s.r.status == Completed
  }

  lemma {:induction false} QuickOpens(s: State)
    requires s == Start()
    ensures At(Executed(s, 4), SettingProgress, Created, false) && Executed(s, 4).r.cancel
  {
    assert At(Executed(s, 1), CallingBack(false), Created, false);
    assert At(Executed(s, 2), FirstCheck, Created, false);
    assert At(Executed(s, 3), EmitCreated, Created, false);
  }

  /** Writing that the run is in progress replaces the status, whatever it was; then nothing stops it. */
  lemma {:induction false} QuickPasses(s: State, status: Status, accepted: bool)
    requires At(s, SettingProgress, status, accepted)
    ensures At(Executed(s, 5), Finishing(Completed), InProgress, accepted)
  {
    assert At(Executed(s, 1), EmitProgress, InProgress, accepted);
    assert At(Executed(s, 2), Streaming, InProgress, accepted);
    assert At(Executed(s, 3), ErrorCheck(false), InProgress, accepted);
    assert At(Executed(s, 4), LastCheck, InProgress, accepted);
  }

  lemma {:induction false} QuickEnds(s: State)
    requires s.pc == Finishing(Completed) && s.accepted
    ensures AcceptedButCompleted(Executed(s, 2))
  {
    assert Executed(s, 0) == s;
    var t := Executed(s, 1);
    assert t.pc.EmitEnd? && t.r.status == Completed && t.accepted;
  }

  /** A run that has not been asked to cancel, about to write that it is in progress. */
  lemma {:induction false} AboutToProgress()
    ensures At(Run(Quick(4)), SettingProgress, Created, false) && Run(Quick(4)).r.cancel
  {
    QuickRun([], 4);
    assert [] + Quick(4) == Quick(4);
    QuickOpens(Start());
  }

  /**
   * A run past its decisive check still accepts a cancel, as long as it has not finished; and then ends as
   * that check found it, whatever comes: completed, with its output yet to be set or its message to be
   * closed or not, or failed.
   */
  lemma {:induction false} LateCancelLoses(steps: seq<Step>, end: Status, more: seq<Step>)
    requires BoundTo(Run(steps), end) && !Finished(Run(steps).pc) && Run(steps).r.status == InProgress
    ensures Run(steps + [Cancel]).accepted
    ensures Run(steps + [Cancel] + more).pc.Done? ==>
              Run(steps + [Cancel] + more).r.status == end && Run(steps + [Cancel] + more).accepted
  {
    RunInv(steps);
    Then(steps, Cancel);
    BoundNext(Run(steps), Cancel, end);
    FlowNext(Run(steps), Cancel);
    RunSplit(Start(), steps + [Cancel], more);
    BoundStays(Run(steps + [Cancel]), more, end);
    AcceptedStays(Run(steps + [Cancel]), more);
  }

  lemma {:induction false} AcceptedStays(s: State, steps: seq<Step>)
    requires s.accepted
    ensures RunFrom(s, steps).accepted
    decreases |steps|
  {
    if steps != [] {
      AcceptedStays(Next(s, steps[0]), steps[1..]);
    }
  }

  /** A run about to finish completed that can still be asked to cancel, and is. */
  lemma {:induction false} LateCancelRuns()
    ensures AcceptedButCompleted(Run(Quick(4) + Quick(5) + [Cancel] + Quick(2)))
  {
    AboutToProgress();
    QuickRun(Quick(4), 5);
    QuickPasses(Run(Quick(4)), Created, false);
    Then(Quick(4) + Quick(5), Cancel);
    QuickRun(Quick(4) + Quick(5) + [Cancel], 2);
    QuickEnds(Next(Run(Quick(4) + Quick(5)), Cancel));
  }

  /**
   * A cancel may be lost though it is accepted before the last check: here before the run writes that
   * it is in progress, which overwrites its status, while the context is not cancelled before that check.
   */
  lemma {:induction false} OverwrittenCancelLoses()
    ensures var s := Run(Quick(4) + [Cancel]); s.accepted && s.r.status == Cancelling && BeforeLastCheck(s.pc)
    ensures AcceptedButCompleted(Run(Quick(4) + [Cancel] + Quick(5) + Quick(2)))
  {
    AboutToProgress();
    Then(Quick(4), Cancel);
    var steps := Quick(4) + [Cancel];
    QuickPasses(Run(steps), Cancelling, true);
    QuickRun(steps, 5);
    QuickRun(steps + Quick(5), 2);
    QuickEnds(Run(steps + Quick(5)));
  }

  lemma Then(steps: seq<Step>, step: Step)
    ensures Run(steps + [step]) == Next(Run(steps), step)
  {
    RunSplit(Start(), steps, [step]);
    assert [step][1..] == [];
  }
}
