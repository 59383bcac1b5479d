/**
 * What a chat is answered, in every interleaving: each turn at most once, and with that turn's
 * own text.
 */
module AglAnswers {
  import opened Wrappers
  import opened Text
  import opened AglStream
  import opened AglTales
  import opened AglChat

  // ----- what agl promises about its streams, kept by every event

  predicate StartsKnown(env: Env, p: Place) {
    forall i :: 0 <= i < |Log(env, p)| && Log(env, p)[i].TurnStarted? ==>
                  Log(env, p)[i].turn == "" || Log(env, p)[i].turn in env.started
  }

  predicate EndsMatch(env: Env, p: Place) {
    forall i :: 0 <= i < |Log(env, p)| && Log(env, p)[i].TurnEnded? ==>
                  && TaleAt(Log(env, p), i).turn == Log(env, p)[i].turn
                  && (Log(env, p)[i].turn == "" || Log(env, p)[i].turn in env.over)
  }

  predicate RunsOpen(env: Env, p: Place) {
    Running(env, p) == "" || (Running(env, p) in env.started && Running(env, p) !in env.over)
  }

  predicate PlaceOk(env: Env, p: Place) {
    StartsKnown(env, p) && EndsMatch(env, p) && RunsOpen(env, p)
  }

  ghost predicate EnvInv(env: Env) {
    && env.over <= env.started
    && (forall p :: PlaceOk(env, p))
    && forall p, q :: p != q && Running(env, p) == Running(env, q) ==> Running(env, p) == ""
  }

  lemma LogEmits(env: Env, p: Place, e: Event)
    ensures Log(Emit(env, p, e), p) == Log(env, p) + [e]
    ensures forall q :: q != p ==> Log(Emit(env, p, e), q) == Log(env, q)
    ensures Running(Emit(env, p, e), p) == Tell(TaleAt(Log(env, p), |Log(env, p)|), e).turn
  {
    var log := Log(env, p);
    TaleExtends(log, log + [e], |log|);
  }

  lemma EmitKeepsPlace(env: Env, p: Place, e: Event)
    requires PlaceOk(env, p) && MayEmit(env, p, e) && env.over <= env.started
    ensures PlaceOk(Emit(env, p, e), p)
  {
    LogEmits(env, p, e);
    var log, n := Log(env, p), Emit(env, p, e);
    forall i | 0 <= i < |log| + 1
      ensures TaleAt(log + [e], i) == TaleAt(log, i)
    {
      TaleExtends(log, log + [e], i);
    }
    assert forall i :: 0 <= i < |log| ==> Log(n, p)[i] == log[i];
    assert Log(n, p)[|log|] == e;
  }

  lemma EmitKeepsOthers(env: Env, p: Place, q: Place, e: Event)
    requires EnvInv(env) && p != q && MayEmit(env, p, e)
    ensures PlaceOk(Emit(env, p, e), q)
    ensures Running(Emit(env, p, e), p) == Running(Emit(env, p, e), q) ==> Running(Emit(env, p, e), p) == ""
  {
    LogEmits(env, p, e);
    assert PlaceOk(env, q) && PlaceOk(env, p);
    assert Log(Emit(env, p, e), q) == Log(env, q);
  }

  lemma EmitKeepsEnv(env: Env, p: Place, e: Event)
    requires EnvInv(env) && MayEmit(env, p, e)
    ensures EnvInv(Emit(env, p, e))
  {
    var n := Emit(env, p, e);
    assert PlaceOk(env, p);
    forall q
      ensures PlaceOk(n, q)
    {
      if q == p {
        EmitKeepsPlace(env, p, e);
      } else {
        EmitKeepsOthers(env, p, q, e);
      }
    }
    forall a, b | a != b && Running(n, a) == Running(n, b)
      ensures Running(n, a) == ""
    {
      LogEmits(env, p, e);
      if a == p {
        EmitKeepsOthers(env, p, b, e);
      } else if b == p {
        EmitKeepsOthers(env, p, a, e);
      } else {
        assert Log(n, a) == Log(env, a) && Log(n, b) == Log(env, b);
        assert Running(n, a) == Running(env, a) && Running(n, b) == Running(env, b);
      }
    }
  }

  /** A turn told at any point of a stream is one that has started. */
  lemma {:induction false} ToldHasStarted(env: Env, p: Place, n: nat)
    requires StartsKnown(env, p) && n <= |Log(env, p)|
    ensures TaleAt(Log(env, p), n).turn == "" || TaleAt(Log(env, p), n).turn in env.started
  {
    if TaleAt(Log(env, p), n).turn != "" {
      var i := TaleMeaning(Log(env, p), n);
      assert Log(env, p)[i].TurnStarted?;
    }
  }

  // ----- each turn at most one answer, from its own end

  predicate AnswerOk(env: Env, a: Answer) {
    var log := Log(env, a.place);
    && a.turn != "" && a.at < |log| && log[a.at] == TurnEnded(a.turn, a.outcome)
    && (a.whole ==> a.replies == FinalReplies(a.outcome, TaleAt(log, a.at).text))
  }

  predicate Unanswered(answers: seq<Answer>, turn: string) {
    forall i :: 0 <= i < |answers| ==> answers[i].turn != turn
  }

  predicate RecoveringOk(w: World) {
    w.worker.Recovering? ==>
      var r := w.worker;
      && !w.chat.collecting && r.place.machine == w.chat.machine
      && r.found.turn != "" && Unanswered(w.answers, r.found.turn)
      && r.at <= |Log(w.env, r.place)|
      && TaleAt(Log(w.env, r.place), r.at) == Tale(r.found.turn, r.found.text)
  }

  predicate AnswersOk(w: World) {
    && (forall i :: 0 <= i < |w.answers| ==> AnswerOk(w.env, w.answers[i]))
    && (forall i, j :: 0 <= i < j < |w.answers| ==> w.answers[i].turn != w.answers[j].turn)
    && "" !in w.chat.outstanding
    && (forall t :: t in w.chat.outstanding ==> Unanswered(w.answers, t))
    && RecoveringOk(w)
  }

  /** What a live collector has buffered, told from its session's stream. */
  predicate TextOk(chat: Chat, env: Env, c: Collector) {
    var log := Log(env, c.place);
    && c.pos <= |log|
    && (Live(c) && c.whole ==>
          && (c.watch.ours ==> TaleAt(log, c.pos).turn != "" && c.watch.buffer == TaleAt(log, c.pos).text)
          && (c.gen == chat.gen && TaleAt(log, c.pos).turn in chat.outstanding ==> c.watch.ours))
  }

  predicate TextsOk(w: World) {
    forall k :: 0 <= k < |w.collectors| ==> TextOk(w.chat, w.env, w.collectors[k])
  }

  ghost predicate Inv(w: World) {
    ChatInv(w.chat, w.collectors) && EnvInv(w.env) && AnswersOk(w) && TextsOk(w)
  }

  /** A turn that has not ended has not been answered. */
  lemma OpenTurnUnanswered(w: World, turn: string)
    requires EnvInv(w.env) && AnswersOk(w) && turn !in w.env.over
    ensures Unanswered(w.answers, turn)
  {
    forall i | 0 <= i < |w.answers|
      ensures w.answers[i].turn != turn
    {
      var a := w.answers[i];
      assert AnswerOk(w.env, a) && PlaceOk(w.env, a.place);
      assert Log(w.env, a.place)[a.at].TurnEnded?;
    }
  }

  // ----- the steps, one lemma for each block

  lemma EmitKeeps(w: World, p: Place, e: Event)
    requires Inv(w) && MayEmit(w.env, p, e)
    ensures Inv(w.(env := Emit(w.env, p, e)))
  {
    EmitKeepsEnv(w.env, p, e);
    LogEmits(w.env, p, e);
    var n := w.(env := Emit(w.env, p, e));
    forall i | 0 <= i < |w.answers|
      ensures AnswerOk(n.env, w.answers[i])
    {
      TaleExtends(Log(w.env, w.answers[i].place), Log(n.env, w.answers[i].place), w.answers[i].at);
    }
    forall k | 0 <= k < |w.collectors|
      ensures TextOk(n.chat, n.env, w.collectors[k])
    {
      assert TextOk(w.chat, w.env, w.collectors[k]);
      TaleExtends(Log(w.env, w.collectors[k].place), Log(n.env, w.collectors[k].place), w.collectors[k].pos);
    }
    if w.worker.Recovering? {
      TaleExtends(Log(w.env, w.worker.place), Log(n.env, w.worker.place), w.worker.at);
    }
  }

  /** Marking a collector stopped, or none, changes nothing here; nor does leaving the current one. */
  lemma DetachKeepsTexts(w: World)
    requires TextsOk(w) && GensRise(w.chat, w.collectors)
    ensures TextsOk(Detached(w))
  {
  }

  lemma {:induction false} InstallKeepsTexts(w: World, place: Place, steer: bool, turn: string, pos: nat, watch: Watch,
                                             whole: bool)
    requires TextsOk(w) && GensRise(w.chat, w.collectors)
    requires pos <= |Log(w.env, place)|
    requires whole && watch.ours ==> TaleAt(Log(w.env, place), pos) == Tale(turn, watch.buffer) && turn != ""
    requires whole && !watch.ours ==> TaleAt(Log(w.env, place), pos).turn != turn
    ensures TextsOk(Installed(w, place, steer, turn, pos, watch, whole))
  {
  }

  lemma AdoptKeeps(w: World, pos: nat)
    requires Inv(w) && w.worker.Recovering?
    ensures AnswersOk(AdoptStep(w, pos)) && TextsOk(AdoptStep(w, pos))
  {
    var r := w.worker;
    if r.at <= pos <= |Log(w.env, r.place)| {
      InstallKeepsTexts(w, r.place, w.chat.steer, r.found.turn, pos, Watch(true, r.found.text), pos == r.at);
    }
  }

  lemma OpenKeeps(w: World, session: string, steer: bool, turn: string, pos: nat)
    requires Inv(w) && !w.worker.Recovering?
    ensures var n := OpenStep(w, session, steer, turn, pos); AnswersOk(n) && TextsOk(n)
  {
    var place := Place(w.chat.machine, session);
    if Fresh(w, turn) && pos <= |Log(w.env, place)| {
      assert PlaceOk(w.env, place);
      ToldHasStarted(w.env, place, pos);
      InstallKeepsTexts(w, place, steer, turn, pos, Watch(false, ""), true);
      OpenTurnUnanswered(w, turn);
    }
  }

  lemma SteerKeeps(w: World, turn: string)
    requires Inv(w) && !w.worker.Recovering? && Fresh(w, turn)
    ensures var n := w.(chat := w.chat.(outstanding := w.chat.outstanding + {turn})); AnswersOk(n) && TextsOk(n)
  {
    OpenTurnUnanswered(w, turn);
    var n := w.(chat := w.chat.(outstanding := w.chat.outstanding + {turn}));
    forall k | 0 <= k < |w.collectors|
      ensures TextOk(n.chat, n.env, w.collectors[k])
    {
      var c := w.collectors[k];
      assert TextOk(w.chat, w.env, c) && PlaceOk(w.env, c.place);
      ToldHasStarted(w.env, c.place, c.pos);
    }
  }

  lemma RecoverKeeps(w: World, m: Inbound, machines: Machines, window: seq<Envelope>)
    requires Inv(w) && !w.worker.Recovering?
    ensures var n := RecoverStep(w, m, machines, window); AnswersOk(n) && TextsOk(n)
  {
    var n := RecoverStep(w, m, machines, window);
    if n != w {
      var found := n.worker.found;
      var log := Log(w.env, n.worker.place);
      WindowTells(window, log);
      assert PlaceOk(w.env, n.worker.place);
      OpenTurnUnanswered(w, found.turn);
    }
  }

  function Bare(events: seq<Event>): seq<Envelope> {
    seq(|events|, i requires 0 <= i < |events| => Envelope("", events[i]))
  }

  lemma JoinShows(window: seq<Envelope>, log: seq<Event>)
    requires Shows(window, log)
    ensures Events(Bare(log[..|log| - |window|]) + window) == log
  {
    var k := |log| - |window|;
    var all := Bare(log[..k]) + window;
    assert |all| == |log|;
    forall i | 0 <= i < |log|
      ensures all[i].event == log[i]
    {
      if i >= k {
        assert all[i] == window[i - k];
        assert window[i - k].event == log[k + (i - k)];
      }
    }
  }

  /** The window's scan is the whole log's tale, when it shows a running turn. */
  lemma {:induction false} WindowTells(window: seq<Envelope>, log: seq<Event>)
    requires Shows(window, log) && AglStream.Recover(window).Some?
    ensures var r := AglStream.Recover(window).value; TaleAt(log, |log|) == Tale(r.turn, r.text)
  {
    var before := Bare(log[..|log| - |window|]);
    JoinShows(window, log);
    WindowAgrees(before, window);
    ScanTells(before + window);
  }

  /** Blocks that only make the chat forget turns, or touch neither the turns nor the texts. */
  lemma ForgetKeeps(w: World, n: World)
    requires Inv(w) && n.answers == w.answers && n.env == w.env && n.chat.gen == w.chat.gen
    requires n.chat.outstanding <= w.chat.outstanding
    requires |n.collectors| == |w.collectors|
    requires forall k :: 0 <= k < |w.collectors| ==>
                           (n.collectors[k] == w.collectors[k] || n.collectors[k] == w.collectors[k].(stopped := true))
    requires !n.worker.Recovering?
    ensures AnswersOk(n) && TextsOk(n)
  {
    forall k | 0 <= k < |n.collectors|
      ensures TextOk(n.chat, n.env, n.collectors[k])
    {
      assert TextOk(w.chat, w.env, w.collectors[k]);
    }
  }

  lemma DetachKeeps(w: World)
    requires Inv(w) && !w.worker.Recovering?
    ensures AnswersOk(Detached(w)) && TextsOk(Detached(w))
  {
    DetachKeepsTexts(w);
  }

  lemma EnterKeeps(w: World, m: Inbound, machines: Machines)
    requires Inv(w) && w.worker.Ready?
    ensures AnswersOk(EnterStep(w, m, machines)) && TextsOk(EnterStep(w, m, machines))
  {
    DetachKeeps(w);
  }

  /** The blocks a worker starts with. */
  lemma ReadyKeeps(w: World, step: Step)
    requires Inv(w) && w.worker.Ready?
    ensures AnswersOk(WorkerStep(w, step)) && TextsOk(WorkerStep(w, step))
  {
    match step
    case Enter(m, machines) => EnterKeeps(w, m, machines);
    case Recover(m, machines, window) => RecoverKeeps(w, m, machines, window);
    case NewSession => DetachKeeps(w);
    case SteerTurn(turn) => if Fresh(w, turn) { SteerKeeps(w, turn); }
    case DropTurn(turn) => ForgetKeeps(w, WorkerStep(w, step));
    case Open(session, steer, turn, pos) => OpenKeeps(w, session, steer, turn, pos);
    case StopOwn(k) => ForgetKeeps(w, WorkerStep(w, step));
    case _ =>
  }

  lemma WorkerKeeps(w: World, step: Step)
    requires Inv(w)
    ensures AnswersOk(WorkerStep(w, step)) && TextsOk(WorkerStep(w, step))
  {
    if w.worker.Ready? {
      ReadyKeeps(w, step);
    } else {
      match (w.worker, step)
      case (Recovering(_, _, _, _, _), Adopt(pos)) => AdoptKeeps(w, pos);
      case (Acknowledging(_, _, _, _, _, _), Acknowledge) => ForgetKeeps(w, WorkerStep(w, step));
      case _ =>
    }
  }

  // ----- collectors

  /** The end of an outstanding turn, at a collector that missed none of it: the buffer is the turn's text. */
  lemma BufferAtEnd(w: World, c: Collector)
    requires Inv(w) && TextOk(w.chat, w.env, c) && Live(c) && c.whole && c.gen == w.chat.gen
    requires c.pos < |Log(w.env, c.place)| && Log(w.env, c.place)[c.pos].TurnEnded?
    requires Log(w.env, c.place)[c.pos].turn in w.chat.outstanding
    ensures c.watch.buffer == TaleAt(Log(w.env, c.place), c.pos).text
  {
    assert PlaceOk(w.env, c.place);
    assert TaleAt(Log(w.env, c.place), c.pos).turn == Log(w.env, c.place)[c.pos].turn;
  }

  lemma TurnEndKeepsAnswers(w: World, k: nat, turn: string, outcome: Outcome)
    requires Inv(w) && k < |w.collectors| && Live(w.collectors[k])
    requires var c := w.collectors[k];
             c.pos < |Log(w.env, c.place)| && Log(w.env, c.place)[c.pos] == TurnEnded(turn, outcome)
    ensures AnswersOk(HandleTurnEnd(w, k, w.collectors[k], turn, outcome))
  {
    var c := w.collectors[k];
    assert TextOk(w.chat, w.env, c);
    if c.gen == w.chat.gen && turn in w.chat.outstanding {
      if c.whole {
        BufferAtEnd(w, c);
      }
      var n := HandleTurnEnd(w, k, c, turn, outcome);
      var a := n.answers[|w.answers|];
      assert AnswerOk(n.env, a);
      assert Unanswered(w.answers, turn);
      forall t | t in n.chat.outstanding
        ensures Unanswered(n.answers, t)
      {
        assert Unanswered(w.answers, t);
      }
    }
  }

  /** The other collectors' texts do not depend on collector k, nor on turns the chat forgets. */
  lemma OthersKeepTexts(w: World, n: World, k: nat)
    requires TextsOk(w) && n.env == w.env && n.chat.gen == w.chat.gen && n.chat.outstanding <= w.chat.outstanding
    requires k < |w.collectors| && |n.collectors| == |w.collectors|
    requires forall j :: 0 <= j < |w.collectors| && j != k ==> n.collectors[j] == w.collectors[j]
    requires TextOk(n.chat, n.env, n.collectors[k])
    ensures TextsOk(n)
  {
    forall j | 0 <= j < |n.collectors|
      ensures TextOk(n.chat, n.env, n.collectors[j])
    {
      if j != k {
        assert TextOk(w.chat, w.env, w.collectors[j]);
      }
    }
  }

  lemma TurnEndKeepsTexts(w: World, k: nat, turn: string, outcome: Outcome)
    requires Inv(w) && k < |w.collectors| && Live(w.collectors[k])
    requires var c := w.collectors[k];
             c.pos < |Log(w.env, c.place)| && Log(w.env, c.place)[c.pos] == TurnEnded(turn, outcome)
    ensures TextsOk(HandleTurnEnd(w, k, w.collectors[k], turn, outcome))
  {
    var c := w.collectors[k];
    assert TextOk(w.chat, w.env, c);
    OthersKeepTexts(w, HandleTurnEnd(w, k, c, turn, outcome), k);
  }

  /** One event further: what the collector has, seen from the log alone. */
  lemma SeeKeepsText(chat: Chat, env: Env, c: Collector, d: Collector)
    requires TextOk(chat, env, c) && Live(c) && PlaceOk(env, c.place) && "" !in chat.outstanding
    requires c.pos < |Log(env, c.place)| && (Log(env, c.place)[c.pos].TurnStarted? || Log(env, c.place)[c.pos].TextDelta?)
    requires var e := Log(env, c.place)[c.pos];
             && d.gen == c.gen && d.place == c.place && d.pos == c.pos + 1
             && d.watch == See(c.watch, e, Mine(chat, c)) && d.whole == (c.whole || e.TurnStarted?)
    ensures TextOk(chat, env, d)
  {
  }

  /** An event that tells nothing of the turn's text leaves it as it is. */
  lemma QuietKeepsText(chat: Chat, n: Chat, env: Env, c: Collector, d: Collector)
    requires TextOk(chat, env, c) && Live(c) && c.pos < |Log(env, c.place)|
    requires !Telling(Log(env, c.place)[c.pos])
    requires n.gen == chat.gen && n.outstanding <= chat.outstanding
    requires d.gen == c.gen && d.place == c.place && d.pos == c.pos + 1 && d.watch == c.watch && d.whole == c.whole
    ensures TextOk(n, env, d)
  {
  }

  /** The collector itself, one event further. */
  lemma EventKeepsText(w: World, k: nat, e: Event)
    requires Inv(w) && k < |w.collectors| && w.collectors[k].pc.Looping? && !e.TurnEnded?
    requires var c := w.collectors[k]; c.pos < |Log(w.env, c.place)| && Log(w.env, c.place)[c.pos] == e
    ensures var n := HandleEvent(w, k, w.collectors[k], e); TextOk(n.chat, n.env, n.collectors[k])
  {
    var c, n := w.collectors[k], HandleEvent(w, k, w.collectors[k], e);
    assert TextOk(w.chat, w.env, c);
    assert PlaceOk(w.env, c.place);
    if e.TurnStarted? || e.TextDelta? {
      SeeKeepsText(w.chat, w.env, c, n.collectors[k]);
    } else {
      QuietKeepsText(w.chat, n.chat, w.env, c, n.collectors[k]);
    }
  }

  lemma EventKeepsTexts(w: World, k: nat, e: Event)
    requires Inv(w) && k < |w.collectors| && w.collectors[k].pc.Looping? && !e.TurnEnded?
    requires var c := w.collectors[k]; c.pos < |Log(w.env, c.place)| && Log(w.env, c.place)[c.pos] == e
    ensures TextsOk(HandleEvent(w, k, w.collectors[k], e))
  {
    EventKeepsText(w, k, e);
    OthersKeepTexts(w, HandleEvent(w, k, w.collectors[k], e), k);
  }

  lemma EventKeepsAnswers(w: World, k: nat, e: Event)
    requires Inv(w) && k < |w.collectors| && w.collectors[k].pc.Looping? && !e.TurnEnded?
    ensures AnswersOk(HandleEvent(w, k, w.collectors[k], e))
  {
  }

  lemma QuitKeeps(w: World, k: nat)
    requires Inv(w) && k < |w.collectors|
    ensures var c := w.collectors[k];
            var n := Update(w, k, c.(pc := Exited)).(chat := Finish(w.chat, c.gen));
            AnswersOk(n) && TextsOk(n)
  {
    var c := w.collectors[k];
    assert TextOk(w.chat, w.env, c);
    OthersKeepTexts(w, Update(w, k, c.(pc := Exited)).(chat := Finish(w.chat, c.gen)), k);
  }

  lemma AnswerStepKeeps(w: World, k: nat, granted: bool)
    requires Inv(w) && k < |w.collectors| && w.collectors[k].pc.Asking?
    ensures var n := AnswerStep(w, k, w.collectors[k], granted); AnswersOk(n) && TextsOk(n)
  {
    var c := w.collectors[k];
    assert TextOk(w.chat, w.env, c);
    OthersKeepTexts(w, AnswerStep(w, k, c, granted), k);
  }

  lemma MissKeeps(w: World, k: nat)
    requires Inv(w) && k < |w.collectors| && Live(w.collectors[k])
    requires w.collectors[k].pos < |Log(w.env, w.collectors[k].place)|
    ensures var c := w.collectors[k];
            var n := Update(w, k, MissEvent(c, Log(w.env, c.place)[c.pos]));
            AnswersOk(n) && TextsOk(n)
  {
    var c := w.collectors[k];
    var d := MissEvent(c, Log(w.env, c.place)[c.pos]);
    assert TextOk(w.chat, w.env, c);
    if !Telling(Log(w.env, c.place)[c.pos]) {
      QuietKeepsText(w.chat, w.chat, w.env, c, d);
    }
    OthersKeepTexts(w, Update(w, k, d), k);
  }

  lemma DeliverKeeps(w: World, k: nat)
    requires Inv(w) && k < |w.collectors| && w.collectors[k].pc.Looping?
    requires w.collectors[k].pos < |Log(w.env, w.collectors[k].place)|
    ensures var c := w.collectors[k];
            var n := HandleEvent(w, k, c, Log(w.env, c.place)[c.pos]);
            AnswersOk(n) && TextsOk(n)
  {
    var c := w.collectors[k];
    var e := Log(w.env, c.place)[c.pos];
    if e.TurnEnded? {
      TurnEndKeepsAnswers(w, k, e.turn, e.outcome);
      TurnEndKeepsTexts(w, k, e.turn, e.outcome);
    } else {
      EventKeepsTexts(w, k, e);
      EventKeepsAnswers(w, k, e);
    }
  }

  lemma CollectorKeeps(w: World, k: nat, step: Step)
    requires Inv(w)
    ensures AnswersOk(CollectorStep(w, k, step)) && TextsOk(CollectorStep(w, k, step))
  {
    if k < |w.collectors| {
      var c := w.collectors[k];
      match (c.pc, step)
      case (Looping, Deliver(_)) => if c.pos < |Log(w.env, c.place)| { DeliverKeeps(w, k); }
      case (Looping, Miss(_)) => if c.pos < |Log(w.env, c.place)| { MissKeeps(w, k); }
      case (Looping, Quit(_)) => QuitKeeps(w, k);
      case (Asking(_, _), AnswerRequest(_, granted)) => AnswerStepKeeps(w, k, granted);
      case _ =>
    }
  }

  lemma CollectorKeepsInv(w: World, k: nat, step: Step)
    requires Inv(w)
    ensures Inv(CollectorStep(w, k, step))
  {
    CollectorKeepsChat(w, k, step);
    CollectorKeeps(w, k, step);
    CollectorKeepsEnv(w, k, step);
  }

  lemma CollectorKeepsEnv(w: World, k: nat, step: Step)
    ensures CollectorStep(w, k, step).env == w.env
  {
  }

  lemma WorkerKeepsInv(w: World, step: Step)
    requires Inv(w)
    ensures Inv(WorkerStep(w, step))
  {
    WorkerKeepsChat(w, step);
    WorkerKeeps(w, step);
    WorkerKeepsEnv(w, step);
  }

  lemma WorkerKeepsEnv(w: World, step: Step)
    ensures WorkerStep(w, step).env == w.env
  {
  }

  lemma TickKeeps(w: World)
    requires Inv(w)
    ensures Inv(w.(now := w.now + 1))
  {
  }

  lemma GrantKeeps(w: World, step: Step)
    requires Inv(w) && step.GrantElsewhere?
    ensures Inv(Next(w, step))
  {
  }

  lemma OutsideKeepsInv(w: World, step: Step)
    requires Inv(w) && (step.Emits? || step.Tick? || step.GrantElsewhere?)
    ensures Inv(Next(w, step))
  {
    match step
    case Emits(p, e) => if MayEmit(w.env, p, e) { EmitKeeps(w, p, e); }
    case Tick => TickKeeps(w);
    case GrantElsewhere(g) => GrantKeeps(w, step);
  }

  lemma InvNext(w: World, step: Step)
    requires Inv(w)
    ensures Inv(Next(w, step))
  {
    if step.Deliver? || step.Miss? || step.Quit? || step.AnswerRequest? {
      CollectorKeepsInv(w, step.collector, step);
    } else if step.Emits? || step.Tick? || step.GrantElsewhere? {
      OutsideKeepsInv(w, step);
    } else {
      WorkerKeepsInv(w, step);
    }
  }

  lemma {:induction false} InvRun(w: World, steps: seq<Step>)
    requires Inv(w)
    ensures Inv(Run(w, steps))
    decreases |steps|
  {
    if steps != [] {
      InvNext(w, steps[0]);
      InvRun(Next(w, steps[0]), steps[1..]);
    }
  }

  lemma {:induction false} RunInv(steps: seq<Step>)
    ensures Inv(Run(EMPTY, steps))
  {
    assert Inv(EMPTY) by {
      forall p
        ensures PlaceOk(EMPTY.env, p)
      {
      }
    }
    InvRun(EMPTY, steps);
  }

  // ----- the results, for every run

  /**
   * No two live collectors carry the chat's generation; the chat collects exactly while one does,
   * and then it follows that collector's session; every superseded collector still live has had its
   * done channel closed.
   */
  lemma {:induction false} OneCurrentCollector(steps: seq<Step>)
    ensures var w := Run(EMPTY, steps);
            && (forall j, k :: 0 <= j < k < |w.collectors| ==> w.collectors[j].gen != w.collectors[k].gen)
            && (w.chat.collecting <==> exists k :: 0 <= k < |w.collectors| && Live(w.collectors[k]) && w.collectors[k].gen == w.chat.gen)
            && (forall k :: 0 <= k < |w.collectors| && Live(w.collectors[k]) && w.collectors[k].gen == w.chat.gen ==>
                  w.collectors[k].place == Place(w.chat.machine, w.chat.session))
            && (forall k :: 0 <= k < |w.collectors| && Live(w.collectors[k]) && w.collectors[k].gen != w.chat.gen ==>
                  w.collectors[k].stopped)
  {
    RunInv(steps);
  }

  /** A chat that does not collect has no outstanding turn, no pending request and no stop function. */
  lemma {:induction false} IdleIsClean(steps: seq<Step>)
    ensures var c := Run(EMPTY, steps).chat;
            !c.collecting ==> c.outstanding == {} && c.approval == None && c.stop == None
  {
    RunInv(steps);
  }

  /** Each turn id gets at most one final answer, at that turn's own end. */
  lemma {:induction false} OneAnswerEach(steps: seq<Step>)
    ensures var w := Run(EMPTY, steps);
            && (forall i, j :: 0 <= i < j < |w.answers| ==> w.answers[i].turn != w.answers[j].turn)
            && (forall i :: 0 <= i < |w.answers| ==>
                  var a := w.answers[i];
                  a.at < |Log(w.env, a.place)| && Log(w.env, a.place)[a.at] == TurnEnded(a.turn, a.outcome))
  {
    RunInv(steps);
    var w := Run(EMPTY, steps);
    assert forall i :: 0 <= i < |w.answers| ==> AnswerOk(w.env, w.answers[i]);
  }

  /** The current collector gets the end of one of the chat's outstanding turns. */
  predicate GetsEnd(w: World, step: Step, turn: string) {
    step.Deliver? && step.collector < |w.collectors|
    && var c := w.collectors[step.collector];
       && c.pc.Looping? && c.gen == w.chat.gen && turn in w.chat.outstanding
       && c.pos < |Log(w.env, c.place)| && Log(w.env, c.place)[c.pos].TurnEnded? && Log(w.env, c.place)[c.pos].turn == turn
  }

  /** The end of an outstanding turn, got by the current collector, is answered, and the chat idles after the last one. */
  lemma EndIsAnswered(w: World, step: Step, turn: string)
    requires GetsEnd(w, step, turn)
    ensures var n, c := Next(w, step), w.collectors[step.collector];
            var i := |w.answers|;
            && |n.answers| == i + 1 && w.answers <= n.answers && n.chat.outstanding == w.chat.outstanding - {turn}
            && n.answers[i].turn == turn && n.answers[i].place == c.place && n.answers[i].at == c.pos
            && TurnEnded(turn, n.answers[i].outcome) == Log(w.env, c.place)[c.pos]
            && Sends(n.answers[i].outcome, c.watch.buffer, n.answers[i].replies)
            && (n.chat.outstanding == {} ==> !n.chat.collecting && !Live(n.collectors[step.collector]))
            && (n.chat.outstanding != {} ==> n.chat.collecting == w.chat.collecting && Live(n.collectors[step.collector]))
  {
    var c := w.collectors[step.collector];
    FinalRepliesSend(Log(w.env, c.place)[c.pos].outcome, c.watch.buffer);
  }

  /** A turn that was taken into the running one is no longer waited for. */
  lemma SteeredIsLetGo(w: World, step: Step, turn: string)
    requires GetsSteered(w, step, turn)
    ensures Next(w, step).chat.outstanding == w.chat.outstanding - {turn}
  {
  }

  /** Some collector gets the word that this turn was taken into the running one. */
  predicate GetsSteered(w: World, step: Step, turn: string) {
    step.Deliver? && step.collector < |w.collectors|
    && var c := w.collectors[step.collector];
       && c.pc.Looping? && c.pos < |Log(w.env, c.place)| && Log(w.env, c.place)[c.pos] == Steered(turn)
  }

  /** A collector handles one event; the turn is outstanding before. */
  lemma EventLeaves(w: World, k: nat, e: Event, turn: string)
    requires k < |w.collectors| && turn in w.chat.outstanding
    ensures var c, n := w.collectors[k], HandleEvent(w, k, w.collectors[k], e);
            || turn in n.chat.outstanding || e == Steered(turn)
            || (c.gen == w.chat.gen && e.TurnEnded? && e.turn == turn
                && |n.answers| == |w.answers| + 1 && w.answers <= n.answers
                && n.answers[|w.answers|].turn == turn && n.answers[|w.answers|].at == c.pos
                && n.answers[|w.answers|].outcome == e.outcome)
  {
  }

  /** The worker lets go of a turn only where it failed to prompt it, or by starting another collector. */
  lemma WorkerLeaves(w: World, step: Step, turn: string)
    requires turn in w.chat.outstanding
    ensures var n := WorkerStep(w, step);
            turn in n.chat.outstanding || n.chat.gen > w.chat.gen || (w.worker.Ready? && step == DropTurn(turn))
  {
  }

  /**
   * Every outstanding turn is answered, unless the program lets go of it: it leaves the chat's list with its
   * answer, at its end; or when it was taken into the running turn, when prompting it failed, when its
   * collector quits, or when the chat goes on to another collector.
   */
  lemma OutstandingLeaves(w: World, step: Step, turn: string)
    requires turn in w.chat.outstanding
    ensures var n := Next(w, step);
            || turn in n.chat.outstanding
            || (GetsEnd(w, step, turn) && |n.answers| == |w.answers| + 1 && n.answers[|w.answers|].turn == turn)
            || GetsSteered(w, step, turn) || step == DropTurn(turn) || n.chat.gen > w.chat.gen
            || (step.Quit? && step.collector < |w.collectors| && w.collectors[step.collector].gen == w.chat.gen)
  {
    if step.Deliver? {
      if step.collector < |w.collectors| {
        var c := w.collectors[step.collector];
        if c.pc.Looping? && c.pos < |Log(w.env, c.place)| {
          EventLeaves(w, step.collector, Log(w.env, c.place)[c.pos], turn);
        }
      }
    } else if !step.Miss? && !step.Quit? && !step.AnswerRequest? && !step.Emits? && !step.Tick? && !step.GrantElsewhere? {
      WorkerLeaves(w, step, turn);
    }
  }

  /** The chat waits for this turn, and collector k, current and alive, follows its session from here on. */
  predicate Awaits(w: World, k: nat, turn: string, place: Place, pos: nat) {
    && turn in w.chat.outstanding && w.chat.collecting && w.chat.stop == Some(k) && k < |w.collectors|
    && var c := w.collectors[k]; c.gen == w.chat.gen && c.place == place && c.pos == pos && c.pc.Looping? && !c.stopped
  }

  /** Prompting an idle chat's session has a new collector wait for the turn, one that has missed nothing. */
  lemma PromptIsAwaited(w: World, session: string, steer: bool, turn: string, pos: nat)
    requires w.worker.Ready? && session != "" && Fresh(w, turn) && pos <= |Log(w.env, Place(w.chat.machine, session))|
    ensures var n := Next(w, Open(session, steer, turn, pos));
            && Awaits(n, |w.collectors|, turn, Place(w.chat.machine, session), pos)
            && n.chat.outstanding == {turn} && n.collectors[|w.collectors|].whole
  {
  }

  /** A prompt sent while a turn runs is waited for with it. */
  lemma QueuedIsAwaited(w: World, turn: string)
    requires w.worker.Ready? && w.chat.collecting && w.chat.session != "" && Fresh(w, turn)
    ensures Next(w, SteerTurn(turn)) == w.(chat := w.chat.(outstanding := w.chat.outstanding + {turn}))
  {
  }

  /** A prompt that failed is waited for no more. */
  lemma FailedPromptIsLetGo(w: World, turn: string)
    requires w.worker.Ready?
    ensures Next(w, DropTurn(turn)) == w.(chat := w.chat.(outstanding := w.chat.outstanding - {turn}))
  {
  }

  /** A collector that gets every event of its session stays whole, and every start makes it whole. */
  lemma DeliveredIsWhole(w: World, k: nat)
    requires k < |w.collectors| && w.collectors[k].pc.Looping? && w.collectors[k].pos < |Log(w.env, w.collectors[k].place)|
    ensures var c, n := w.collectors[k], Next(w, Deliver(k)).collectors[k];
            && n.pos == c.pos + 1 && (n.whole <==> c.whole || Log(w.env, c.place)[c.pos].TurnStarted?)
  {
  }

  /** The text an answer must be made of: the deltas of that turn alone, from its start to its end. */
  ghost predicate OwnText(log: seq<Event>, a: Answer, start: nat, text: string) {
    && a.at <= |log| && RunningSince(log, start, a.at, a.turn)
    && Capped(Deltas(log, start + 1, a.at), text) && Sends(a.outcome, text, a.replies)
  }

  /** An answer from a collector that missed no start, end or text of the turn holds exactly the turn's own text. */
  lemma AnswerHasOwnText(steps: seq<Step>, i: nat) returns (start: nat, text: string)
    requires var w := Run(EMPTY, steps); i < |w.answers| && w.answers[i].whole
    ensures var w := Run(EMPTY, steps); OwnText(Log(w.env, w.answers[i].place), w.answers[i], start, text)
  {
    RunInv(steps);
    var w := Run(EMPTY, steps);
    var a := w.answers[i];
    assert AnswerOk(w.env, a) && PlaceOk(w.env, a.place);
    var log := Log(w.env, a.place);
    assert log[a.at].TurnEnded?;
    start := TaleMeaning(log, a.at);
    text := TaleAt(log, a.at).text;
    FinalRepliesSend(a.outcome, text);
  }

  predicate HarmlessTo(w: World, n: World) {
    && n.chat == w.chat.(outstanding := n.chat.outstanding, approval := n.chat.approval)
    && n.chat.outstanding <= w.chat.outstanding
    && (n.chat.approval == w.chat.approval || n.chat.approval == None)
    && n.answers == w.answers
  }

  /** A turn that starts is not the collector's own. */
  predicate TakesNoTurn(w: World, n: World, k: nat)
    requires k < |w.collectors| == |n.collectors|
  {
    var c := w.collectors[k];
    c.pos < |Log(w.env, c.place)| && Log(w.env, c.place)[c.pos].TurnStarted? && n.collectors[k].pos > c.pos ==>
      !n.collectors[k].watch.ours || !n.collectors[k].whole
  }

  lemma SupersededEvent(w: World, k: nat, e: Event)
    requires k < |w.collectors| && w.collectors[k].gen != w.chat.gen
    ensures HarmlessTo(w, HandleEvent(w, k, w.collectors[k], e))
    ensures |HandleEvent(w, k, w.collectors[k], e).collectors| == |w.collectors|
    ensures e.TurnStarted? ==> !HandleEvent(w, k, w.collectors[k], e).collectors[k].watch.ours
  {
  }

  /**
   * A superseded collector, whatever it handles next, leaves the chat's generation, session, stop
   * function and collecting flag alone, sets no pending request, answers no turn, and takes no turn that
   * starts for its own.
   */
  lemma SupersededHarmless(w: World, step: Step, k: nat)
    requires step == Deliver(k) || step == Miss(k) || step == Quit(k) || (step.AnswerRequest? && step.collector == k)
    requires k < |w.collectors| && w.collectors[k].gen != w.chat.gen
    ensures HarmlessTo(w, Next(w, step)) && |Next(w, step).collectors| == |w.collectors|
    ensures TakesNoTurn(w, Next(w, step), k)
  {
    var c := w.collectors[k];
    if c.pc.Looping? && step.Deliver? && c.pos < |Log(w.env, c.place)| {
      SupersededEvent(w, k, Log(w.env, c.place)[c.pos]);
    }
  }

  // ----- a run in which an answer holds another turn's text

  lemma {:induction false} RunSplit(w: World, a: seq<Step>, b: seq<Step>)
    ensures Run(w, a + b) == Run(Run(w, a), b)
    decreases |a|
  {
    if a == [] {
      assert a + b == b;
    } else {
      assert (a + b)[1..] == a[1..] + b;
      RunSplit(Next(w, a[0]), a[1..], b);
    }
  }

  ghost predicate Reaches(w: World, n: World) {
    exists steps :: Run(w, steps) == n
  }

  lemma Stay(w: World)
    ensures Reaches(w, w)
  {
    assert Run(w, []) == w;
  }

  lemma Onward(w: World, n: World, step: Step)
    requires Reaches(w, n)
    ensures Reaches(w, Next(n, step))
  {
    var steps :| Run(w, steps) == n;
    RunSplit(w, steps, [step]);
    assert [step][1..] == [];
    assert Run(w, steps + [step]) == Next(n, step);
  }

  lemma Together(a: World, b: World, c: World)
    requires Reaches(a, b) && Reaches(b, c)
    ensures Reaches(a, c)
  {
    var s :| Run(a, s) == b;
    var t :| Run(b, t) == c;
    RunSplit(a, s, t);
  }

  const LAPTOP := Place("m", "s")
  const OWNER := Inbound(true, "ann", "m", "ann", false, true, "hello")
  const OWNERS_MACHINE: Machines := map["m" := MachineRecord("ann", false)]
  const TWO_TURNS := [
    TurnStarted("t1"), TextDelta(false, "first"), TurnEnded("t1", Completed), TurnStarted("t2"), TurnEnded("t2", Completed)]

  predicate Prompted(w: World) {
    && w.chat == Chat("m", "s", false, true, {"t1", "t2"}, None, Some(0), 3)
    && w.collectors == [Collector(3, LAPTOP, 0, Watch(false, ""), true, false, Looping)]
    && w.answers == []
  }

  lemma TwoPrompted() returns (w: World)
    ensures Reaches(EMPTY, w) && Prompted(w) && w.env == EMPTY.env
  {
    Stay(EMPTY);
    Onward(EMPTY, EMPTY, Enter(OWNER, OWNERS_MACHINE));
    w := Next(EMPTY, Enter(OWNER, OWNERS_MACHINE));
    assert w == EMPTY.(chat := EndCollector(EMPTY.chat).(machine := "m"));
    Onward(EMPTY, w, Open("s", false, "t1", 0));
    w := Next(w, Open("s", false, "t1", 0));
    Onward(EMPTY, w, SteerTurn("t2"));
    w := Next(w, SteerTurn("t2"));
    assert {"t1"} + {"t2"} == {"t1", "t2"};
  }

  lemma TwoTurnsTold()
    ensures TaleAt(TWO_TURNS, 0).turn == "" && TaleAt(TWO_TURNS, 1).turn == "t1" && TaleAt(TWO_TURNS, 2).turn == "t1"
    ensures TaleAt(TWO_TURNS, 3).turn == "" && TaleAt(TWO_TURNS, 4).turn == "t2"
  {
  }

  /** The first n events of the two turns have been sent, and nothing else. */
  predicate Streaming(env: Env, n: nat)
    requires n <= |TWO_TURNS|
  {
    Log(env, LAPTOP) == TWO_TURNS[..n] && env.started == (if n == 0 then {} else if n <= 3 then {"t1"} else {"t1", "t2"})
  }

  lemma Streamed(env: Env, n: nat)
    requires n < |TWO_TURNS| && Streaming(env, n)
    ensures MayEmit(env, LAPTOP, TWO_TURNS[n]) && Streaming(Emit(env, LAPTOP, TWO_TURNS[n]), n + 1)
  {
    TaleExtends(TWO_TURNS[..n], TWO_TURNS, n);
    TwoTurnsTold();
    LogEmits(env, LAPTOP, TWO_TURNS[n]);
    assert {} + {"t1"} == {"t1"} && {"t1"} + {"t2"} == {"t1", "t2"};
  }

  lemma {:induction false} EmitAll(w: World, n: nat) returns (v: World)
    requires n <= |TWO_TURNS| && w.env == EMPTY.env
    ensures Reaches(w, v) && v == w.(env := v.env) && Streaming(v.env, n)
  {
    if n == 0 {
      Stay(w);
      v := w;
      assert Log(w.env, LAPTOP) == TWO_TURNS[..0];
    } else {
      v := EmitAll(w, n - 1);
      Streamed(v.env, n - 1);
      var step := Emits(LAPTOP, TWO_TURNS[n - 1]);
      Onward(w, v, step);
      v := Next(v, step);
    }
  }

  /** The subscriber lags: it gets the first turn's start and text, misses its end and the next start, and gets that turn's end. */
  lemma LaggingRun(w: World) returns (v: World)
    requires Prompted(w) && Log(w.env, LAPTOP) == TWO_TURNS
    ensures Reaches(w, v) && Log(v.env, LAPTOP) == TWO_TURNS
    ensures v.answers == [Answer("t2", LAPTOP, 4, Completed, FinalReplies(Completed, "first"), false)]
  {
    var c := w.collectors[0];
    Stay(w);
    Onward(w, w, Deliver(0));
    v := Next(w, Deliver(0));
    assert v == w.(collectors := [c.(pos := 1, watch := Watch(true, ""))]);
    Onward(w, v, Deliver(0));
    v := Next(v, Deliver(0));
    assert Keep("", TWO_TURNS[1]) == "first";
    assert v == w.(collectors := [c.(pos := 2, watch := Watch(true, "first"))]);
    Onward(w, v, Miss(0));
    v := Next(v, Miss(0));
    Onward(w, v, Miss(0));
    v := Next(v, Miss(0));
    assert v == w.(collectors := [c.(pos := 4, watch := Watch(true, "first"), whole := false)]);
    Onward(w, v, Deliver(0));
    v := Next(v, Deliver(0));
  }

  lemma RepliesDiffer()
    ensures FinalReplies(Completed, "first") == [Long("first")] && !Sends(Completed, "", [Long("first")])
  {
    TrimIdle("first");
    TrimIdle("");
    forall t | Strips("", t)
      ensures t == ""
    {
      StripsOnly("", t);
    }
    assert "first" != "（已完成，没有文字回复）" by {
      assert "first"[0] == 'f';
    }
  }

  lemma {:induction false} NoTextOfItsOwn(start: nat, text: string)
    requires RunningSince(TWO_TURNS, start, 4, "t2") && Capped(Deltas(TWO_TURNS, start + 1, 4), text)
    ensures text == ""
  {
    assert start == 3;
    assert Deltas(TWO_TURNS, 4, 4) == [];
    var k: nat :| k <= 0 && CappedAt([], text, k);
  }

  lemma NotItsOwn(a: Answer, start: nat, text: string)
    requires a == Answer("t2", LAPTOP, 4, Completed, FinalReplies(Completed, "first"), false)
    ensures !OwnText(TWO_TURNS, a, start, text)
  {
    RepliesDiffer();
    if OwnText(TWO_TURNS, a, start, text) {
      NoTextOfItsOwn(start, text);
    }
  }

  /** The hub drops events for a subscriber that lags; then an answer can hold another turn's text. */
  lemma MissedEventsMixTexts()
    ensures exists w :: Reaches(EMPTY, w) && |w.answers| == 1 && w.answers[0].turn == "t2"
                        && w.answers[0].replies == [Long("first")]
                        && !exists start, text :: OwnText(Log(w.env, LAPTOP), w.answers[0], start, text)
  {
    var a := TwoPrompted();
    var b := EmitAll(a, |TWO_TURNS|);
    assert TWO_TURNS[..|TWO_TURNS|] == TWO_TURNS;
    var c := LaggingRun(b);
    Together(EMPTY, a, b);
    Together(EMPTY, b, c);
    RepliesDiffer();
    forall start, text
      ensures !OwnText(Log(c.env, LAPTOP), c.answers[0], start, text)
    {
      NotItsOwn(c.answers[0], start, text);
    }
  }
}
