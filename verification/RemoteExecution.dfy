/**
  A controller and an executor joined by a network that may drop, delay, duplicate and reorder,
  in the presence of any other peers.
 */
module RemoteExecution {
  import opened Tokens
  import opened Numerals
  import opened CalculatorEngine
  import opened CalculatorRuns
  import opened RemoteRouter

  /** A key as the controller sent it: the action and its own wall clock. */
  datatype Issue = Issue(action: CalcAction, sentMs: nat)

  /**
    The controller's action number `seqNo`, stamped `stampMs`, run as input number `at` during session epoch
    `epoch` when the executor's wall clock read `nowMs`.
   */
  datatype Execution = Execution(epoch: nat, seqNo: nat, at: nat, stampMs: nat, nowMs: nat)

  /**
    Both routers, every packet either ever handed to the network with its true sender, and the history:
    which key each number stands for, whether a key was sent when the counter had no number left for it, whether
    one was sent since the last accepted snapshot, which snapshots were accepted since the executor was selected,
    and what the executor's calculator has been fed.
   */
  datatype World = World(
    c: RouterState,
    e: RouterState,
    wire: set<(NodeId, Packet)>,
    issued: map<nat, Issue>,
    reused: bool,
    unanswered: bool,
    accepted: seq<nat>,
    epoch: nat,
    executions: seq<Execution>,
    inputs: seq<CalcInput>)

  datatype WorldEvent = AtController(ev: Event) | AtExecutor(ev: Event)

  /** A message from the other node must be on the wire; it stays there, so it may arrive again, late, or never. */
  ghost predicate Possible(w: World, x: WorldEvent) {
    && ValidEvent(x.ev)
    && match x
       case AtController(ev) =>
         && (ev.SetAllow? ==> !ev.b)
         && (ev.Receive? && ev.sender == w.e.id ==> (w.e.id, Packet(w.c.id, ev.msg)) in w.wire)
       case AtExecutor(ev) =>
         ev.Receive? && ev.sender == w.c.id ==> (w.c.id, Packet(w.e.id, ev.msg)) in w.wire
  }

  ghost predicate Admitted(r: RouterState, ev: Event) {
    ev.Receive? && ev.msg.Action? && Admits(r, ev.sender, ev.msg.envelope, ev.nowMs, ev.now)
  }

  ghost predicate Confirmed(r: RouterState, ev: Event) {
    ev.Receive? && ev.msg.StateUpdate? && AcceptsState(r, ev.sender, ev.msg.snapshot)
  }

  ghost function InputsOf(r: RouterState, ev: Event): seq<CalcInput> {
    if ev.Dispatch? && ValidAction(ev.action) then [Pressed(ev.action)]
    else if Admitted(r, ev) then [Pressed(ev.msg.envelope.action)]
    else if Confirmed(r, ev) then [Restored(ev.msg.snapshot.view)]
    else []
  }

  /** The calls that start or end the session with `n`, and with it the replay epoch. */
  ghost predicate Renews(r: RouterState, ev: Event, n: NodeId) {
    || (ev.Join? && ev.node == n && (n in r.connected || |r.connected| < MAX_TRACKED_REMOTE_PEERS))
    || (ev.Leave? && ev.node == n)
    || (ev.Sync? && n !in ev.bounded)
  }

  ghost function Sent(from: NodeId, p: Option<Packet>): set<(NodeId, Packet)> {
    if p.Some? then {(from, p.value)} else {}
  }

  ghost function ExecutionOf(w: World, ev: Event): Execution
    requires Admitted(w.e, ev)
  {
    Execution(w.epoch, ev.msg.envelope.seqNo, |w.inputs|, ev.msg.envelope.timestampMs, ev.nowMs)
  }

  ghost function Next(ar: Arithmetic, w: World, x: WorldEvent): World {
    match x
    case AtController(ev) =>
      var t := Apply(ar, w.c, ev);
      w.(c := t.state,
         wire := w.wire + Sent(w.c.id, t.sent),
         issued := if t.sent.Some? && ev.Dispatch?
                   then w.issued[t.state.localSeq := Issue(ev.action, ev.nowMs)] else w.issued,
         reused := w.reused || (t.sent.Some? && w.c.localSeq >= U64_MAX),
         unanswered := t.sent.Some? || (w.unanswered && !Confirmed(w.c, ev)),
         accepted := if Confirmed(w.c, ev) then w.accepted + [ev.msg.snapshot.seqNo]
                     else if t.state.lastUpdate == 0 then [] else w.accepted)
    case AtExecutor(ev) =>
      var t := Apply(ar, w.e, ev);
      w.(e := t.state,
         wire := w.wire + Sent(w.e.id, t.sent),
         epoch := if Renews(w.e, ev, w.c.id) then w.epoch + 1 else w.epoch,
         executions := if Admitted(w.e, ev) && ev.sender == w.c.id
                       then w.executions + [ExecutionOf(w, ev)] else w.executions,
         inputs := w.inputs + InputsOf(w.e, ev))
  }

  ghost predicate Legal(ar: Arithmetic, w: World, events: seq<WorldEvent>)
    decreases |events|
  {
    events == [] ||
    (Legal(ar, w, events[..|events| - 1])
     && Possible(After(ar, w, events[..|events| - 1]), events[|events| - 1]))
  }

  ghost function After(ar: Arithmetic, w: World, events: seq<WorldEvent>): World
    decreases |events|
  {
    if events == [] then w else Next(ar, After(ar, w, events[..|events| - 1]), events[|events| - 1])
  }

  /** Any two distinct routers in good order, the controller's own switch off, before anything was sent. */
  ghost predicate Initial(w: World) {
    && w.c.id != w.e.id && !w.c.allowed && StructInv(w.c) && StructInv(w.e) && w.c.lastUpdate == 0
    && w.wire == {} && w.issued == map[] && !w.reused && !w.unanswered
    && w.accepted == [] && w.executions == [] && w.inputs == []
  }

  // ---------- the invariant ----------

  /** Some execution of action number `seqNo` produced exactly this view. */
  ghost predicate Produced(ar: Arithmetic, start: CalcState, w: World, seqNo: nat, view: CalcResult) {
    exists k | 0 <= k < |w.executions| :: ProducedBy(ar, start, w, k, seqNo, view)
  }

  ghost predicate ProducedBy(ar: Arithmetic, start: CalcState, w: World, k: nat, seqNo: nat, view: CalcResult)
    requires k < |w.executions|
  {
    var x := w.executions[k];
    x.seqNo == seqNo && x.at < |w.inputs| && view == Shown(ar, Replay(ar, start, w.inputs[..x.at + 1]))
  }

  /** The number stands for this key, unless it is the last one and was used again. */
  ghost predicate Numbered(w: World, seqNo: nat, i: Issue) {
    0 < seqNo <= w.c.localSeq && (!w.reused || seqNo < U64_MAX ==> seqNo in w.issued && w.issued[seqNo] == i)
  }

  ghost function IssueOf(e: ActionEnvelope): Issue {
    Issue(e.action, e.timestampMs)
  }

  ghost function IssueRun(w: World, x: Execution): Issue
    requires x.at < |w.inputs| && w.inputs[x.at].Pressed?
  {
    Issue(w.inputs[x.at].action, x.stampMs)
  }

  ghost predicate ActionsOnWire(w: World) {
    forall p | (w.c.id, p) in w.wire && p.msg.Action? ::
      && p.msg.envelope.source == w.c.id
      && Numbered(w, p.msg.envelope.seqNo, IssueOf(p.msg.envelope))
  }

  ghost predicate StatesOnWire(ar: Arithmetic, start: CalcState, w: World) {
    forall p | (w.e.id, p) in w.wire && p.to == w.c.id && p.msg.StateUpdate? ::
      Produced(ar, start, w, p.msg.snapshot.seqNo, p.msg.snapshot.view)
  }

  ghost predicate ExecutionsKnown(w: World) {
    forall k | 0 <= k < |w.executions| ::
      var x := w.executions[k];
      && x.at < |w.inputs| && x.epoch <= w.epoch
      && w.inputs[x.at].Pressed? && Numbered(w, x.seqNo, IssueRun(w, x)) && ValidTimestamp(x.stampMs, x.nowMs)
      && (x.epoch == w.epoch ==> w.c.id in w.e.lastSeq && x.seqNo <= w.e.lastSeq[w.c.id])
  }

  /** Later executions run later, and inside one epoch they carry larger numbers. */
  ghost predicate InOrder(xs: seq<Execution>) {
    forall i, j | 0 <= i < j < |xs| ::
      xs[i].at < xs[j].at && xs[i].epoch <= xs[j].epoch && (xs[i].epoch == xs[j].epoch ==> xs[i].seqNo < xs[j].seqNo)
  }

  ghost predicate Increasing(ns: seq<nat>) {
    forall i, j | 0 <= i < j < |ns| :: ns[i] < ns[j]
  }

  ghost predicate AcceptedInOrder(w: World) {
    && Increasing(w.accepted)
    && (if w.accepted == [] then w.c.lastUpdate == 0 else w.c.lastUpdate == w.accepted[|w.accepted| - 1] > 0)
  }

  /** The controller believes its latest action was confirmed by this executor. */
  ghost predicate UpToDate(c: RouterState, executor: NodeId) {
    c.executor == Some(executor) && c.lastUpdate == c.localSeq > 0
  }

  /** Confirmed means produced; and short of a second key under one number, a key in flight means not confirmed. */
  ghost predicate Agrees(ar: Arithmetic, start: CalcState, w: World) {
    && (UpToDate(w.c, w.e.id) && !w.unanswered ==> Produced(ar, start, w, w.c.localSeq, w.c.screen))
    && (w.unanswered && !w.reused ==> w.c.lastUpdate < w.c.localSeq)
  }

  ghost predicate Sound(w: World) {
    && w.c.id != w.e.id && !w.c.allowed && StructInv(w.c) && StructInv(w.e)
    && (w.reused ==> w.c.localSeq >= U64_MAX)
  }

  ghost predicate Inv(ar: Arithmetic, start: CalcState, w: World) {
    && Sound(w) && ActionsOnWire(w) && StatesOnWire(ar, start, w)
    && ExecutionsKnown(w) && InOrder(w.executions) && AcceptedInOrder(w)
    && Agrees(ar, start, w) && w.e.engine == Replay(ar, start, w.inputs)
  }

  // ---------- one step of a controller whose switch is off ----------

  lemma ControllerSends(ar: Arithmetic, c: RouterState, ev: Event)
    requires !c.allowed
    ensures var t := Apply(ar, c, ev);
            && t.state.id == c.id && c.localSeq <= t.state.localSeq
            && (t.state.allowed ==> ev.SetAllow? && ev.b)
            && (t.sent.Some? ==>
                  && ev.Dispatch? && ValidAction(ev.action) && t.state.localSeq == NextSeq(c.localSeq)
                  && t.sent.value.msg == Action(ActionEnvelope(t.state.localSeq, c.id, ev.nowMs, ev.action)))
  {
    hide Press, Shown, Restore, ValidSnapshot, Charge, ValidTimestamp;
  }

  /**
    Only an accepted snapshot makes the controller up to date; a key that leaves it so was sent under a used
    number.
   */
  lemma ControllerConfirms(ar: Arithmetic, c: RouterState, ev: Event, executor: NodeId)
    requires !c.allowed && StructInv(c) && UpToDate(Apply(ar, c, ev).state, executor)
    ensures var d := Apply(ar, c, ev).state;
            if Confirmed(c, ev) then ev.sender == executor && ev.msg.snapshot == StateSnapshot(d.screen, d.localSeq)
            else if Apply(ar, c, ev).sent.Some? then UpToDate(c, executor) && c.localSeq >= U64_MAX
            else UpToDate(c, executor) && d.screen == c.screen && d.localSeq == c.localSeq
  {
    hide Press, Shown, Restore, ValidSnapshot, Charge, ValidTimestamp;
  }

  lemma ControllerCounts(ar: Arithmetic, c: RouterState, ev: Event)
    requires !c.allowed && StructInv(c)
    ensures var d := Apply(ar, c, ev).state;
            if Confirmed(c, ev) then d.lastUpdate == ev.msg.snapshot.seqNo > c.lastUpdate
            else d.lastUpdate == c.lastUpdate || d.lastUpdate == 0
  {
    hide Press, Shown, Restore, ValidSnapshot, Charge, ValidTimestamp;
  }

  // ---------- one step of an executor ----------

  lemma ExecutorCalculates(ar: Arithmetic, e: RouterState, ev: Event)
    ensures var t := Apply(ar, e, ev);
            && t.state.id == e.id
            && t.state.engine == (if InputsOf(e, ev) == [] then e.engine else Feed(ar, e.engine, InputsOf(e, ev)[0]))
            && |InputsOf(e, ev)| <= 1
  {
    hide Press, Shown, Restore, ValidSnapshot, Charge, ValidTimestamp;
  }

  lemma ExecutorReplies(ar: Arithmetic, e: RouterState, ev: Event)
    ensures var t := Apply(ar, e, ev);
            t.sent.Some? && t.sent.value.msg.StateUpdate? ==>
              var snapshot := StateSnapshot(Shown(ar, t.state.engine), ev.msg.envelope.seqNo);
              Admitted(e, ev) && t.sent.value == Packet(ev.sender, StateUpdate(snapshot))
  {
    hide Press, Shown, Restore, ValidSnapshot, Charge, ValidTimestamp;
  }

  lemma ExecutorRemembers(ar: Arithmetic, e: RouterState, ev: Event, n: NodeId)
    requires !Renews(e, ev, n)
    ensures var f := Apply(ar, e, ev).state;
            if Admitted(e, ev) && ev.sender == n then
              && Get(f.lastSeq, n) == Some(ev.msg.envelope.seqNo)
              && (n in e.lastSeq ==> e.lastSeq[n] < ev.msg.envelope.seqNo)
            else Get(f.lastSeq, n) == Get(e.lastSeq, n)
  {
    hide Press, Shown, Restore, ValidSnapshot, Charge, ValidTimestamp;
  }

  // ---------- the history only grows ----------

  lemma ProducedGrows(ar: Arithmetic, start: CalcState, w: World, v: World, seqNo: nat, view: CalcResult)
    requires Produced(ar, start, w, seqNo, view)
    requires w.executions <= v.executions && w.inputs <= v.inputs
    ensures Produced(ar, start, v, seqNo, view)
  {
    hide Replay, Shown;
    var k :| 0 <= k < |w.executions| && ProducedBy(ar, start, w, k, seqNo, view);
    var n := w.executions[k].at + 1;
    assert v.executions[k] == w.executions[k];
    assert v.inputs[..n] == w.inputs[..n];
    assert ProducedBy(ar, start, v, k, seqNo, view);
  }

  lemma ControllerKeepsNumbers(ar: Arithmetic, start: CalcState, w: World, x: WorldEvent, seqNo: nat, i: Issue)
    requires Inv(ar, start, w) && Possible(w, x) && Numbered(w, seqNo, i)
    ensures Numbered(Next(ar, w, x), seqNo, i)
  {
    hide Inv, Produced, StructInv, Apply;
    if x.AtController? {
      assert Sound(w) by { Unfold(ar, start, w); }
      ControllerSends(ar, w.c, x.ev);
    }
  }

  lemma Unfold(ar: Arithmetic, start: CalcState, w: World)
    requires Inv(ar, start, w)
    ensures Sound(w) && ActionsOnWire(w) && StatesOnWire(ar, start, w)
    ensures ExecutionsKnown(w) && InOrder(w.executions) && AcceptedInOrder(w)
    ensures Agrees(ar, start, w) && w.e.engine == Replay(ar, start, w.inputs)
  {
    hide Sound, ActionsOnWire, StatesOnWire, ExecutionsKnown, InOrder, AcceptedInOrder, Agrees, Replay;
  }

  lemma SoundStep(ar: Arithmetic, w: World, x: WorldEvent)
    requires Sound(w) && Possible(w, x)
    ensures Sound(Next(ar, w, x)) && Next(ar, w, x).c.id == w.c.id && Next(ar, w, x).e.id == w.e.id
  {
    hide StructInv, Apply, InputsOf;
    if x.AtController? {
      ControllerSends(ar, w.c, x.ev);
      ApplyKeepsStructure(ar, w.c, x.ev);
    } else {
      ExecutorCalculates(ar, w.e, x.ev);
      ApplyKeepsStructure(ar, w.e, x.ev);
    }
  }

  lemma ActionsStep(ar: Arithmetic, start: CalcState, w: World, x: WorldEvent)
    requires Inv(ar, start, w) && Possible(w, x)
    ensures ActionsOnWire(Next(ar, w, x))
  {
    hide Inv, StructInv, Apply, Numbered, Possible, Sound;
    var v := Next(ar, w, x);
    assert Sound(w) && ActionsOnWire(w) by { Unfold(ar, start, w); }
    SoundStep(ar, w, x);
    forall p | (v.c.id, p) in v.wire && p.msg.Action?
      ensures p.msg.envelope.source == v.c.id && Numbered(v, p.msg.envelope.seqNo, IssueOf(p.msg.envelope))
    {
      if (w.c.id, p) in w.wire {
        ControllerKeepsNumbers(ar, start, w, x, p.msg.envelope.seqNo, IssueOf(p.msg.envelope));
      } else {
        FreshAction(ar, w, x, p);
      }
    }
  }

  lemma FreshAction(ar: Arithmetic, w: World, x: WorldEvent, p: Packet)
    requires Sound(w) && (w.c.id, p) !in w.wire && (w.c.id, p) in Next(ar, w, x).wire && p.msg.Action?
    ensures p.msg.envelope.source == w.c.id && Numbered(Next(ar, w, x), p.msg.envelope.seqNo, IssueOf(p.msg.envelope))
  {
    hide StructInv, Apply, InputsOf;
    if x.AtController? {
      ControllerSends(ar, w.c, x.ev);
    }
  }

  lemma StatesStep(ar: Arithmetic, start: CalcState, w: World, x: WorldEvent)
    requires Inv(ar, start, w) && Possible(w, x)
    ensures StatesOnWire(ar, start, Next(ar, w, x))
  {
    hide Inv, StructInv, Apply, Produced, Possible, Sound;
    var v := Next(ar, w, x);
    assert Sound(w) && StatesOnWire(ar, start, w)
           && w.e.engine == Replay(ar, start, w.inputs) by { Unfold(ar, start, w); }
    SoundStep(ar, w, x);
    forall p | (v.e.id, p) in v.wire && p.to == v.c.id && p.msg.StateUpdate?
      ensures Produced(ar, start, v, p.msg.snapshot.seqNo, p.msg.snapshot.view)
    {
      if (w.e.id, p) in w.wire {
        ProducedGrows(ar, start, w, v, p.msg.snapshot.seqNo, p.msg.snapshot.view);
      } else {
        FreshState(ar, start, w, x, p);
      }
    }
  }

  lemma ReplayOne(ar: Arithmetic, start: CalcState, inputs: seq<CalcInput>, more: seq<CalcInput>)
    requires |more| <= 1
    ensures Replay(ar, start, inputs + more) ==
            if more == [] then Replay(ar, start, inputs) else Feed(ar, Replay(ar, start, inputs), more[0])
  {
    hide Feed;
    if more == [] {
      assert inputs + more == inputs;
    } else {
      assert (inputs + more)[..|inputs + more| - 1] == inputs;
    }
  }

  lemma FreshState(ar: Arithmetic, start: CalcState, w: World, x: WorldEvent, p: Packet)
    requires Sound(w) && w.e.engine == Replay(ar, start, w.inputs)
    requires (w.e.id, p) !in w.wire && (w.e.id, p) in Next(ar, w, x).wire && p.to == w.c.id && p.msg.StateUpdate?
    ensures Produced(ar, start, Next(ar, w, x), p.msg.snapshot.seqNo, p.msg.snapshot.view)
  {
    hide StructInv, Apply, Replay, Feed, Shown, Admits;
    var v := Next(ar, w, x);
    if x.AtExecutor? {
      ExecutorReplies(ar, w.e, x.ev);
      ExecutorCalculates(ar, w.e, x.ev);
      ReplayOne(ar, start, w.inputs, InputsOf(w.e, x.ev));
      var k := |w.executions|;
      assert v.executions[k] == ExecutionOf(w, x.ev);
      assert v.inputs[..|w.inputs| + 1] == v.inputs;
      assert ProducedBy(ar, start, v, k, p.msg.snapshot.seqNo, p.msg.snapshot.view);
    }
  }

  lemma ExecutionsStep(ar: Arithmetic, start: CalcState, w: World, x: WorldEvent)
    requires Inv(ar, start, w) && Possible(w, x)
    ensures ExecutionsKnown(Next(ar, w, x)) && InOrder(Next(ar, w, x).executions)
  {
    hide Inv, StructInv, Apply, Numbered, Possible, Admits, AcceptsState;
    var v := Next(ar, w, x);
    assert Sound(w) && ExecutionsKnown(w) && InOrder(w.executions) && ActionsOnWire(w) by { Unfold(ar, start, w); }
    SoundStep(ar, w, x);
    forall k | 0 <= k < |v.executions|
      ensures var y := v.executions[k];
              && y.at < |v.inputs| && y.epoch <= v.epoch && v.inputs[y.at].Pressed?
              && Numbered(v, y.seqNo, IssueRun(v, y)) && ValidTimestamp(y.stampMs, y.nowMs)
              && (y.epoch == v.epoch ==> v.c.id in v.e.lastSeq && y.seqNo <= v.e.lastSeq[v.c.id])
    {
      if k < |w.executions| {
        OldExecution(ar, start, w, x, k);
      } else {
        NewExecution(ar, start, w, x);
      }
    }
    if |v.executions| > |w.executions| {
      NewExecutionIsLast(ar, w, x);
    }
  }

  lemma OldExecution(ar: Arithmetic, start: CalcState, w: World, x: WorldEvent, k: nat)
    requires Inv(ar, start, w) && Possible(w, x) && k < |w.executions|
    ensures var v, y := Next(ar, w, x), w.executions[k];
            && v.executions[k] == y && y.at < |v.inputs| && y.epoch <= v.epoch
            && v.inputs[y.at].Pressed? && Numbered(v, y.seqNo, IssueRun(v, y)) && ValidTimestamp(y.stampMs, y.nowMs)
            && (y.epoch == v.epoch ==> v.c.id in v.e.lastSeq && y.seqNo <= v.e.lastSeq[v.c.id])
  {
    hide Inv, StructInv, Apply, Numbered, Possible, Sound, Admits, AcceptsState;
    var v, y := Next(ar, w, x), w.executions[k];
    assert ExecutionsKnown(w) && Sound(w) by { Unfold(ar, start, w); }
    ControllerKeepsNumbers(ar, start, w, x, y.seqNo, IssueRun(w, y));
    SoundStep(ar, w, x);
    if x.AtExecutor? && !Renews(w.e, x.ev, w.c.id) {
      ExecutorRemembers(ar, w.e, x.ev, w.c.id);
    }
  }

  lemma NewExecution(ar: Arithmetic, start: CalcState, w: World, x: WorldEvent)
    requires Inv(ar, start, w) && Possible(w, x) && |Next(ar, w, x).executions| > |w.executions|
    ensures var v := Next(ar, w, x);
            && |v.executions| == |w.executions| + 1
            && var y := v.executions[|w.executions|];
               && y.at < |v.inputs| && y.epoch <= v.epoch && v.inputs[y.at].Pressed?
               && Numbered(v, y.seqNo, IssueRun(v, y)) && ValidTimestamp(y.stampMs, y.nowMs)
               && v.c.id in v.e.lastSeq && y.seqNo <= v.e.lastSeq[v.c.id]
  {
    hide Inv, StructInv, Apply, Numbered, Sound, Charge, ValidTimestamp, AcceptsState;
    assert ActionsOnWire(w) by { Unfold(ar, start, w); }
    var env := x.ev.msg.envelope;
    ControllerKeepsNumbers(ar, start, w, x, env.seqNo, IssueOf(env));
    ExecutorRemembers(ar, w.e, x.ev, w.c.id);
  }

  lemma NewExecutionIsLast(ar: Arithmetic, w: World, x: WorldEvent)
    requires ExecutionsKnown(w) && |Next(ar, w, x).executions| > |w.executions|
    ensures var v := Next(ar, w, x);
            && |v.executions| == |w.executions| + 1
            && forall i | 0 <= i < |w.executions| ::
                 var y, z := w.executions[i], v.executions[|w.executions|];
                 v.executions[i] == y && y.at < z.at && y.epoch <= z.epoch && (y.epoch == z.epoch ==> y.seqNo < z.seqNo)
  {
    hide StructInv, Apply, Numbered, Admits, AcceptsState;
    ExecutorRemembers(ar, w.e, x.ev, w.c.id);
  }

  lemma AcceptedStep(ar: Arithmetic, w: World, x: WorldEvent)
    requires Sound(w) && AcceptedInOrder(w)
    ensures AcceptedInOrder(Next(ar, w, x))
  {
    hide StructInv, Apply, AcceptsState;
    if x.AtController? {
      ControllerCounts(ar, w.c, x.ev);
    }
  }

  lemma AgreementStep(ar: Arithmetic, start: CalcState, w: World, x: WorldEvent)
    requires Inv(ar, start, w) && Possible(w, x)
    ensures Agrees(ar, start, Next(ar, w, x))
  {
    hide Inv, StructInv, Apply, Produced, AcceptsState, Admits;
    var v := Next(ar, w, x);
    assert Sound(w) && Agrees(ar, start, w) && StatesOnWire(ar, start, w) by { Unfold(ar, start, w); }
    SoundStep(ar, w, x);
    if UpToDate(v.c, v.e.id) && !v.unanswered {
      if x.AtController? {
        ControllerConfirms(ar, w.c, x.ev, w.e.id);
      }
      ProducedGrows(ar, start, w, v, v.c.localSeq, v.c.screen);
    }
    if x.AtController? {
      InFlightStep(ar, w, x);
    }
  }

  lemma InFlightStep(ar: Arithmetic, w: World, x: WorldEvent)
    requires x.AtController? && Sound(w) && (w.unanswered && !w.reused ==> w.c.lastUpdate < w.c.localSeq)
    ensures var v := Next(ar, w, x); v.unanswered && !v.reused ==> v.c.lastUpdate < v.c.localSeq
  {
    hide Apply, AcceptsState, Admits;
    ControllerSends(ar, w.c, x.ev);
    ControllerCounts(ar, w.c, x.ev);
  }

  lemma ReplayStep(ar: Arithmetic, start: CalcState, w: World, x: WorldEvent)
    requires w.e.engine == Replay(ar, start, w.inputs)
    ensures Next(ar, w, x).e.engine == Replay(ar, start, Next(ar, w, x).inputs)
  {
    hide StructInv, Apply, Replay, Feed, InputsOf;
    if x.AtExecutor? {
      ExecutorCalculates(ar, w.e, x.ev);
      ReplayOne(ar, start, w.inputs, InputsOf(w.e, x.ev));
    }
  }

  lemma InvStep(ar: Arithmetic, start: CalcState, w: World, x: WorldEvent)
    requires Inv(ar, start, w) && Possible(w, x)
    ensures Inv(ar, start, Next(ar, w, x))
  {
    hide Sound, ActionsOnWire, StatesOnWire, ExecutionsKnown, InOrder, AcceptedInOrder, Agrees, Next, Possible, Replay;
    SoundStep(ar, w, x);
    ActionsStep(ar, start, w, x);
    StatesStep(ar, start, w, x);
    ExecutionsStep(ar, start, w, x);
    AcceptedStep(ar, w, x);
    AgreementStep(ar, start, w, x);
    ReplayStep(ar, start, w, x);
  }

  lemma {:induction false} InvAlways(ar: Arithmetic, w: World, events: seq<WorldEvent>)
    requires Initial(w) && Legal(ar, w, events)
    ensures Inv(ar, w.e.engine, After(ar, w, events))
    decreases |events|
  {
    if events == [] {
      assert Inv(ar, w.e.engine, w);
    } else {
      InvAlways(ar, w, events[..|events| - 1]);
      InvStep(ar, w.e.engine, After(ar, w, events[..|events| - 1]), events[|events| - 1]);
    }
  }

  // ---------- what holds after every run ----------

  /**
    Two-node agreement. Whenever the controller's last accepted snapshot carries its latest action number and no
    key was sent after it, what the controller shows is what the executor showed right after running that number.
    While no number was used twice, the number alone says so, and what ran is the very key it was given to; below
    the largest number none can have been used twice. And the accepted numbers only went up since the selection.
   */
  lemma TwoNodeAgreement(ar: Arithmetic, w: World, events: seq<WorldEvent>)
    requires Initial(w) && Legal(ar, w, events)
    ensures var v := After(ar, w, events);
            && Increasing(v.accepted)
            && (v.c.localSeq < U64_MAX ==> !v.reused)
            && (UpToDate(v.c, v.e.id) && !v.reused ==> !v.unanswered)
            && (UpToDate(v.c, v.e.id) && !v.unanswered ==>
                  exists k | 0 <= k < |v.executions| ::
                    var x := v.executions[k];
                    && x.seqNo == v.c.localSeq && x.at < |v.inputs|
                    && (!v.reused ==> x.seqNo in v.issued && v.inputs[x.at] == Pressed(v.issued[x.seqNo].action))
                    && v.c.screen == Shown(ar, Replay(ar, w.e.engine, v.inputs[..x.at + 1])))
  {
    hide After, Replay, Legal;
    InvAlways(ar, w, events);
    var v := After(ar, w, events);
    if UpToDate(v.c, v.e.id) && !v.unanswered {
      var k :| 0 <= k < |v.executions| && ProducedBy(ar, w.e.engine, v, k, v.c.localSeq, v.c.screen);
      assert v.executions[k].seqNo == v.c.localSeq;
    }
  }

  /**
    Every execution is of a key the controller did send under that number, with the stamp it carries, and it
    ran no more than thirty seconds ahead of that stamp and no more than five minutes behind it.
   */
  lemma ExecutedAsSentAndCurrent(ar: Arithmetic, w: World, events: seq<WorldEvent>, k: nat)
    requires Initial(w) && Legal(ar, w, events)
    ensures var v := After(ar, w, events);
            k < |v.executions| ==>
              var x := v.executions[k];
              && x.stampMs - 30_000 <= x.nowMs <= x.stampMs + 300_000
              && (!v.reused || x.seqNo < U64_MAX ==>
                    && x.seqNo in v.issued && x.at < |v.inputs|
                    && v.inputs[x.at] == Pressed(v.issued[x.seqNo].action) && x.stampMs == v.issued[x.seqNo].sentMs)
  {
    hide After, Replay, Legal;
    InvAlways(ar, w, events);
  }

  /**
    Inside a session epoch each number runs at most once and in increasing order, however often the switch is
    toggled.
   */
  lemma AtMostOnceInOrder(ar: Arithmetic, w: World, events: seq<WorldEvent>, i: nat, j: nat)
    requires Initial(w) && Legal(ar, w, events)
    requires i < j < |After(ar, w, events).executions|
    ensures var xs := After(ar, w, events).executions;
            xs[i].at < xs[j].at && (xs[i].epoch == xs[j].epoch ==> xs[i].seqNo < xs[j].seqNo)
  {
    InvAlways(ar, w, events);
  }

  /** A number that ran in the current epoch is refused from then on, whatever arrives and however the switch stands. */
  lemma NeverAgainThisEpoch(ar: Arithmetic, w: World, events: seq<WorldEvent>, k: nat, env: ActionEnvelope, nowMs: nat)
    requires Initial(w) && Legal(ar, w, events)
    ensures var v := After(ar, w, events);
            k < |v.executions| && v.executions[k].epoch == v.epoch && env.seqNo <= v.executions[k].seqNo ==>
              Refused(v.e, v.c.id, env, nowMs)
  {
    hide After, Legal, Replay;
    InvAlways(ar, w, events);
  }

  /** The executor's calculator is exactly the replay of what it accepted, from its peers and from its own keys. */
  lemma ExecutorIsReplay(ar: Arithmetic, w: World, events: seq<WorldEvent>)
    requires Initial(w) && Legal(ar, w, events)
    ensures var v := After(ar, w, events); v.e.engine == Replay(ar, w.e.engine, v.inputs)
  {
    InvAlways(ar, w, events);
  }

  /**
    Everything one prompt exchange needs: both ends connected and willing, fresh times, budget left, a showable
    result.
   */
  ghost predicate WillExchange(ar: Arithmetic, w: World, a: CalcAction, sentMs: nat, nowMs: nat, now: nat) {
    var n := NextSeq(w.c.localSeq);
    && Sound(w) && ValidAction(a) && w.c.lastUpdate < n
    && w.c.executor == Some(w.e.id) && w.e.id in w.c.connected
    && w.c.id in w.e.connected && w.e.allowed && sentMs - 30_000 <= nowMs <= sentMs + 300_000
    && (w.c.id in w.e.lastSeq ==> w.e.lastSeq[w.c.id] < n)
    && HasBudget(w.e, w.c.id, now)
    && Acceptable(Shown(ar, Press(ar, w.e.engine, a)))
  }

  /** A key, its delivery to the executor, and the delivery of the reply. */
  ghost function Exchange(ar: Arithmetic, w: World, a: CalcAction, sentMs: nat, nowMs: nat, now: nat): seq<WorldEvent>
    requires ValidAction(a)
  {
    var n, view := NextSeq(w.c.localSeq), Shown(ar, Press(ar, w.e.engine, a));
    [AtController(Dispatch(a, sentMs, true)),
     AtExecutor(Receive(w.c.id, Action(ActionEnvelope(n, w.c.id, sentMs, a)), nowMs, now, true)),
     AtController(Receive(w.e.id, StateUpdate(StateSnapshot(view, n)), nowMs, now, true))]
  }

  /** And then it does agree: key, delivery and reply leave the controller showing what its executor shows. */
  lemma PromptExchangeAgrees(ar: Arithmetic, w: World, a: CalcAction, sentMs: nat, nowMs: nat, now: nat)
    requires WillExchange(ar, w, a, sentMs, nowMs, now)
    ensures var run := Exchange(ar, w, a, sentMs, nowMs, now);
            var view := Shown(ar, Press(ar, w.e.engine, a));
            && Legal(ar, w, run)
            && var v := After(ar, w, run);
               && UpToDate(v.c, v.e.id) && v.c.localSeq == NextSeq(w.c.localSeq) && v.c.screen == v.e.screen == view
               && v.c == w.c.(localSeq := v.c.localSeq, lastUpdate := v.c.localSeq, screen := view,
                              engine := Restore(Press(ar, w.c.engine, a), view))
               && v.e.id == w.e.id && v.e.engine == Press(ar, w.e.engine, a) && v.inputs == w.inputs + [Pressed(a)]
               && v.executions == w.executions + [Execution(w.epoch, v.c.localSeq, |w.inputs|, sentMs, nowMs)]
  {
    hide Press, Shown, Restore, ValidSnapshot, Acceptable, Charge, HasBudget, ValidTimestamp;
    CurrentStamp(sentMs, nowMs);
    Budget(w.e, w.c.id, now);
    ValidIsAcceptable(Shown(ar, Press(ar, w.e.engine, a)));
    var run := Exchange(ar, w, a, sentMs, nowMs, now);
    var view := Shown(ar, Press(ar, w.e.engine, a));
    var w1 := Next(ar, w, run[0]);
    assert Possible(w, run[0]);
    assert w1.c.localSeq == NextSeq(w.c.localSeq) && (w.c.id, Packet(w.e.id, run[1].ev.msg)) in w1.wire;
    assert Possible(w1, run[1]);
    var w2 := Next(ar, w1, run[1]);
    assert w2.e.screen == view && (w.e.id, Packet(w.c.id, run[2].ev.msg)) in w2.wire;
    assert Possible(w2, run[2]);
    ThreeSteps(ar, w, run[0], run[1], run[2]);
  }

  lemma ThreeSteps(ar: Arithmetic, w: World, e1: WorldEvent, e2: WorldEvent, e3: WorldEvent)
    requires Possible(w, e1)
    requires Possible(Next(ar, w, e1), e2)
    requires Possible(Next(ar, Next(ar, w, e1), e2), e3)
    ensures Legal(ar, w, [e1, e2, e3])
    ensures After(ar, w, [e1, e2, e3]) == Next(ar, Next(ar, Next(ar, w, e1), e2), e3)
  {
    hide Next, Possible;
    assert [e1, e2, e3][..2] == [e1, e2] && [e1, e2][..1] == [e1] && [e1][..0] == [];
    assert After(ar, w, [e1]) == Next(ar, w, e1);
    assert After(ar, w, [e1, e2]) == Next(ar, After(ar, w, [e1]), e2);
    assert Legal(ar, w, [e1]);
    assert Legal(ar, w, [e1, e2]);
  }

  // ---------- where the numbers end ----------

  /**
    A key sent to the executor leaves the controller looking confirmed exactly when the counter is saturated and
    it was confirmed before; and then what it shows is its own guess, for nothing was executed.
   */
  lemma FalselyConfirmedOnlyWhenSaturated(ar: Arithmetic, w: World, a: CalcAction, nowMs: nat)
    requires Sound(w) && ValidAction(a) && w.c.executor == Some(w.e.id) && w.e.id in w.c.connected
    ensures var v := Next(ar, w, AtController(Dispatch(a, nowMs, true)));
            && (UpToDate(v.c, v.e.id) <==> w.c.localSeq >= U64_MAX && UpToDate(w.c, w.e.id))
            && (v.reused <==> w.c.localSeq >= U64_MAX) && v.unanswered && v.c.localSeq == NextSeq(w.c.localSeq)
            && v.c.screen == Shown(ar, Press(ar, w.c.engine, a))
            && v.executions == w.executions && v.inputs == w.inputs && v.e == w.e
  {
    hide Press, Shown;
  }

  /**
    A first key under the last number is confirmed like any other. A second one is sent under the same number, and
    the controller still looks confirmed; it agrees with some execution of that number exactly when the guess it
    shows happens to be the view of the first key.
   */
  lemma ReusedNumberAgreesIffSameView(
    ar: Arithmetic, w: World, a: CalcAction, b: CalcAction, sentMs: nat, nowMs: nat, now: nat, againMs: nat)
    requires Initial(w) && WillExchange(ar, w, a, sentMs, nowMs, now) && ValidAction(b) && w.c.localSeq == U64_MAX
    ensures var run := Exchange(ar, w, a, sentMs, nowMs, now) + [AtController(Dispatch(b, againMs, true))];
            var view := Shown(ar, Press(ar, w.e.engine, a));
            && Legal(ar, w, run)
            && var v := After(ar, w, run);
               && UpToDate(v.c, v.e.id) && v.c.localSeq == U64_MAX && v.reused && |v.executions| == 1
               && v.c.screen == Shown(ar, Press(ar, Restore(Press(ar, w.c.engine, a), view), b))
               && (Produced(ar, w.e.engine, v, v.c.localSeq, v.c.screen) <==> v.c.screen == view)
  {
    hide Press, Shown, Restore, WillExchange, Apply, Replay, Exchange, Possible, Next;
    ExchangePartners(ar, w, a, sentMs, nowMs, now);
    var first, last := Exchange(ar, w, a, sentMs, nowMs, now), AtController(Dispatch(b, againMs, true));
    PromptExchangeAgrees(ar, w, a, sentMs, nowMs, now);
    var u := After(ar, w, first);
    StillSound(ar, w, first);
    DispatchIsPossible(u, b, againMs);
    OneMore(ar, w, first, last);
    FalselyConfirmedOnlyWhenSaturated(ar, u, b, againMs);
    OnlyExecution(ar, w.e.engine, Next(ar, u, last), a);
  }

  lemma ExchangePartners(ar: Arithmetic, w: World, a: CalcAction, sentMs: nat, nowMs: nat, now: nat)
    requires WillExchange(ar, w, a, sentMs, nowMs, now)
    ensures w.c.executor == Some(w.e.id) && w.e.id in w.c.connected && ValidAction(a)
  {
    hide Sound, Acceptable, HasBudget;
  }

  lemma StillSound(ar: Arithmetic, w: World, events: seq<WorldEvent>)
    requires Initial(w) && Legal(ar, w, events)
    ensures Sound(After(ar, w, events))
  {
    hide After, Legal, Sound, Initial;
    InvAlways(ar, w, events);
    Unfold(ar, w.e.engine, After(ar, w, events));
  }

  lemma DispatchIsPossible(w: World, a: CalcAction, nowMs: nat)
    ensures Possible(w, AtController(Dispatch(a, nowMs, true)))
  {
  }

  lemma OneMore(ar: Arithmetic, w: World, events: seq<WorldEvent>, x: WorldEvent)
    requires Legal(ar, w, events) && Possible(After(ar, w, events), x)
    ensures Legal(ar, w, events + [x]) && After(ar, w, events + [x]) == Next(ar, After(ar, w, events), x)
  {
    hide Possible, Next;
    assert (events + [x])[..|events + [x]| - 1] == events;
  }

  lemma OnlyExecution(ar: Arithmetic, start: CalcState, v: World, a: CalcAction)
    requires |v.executions| == 1 && v.executions[0].at == 0 && v.executions[0].seqNo == v.c.localSeq
    requires v.inputs == [Pressed(a)] && ValidAction(a)
    ensures Produced(ar, start, v, v.c.localSeq, v.c.screen) <==> v.c.screen == Shown(ar, Press(ar, start, a))
  {
    hide Press, Shown;
    ReplayOne(ar, start, [], [Pressed(a)]);
    assert [] + [Pressed(a)] == [Pressed(a)];
    assert v.inputs[..1] == [Pressed(a)];
    assert Replay(ar, start, v.inputs[..1]) == Press(ar, start, a);
    assert ProducedBy(ar, start, v, 0, v.c.localSeq, v.c.screen) <==> v.c.screen == Shown(ar, Press(ar, start, a));
  }

  const BLANK := CalcResult("0", "", "", false)

  /** A controller at the last number and a willing executor, both with fresh calculators. */
  const LAST_NUMBER := World(
    RouterState(1, false, {2}, map[], Some(2), {}, map[], map[], U64_MAX, 0, FRESH, BLANK),
    RouterState(2, true, {1}, map[], None, {}, map[], map[], 0, 0, FRESH, BLANK),
    {}, map[], false, false, [], 0, [], [])

  /** So agreement does fail there: after 1 and then 2 the controller looks confirmed and shows what nobody executed. */
  lemma AgreementFailsAtTheLastNumber(ar: Arithmetic)
    ensures var run := Exchange(ar, LAST_NUMBER, Digit(1), 0, 0, 0) + [AtController(Dispatch(Digit(2), 0, true))];
            && Initial(LAST_NUMBER) && Legal(ar, LAST_NUMBER, run)
            && var v := After(ar, LAST_NUMBER, run);
               && UpToDate(v.c, v.e.id) && |v.executions| == 1 && v.c.screen.display == "2"
               && !Produced(ar, FRESH, v, v.c.localSeq, v.c.screen)
  {
    hide Legal, After, Exchange, Produced, UpToDate;
    OneThenTwo(ar);
    LastNumberIsReady(ar);
    ReusedNumberAgreesIffSameView(ar, LAST_NUMBER, Digit(1), Digit(2), 0, 0, 0, 0);
  }

  lemma LastNumberIsReady(ar: Arithmetic)
    ensures Initial(LAST_NUMBER) && WillExchange(ar, LAST_NUMBER, Digit(1), 0, 0, 0)
  {
    hide Acceptable;
    OneThenTwo(ar);
  }

  lemma OneThenTwo(ar: Arithmetic)
    ensures var view := Shown(ar, Press(ar, FRESH, Digit(1)));
            && view == CalcResult("1", "", "", false) && Acceptable(view)
            && Shown(ar, Press(ar, Restore(Press(ar, FRESH, Digit(1)), view), Digit(2))).display == "2"
  {
    assert "" + [DigitChar(1)] == "1" && "" + [DigitChar(2)] == "2";
    FirstKeys(1);
    assert "1"[1..] == "";
  }
}
