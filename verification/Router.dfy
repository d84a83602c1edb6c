/** The remote-execution router: one selected executor, one permission switch, replay and rate filters. */
module RemoteRouter {
  import opened Tokens
  import opened Numerals
  import opened CalculatorEngine

  type NodeId = nat
  type PublicKey = nat

  const MAX_TRACKED_REMOTE_PEERS := 64
  const MAX_REMOTE_ACTIONS_PER_SECOND := 120
  const MAX_ACTION_AGE_MS := 300_000
  const MAX_ACTION_FUTURE_SKEW_MS := 30_000
  const MAX_DISPLAY_BYTES := 64
  const MAX_HISTORY_BYTES := 256
  const MAX_MEMORY_INDICATOR_BYTES := 8
  /** One second of the monotonic clock, which counts nanoseconds. */
  const SECOND := 1_000_000_000
  const U64_MAX := 0xFFFF_FFFF_FFFF_FFFF

  datatype ActionEnvelope = ActionEnvelope(seqNo: nat, source: NodeId, timestampMs: nat, action: CalcAction)

  datatype StateSnapshot = StateSnapshot(view: CalcResult, seqNo: nat)

  /** The messages the router acts on; heartbeat, session-control and legacy messages have no effect here. */
  datatype Message = Action(envelope: ActionEnvelope) | StateUpdate(snapshot: StateSnapshot) | Ignored

  datatype Packet = Packet(to: NodeId, msg: Message)

  datatype RateWindow = RateWindow(started: nat, count: nat)

  datatype RouterState = RouterState(
    id: NodeId,
    allowed: bool,
    connected: set<NodeId>,
    keys: map<NodeId, PublicKey>,
    executor: Option<NodeId>,
    controllers: set<NodeId>,
    lastSeq: map<NodeId, nat>,
    windows: map<NodeId, RateWindow>,
    localSeq: nat,
    lastUpdate: nat,
    engine: CalcState,
    screen: CalcResult)

  /** A state after a call, and the one packet the call may have handed to the network. */
  datatype Step = Step(state: RouterState, sent: Option<Packet>)

  // ---------- the validators ----------

  function Utf8Len(s: string): nat {
    if s == "" then 0
    else
      var c := s[0] as int;
      (if c < 0x80 then 1 else if c < 0x800 then 2 else if c < 0x1_0000 then 3 else 4) + Utf8Len(s[1..])
  }

  predicate NoControl(s: string) {
    forall i | 0 <= i < |s| :: !(s[i] as int < 0x20 || 0x7f <= s[i] as int <= 0x9f)
  }

  predicate ValidSnapshot(v: CalcResult) {
    && Utf8Len(v.display) <= MAX_DISPLAY_BYTES && Utf8Len(v.history) <= MAX_HISTORY_BYTES
    && Utf8Len(v.memoryIndicator) <= MAX_MEMORY_INDICATOR_BYTES
    && NoControl(v.display) && NoControl(v.history) && NoControl(v.memoryIndicator)
    && (v.memoryIndicator == "" || v.memoryIndicator == "M")
    && if v.isError then v.display == "错误" else IsNumeral(v.display)
  }

  predicate ValidTimestamp(timestampMs: nat, nowMs: nat) {
    if timestampMs > nowMs then timestampMs - nowMs <= MAX_ACTION_FUTURE_SKEW_MS
    else nowMs - timestampMs <= MAX_ACTION_AGE_MS
  }

  function NextSeq(n: nat): nat {
    if n < U64_MAX then n + 1 else n
  }

  // ---------- the fixed-window rate limiter ----------

  function OpenWindow(w: Option<RateWindow>, now: nat): RateWindow {
    if w.Some? && now < w.value.started + SECOND then w.value else RateWindow(now, 0)
  }

  /** The window after one request at `now`, and whether the request was within budget. */
  function Charge(w: Option<RateWindow>, now: nat): (RateWindow, bool) {
    var open := OpenWindow(w, now);
    if open.count >= MAX_REMOTE_ACTIONS_PER_SECOND then (open, false) else (open.(count := open.count + 1), true)
  }

  // ---------- what each call does to the state ----------

  function Get<T>(m: map<NodeId, T>, k: NodeId): Option<T> {
    if k in m then Some(m[k]) else None
  }

  function Kept<T>(m: map<NodeId, T>, nodes: set<NodeId>): (k: map<NodeId, T>)
    ensures k.Keys == m.Keys * nodes && forall n | n in k :: k[n] == m[n]
  {
    map n | n in m && n in nodes :: m[n]
  }

  function Calculated(ar: Arithmetic, r: RouterState, a: CalcAction): RouterState
    requires ValidAction(a)
  {
    var engine := Press(ar, r.engine, a);
    r.(engine := engine, screen := Shown(ar, engine))
  }

  function Deselected(r: RouterState): RouterState {
    r.(executor := None, lastUpdate := 0)
  }

  function Joined(r: RouterState, n: NodeId): RouterState {
    if n !in r.connected && |r.connected| >= MAX_TRACKED_REMOTE_PEERS then r
    else r.(connected := r.connected + {n}, lastSeq := r.lastSeq - {n}, windows := r.windows - {n})
  }

  function Left(r: RouterState, n: NodeId): RouterState {
    var s := r.(connected := r.connected - {n}, keys := r.keys - {n}, controllers := r.controllers - {n},
                lastSeq := r.lastSeq - {n}, windows := r.windows - {n});
    if r.executor == Some(n) then Deselected(s) else s
  }

  function Synced(r: RouterState, bounded: set<NodeId>): RouterState {
    var s := r.(connected := bounded,
                controllers := r.controllers * bounded,
                keys := Kept(r.keys, bounded),
                lastSeq := Kept(r.lastSeq, bounded),
                windows := Kept(r.windows, bounded));
    if r.executor.Some? && r.executor.value !in bounded then Deselected(s) else s
  }

  function Switched(r: RouterState, allowed: bool): RouterState {
    if allowed then r.(allowed := true) else r.(allowed := false, controllers := {}, windows := map[])
  }

  function Dispatched(ar: Arithmetic, r: RouterState, a: CalcAction, nowMs: nat, sendOk: bool): Step {
    if !ValidAction(a) then Step(r, None)
    else if r.executor.Some? && r.executor.value in r.connected then
      var numbered := r.(localSeq := NextSeq(r.localSeq));
      if sendOk then
        Step(Calculated(ar, numbered, a),
             Some(Packet(r.executor.value, Action(ActionEnvelope(numbered.localSeq, r.id, nowMs, a)))))
      else Step(Calculated(ar, Deselected(numbered), a), None)
    else Step(Calculated(ar, r, a), None)
  }

  predicate Refused(r: RouterState, sender: NodeId, e: ActionEnvelope, nowMs: nat) {
    || sender != e.source
    || sender !in r.connected
    || !r.allowed
    || !ValidAction(e.action)
    || !ValidTimestamp(e.timestampMs, nowMs)
    || e.seqNo == 0
    || (sender in r.lastSeq && e.seqNo <= r.lastSeq[sender])
  }

  predicate Admits(r: RouterState, sender: NodeId, e: ActionEnvelope, nowMs: nat, now: nat) {
    !Refused(r, sender, e, nowMs) && Charge(Get(r.windows, sender), now).1
  }

  function ActionReceived(
    ar: Arithmetic, r: RouterState, sender: NodeId, e: ActionEnvelope, nowMs: nat, now: nat, sendOk: bool): Step
  {
    if Refused(r, sender, e, nowMs) then Step(r, None)
    else
      var (window, ok) := Charge(Get(r.windows, sender), now);
      var charged := r.(windows := r.windows[sender := window]);
      if !ok then Step(charged, None)
      else
        var noted := charged.(lastSeq := r.lastSeq[sender := e.seqNo], controllers := r.controllers + {sender});
        var done := Calculated(ar, noted, e.action);
        Step(done, if sendOk then Some(Packet(sender, StateUpdate(StateSnapshot(done.screen, e.seqNo)))) else None)
  }

  predicate AcceptsState(r: RouterState, sender: NodeId, s: StateSnapshot) {
    && r.executor == Some(sender) && sender in r.connected && ValidSnapshot(s.view)
    && s.seqNo != 0 && s.seqNo <= r.localSeq && s.seqNo > r.lastUpdate
  }

  function StateReceived(r: RouterState, sender: NodeId, s: StateSnapshot): RouterState {
    if AcceptsState(r, sender, s)
    then r.(lastUpdate := s.seqNo, engine := Restore(r.engine, s.view), screen := s.view) else r
  }

  /** Every call that changes a router, with the clock readings and channel outcomes it meets. */
  datatype Event =
    | Dispatch(action: CalcAction, nowMs: nat, sendOk: bool)
    | Receive(sender: NodeId, msg: Message, nowMs: nat, now: nat, sendOk: bool)
    | SetAllow(b: bool)
    | SetKey(node: NodeId, key: PublicKey)
    | Join(node: NodeId)
    | Leave(node: NodeId)
    | Sync(bounded: set<NodeId>)
    | Select(node: NodeId)
    | Deselect
    | DeselectIf(node: NodeId)

  predicate ValidEvent(ev: Event) {
    ev.Sync? ==> |ev.bounded| <= MAX_TRACKED_REMOTE_PEERS
  }

  function Apply(ar: Arithmetic, r: RouterState, ev: Event): Step {
    match ev
    case Dispatch(a, nowMs, ok) => Dispatched(ar, r, a, nowMs, ok)
    case Receive(from, Action(e), nowMs, now, ok) => ActionReceived(ar, r, from, e, nowMs, now, ok)
    case Receive(from, StateUpdate(s), _, _, _) => Step(StateReceived(r, from, s), None)
    case Receive(_, Ignored, _, _, _) => Step(r, None)
    case SetAllow(b) => Step(Switched(r, b), None)
    case SetKey(n, k) => Step(if n in r.connected then r.(keys := r.keys[n := k]) else r, None)
    case Join(n) => Step(Joined(r, n), None)
    case Leave(n) => Step(Left(r, n), None)
    case Sync(b) => Step(Synced(r, b), None)
    case Select(n) => Step(r.(executor := Some(n), lastUpdate := 0), None)
    case Deselect => Step(Deselected(r), None)
    case DeselectIf(n) => Step(if r.executor == Some(n) then Deselected(r) else r, None)
  }

  // ---------- the router itself ----------

  class Router {
    const calculator: Calculator
    const id: NodeId
    var allowed: bool
    var connected: set<NodeId>
    var keys: map<NodeId, PublicKey>
    var executor: Option<NodeId>
    var controllers: set<NodeId>
    var lastSeq: map<NodeId, nat>
    var windows: map<NodeId, RateWindow>
    var localSeq: nat
    var lastUpdate: nat
    var screen: CalcResult

    ghost function State(): RouterState
      reads this, calculator
    {
      RouterState(id, allowed, connected, keys, executor, controllers, lastSeq, windows, localSeq, lastUpdate,
                  calculator.State(), screen)
    }

    constructor (calculator: Calculator, id: NodeId, screen: CalcResult)
      ensures this.calculator == calculator
      ensures State() == RouterState(id, false, {}, map[], None, {}, map[], map[], 0, 0, calculator.State(), screen)
    {
      this.calculator, this.id, this.screen := calculator, id, screen;
      allowed, connected, keys, executor, controllers := false, {}, map[], None, {};
      lastSeq, windows, localSeq, lastUpdate := map[], map[], 0, 0;
    }

    method SetAllowRemoteControl(b: bool)
      modifies this
      ensures State() == Switched(old(State()), b)
      ensures allowed == b && lastSeq == old(lastSeq) && connected == old(connected)
      ensures controllers == (if b then old(controllers) else {}) && windows == if b then old(windows) else map[]
    {
      allowed := b;
      if !b {
        controllers := {};
        windows := map[];
      }
    }

    method SetRemotePublicKey(n: NodeId, k: PublicKey)
      modifies this
      ensures State() == Apply(calculator.arith, old(State()), SetKey(n, k)).state
      ensures keys == if n in connected then old(keys)[n := k] else old(keys)
    {
      if n in connected {
        keys := keys[n := k];
      }
    }

    method AddRemoteSession(n: NodeId) returns (ok: bool)
      modifies this
      ensures State() == Joined(old(State()), n) && ok == (n in connected)
      ensures ok <==> n in old(connected) || |old(connected)| < 64
      ensures ok ==> connected == old(connected) + {n} && lastSeq == old(lastSeq) - {n} && windows == old(windows) - {n}
    {
      if n !in connected && |connected| >= MAX_TRACKED_REMOTE_PEERS {
        return false;
      }
      connected := connected + {n};
      lastSeq := lastSeq - {n};
      windows := windows - {n};
      ok := true;
    }

    method RemoveRemoteSession(n: NodeId)
      modifies this
      ensures State() == Left(old(State()), n)
      ensures connected == old(connected) - {n} && controllers == old(controllers) - {n} && keys == old(keys) - {n}
      ensures lastSeq == old(lastSeq) - {n} && windows == old(windows) - {n}
      ensures executor == if old(executor) == Some(n) then None else old(executor)
    {
      connected := connected - {n};
      keys := keys - {n};
      controllers := controllers - {n};
      lastSeq := lastSeq - {n};
      windows := windows - {n};
      if executor == Some(n) {
        executor := None;
        lastUpdate := 0;
      }
    }

    /** Keeps at most the tracked number of peers, in whatever order the set yields them. */
    static method TakeBounded(peers: set<NodeId>) returns (bounded: set<NodeId>)
      ensures bounded <= peers
      ensures |bounded| == if |peers| <= 64 then |peers| else 64
    {
      bounded := {};
      var rest := peers;
      while rest != {} && |bounded| < MAX_TRACKED_REMOTE_PEERS
        invariant bounded !! rest && bounded + rest == peers
        invariant |bounded| + |rest| == |peers| && |bounded| <= MAX_TRACKED_REMOTE_PEERS
        decreases |rest|
      {
        var p :| p in rest;
        bounded, rest := bounded + {p}, rest - {p};
      }
    }

    method SetConnectedPeers(peers: set<NodeId>) returns (ghost bounded: set<NodeId>)
      modifies this
      ensures bounded <= peers && |bounded| == if |peers| <= 64 then |peers| else 64
      ensures connected == bounded && controllers == old(controllers) * bounded
      ensures executor == if old(executor).Some? && old(executor).value !in bounded then None else old(executor)
      ensures forall n :: Get(keys, n) == if n in bounded then Get(old(keys), n) else None
      ensures forall n :: Get(lastSeq, n) == if n in bounded then Get(old(lastSeq), n) else None
      ensures forall n :: Get(windows, n) == if n in bounded then Get(old(windows), n) else None
      ensures State() == Synced(old(State()), bounded)
    {
      hide Kept;
      var kept := TakeBounded(peers);
      bounded := kept;
      if executor.Some? && executor.value !in kept {
        executor := None;
        lastUpdate := 0;
      }
      controllers := controllers * kept;
      keys := Kept(keys, kept);
      lastSeq := Kept(lastSeq, kept);
      windows := Kept(windows, kept);
      connected := kept;
    }

    method SelectRemoteExecutor(n: NodeId) returns (live: bool)
      modifies this
      ensures State() == old(State()).(executor := Some(n), lastUpdate := 0) && live == (n in connected)
    {
      executor := Some(n);
      lastUpdate := 0;
      live := n in connected;
    }

    method ClearRemoteExecutor()
      modifies this
      ensures State() == old(State()).(executor := None, lastUpdate := 0)
    {
      executor := None;
      lastUpdate := 0;
    }

    method ClearRemoteExecutorIf(n: NodeId)
      modifies this
      ensures State() == Apply(calculator.arith, old(State()), DeselectIf(n)).state
      ensures executor == if old(executor) == Some(n) then None else old(executor)
    {
      if executor == Some(n) {
        ClearRemoteExecutor();
      }
    }

    /** Both the local and the speculative path: run the calculator and show the result. */
    method Execute(a: CalcAction) returns (view: CalcResult)
      requires ValidAction(a)
      modifies this, calculator
      ensures State() == Calculated(calculator.arith, old(State()), a) && view == screen
    {
      view := calculator.Dispatch(a);
      screen := view;
    }

    method OnDispatch(a: CalcAction, nowMs: nat, sendOk: bool) returns (sent: Option<Packet>)
      modifies this, calculator
      ensures Step(State(), sent) == Dispatched(calculator.arith, old(State()), a, nowMs, sendOk)
    {
      hide Press, Shown;
      sent := None;
      if !ValidAction(a) { return; }
      if executor.Some? && executor.value in connected {
        var target := executor.value;
        localSeq := NextSeq(localSeq);
        if sendOk {
          sent := Some(Packet(target, Action(ActionEnvelope(localSeq, id, nowMs, a))));
        } else {
          ClearRemoteExecutorIf(target);
        }
      }
      var _ := Execute(a);
    }

    method ConsumeRateBudget(sender: NodeId, now: nat) returns (ok: bool)
      modifies this`windows
      ensures windows == old(windows)[sender := Charge(Get(old(windows), sender), now).0]
      ensures ok == Charge(Get(old(windows), sender), now).1
    {
      var window := if sender in windows then windows[sender] else RateWindow(now, 0);
      if now >= window.started + SECOND {
        window := RateWindow(now, 0);
      }
      ok := window.count < MAX_REMOTE_ACTIONS_PER_SECOND;
      if ok {
        window := window.(count := window.count + 1);
      }
      windows := windows[sender := window];
    }

    method HandleRemoteAction(sender: NodeId, e: ActionEnvelope, nowMs: nat, now: nat, sendOk: bool)
      returns (sent: Option<Packet>)
      modifies this, calculator
      ensures Step(State(), sent) == ActionReceived(calculator.arith, old(State()), sender, e, nowMs, now, sendOk)
    {
      hide Press, Shown, ValidTimestamp, Charge;
      sent := None;
      if sender != e.source { return; }
      if sender !in connected { return; }
      if !allowed { return; }
      if !ValidAction(e.action) { return; }
      if !ValidTimestamp(e.timestampMs, nowMs) { return; }
      if e.seqNo == 0 || (sender in lastSeq && e.seqNo <= lastSeq[sender]) { return; }
      var ok := ConsumeRateBudget(sender, now);
      if !ok { return; }
      lastSeq := lastSeq[sender := e.seqNo];
      controllers := controllers + {sender};
      var view := Execute(e.action);
      if sendOk {
        sent := Some(Packet(sender, StateUpdate(StateSnapshot(view, e.seqNo))));
      }
    }

    method HandleRemoteState(sender: NodeId, s: StateSnapshot)
      modifies this, calculator
      ensures State() == StateReceived(old(State()), sender, s)
    {
      if executor != Some(sender) || sender !in connected || !ValidSnapshot(s.view)
         || s.seqNo == 0 || s.seqNo > localSeq || s.seqNo <= lastUpdate {
        return;
      }
      lastUpdate := s.seqNo;
      calculator.ResetFromSnapshot(s.view);
      screen := s.view;
    }

    method HandleNetworkMessage(sender: NodeId, msg: Message, nowMs: nat, now: nat, sendOk: bool)
      returns (sent: Option<Packet>)
      modifies this, calculator
      ensures Step(State(), sent) == Apply(calculator.arith, old(State()), Receive(sender, msg, nowMs, now, sendOk))
    {
      sent := None;
      match msg
      case Action(e) => sent := HandleRemoteAction(sender, e, nowMs, now, sendOk);
      case StateUpdate(s) => HandleRemoteState(sender, s);
      case Ignored =>
    }
  }

  // ---------- what every call keeps ----------

  ghost predicate StructInv(r: RouterState) {
    && |r.connected| <= 64
    && r.keys.Keys <= r.connected && r.controllers <= r.connected
    && r.lastSeq.Keys <= r.connected && r.windows.Keys <= r.connected
    && (r.controllers != {} ==> r.allowed)
    && r.lastUpdate <= r.localSeq
    && (r.lastUpdate != 0 ==> r.executor.Some? && r.executor.value in r.connected)
  }

  lemma JoinKeepsStructure(r: RouterState, n: NodeId)
    requires StructInv(r)
    ensures StructInv(Joined(r, n))
  {
    var s := Joined(r, n);
    assert s.lastSeq.Keys <= r.lastSeq.Keys && s.windows.Keys <= r.windows.Keys;
  }

  lemma LeaveKeepsStructure(r: RouterState, n: NodeId)
    requires StructInv(r)
    ensures StructInv(Left(r, n))
  {
    var s := Left(r, n);
    assert s.lastSeq.Keys == r.lastSeq.Keys - {n} && s.windows.Keys == r.windows.Keys - {n}
           && s.keys.Keys == r.keys.Keys - {n};
  }

  lemma SyncKeepsStructure(r: RouterState, bounded: set<NodeId>)
    requires StructInv(r) && |bounded| <= MAX_TRACKED_REMOTE_PEERS
    ensures StructInv(Synced(r, bounded))
  {
    hide Kept;
  }

  lemma ReceiveKeepsStructure(ar: Arithmetic, r: RouterState, ev: Event)
    requires StructInv(r) && ev.Receive?
    ensures StructInv(Apply(ar, r, ev).state)
  {
    hide Press, Shown, Restore, ValidSnapshot, Charge, ValidTimestamp;
  }

  lemma ApplyKeepsStructure(ar: Arithmetic, r: RouterState, ev: Event)
    requires StructInv(r) && ValidEvent(ev)
    ensures StructInv(Apply(ar, r, ev).state)
  {
    hide Press, Shown, Joined, Left, Synced, ActionReceived, StateReceived;
    match ev
    case Join(n) => JoinKeepsStructure(r, n);
    case Leave(n) => LeaveKeepsStructure(r, n);
    case Sync(b) => SyncKeepsStructure(r, b);
    case Receive(_, _, _, _, _) => ReceiveKeepsStructure(ar, r, ev);
    case _ =>
  }

  ghost function Run(ar: Arithmetic, r: RouterState, events: seq<Event>): RouterState {
    if events == [] then r else Apply(ar, Run(ar, r, events[..|events| - 1]), events[|events| - 1]).state
  }

  /** The structure holds after every sequence of calls, messages, clock readings and channel outcomes. */
  lemma {:induction false} StructureAlways(ar: Arithmetic, r: RouterState, events: seq<Event>)
    requires StructInv(r) && forall i | 0 <= i < |events| :: ValidEvent(events[i])
    ensures StructInv(Run(ar, r, events))
  {
    if events != [] {
      StructureAlways(ar, r, events[..|events| - 1]);
      ApplyKeepsStructure(ar, Run(ar, r, events[..|events| - 1]), events[|events| - 1]);
    }
  }

  // ---------- what a call does, in plain terms ----------

  /**
    A valid local key reaches the local calculator exactly once, whatever the network does. It takes a number and
    sends its own envelope exactly when a live executor's channel takes it; an overloaded executor is let go.
   */
  lemma DispatchIsLocalAndOnce(ar: Arithmetic, r: RouterState, a: CalcAction, nowMs: nat, sendOk: bool)
    requires ValidAction(a)
    ensures var t := Dispatched(ar, r, a, nowMs, sendOk);
            var live := r.executor.Some? && r.executor.value in r.connected;
            var n := if live && r.localSeq < 0xFFFF_FFFF_FFFF_FFFF then r.localSeq + 1 else r.localSeq;
            var engine := Press(ar, r.engine, a);
            && t.state == r.(engine := engine, screen := Shown(ar, engine), localSeq := n,
                             executor := if live && !sendOk then None else r.executor,
                             lastUpdate := if live && !sendOk then 0 else r.lastUpdate)
            && t.sent == if !live || !sendOk then None
                         else Some(Packet(r.executor.value, Action(ActionEnvelope(n, r.id, nowMs, a))))
  {
    hide Press, Shown;
  }

  /** What the peer's window has left at `now`. */
  ghost predicate HasBudget(r: RouterState, sender: NodeId, now: nat) {
    || sender !in r.windows
    || now >= r.windows[sender].started + 1_000_000_000
    || r.windows[sender].count < 120
  }

  lemma Budget(r: RouterState, sender: NodeId, now: nat)
    ensures Charge(Get(r.windows, sender), now).1 <==> HasBudget(r, sender, now)
  {
  }

  /** A stamp is current from thirty seconds before it to five minutes after it. */
  lemma CurrentStamp(stamp: nat, nowMs: nat)
    ensures ValidTimestamp(stamp, nowMs) <==> stamp - 30_000 <= nowMs <= stamp + 300_000
  {
  }

  /** Everything the executor asks of a remote action. */
  ghost predicate MayRun(r: RouterState, sender: NodeId, e: ActionEnvelope, nowMs: nat, now: nat) {
    && sender == e.source && sender in r.connected && r.allowed
    && (e.action.Digit? ==> e.action.d <= 9)
    && e.timestampMs - 30_000 <= nowMs <= e.timestampMs + 300_000
    && e.seqNo > (if sender in r.lastSeq then r.lastSeq[sender] else 0)
    && HasBudget(r, sender, now)
  }

  /**
    A remote action is executed, noted and answered exactly when it comes from a connected peer in its own name while
    the switch is on, is well formed, current and new, and finds budget. Otherwise nothing but the window changes.
   */
  lemma ActionOutcome(
    ar: Arithmetic, r: RouterState, sender: NodeId, e: ActionEnvelope, nowMs: nat, now: nat, sendOk: bool)
    ensures var t := ActionReceived(ar, r, sender, e, nowMs, now, sendOk);
            if MayRun(r, sender, e, nowMs, now) then
              var engine := Press(ar, r.engine, e.action);
              && t.state == r.(engine := engine, screen := Shown(ar, engine), lastSeq := r.lastSeq[sender := e.seqNo],
                               controllers := r.controllers + {sender}, windows := t.state.windows)
              && t.sent == if sendOk then Some(Packet(sender, StateUpdate(StateSnapshot(Shown(ar, engine), e.seqNo))))
                           else None
            else t.state == r.(windows := t.state.windows) && t.sent == None
  {
    hide Press, Shown, Charge, ValidTimestamp;
    CurrentStamp(e.timestampMs, nowMs);
    Budget(r, sender, now);
  }

  /** Over every run the switch stands where it was last put. */
  ghost function LastSetting(events: seq<Event>, b: bool): bool {
    if events == [] then b
    else if events[|events| - 1].SetAllow? then events[|events| - 1].b
    else LastSetting(events[..|events| - 1], b)
  }

  lemma SwitchStep(ar: Arithmetic, r: RouterState, ev: Event)
    ensures Apply(ar, r, ev).state.allowed == if ev.SetAllow? then ev.b else r.allowed
  {
    hide Press, Shown, Restore, ValidSnapshot, Charge, ValidTimestamp;
  }

  lemma {:induction false} SwitchIsLastSetting(ar: Arithmetic, r: RouterState, events: seq<Event>)
    ensures Run(ar, r, events).allowed == LastSetting(events, r.allowed)
  {
    hide Apply;
    if events != [] {
      SwitchIsLastSetting(ar, r, events[..|events| - 1]);
      SwitchStep(ar, Run(ar, r, events[..|events| - 1]), events[|events| - 1]);
    }
  }

  /** A session that is added starts over: any number from one on may run, and there is budget for it. */
  lemma NewSessionStartsOver(
    ar: Arithmetic, r: RouterState, n: NodeId, e: ActionEnvelope, nowMs: nat, now: nat)
    requires n in r.connected || |r.connected| < 64
    requires r.allowed && e.source == n && ValidAction(e.action)
    ensures var t := Joined(r, n);
            MayRun(t, n, e, nowMs, now) <==> e.seqNo > 0 && e.timestampMs - 30_000 <= nowMs <= e.timestampMs + 300_000
  {
  }

  // ---------- snapshots, in plain terms ----------

  /** How many characters are at or above a bound. */
  ghost function Above(s: string, bound: nat): nat {
    if s == "" then 0 else (if s[0] as int >= bound then 1 else 0) + Above(s[1..], bound)
  }

  /** Bytes of a text: one for each character, and one more at each of the three widening points of UTF-8. */
  ghost function ByteCount(s: string): nat {
    |s| + Above(s, 0x80) + Above(s, 0x800) + Above(s, 0x1_0000)
  }

  lemma {:induction false} Utf8LenIsByteCount(s: string)
    ensures Utf8Len(s) == ByteCount(s)
  {
    if s != "" {
      Utf8LenIsByteCount(s[1..]);
    }
  }

  ghost predicate ControlFree(s: string) {
    forall i | 0 <= i < |s| :: s[i] as int >= 0x20 && (s[i] as int < 0x7f || s[i] as int > 0x9f)
  }

  ghost predicate Acceptable(v: CalcResult) {
    && ByteCount(v.display) <= 64 && ByteCount(v.history) <= 256
    && ControlFree(v.display) && ControlFree(v.history)
    && (v.memoryIndicator == "" || v.memoryIndicator == "M")
    && if v.isError then v.display == "错误" else IsNumeral(v.display)
  }

  lemma ValidIsAcceptable(v: CalcResult)
    ensures ValidSnapshot(v) <==> Acceptable(v)
  {
    hide IsNumeral;
    Utf8LenIsByteCount(v.display);
    Utf8LenIsByteCount(v.history);
    assert Utf8Len("M") == 1 by { assert "M"[1..] == ""; }
    assert NoControl(v.display) <==> ControlFree(v.display);
    assert NoControl(v.history) <==> ControlFree(v.history);
  }

  /**
    A snapshot is taken over, and its number noted, exactly when it comes from the selected and connected executor,
    answers a number already issued and not yet answered, and is acceptable. Otherwise nothing changes.
   */
  lemma SnapshotOutcome(r: RouterState, sender: NodeId, s: StateSnapshot)
    ensures StateReceived(r, sender, s)
         == if r.executor == Some(sender) && sender in r.connected
               && r.lastUpdate < s.seqNo <= r.localSeq && Acceptable(s.view)
            then r.(lastUpdate := s.seqNo, engine := Restore(r.engine, s.view), screen := s.view) else r
  {
    hide ValidSnapshot, Acceptable, Restore;
    ValidIsAcceptable(s.view);
  }

  lemma {:induction false} AsciiBytes(s: string)
    requires forall i | 0 <= i < |s| :: s[i] as int < 0x80
    ensures ByteCount(s) == |s|
  {
    if s != "" {
      AsciiBytes(s[1..]);
    }
  }

  /**
    Which of an engine's own views are acceptable: those with a short, clean history that are errors or whose
    display is a numeral of at most 64 characters. A longer entry is one no controller will take over.
   */
  lemma OwnViewAcceptableIff(ar: Arithmetic, s: CalcState)
    ensures var v := Shown(ar, s);
            Acceptable(v) <==>
            && ByteCount(v.history) <= 256 && ControlFree(v.history)
            && (v.isError || (IsNumeral(v.display) && |v.display| <= 64))
  {
    hide IsNumeral, DecimalValue;
    var v := Shown(ar, s);
    if v.isError {
      ErrorTextBytes();
    } else if IsNumeral(v.display) {
      NumeralIsPlain(v.display);
      AsciiBytes(v.display);
    }
  }

  lemma ErrorTextBytes()
    ensures ByteCount("错误") == 6 && ControlFree("错误")
  {
    assert "错误"[1..] == "误" && "误"[1..] == "";
    assert Above("错误", 0x80) == 2 && Above("错误", 0x800) == 2 && Above("错误", 0x1_0000) == 0;
  }

  lemma NumeralIsPlain(s: string)
    requires IsNumeral(s)
    ensures forall i | 0 <= i < |s| :: 0x20 <= s[i] as int < 0x7f
  {
    hide Whole, Frac, HasPoint, IsNumeral;
    Reassembled(s);
    var m, p := if Signed(s) then "-" else "", if HasPoint(s) then "." else "";
    assert s == m + Whole(s) + p + Frac(s);
    assert forall i | 0 <= i < |Whole(s)| :: IsDigit(Whole(s)[i]);
    assert forall i | 0 <= i < |Frac(s)| :: IsDigit(Frac(s)[i]);
    forall i | 0 <= i < |s|
      ensures 0x20 <= s[i] as int < 0x7f
    {
      assert s[i] in m || s[i] in Whole(s) || s[i] in p || s[i] in Frac(s);
    }
  }
}
