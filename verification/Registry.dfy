/** The session registry: generation-tagged entries shared by the command processor and the outgoing task. */
module SessionRegistry {
  import opened Tokens

  type NodeId = nat
  type SessionId = nat

  datatype Direction = Outbound | Inbound

  datatype Entry = Entry(sid: SessionId, direction: Direction)

  type Sessions = map<NodeId, Entry>

  // ---------- the lock sections ----------

  /** Of two crossing connections both ends prefer the one that the lower id opened. */
  function Preferred(local: NodeId, remote: NodeId): Direction {
    if local < remote then Outbound else Inbound
  }

  predicate ShouldReplace(local: NodeId, remote: NodeId, existing: Direction, newcomer: Direction) {
    newcomer == Preferred(local, remote) && existing != Preferred(local, remote)
  }

  /** The connection's opener has the lower id; a tie counts as opened by the remote side. */
  predicate OpenedByLower(local: NodeId, remote: NodeId, direction: Direction) {
    match direction
    case Outbound => local < remote
    case Inbound => remote <= local
  }

  predicate Keeps(local: NodeId, m: Sessions, node: NodeId, direction: Direction) {
    node in m ==> ShouldReplace(local, node, m[node].direction, direction)
  }

  function EntryOf(m: Sessions, node: NodeId): Option<Entry> {
    if node in m then Some(m[node]) else None
  }

  predicate Current(m: Sessions, node: NodeId, sid: SessionId) {
    node in m && m[node].sid == sid
  }

  function RemovedIfCurrent(m: Sessions, node: NodeId, sid: SessionId): Sessions {
    if Current(m, node, sid) then m - {node} else m
  }

  function RolledBack(m: Sessions, node: NodeId, sid: SessionId, previous: Option<Entry>): Sessions {
    if !Current(m, node, sid) then m
    else if previous.Some? then m[node := previous.value]
    else m - {node}
  }

  class Registry {
    const localId: NodeId
    var sessions: Sessions

    constructor (localId: NodeId)
      ensures sessions == map[] && this.localId == localId
    {
      this.localId := localId;
      sessions := map[];
    }

    method Admit(node: NodeId, sid: SessionId, direction: Direction) returns (accepted: bool, replaced: Option<Entry>)
      modifies this
      ensures accepted <==> node !in old(sessions)
                            || (old(sessions)[node].direction != direction && OpenedByLower(localId, node, direction))
      ensures accepted == Keeps(localId, old(sessions), node, direction)
      ensures sessions == if accepted then old(sessions)[node := Entry(sid, direction)] else old(sessions)
      ensures replaced == if accepted then EntryOf(old(sessions), node) else None
    {
      accepted, replaced := true, None;
      if node in sessions {
        var existing := sessions[node];
        var preferred := if localId < node then Outbound else Inbound;
        accepted := direction == preferred && existing.direction != preferred;
        if accepted { replaced := Some(existing); }
      }
      if accepted {
        sessions := sessions[node := Entry(sid, direction)];
      }
    }

    method RemoveSessionIfCurrent(node: NodeId, sid: SessionId) returns (removed: bool)
      modifies this
      ensures sessions == RemovedIfCurrent(old(sessions), node, sid)
      ensures removed == Current(old(sessions), node, sid)
    {
      removed := node in sessions && sessions[node].sid == sid;
      if removed {
        sessions := sessions - {node};
      }
    }

    method RollBack(node: NodeId, sid: SessionId, previous: Option<Entry>)
      modifies this
      ensures sessions == RolledBack(old(sessions), node, sid, previous)
    {
      if node in sessions && sessions[node].sid == sid {
        sessions := sessions - {node};
        if previous.Some? {
          sessions := sessions[node := previous.value];
          assert sessions == old(sessions)[node := previous.value];
        }
      }
    }
  }

  // ---------- command processor and outgoing task, one lock section at a time ----------

  /** Where the command processor stands inside a registration. */
  datatype Processor =
    | Idle
    | Deciding(node: NodeId, sid: SessionId, accepted: bool, replaced: Option<Entry>)
    | RollingBack(node: NodeId, sid: SessionId, replaced: Option<Entry>)
    | Cancelling(previous: Entry)

  /** Where the outgoing task stands with the entry it cloned. */
  datatype Sender = Free | Holding(node: NodeId, entry: Entry) | Failed(node: NodeId, entry: Entry)

  /**
    The registry and the two tasks; and which generations were ever submitted, told they are accepted, cancelled by
    a replacement, cancelled by a failed send, and put back by a roll-back.
   */
  datatype State = State(
    sessions: Sessions,
    processor: Processor,
    sender: Sender,
    submitted: set<SessionId>,
    told: set<SessionId>,
    displaced: set<SessionId>,
    dropped: set<SessionId>,
    returned: set<SessionId>)

  datatype Act =
    | Register(node: NodeId, sid: SessionId, direction: Direction, refused: bool)
    | Decide(delivered: bool)
    | RollBack
    | CancelPrevious
    | Unregister(node: NodeId, sid: SessionId)
    | Fetch(node: NodeId)
    | TrySend(ok: bool)
    | DropFailed
    | ClearAll

  /** A session registers once, under its own fresh generation; commands are taken one at a time. */
  ghost predicate Enabled(s: State, a: Act) {
    match a
    case Register(_, sid, _, _) => s.processor.Idle? && sid !in s.submitted
    case Decide(_) => s.processor.Deciding?
    case RollBack => s.processor.RollingBack?
    case CancelPrevious => s.processor.Cancelling?
    case Unregister(_, _) => s.processor.Idle?
    case Fetch(node) => s.sender.Free? && node in s.sessions
    case TrySend(_) => s.sender.Holding?
    case DropFailed => s.sender.Failed?
    case ClearAll => true
  }

  /** A roll-back is due whose newcomer is still registered, so that it puts back the session it had displaced. */
  ghost predicate PutsBack(s: State) {
    && s.processor.RollingBack? && s.processor.replaced.Some?
    && Current(s.sessions, s.processor.node, s.processor.sid)
  }

  ghost function Do(local: NodeId, s: State, a: Act): State
    requires Enabled(s, a)
  {
    match a
    case Register(node, sid, direction, refused) =>
      var t := s.(submitted := s.submitted + {sid});
      if refused then t
      else if Keeps(local, s.sessions, node, direction) then
        t.(sessions := s.sessions[node := Entry(sid, direction)],
           processor := Deciding(node, sid, true, EntryOf(s.sessions, node)))
      else t.(processor := Deciding(node, sid, false, None))
    case Decide(delivered) =>
      var p := s.processor;
      if delivered then
        s.(told := if p.accepted then s.told + {p.sid} else s.told,
           processor := if p.replaced.Some? then Cancelling(p.replaced.value) else Idle)
      else s.(processor := if p.accepted then RollingBack(p.node, p.sid, p.replaced) else Idle)
    case RollBack =>
      var p := s.processor;
      s.(sessions := RolledBack(s.sessions, p.node, p.sid, p.replaced), processor := Idle,
         returned := if PutsBack(s) then s.returned + {p.replaced.value.sid} else s.returned)
    case CancelPrevious => s.(displaced := s.displaced + {s.processor.previous.sid}, processor := Idle)
    case Unregister(node, sid) => s.(sessions := RemovedIfCurrent(s.sessions, node, sid))
    case Fetch(node) => s.(sender := Holding(node, s.sessions[node]))
    case TrySend(ok) =>
      if ok then s.(sender := Free)
      else s.(sender := Failed(s.sender.node, s.sender.entry), dropped := s.dropped + {s.sender.entry.sid})
    case DropFailed => s.(sessions := RemovedIfCurrent(s.sessions, s.sender.node, s.sender.entry.sid), sender := Free)
    case ClearAll => s.(sessions := map[])
  }

  const EMPTY := State(map[], Idle, Free, {}, {}, {}, {}, {})

  // ---------- the invariant ----------

  ghost predicate Absent(m: Sessions, sid: SessionId) {
    forall n | n in m :: m[n].sid != sid
  }

  ghost predicate Distinct(m: Sessions) {
    forall n, k | n in m && k in m && n != k :: m[n].sid != m[k].sid
  }

  /** Every entry was told it is accepted, except a newcomer whose decision is still being handed over. */
  ghost predicate AllTold(s: State) {
    forall n | n in s.sessions ::
      || s.sessions[n].sid in s.told
      || ((s.processor.Deciding? || s.processor.RollingBack?)
          && n == s.processor.node && s.sessions[n].sid == s.processor.sid)
  }

  /** A displaced entry still held by the processor was told, is no longer registered, and is not yet cancelled. */
  ghost predicate HeldBack(s: State, e: Option<Entry>) {
    e.Some? ==> e.value.sid in s.told && e.value.sid !in s.displaced && Absent(s.sessions, e.value.sid)
  }

  ghost predicate ProcessorOk(s: State) {
    match s.processor
    case Idle => true
    case Deciding(node, sid, accepted, replaced) =>
      && sid in s.submitted && sid !in s.told && HeldBack(s, replaced)
      && (!accepted ==> Absent(s.sessions, sid) && replaced == None)
      && (forall n | n in s.sessions && n != node :: s.sessions[n].sid != sid)
      && (node in s.sessions && accepted ==> s.sessions[node].sid == sid)
    case RollingBack(node, sid, replaced) =>
      && sid in s.submitted && sid !in s.told && HeldBack(s, replaced)
      && (forall n | n in s.sessions && n != node :: s.sessions[n].sid != sid)
      && (node in s.sessions ==> s.sessions[node].sid == sid)
    case Cancelling(previous) => HeldBack(s, Some(previous))
  }

  ghost predicate Inv(s: State) {
    && Distinct(s.sessions)
    && s.told <= s.submitted && s.displaced <= s.told
    && (forall n | n in s.sessions :: s.sessions[n].sid in s.submitted)
    && (forall sid | sid in s.displaced :: Absent(s.sessions, sid))
    && AllTold(s) && ProcessorOk(s)
  }

  lemma RegisterKeeps(local: NodeId, s: State, a: Act)
    requires Inv(s) && Enabled(s, a) && a.Register?
    ensures Inv(Do(local, s, a))
  {
  }

  lemma DecideKeeps(local: NodeId, s: State, a: Act)
    requires Inv(s) && Enabled(s, a) && a.Decide?
    ensures Inv(Do(local, s, a))
  {
  }

  lemma RollBackKeeps(local: NodeId, s: State, a: Act)
    requires Inv(s) && Enabled(s, a) && (a.RollBack? || a.CancelPrevious?)
    ensures Inv(Do(local, s, a))
  {
  }

  lemma RemovalKeeps(local: NodeId, s: State, a: Act)
    requires Inv(s) && Enabled(s, a) && !a.Register? && !a.Decide? && !a.RollBack? && !a.CancelPrevious?
    ensures Inv(Do(local, s, a))
  {
  }

  lemma DoKeeps(local: NodeId, s: State, a: Act)
    requires Inv(s) && Enabled(s, a)
    ensures Inv(Do(local, s, a))
  {
    hide Inv, Do;
    if a.Register? {
      RegisterKeeps(local, s, a);
    } else if a.Decide? {
      DecideKeeps(local, s, a);
    } else if a.RollBack? || a.CancelPrevious? {
      RollBackKeeps(local, s, a);
    } else {
      RemovalKeeps(local, s, a);
    }
  }

  // ---------- generations cancelled by a failed send ----------

  /** The entry the outgoing task holds is registered, or held back by the processor, only under its own node. */
  ghost predicate SenderOk(s: State) {
    s.sender.Free? ||
    (&& s.sender.entry.sid in s.submitted
     && (forall n | n in s.sessions && s.sessions[n].sid == s.sender.entry.sid :: n == s.sender.node)
     && (s.processor.Deciding? || s.processor.RollingBack? ==>
           forall e | s.processor.replaced == Some(e) && e.sid == s.sender.entry.sid ::
             s.processor.node == s.sender.node))
  }

  /** A generation cancelled by a failed send is registered only until the task drops it, or once it was put back. */
  ghost predicate DroppedOk(s: State) {
    && s.dropped <= s.submitted
    && forall sid | sid in s.dropped && !Absent(s.sessions, sid) ::
         (s.sender.Failed? && s.sender.entry.sid == sid) || sid in s.returned
  }

  lemma SenderStep(local: NodeId, s: State, a: Act)
    requires Inv(s) && SenderOk(s) && Enabled(s, a)
    ensures SenderOk(Do(local, s, a))
  {
    hide AllTold;
  }

  lemma DroppedStep(local: NodeId, s: State, a: Act)
    requires Inv(s) && SenderOk(s) && DroppedOk(s) && Enabled(s, a)
    ensures DroppedOk(Do(local, s, a))
  {
    hide Inv, ProcessorOk, AllTold;
  }

  /** It comes back in exactly one way: a failed hand-off that puts it back. */
  lemma DroppedReturnsIffPutBack(local: NodeId, s: State, a: Act, sid: SessionId)
    requires DroppedOk(s) && Enabled(s, a) && sid in s.dropped && Absent(s.sessions, sid)
    ensures !Absent(Do(local, s, a).sessions, sid) <==>
            a.RollBack? && PutsBack(s) && s.processor.replaced.value.sid == sid
  {
    if a.RollBack? && PutsBack(s) {
      assert s.processor.node in Do(local, s, a).sessions;
    }
  }

  // ---------- what holds after every interleaving ----------

  ghost predicate Legal(local: NodeId, s: State, acts: seq<Act>)
    decreases |acts|
  {
    acts == [] || (Enabled(s, acts[0]) && Legal(local, Do(local, s, acts[0]), acts[1..]))
  }

  ghost function Run(local: NodeId, s: State, acts: seq<Act>): State
    requires Legal(local, s, acts)
    decreases |acts|
  {
    if acts == [] then s else Run(local, Do(local, s, acts[0]), acts[1..])
  }

  lemma {:induction false} InvAlways(local: NodeId, s: State, acts: seq<Act>)
    requires Inv(s) && SenderOk(s) && DroppedOk(s) && Legal(local, s, acts)
    ensures var t := Run(local, s, acts); Inv(t) && SenderOk(t) && DroppedOk(t) && s.displaced <= t.displaced
    decreases |acts|
  {
    hide Inv, SenderOk, DroppedOk;
    if acts != [] {
      DoKeeps(local, s, acts[0]);
      SenderStep(local, s, acts[0]);
      DroppedStep(local, s, acts[0]);
      InvAlways(local, Do(local, s, acts[0]), acts[1..]);
    }
  }

  /**
    After any interleaving: between commands every entry belongs to a session that was told it is accepted; no
    generation that a replacement has cancelled is ever registered again, whatever happens next; and one that a
    failed send has cancelled is registered only while that task is about to drop it, or because a failed hand-off
    put it back.
   */
  lemma RegistrySafety(local: NodeId, acts: seq<Act>, more: seq<Act>)
    requires Legal(local, EMPTY, acts) && Legal(local, Run(local, EMPTY, acts), more)
    ensures var mid := Run(local, EMPTY, acts);
            var end := Run(local, mid, more);
            && (end.processor.Idle? ==> forall n | n in end.sessions :: end.sessions[n].sid in end.told)
            && (forall sid | sid in mid.displaced :: Absent(end.sessions, sid))
            && (forall n | n in end.sessions && end.sessions[n].sid in end.dropped ::
                  || (end.sender.Failed? && end.sender.entry.sid == end.sessions[n].sid)
                  || end.sessions[n].sid in end.returned)
  {
    assert Inv(EMPTY) && SenderOk(EMPTY) && DroppedOk(EMPTY);
    InvAlways(local, EMPTY, acts);
    InvAlways(local, Run(local, EMPTY, acts), more);
  }

  /**
    The ways out: its own unregister, its own failed send, its own failed hand-off, a preferred-direction
    replacement, or the manager's shutdown, which empties the registry.
   */
  lemma EntryLeavesOnlyBy(local: NodeId, s: State, a: Act, node: NodeId)
    requires Inv(s) && Enabled(s, a) && node in s.sessions
    requires EntryOf(Do(local, s, a).sessions, node) != Some(s.sessions[node])
    ensures var sid := s.sessions[node].sid;
            || a == Unregister(node, sid)
            || (a.DropFailed? && s.sender.node == node && s.sender.entry.sid == sid)
            || (a.RollBack? && s.processor.node == node && s.processor.sid == sid)
            || a.ClearAll?
            || (a.Register? && a.node == node && !a.refused && a.direction != s.sessions[node].direction
                && OpenedByLower(local, node, a.direction))
  {
    hide Inv;
  }

  /**
    What a registration does: a newcomer without a rival is registered; a rival gives way exactly when it runs in
    the other direction and the newcomer was opened by the lower id. Nobody else's entry changes.
   */
  lemma RegistrationOutcome(local: NodeId, s: State, node: NodeId, sid: SessionId, direction: Direction)
    requires Inv(s) && Enabled(s, Register(node, sid, direction, false))
    ensures var t := Do(local, s, Register(node, sid, direction, false));
            var wins := node !in s.sessions
                        || (s.sessions[node].direction != direction && OpenedByLower(local, node, direction));
            && (EntryOf(t.sessions, node) == Some(Entry(sid, direction)) <==> wins)
            && (!wins ==> t.sessions == s.sessions)
            && (forall n | n != node :: EntryOf(t.sessions, n) == EntryOf(s.sessions, n))
            && t.processor == Deciding(node, sid, wins, if wins then EntryOf(s.sessions, node) else None)
  {
  }

  /** Registrations, decisions and messages, but no end of any session. */
  ghost predicate OnlyArrivals(acts: seq<Act>) {
    forall i | 0 <= i < |acts| ::
      acts[i].Register? || acts[i].Decide? || acts[i].CancelPrevious? || acts[i].Fetch? || acts[i].TrySend?
  }

  /** A session opened by the lower id gives way to no registration, of either direction, however many come. */
  lemma {:induction false} LowerIdStays(local: NodeId, s: State, acts: seq<Act>, node: NodeId)
    requires Inv(s) && Legal(local, s, acts) && OnlyArrivals(acts)
    requires node in s.sessions && OpenedByLower(local, node, s.sessions[node].direction)
    ensures EntryOf(Run(local, s, acts).sessions, node) == Some(s.sessions[node])
    decreases |acts|
  {
    hide Inv;
    if acts != [] {
      DoKeeps(local, s, acts[0]);
      assert EntryOf(Do(local, s, acts[0]).sessions, node) == Some(s.sessions[node]);
      LowerIdStays(local, Do(local, s, acts[0]), acts[1..], node);
    }
  }

  /** The generation is known, not registered, and not in the processor's hands. */
  ghost predicate Departed(s: State, sid: SessionId) {
    && sid in s.submitted && Absent(s.sessions, sid)
    && match s.processor
       case Idle => true
       case Deciding(_, p, _, replaced) => p != sid && (replaced.Some? ==> replaced.value.sid != sid)
       case RollingBack(_, p, replaced) => p != sid && (replaced.Some? ==> replaced.value.sid != sid)
       case Cancelling(_) => true
  }

  lemma {:induction false} DepartedStays(local: NodeId, s: State, acts: seq<Act>, sid: SessionId)
    requires Departed(s, sid) && Legal(local, s, acts)
    ensures Departed(Run(local, s, acts), sid)
    decreases |acts|
  {
    if acts != [] {
      DepartedStep(local, s, acts[0], sid);
      DepartedStays(local, Do(local, s, acts[0]), acts[1..], sid);
    }
  }

  lemma DepartedStep(local: NodeId, s: State, a: Act, sid: SessionId)
    requires Departed(s, sid) && Enabled(s, a)
    ensures Departed(Do(local, s, a), sid)
  {
  }

  /** An unregister removes its own entry, touches no other, and is final: that generation never comes back. */
  lemma {:induction false} UnregisterIsFinal(local: NodeId, s: State, node: NodeId, sid: SessionId, more: seq<Act>)
    requires Inv(s) && Enabled(s, Unregister(node, sid)) && Current(s.sessions, node, sid)
    requires Legal(local, Do(local, s, Unregister(node, sid)), more)
    ensures var t := Do(local, s, Unregister(node, sid));
            && node !in t.sessions && (forall n | n != node :: EntryOf(t.sessions, n) == EntryOf(s.sessions, n))
            && Absent(Run(local, t, more).sessions, sid)
  {
    var t := Do(local, s, Unregister(node, sid));
    assert Departed(t, sid);
    DepartedStays(local, t, more, sid);
  }

  /**
    A failed hand-off takes the newcomer out and gives the peer back its previous session, if it had one, exactly when
    the newcomer is still registered.
   */
  lemma PreviousReturnsIffNewcomerStayed(local: NodeId, s: State)
    requires Inv(s) && s.processor.RollingBack?
    ensures var node, t := s.processor.node, Do(local, s, RollBack);
            && EntryOf(t.sessions, node) == (if node in s.sessions then s.processor.replaced else None)
            && (forall n | n != node :: EntryOf(t.sessions, n) == EntryOf(s.sessions, n))
  {
  }

  /** The other case happens: a failed send between the decision and the roll-back loses a live, uncancelled session. */
  lemma PreviousCanBeLost(local: NodeId, node: NodeId)
    requires local != node
    ensures var worse := if Preferred(local, node).Outbound? then Inbound else Outbound;
            var acts := [Register(node, 1, worse, false), Decide(true),
                         Register(node, 2, Preferred(local, node), false),
                         Fetch(node), TrySend(false), DropFailed, Decide(false), RollBack];
            && Legal(local, EMPTY, acts)
            && var s := Run(local, EMPTY, acts);
               s.processor.Idle? && s.sessions == map[] && 1 in s.told && 1 !in s.displaced
  {
    var worse := if Preferred(local, node).Outbound? then Inbound else Outbound;
    var best := Preferred(local, node);
    var acts := [Register(node, 1, worse, false), Decide(true), Register(node, 2, best, false),
                 Fetch(node), TrySend(false), DropFailed, Decide(false), RollBack];
    var s1 := Do(local, EMPTY, acts[0]);
    var s2 := Do(local, s1, acts[1]);
    var s3 := Do(local, s2, acts[2]);
    var s4 := Do(local, s3, acts[3]);
    var s5 := Do(local, s4, acts[4]);
    var s6 := Do(local, s5, acts[5]);
    assert s6.sessions == map[];
    var s7 := Do(local, s6, acts[6]);
    var s8 := Do(local, s7, acts[7]);
    EightSteps(local, acts, EMPTY, s1, s2, s3, s4, s5, s6, s7, s8);
  }

  /**
    And one cancelled by a failed send can come back: its message fails while the newcomer is being decided on, and
    the newcomer's hand-off fails after it.
   */
  lemma DroppedCanReturn(local: NodeId, node: NodeId)
    requires local != node
    ensures var worse := if Preferred(local, node).Outbound? then Inbound else Outbound;
            var acts := [Register(node, 1, worse, false), Decide(true), Fetch(node),
                         Register(node, 2, Preferred(local, node), false),
                         TrySend(false), DropFailed, Decide(false), RollBack];
            && Legal(local, EMPTY, acts)
            && var s := Run(local, EMPTY, acts);
               && s.processor.Idle? && s.sender.Free? && 1 in s.dropped && 1 in s.returned
               && s.sessions == map[node := Entry(1, worse)]
  {
    var worse := if Preferred(local, node).Outbound? then Inbound else Outbound;
    var acts := [Register(node, 1, worse, false), Decide(true), Fetch(node),
                 Register(node, 2, Preferred(local, node), false),
                 TrySend(false), DropFailed, Decide(false), RollBack];
    var s1 := Do(local, EMPTY, acts[0]);
    var s2 := Do(local, s1, acts[1]);
    var s3 := Do(local, s2, acts[2]);
    var s4 := Do(local, s3, acts[3]);
    var s5 := Do(local, s4, acts[4]);
    var s6 := Do(local, s5, acts[5]);
    var s7 := Do(local, s6, acts[6]);
    var s8 := Do(local, s7, acts[7]);
    EightSteps(local, acts, EMPTY, s1, s2, s3, s4, s5, s6, s7, s8);
  }

  lemma EightSteps(local: NodeId, acts: seq<Act>,
                   s0: State, s1: State, s2: State, s3: State, s4: State, s5: State, s6: State, s7: State, s8: State)
    requires |acts| == 8
    requires Enabled(s0, acts[0]) && s1 == Do(local, s0, acts[0]) && Enabled(s1, acts[1])
             && s2 == Do(local, s1, acts[1])
    requires Enabled(s2, acts[2]) && s3 == Do(local, s2, acts[2]) && Enabled(s3, acts[3])
             && s4 == Do(local, s3, acts[3])
    requires Enabled(s4, acts[4]) && s5 == Do(local, s4, acts[4]) && Enabled(s5, acts[5])
             && s6 == Do(local, s5, acts[5])
    requires Enabled(s6, acts[6]) && s7 == Do(local, s6, acts[6]) && Enabled(s7, acts[7])
             && s8 == Do(local, s7, acts[7])
    ensures Legal(local, s0, acts) && Run(local, s0, acts) == s8
  {
    hide Do, Enabled;
    assert acts[7..][1..] == [] && acts[6..][1..] == acts[7..] && acts[5..][1..] == acts[6..]
           && acts[4..][1..] == acts[5..];
    assert acts[3..][1..] == acts[4..] && acts[2..][1..] == acts[3..] && acts[1..][1..] == acts[2..];
    RunStep(local, s7, acts[7..], s8);
    RunStep(local, s6, acts[6..], s7);
    RunStep(local, s5, acts[5..], s6);
    RunStep(local, s4, acts[4..], s5);
    RunStep(local, s3, acts[3..], s4);
    RunStep(local, s2, acts[2..], s3);
    RunStep(local, s1, acts[1..], s2);
    RunStep(local, s0, acts, s1);
  }

  lemma RunStep(local: NodeId, s: State, acts: seq<Act>, t: State)
    requires acts != [] && Enabled(s, acts[0]) && t == Do(local, s, acts[0]) && Legal(local, t, acts[1..])
    ensures Legal(local, s, acts) && Run(local, s, acts) == Run(local, t, acts[1..])
  {
  }
}
