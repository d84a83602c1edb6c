/**
  Two nodes that dial each other at the same time, each with its own registry, command processor and outgoing task:
  which of the two connections survives.
 */
module CrossingConnections {
  import opened Tokens
  import opened SessionRegistry

  datatype Side = Low | High

  datatype Conn = FromLow | FromHigh

  /**
    One end of a connection: not yet registered, waiting for the decision, relaying, ended with its unregister still
    to be processed, or ended for good. A rejected end, or one that stops waiting, is gone at once.
   */
  datatype End = Pending | Asking | Running | Leaving | Gone

  datatype Node = Node(id: NodeId, reg: State, fromLow: End, fromHigh: End) {
    function Of(c: Conn): End {
      if c.FromLow? then fromLow else fromHigh
    }

    function With(c: Conn, e: End): Node {
      if c.FromLow? then this.(fromLow := e) else this.(fromHigh := e)
    }
  }

  datatype Pair = Pair(low: Node, high: Node) {
    function At(s: Side): Node {
      if s.Low? then low else high
    }

    function Put(s: Side, n: Node): Pair {
      if s.Low? then this.(low := n) else this.(high := n)
    }
  }

  function Other(s: Side): Side {
    if s.Low? then High else Low
  }

  function Toward(s: Side, c: Conn): Direction {
    if s.Low? == c.FromLow? then Outbound else Inbound
  }

  /** The generation of a connection's session at one node, and back. */
  function Generation(c: Conn): SessionId {
    if c.FromLow? then 1 else 2
  }

  function ConnOf(sid: SessionId): Conn {
    if sid == 1 then FromLow else FromHigh
  }

  /** What a node registers for a connection. */
  function Its(s: Side, c: Conn): Entry {
    Entry(Generation(c), Toward(s, c))
  }

  predicate Closed(e: End) {
    e.Leaving? || e.Gone?
  }

  // ---------- the product of the two registries and the four ends ----------

  datatype Move =
    | Registry(side: Side, act: Act)
    | NoticeCancel(side: Side, conn: Conn)
    | NoticeClose(side: Side, conn: Conn)
    | Break(side: Side)
    | GiveUp(side: Side)

  /**
    When a step of a registry fits the ends. A decision is delivered exactly when its session still waits; a send
    succeeds only while the session lives. The connection the higher id opened may also be refused, overloaded,
    broken or given up at any time; the other one is left to the registries alone.
   */
  ghost predicate Fits(n: Node, remote: NodeId, s: Side, a: Act)
    requires SessionRegistry.Enabled(n.reg, a)
  {
    match a
    case Register(node, sid, direction, refused) =>
      && node == remote && sid == Generation(ConnOf(sid)) && direction == Toward(s, ConnOf(sid))
      && n.Of(ConnOf(sid)).Pending? && (refused ==> ConnOf(sid).FromHigh?)
    case Decide(delivered) => delivered == n.Of(ConnOf(n.reg.processor.sid)).Asking?
    case Unregister(node, sid) => node == remote && sid == Generation(ConnOf(sid)) && n.Of(ConnOf(sid)).Leaving?
    case TrySend(ok) =>
      var c := ConnOf(n.reg.sender.entry.sid);
      if ok then !Closed(n.Of(c)) else Closed(n.Of(c)) || c.FromHigh?
    case ClearAll => false
    case _ => true
  }

  ghost predicate CancelSeen(n: Node, c: Conn) {
    Generation(c) in n.reg.displaced || Generation(c) in n.reg.dropped
  }

  ghost predicate CanMove(p: Pair, m: Move) {
    var n, other := p.At(m.side), p.At(Other(m.side));
    match m
    case Registry(s, a) => SessionRegistry.Enabled(n.reg, a) && Fits(n, other.id, s, a)
    case NoticeCancel(_, c) => n.Of(c).Running? && CancelSeen(n, c)
    case NoticeClose(_, c) => n.Of(c).Running? && Closed(other.Of(c))
    case Break(_) => n.fromHigh.Running?
    case GiveUp(_) => n.fromHigh.Pending? || n.fromHigh.Asking?
  }

  /** One step of a registry, and what it tells the session it is about. */
  ghost function Stepped(n: Node, a: Act): Node
    requires SessionRegistry.Enabled(n.reg, a)
  {
    var m := n.(reg := SessionRegistry.Do(n.id, n.reg, a));
    match a
    case Register(_, sid, _, refused) => m.With(ConnOf(sid), if refused then Gone else Asking)
    case Decide(delivered) =>
      if delivered then m.With(ConnOf(n.reg.processor.sid), if n.reg.processor.accepted then Running else Gone) else m
    case Unregister(_, sid) => m.With(ConnOf(sid), Gone)
    case _ => m
  }

  ghost function Moved(p: Pair, m: Move): Pair
    requires CanMove(p, m)
  {
    var n := p.At(m.side);
    p.Put(m.side,
          match m
          case Registry(_, a) => Stepped(n, a)
          case NoticeCancel(_, c) => n.With(c, Leaving)
          case NoticeClose(_, c) => n.With(c, Leaving)
          case Break(_) => n.(fromHigh := Leaving)
          case GiveUp(_) => n.(fromHigh := Gone))
  }

  ghost predicate Start(p: Pair) {
    && p.low.id < p.high.id
    && p.low == Node(p.low.id, EMPTY, Pending, Pending) && p.high == Node(p.high.id, EMPTY, Pending, Pending)
  }

  // ---------- the invariant of one node ----------

  ghost predicate Holds(n: Node, remote: NodeId, s: Side, c: Conn) {
    n.reg.sessions == map[remote := Its(s, c)]
  }

  ghost predicate RegistryOk(n: Node, remote: NodeId, s: Side) {
    && n.id != remote && (s.Low? <==> n.id < remote)
    && (n.reg.sessions == map[] || Holds(n, remote, s, FromLow) || Holds(n, remote, s, FromHigh))
  }

  /**
    The connection the lower id opened waits, asks or relays; from asking on it owns the registry; nobody
    cancels it.
   */
  ghost predicate LowOk(n: Node, remote: NodeId, s: Side) {
    && 1 !in n.reg.displaced && 1 !in n.reg.dropped
    && match n.fromLow
       case Pending => 1 !in n.reg.submitted && !Holds(n, remote, s, FromLow)
       case Asking => n.reg.processor.Deciding? && n.reg.processor.sid == 1 && Holds(n, remote, s, FromLow)
       case Running => Holds(n, remote, s, FromLow)
       case _ => false
  }

  /** While the other one relays it owns the registry, or is cancelled, or is about to be. */
  ghost predicate HighOk(n: Node, remote: NodeId, s: Side) {
    match n.fromHigh
    case Pending => 2 !in n.reg.submitted
    case Asking => n.reg.processor.Deciding? && n.reg.processor.sid == 2
    case Running =>
      || Holds(n, remote, s, FromHigh) || CancelSeen(n, FromHigh)
      || (n.reg.processor.Deciding? && n.reg.processor.replaced == Some(Its(s, FromHigh)))
      || n.reg.processor == Cancelling(Its(s, FromHigh))
    case _ => true
  }

  ghost predicate ProcessorShape(n: Node, remote: NodeId, s: Side) {
    match n.reg.processor
    case Idle => true
    case Deciding(node, sid, accepted, replaced) =>
      && node == remote
      && if sid == 1 then n.fromLow.Asking? && accepted && (replaced == None || replaced == Some(Its(s, FromHigh)))
         else sid == 2 && (n.fromHigh.Asking? || n.fromHigh.Gone?) && replaced == None
              && (accepted ==> Holds(n, remote, s, FromHigh) || 2 in n.reg.dropped)
    case RollingBack(node, sid, replaced) => node == remote && sid == 2 && replaced == None && n.fromHigh.Gone?
    case Cancelling(previous) => previous == Its(s, FromHigh)
  }

  ghost predicate SenderShape(n: Node, remote: NodeId, s: Side) {
    match n.reg.sender
    case Free => true
    case Holding(node, entry) =>
      node == remote && (entry == Its(s, FromHigh) || (entry == Its(s, FromLow) && !n.fromLow.Pending?))
    case Failed(node, entry) => node == remote && entry == Its(s, FromHigh) && 2 in n.reg.dropped
  }

  ghost predicate NodeInv(n: Node, remote: NodeId, s: Side) {
    && RegistryOk(n, remote, s) && LowOk(n, remote, s) && HighOk(n, remote, s)
    && ProcessorShape(n, remote, s) && SenderShape(n, remote, s)
  }

  ghost predicate PairInv(p: Pair) {
    NodeInv(p.low, p.high.id, Low) && NodeInv(p.high, p.low.id, High)
  }

  // ---------- the work left at one node ----------

  function Rank(e: End): nat {
    match e
    case Pending => 4
    case Asking => 3
    case Running => 2
    case Leaving => 1
    case Gone => 0
  }

  ghost function ProcessorWork(p: Processor): nat {
    match p
    case Idle => 0
    case Deciding(_, _, _, _) => 2
    case _ => 1
  }

  /** A failed send of the other connection is still to come, or its entry is still to be dropped. */
  ghost function SenderWork(g: State, remote: NodeId): nat {
    if g.sender.Failed? then 1
    else if Current(g.sessions, remote, 2) || (g.sender.Holding? && g.sender.entry.sid == 2) then 2
    else 0
  }

  ghost function NodeWork(n: Node, remote: NodeId): nat {
    5 * (Rank(n.fromLow) + Rank(n.fromHigh)) + ProcessorWork(n.reg.processor) + SenderWork(n.reg, remote)
  }

  /** Fetching an entry and delivering a message to it are the traffic that never ends. */
  ghost predicate IsTraffic(m: Move) {
    m.Registry? && (m.act.Fetch? || m.act == TrySend(true))
  }

  ghost predicate Progress(n: Node, m: Node, remote: NodeId, s: Side, traffic: bool) {
    && NodeInv(m, remote, s) && m.id == n.id
    && NodeWork(m, remote) <= NodeWork(n, remote) && (!traffic ==> NodeWork(m, remote) < NodeWork(n, remote))
  }

  lemma RegisterLow(n: Node, remote: NodeId, s: Side, a: Act)
    requires NodeInv(n, remote, s) && SessionRegistry.Enabled(n.reg, a) && Fits(n, remote, s, a)
    requires a.Register? && a.sid == 1
    ensures Progress(n, Stepped(n, a), remote, s, false)
  {
    assert Keeps(n.id, n.reg.sessions, remote, a.direction);
    assert n.reg.sessions[remote := Its(s, FromLow)] == map[remote := Its(s, FromLow)];
  }

  lemma RegisterHigh(n: Node, remote: NodeId, s: Side, a: Act)
    requires NodeInv(n, remote, s) && SessionRegistry.Enabled(n.reg, a) && Fits(n, remote, s, a)
    requires a.Register? && a.sid == 2
    ensures Progress(n, Stepped(n, a), remote, s, false)
  {
    assert n.reg.sessions == map[] ==> n.reg.sessions[remote := Its(s, FromHigh)] == map[remote := Its(s, FromHigh)];
    assert !a.refused && Keeps(n.id, n.reg.sessions, remote, a.direction) ==> n.reg.sessions == map[];
  }

  lemma DecideMoves(n: Node, remote: NodeId, s: Side, a: Act)
    requires NodeInv(n, remote, s) && SessionRegistry.Enabled(n.reg, a) && Fits(n, remote, s, a)
    requires a.Decide?
    ensures Progress(n, Stepped(n, a), remote, s, false)
  {
  }

  lemma ProcessorMoves(n: Node, remote: NodeId, s: Side, a: Act)
    requires NodeInv(n, remote, s) && SessionRegistry.Enabled(n.reg, a) && Fits(n, remote, s, a)
    requires a.RollBack? || a.CancelPrevious?
    ensures Progress(n, Stepped(n, a), remote, s, false)
  {
    assert remote in n.reg.sessions ==> n.reg.sessions - {remote} == map[];
  }

  lemma RemovalMoves(n: Node, remote: NodeId, s: Side, a: Act)
    requires NodeInv(n, remote, s) && SessionRegistry.Enabled(n.reg, a) && Fits(n, remote, s, a)
    requires a.Unregister? || a.DropFailed?
    ensures Progress(n, Stepped(n, a), remote, s, false)
  {
    assert remote in n.reg.sessions ==> n.reg.sessions - {remote} == map[];
    assert n.reg.sessions == map[] || n.reg.sessions[remote] == Its(s, FromLow)
           || n.reg.sessions[remote] == Its(s, FromHigh);
  }

  lemma SenderMoves(n: Node, remote: NodeId, s: Side, a: Act)
    requires NodeInv(n, remote, s) && SessionRegistry.Enabled(n.reg, a) && Fits(n, remote, s, a)
    requires a.Fetch? || a.TrySend?
    ensures Progress(n, Stepped(n, a), remote, s, a.Fetch? || a == TrySend(true))
  {
  }

  lemma RegistryMoves(n: Node, remote: NodeId, s: Side, a: Act)
    requires NodeInv(n, remote, s) && SessionRegistry.Enabled(n.reg, a) && Fits(n, remote, s, a)
    ensures Progress(n, Stepped(n, a), remote, s, a.Fetch? || a == TrySend(true))
  {
    hide NodeInv, Stepped, Progress, SessionRegistry.Enabled;
    match a
    case Register(_, sid, _, _) =>
      if sid == 1 { RegisterLow(n, remote, s, a); } else { RegisterHigh(n, remote, s, a); }
    case Decide(_) => DecideMoves(n, remote, s, a);
    case Fetch(_) => SenderMoves(n, remote, s, a);
    case TrySend(_) => SenderMoves(n, remote, s, a);
    case RollBack => ProcessorMoves(n, remote, s, a);
    case CancelPrevious => ProcessorMoves(n, remote, s, a);
    case _ => RemovalMoves(n, remote, s, a);
  }

  /** An end that closes: never the connection the lower id opened, whose other end is never closed. */
  lemma EndMoves(p: Pair, m: Move)
    requires PairInv(p) && CanMove(p, m) && !m.Registry?
    ensures Progress(p.At(m.side), Moved(p, m).At(m.side), p.At(Other(m.side)).id, m.side, false)
  {
    hide Stepped, Fits, SessionRegistry.Enabled, SessionRegistry.Do;
    assert NodeInv(p.At(m.side), p.At(Other(m.side)).id, m.side);
    assert LowOk(p.At(Other(m.side)), p.At(m.side).id, Other(m.side));
  }

  ghost function Work(p: Pair): nat {
    NodeWork(p.low, p.high.id) + NodeWork(p.high, p.low.id)
  }

  /** Every move keeps the invariant, and every one but traffic does work that is never undone. */
  lemma MoveDoesWork(p: Pair, m: Move)
    requires PairInv(p) && CanMove(p, m)
    ensures var q := Moved(p, m);
            && PairInv(q) && Work(q) <= Work(p) && (!IsTraffic(m) ==> Work(q) < Work(p))
            && q.low.id == p.low.id && q.high.id == p.high.id
  {
    hide NodeInv, NodeWork, Stepped, SessionRegistry.Enabled, Fits;
    if m.Registry? {
      RegistryMoves(p.At(m.side), p.At(Other(m.side)).id, m.side, m.act);
    } else {
      EndMoves(p, m);
    }
  }

  // ---------- every interleaving ----------

  ghost predicate LegalMoves(p: Pair, moves: seq<Move>)
    decreases |moves|
  {
    moves == [] || (CanMove(p, moves[0]) && LegalMoves(Moved(p, moves[0]), moves[1..]))
  }

  ghost function MovedAll(p: Pair, moves: seq<Move>): Pair
    requires LegalMoves(p, moves)
    decreases |moves|
  {
    if moves == [] then p else MovedAll(Moved(p, moves[0]), moves[1..])
  }

  /** How many of the moves are not traffic. */
  ghost function Steps(moves: seq<Move>): nat {
    if moves == [] then 0 else (if IsTraffic(moves[0]) then 0 else 1) + Steps(moves[1..])
  }

  lemma {:induction false} InvAlways(p: Pair, moves: seq<Move>)
    requires PairInv(p) && LegalMoves(p, moves)
    ensures var q := MovedAll(p, moves);
            && PairInv(q) && Steps(moves) + Work(q) <= Work(p)
            && q.low.id == p.low.id && q.high.id == p.high.id
    decreases |moves|
  {
    hide PairInv, Work, CanMove, Moved, IsTraffic;
    if moves != [] {
      MoveDoesWork(p, moves[0]);
      InvAlways(Moved(p, moves[0]), moves[1..]);
    }
  }

  lemma StartOk(p: Pair)
    requires Start(p)
    ensures PairInv(p) && Work(p) == 80
  {
    assert p.high.id !in p.low.reg.sessions && p.low.id !in p.high.reg.sessions;
  }

  /** Nothing is due: at most new traffic could start, or the other connection fail on its own. */
  ghost predicate Quiescent(p: Pair) {
    forall m :: CanMove(p, m) ==> m.Break? || m.GiveUp? || (m.Registry? && m.act.Fetch?)
  }

  /** With nothing due at a node, its registry holds the connection the lower id opened, and the other end is gone. */
  lemma QuietNode(p: Pair, s: Side)
    requires PairInv(p) && Quiescent(p)
    ensures var n, remote := p.At(s), p.At(Other(s)).id;
            n.fromLow.Running? && n.fromHigh.Gone? && Holds(n, remote, s, FromLow)
  {
    hide Quiescent;
    var n, remote := p.At(s), p.At(Other(s)).id;
    assert NodeInv(n, remote, s);
    QuietProcessor(p, s);
    assert !n.fromLow.Pending? by { NotDue(p, Registry(s, Register(remote, 1, Toward(s, FromLow), false))); }
    assert !n.fromHigh.Pending? by { NotDue(p, Registry(s, Register(remote, 2, Toward(s, FromHigh), false))); }
    assert !n.fromHigh.Leaving? by { NotDue(p, Registry(s, Unregister(remote, 2))); }
    assert n.reg.sessions[remote] == Its(s, FromLow);
    assert !n.fromHigh.Running? by { NotDue(p, NoticeCancel(s, FromHigh)); }
  }

  lemma QuietProcessor(p: Pair, s: Side)
    requires Quiescent(p)
    ensures p.At(s).reg.processor.Idle?
  {
    hide Quiescent;
    var n := p.At(s);
    if n.reg.processor.Deciding? {
      NotDue(p, Registry(s, Decide(n.Of(ConnOf(n.reg.processor.sid)).Asking?)));
    } else if n.reg.processor.RollingBack? {
      NotDue(p, Registry(s, Act.RollBack));
    } else if n.reg.processor.Cancelling? {
      NotDue(p, Registry(s, CancelPrevious));
    }
  }

  lemma NotDue(p: Pair, m: Move)
    requires Quiescent(p) && !m.Break? && !m.GiveUp? && !(m.Registry? && m.act.Fetch?)
    ensures !CanMove(p, m)
  {
    hide CanMove;
  }

  ghost function Held(n: Node): nat {
    if n.reg.sender.Holding? then 1 else 0
  }

  lemma SendingFrees(p: Pair, m: Move)
    requires CanMove(p, m) && m.Registry? && m.act == TrySend(true)
    ensures var q := Moved(p, m); Held(q.low) + Held(q.high) < Held(p.low) + Held(p.high)
  {
  }

  /** From every reachable state the nodes can settle: whatever is due leads there, in any order. */
  lemma {:induction false} CanSettle(p: Pair)
    requires PairInv(p)
    ensures exists moves :: LegalMoves(p, moves) && Quiescent(MovedAll(p, moves))
    decreases Work(p), Held(p.low) + Held(p.high)
  {
    hide PairInv, Work, CanMove, Moved, Held;
    if Quiescent(p) {
      assert LegalMoves(p, []) && MovedAll(p, []) == p;
    } else {
      var m :| CanMove(p, m) && !(m.Break? || m.GiveUp? || (m.Registry? && m.act.Fetch?));
      MoveDoesWork(p, m);
      if IsTraffic(m) {
        SendingFrees(p, m);
      }
      CanSettle(Moved(p, m));
      var rest :| LegalMoves(Moved(p, m), rest) && Quiescent(MovedAll(Moved(p, m), rest));
      assert ([m] + rest)[1..] == rest;
      assert LegalMoves(p, [m] + rest) && MovedAll(p, [m] + rest) == MovedAll(Moved(p, m), rest);
    }
  }

  /**
    Crossing connections converge. In every interleaving of the two registries' lock sections with the four ends, the
    connection the lower id opened is never rejected, displaced or dropped at either end; apart from traffic at most 80
    steps are taken; and when nothing is due, which the nodes can always still reach, both registries hold that
    connection and the other one is gone, even if it was refused, overloaded, broken or given up on the way.
   */
  lemma CrossingConverges(p: Pair, moves: seq<Move>)
    requires Start(p) && LegalMoves(p, moves)
    ensures Steps(moves) <= 80
    ensures var q := MovedAll(p, moves);
            && (forall s: Side :: !Closed(q.At(s).fromLow) && !CancelSeen(q.At(s), FromLow))
            && (Quiescent(q) ==>
                  && q.low.reg.sessions == map[p.high.id := Entry(Generation(FromLow), Outbound)]
                  && q.high.reg.sessions == map[p.low.id := Entry(Generation(FromLow), Inbound)]
                  && q.low.fromLow.Running? && q.high.fromLow.Running? && q.low.fromHigh.Gone? && q.high.fromHigh.Gone?)
            && exists more :: LegalMoves(q, more) && Quiescent(MovedAll(q, more))
  {
    hide LegalMoves, MovedAll, Quiescent;
    StartOk(p);
    InvAlways(p, moves);
    var q := MovedAll(p, moves);
    CanSettle(q);
    forall s: Side
      ensures !Closed(q.At(s).fromLow) && !CancelSeen(q.At(s), FromLow)
    {
      assert NodeInv(q.At(s), q.At(Other(s)).id, s);
    }
    if Quiescent(q) {
      QuietNode(q, Low);
      QuietNode(q, High);
    }
  }
}
