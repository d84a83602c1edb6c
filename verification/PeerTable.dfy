/** The bounded table of discovered peers: merged in place, evicted by age, pruned by expiry. */
module DiscoveryPeers {
  import opened Tokens
  import opened SetSizes

  type NodeId = nat
  type Address = nat

  const MAX_DISCOVERED_PEERS := 64
  /** Ninety seconds of the monotonic clock, which counts nanoseconds. */
  const PEER_EXPIRY := 90_000_000_000

  /** `key` zero stands for the all-zero public key of a peer that did not provide one. */
  datatype PeerInfo = PeerInfo(
    node: NodeId,
    name: string,
    endpoint: Option<Address>,
    sessionAddr: Option<Address>,
    lastSeen: nat,
    key: nat,
    fingerprint: Option<string>)

  type Table = map<NodeId, PeerInfo>

  // ---------- what each call does to the table ----------

  function Or<T>(a: Option<T>, b: Option<T>): Option<T> {
    if a.Some? then a else b
  }

  function Merge(existing: PeerInfo, peer: PeerInfo): PeerInfo {
    PeerInfo(existing.node, peer.name, Or(peer.endpoint, existing.endpoint), Or(peer.sessionAddr, existing.sessionAddr),
             peer.lastSeen, if peer.key != 0 then peer.key else existing.key,
             Or(peer.fingerprint, existing.fingerprint))
  }

  ghost predicate Oldest(m: Table, k: NodeId) {
    k in m && forall n | n in m :: m[k].lastSeen <= m[n].lastSeen
  }

  /** A full table gives up one of its oldest entries; which one of several equally old is not specified. */
  ghost predicate Added(m: Table, peer: PeerInfo, r: Table) {
    if peer.node in m then r == m[peer.node := Merge(m[peer.node], peer)]
    else if |m| >= MAX_DISCOVERED_PEERS then exists k: NodeId :: Oldest(m, k) && r == (m - {k})[peer.node := peer]
    else r == m[peer.node := peer]
  }

  function Renamed(m: Table, id: NodeId, name: string, now: nat): Table {
    if id in m then m[id := m[id].(name := name, lastSeen := now)] else m
  }

  function Unexpired(m: Table, now: nat): Table {
    map n | n in m && now < m[n].lastSeen + PEER_EXPIRY :: m[n]
  }

  class PeerTable {
    var peers: Table

    constructor ()
      ensures peers == map[]
    {
      peers := map[];
    }

    method OldestKey() returns (k: NodeId)
      requires peers != map[]
      ensures Oldest(peers, k)
    {
      k :| k in peers;
      var rest := peers.Keys - {k};
      while rest != {}
        invariant k in peers && k !in rest && rest <= peers.Keys
        invariant forall n | n in peers && n !in rest :: peers[k].lastSeen <= peers[n].lastSeen
        decreases rest
      {
        var n :| n in rest;
        rest := rest - {n};
        if peers[n].lastSeen < peers[k].lastSeen { k := n; }
      }
    }

    method AddPeer(peer: PeerInfo)
      modifies this
      ensures Added(old(peers), peer, peers)
    {
      if peer.node in peers {
        var existing := peers[peer.node];
        existing := existing.(name := peer.name);
        if peer.endpoint.Some? { existing := existing.(endpoint := peer.endpoint); }
        if peer.sessionAddr.Some? { existing := existing.(sessionAddr := peer.sessionAddr); }
        if peer.key != 0 { existing := existing.(key := peer.key); }
        if peer.fingerprint.Some? { existing := existing.(fingerprint := peer.fingerprint); }
        existing := existing.(lastSeen := peer.lastSeen);
        peers := peers[peer.node := existing];
      } else {
        if |peers| >= MAX_DISCOVERED_PEERS {
          var oldest := OldestKey();
          peers := peers - {oldest};
        }
        peers := peers[peer.node := peer];
      }
    }

    method RemoveExpired(now: nat) returns (pruned: nat)
      modifies this
      ensures peers == Unexpired(old(peers), now) && pruned == |old(peers)| - |peers|
    {
      var before := |peers|;
      var kept := map n | n in peers && now < peers[n].lastSeen + PEER_EXPIRY :: peers[n];
      assert kept.Keys <= peers.Keys;
      SubsetSmaller(kept.Keys, peers.Keys);
      peers := kept;
      pruned := before - |peers|;
    }

    method UpdateName(id: NodeId, name: string, now: nat) returns (found: bool)
      modifies this
      ensures peers == Renamed(old(peers), id, name, now) && found == (id in old(peers))
    {
      found := id in peers;
      if found {
        peers := peers[id := peers[id].(name := name, lastSeen := now)];
      }
    }
  }

  // ---------- the table against its history ----------

  datatype Report = Announced(peer: PeerInfo) | NameChange(name: string, at: nat)

  datatype Op = Add(peer: PeerInfo) | Rename(id: NodeId, name: string, now: nat) | Expire(now: nat)

  /**
    The table, when each id was last touched, what each present id reported since it entered, and the last
    report time.
   */
  datatype Track = Track(peers: Table, touched: map<NodeId, nat>, reports: map<NodeId, seq<Report>>, clock: nat)

  const NEW_TRACK := Track(map[], map[], map[], 0)

  ghost function Reported(t: Track, peers: Table, id: NodeId, r: Report): map<NodeId, seq<Report>>
  {
    map n | n in peers :: (if n in t.peers && n in t.reports then t.reports[n] else []) + if n == id then [r] else []
  }

  /** One call, with reports stamped later than every report before. */
  ghost predicate Stepped(t: Track, op: Op, u: Track) {
    match op
    case Add(p) =>
      && t.clock < p.lastSeen && Added(t.peers, p, u.peers)
      && u == Track(u.peers, t.touched[p.node := p.lastSeen], Reported(t, u.peers, p.node, Announced(p)), p.lastSeen)
    case Rename(id, name, now) =>
      && t.clock < now
      && u == if id in t.peers
              then Track(Renamed(t.peers, id, name, now), t.touched[id := now],
                         Reported(t, t.peers, id, NameChange(name, now)), now)
              else t.(clock := now)
    case Expire(now) =>
      var m := Unexpired(t.peers, now);
      u == t.(peers := m, reports := map n | n in m && n in t.reports :: t.reports[n])
  }

  /** The record a list of reports amounts to. */
  ghost function Merged(reports: seq<Report>): PeerInfo
    requires reports != [] && reports[0].Announced?
  {
    if |reports| == 1 then reports[0].peer
    else Extended(Merged(reports[..|reports| - 1]), reports[|reports| - 1])
  }

  ghost function Extended(before: PeerInfo, r: Report): PeerInfo {
    match r
    case Announced(p) => Merge(before, p)
    case NameChange(name, at) => before.(name := name, lastSeen := at)
  }

  /** Every touched id outside the table was touched before every id inside it. */
  ghost predicate MostRecent(keys: set<NodeId>, touched: map<NodeId, nat>) {
    && keys <= touched.Keys
    && forall a, b | a in keys && b in touched && b !in keys :: touched[b] < touched[a]
  }

  /** There is only one such set of each size, so the keys are exactly that many most recently touched ids. */
  lemma MostRecentIsUnique(a: set<NodeId>, b: set<NodeId>, touched: map<NodeId, nat>)
    requires MostRecent(a, touched) && MostRecent(b, touched) && |a| == |b|
    ensures a == b
  {
    assert a <= b || b <= a by {
      assert forall x, y | x in a && x !in b && y in b :: y in a;
    }
    assert a <= b ==> b == a + (b - a);
    assert b <= a ==> a == b + (a - b);
  }

  ghost predicate Stamped(t: Track) {
    && (forall n | n in t.peers :: n in t.touched && t.peers[n].lastSeen == t.touched[n])
    && (forall n | n in t.touched :: t.touched[n] <= t.clock)
    && (forall n, k | n in t.touched && k in t.touched && n != k :: t.touched[n] != t.touched[k])
  }

  ghost predicate RecordsMerged(t: Track) {
    && t.reports.Keys == t.peers.Keys
    && forall n | n in t.peers :: t.reports[n] != [] && t.reports[n][0].Announced? && t.peers[n] == Merged(t.reports[n])
  }

  ghost predicate Inv(t: Track) {
    |t.peers| <= MAX_DISCOVERED_PEERS && MostRecent(t.peers.Keys, t.touched) && Stamped(t) && RecordsMerged(t)
  }

  /** Touching one id, and letting go only of ids older than all that stay, keeps the most recent ones. */
  lemma TouchKeepsRecent(keys: set<NodeId>, touched: map<NodeId, nat>, id: NodeId, at: nat, kept: set<NodeId>)
    requires MostRecent(keys, touched) && (forall n | n in touched :: touched[n] < at)
    requires id in kept && kept <= keys + {id}
    requires forall a, b | a in kept && a in keys && b in keys && b !in kept :: touched[b] < touched[a]
    ensures MostRecent(kept, touched[id := at])
  {
  }

  lemma TouchKeepsStamps(t: Track, u: Track, id: NodeId, at: nat)
    requires Stamped(t) && t.clock < at && u.clock == at && u.touched == t.touched[id := at]
    requires u.peers.Keys <= t.peers.Keys + {id}
    requires forall n | n in u.peers :: u.peers[n].lastSeen == if n == id then at else t.peers[n].lastSeen
    ensures Stamped(u)
  {
  }

  lemma AddSize(m: Table, p: PeerInfo, r: Table)
    requires Added(m, p, r) && |m| <= MAX_DISCOVERED_PEERS
    ensures |r| <= MAX_DISCOVERED_PEERS && p.node in r && r.Keys <= m.Keys + {p.node}
  {
    hide Merge, Oldest;
    assert |r| == |r.Keys| && |m| == |m.Keys|;
    if p.node in m {
      assert r.Keys == m.Keys;
    } else if |m| >= MAX_DISCOVERED_PEERS {
      var k: NodeId :| Oldest(m, k) && r == (m - {k})[p.node := p];
      assert k in m by { OldestIsIn(m, k); }
      assert r.Keys == m.Keys - {k} + {p.node};
      assert |m.Keys - {k}| == |m.Keys| - 1;
    } else {
      assert r.Keys == m.Keys + {p.node};
    }
  }

  lemma OldestIsIn(m: Table, k: NodeId)
    requires Oldest(m, k)
    ensures k in m
  {
  }

  lemma AddShape(m: Table, p: PeerInfo, r: Table)
    requires Added(m, p, r)
    requires forall n, k | n in m && k in m && n != k :: m[n].lastSeen != m[k].lastSeen
    ensures r.Keys <= m.Keys + {p.node}
    ensures forall n | n in r :: r[n].lastSeen == if n == p.node then p.lastSeen else m[n].lastSeen
    ensures forall a, b | a in r && a in m && b in m && b !in r :: m[b].lastSeen < m[a].lastSeen
  {
    if p.node !in m && |m| >= MAX_DISCOVERED_PEERS {
      var k: NodeId :| Oldest(m, k) && r == (m - {k})[p.node := p];
      assert forall b | b in m && b !in r :: b == k;
    }
  }

  lemma AddKeepsRecency(t: Track, op: Op, u: Track)
    requires Inv(t) && op.Add? && Stepped(t, op, u)
    ensures |u.peers| <= MAX_DISCOVERED_PEERS && MostRecent(u.peers.Keys, u.touched) && Stamped(u)
  {
    hide Merged, Reported, RecordsMerged, Stamped, MostRecent, Added;
    var p := op.peer;
    StampsOf(t);
    AddSize(t.peers, p, u.peers);
    AddShape(t.peers, p, u.peers);
    TouchKeepsRecent(t.peers.Keys, t.touched, p.node, p.lastSeen, u.peers.Keys);
    TouchKeepsStamps(t, u, p.node, p.lastSeen);
  }

  lemma StampsOf(t: Track)
    requires Stamped(t)
    ensures forall n | n in t.peers :: n in t.touched && t.peers[n].lastSeen == t.touched[n]
    ensures forall n | n in t.touched :: t.touched[n] <= t.clock
    ensures forall n, k | n in t.touched && k in t.touched && n != k :: t.touched[n] != t.touched[k]
  {
  }

  lemma RenameKeepsRecency(t: Track, op: Op, u: Track)
    requires Inv(t) && op.Rename? && Stepped(t, op, u)
    ensures |u.peers| <= MAX_DISCOVERED_PEERS && MostRecent(u.peers.Keys, u.touched) && Stamped(u)
  {
    hide Merged, Reported, RecordsMerged, MostRecent;
    assert u.peers.Keys == t.peers.Keys;
    assert |u.peers| == |u.peers.Keys| && |t.peers| == |t.peers.Keys|;
    if op.id in t.peers {
      TouchKeepsRecent(t.peers.Keys, t.touched, op.id, op.now, u.peers.Keys);
      TouchKeepsStamps(t, u, op.id, op.now);
    }
  }

  lemma ExpireKeepsRecent(m: Table, now: nat, touched: map<NodeId, nat>)
    requires MostRecent(m.Keys, touched) && forall n | n in m :: m[n].lastSeen == touched[n]
    ensures Unexpired(m, now).Keys <= m.Keys && MostRecent(Unexpired(m, now).Keys, touched)
  {
  }

  lemma ExpireKeepsInv(t: Track, op: Op, u: Track)
    requires Inv(t) && op.Expire? && Stepped(t, op, u)
    ensures Inv(u)
  {
    hide Merged, MostRecent, RecordsMerged;
    ExpireKeepsRecent(t.peers, op.now, t.touched);
    ExpireKeepsRecords(t, op, u);
    SubsetSmaller(u.peers.Keys, t.peers.Keys);
    assert |u.peers| == |u.peers.Keys| && |t.peers| == |t.peers.Keys|;
  }

  lemma ExpireKeepsRecords(t: Track, op: Op, u: Track)
    requires RecordsMerged(t) && op.Expire? && Stepped(t, op, u)
    ensures RecordsMerged(u)
  {
    hide Merged;
    assert u.reports.Keys == u.peers.Keys;
  }

  lemma MergedNext(reports: seq<Report>, r: Report)
    requires reports != [] && reports[0].Announced?
    ensures Merged(reports + [r]) == Extended(Merged(reports), r)
  {
    assert (reports + [r])[..|reports + [r]| - 1] == reports;
  }

  lemma ReportKeepsRecords(t: Track, op: Op, u: Track)
    requires Inv(t) && !op.Expire? && Stepped(t, op, u)
    ensures RecordsMerged(u)
  {
    hide Merged, MostRecent, Stamped;
    assert u.reports.Keys == u.peers.Keys;
    forall n | n in u.peers
      ensures u.reports[n] != [] && u.reports[n][0].Announced? && u.peers[n] == Merged(u.reports[n])
    {
      if op.Add? && n == op.peer.node {
        if n in t.peers {
          MergedNext(t.reports[n], Announced(op.peer));
        } else {
          assert u.reports[n] == [Announced(op.peer)];
          MergedOne(op.peer);
        }
      } else if op.Rename? && n == op.id {
        MergedNext(t.reports[n], NameChange(op.name, op.now));
      } else {
        assert u.reports[n] == t.reports[n] && u.peers[n] == t.peers[n];
      }
    }
  }

  lemma MergedOne(p: PeerInfo)
    ensures Merged([Announced(p)]) == p
  {
  }

  lemma StepKeepsInv(t: Track, op: Op, u: Track)
    requires Inv(t) && Stepped(t, op, u)
    ensures Inv(u)
  {
    hide Stepped;
    match op
    case Add(_) => AddKeepsRecency(t, op, u); ReportKeepsRecords(t, op, u);
    case Rename(_, _, _) => RenameKeepsRecency(t, op, u); ReportKeepsRecords(t, op, u);
    case Expire(_) => ExpireKeepsInv(t, op, u);
  }

  /** Every record is filed under its own id. */
  ghost predicate FiledRight(t: Track) {
    forall n | n in t.peers :: t.peers[n].node == n
  }

  lemma FiledStep(t: Track, op: Op, u: Track)
    requires FiledRight(t) && Stepped(t, op, u)
    ensures FiledRight(u)
  {
    hide Reported, Oldest;
  }

  ghost predicate History(trail: seq<Track>, ops: seq<Op>) {
    && |trail| == |ops| + 1 && trail[0] == NEW_TRACK
    && forall i | 0 <= i < |ops| :: Stepped(trail[i], ops[i], trail[i + 1])
  }

  /** The latest value that any report in the list carries for a field. */
  ghost function Latest<T>(reports: seq<Report>, field: Report -> Option<T>): Option<T> {
    if reports == [] then None
    else Or(field(reports[|reports| - 1]), Latest(reports[..|reports| - 1], field))
  }

  ghost function EndpointIn(r: Report): Option<Address> {
    if r.Announced? then r.peer.endpoint else None
  }

  ghost function SessionIn(r: Report): Option<Address> {
    if r.Announced? then r.peer.sessionAddr else None
  }

  ghost function FingerprintIn(r: Report): Option<string> {
    if r.Announced? then r.peer.fingerprint else None
  }

  ghost function KeyIn(r: Report): Option<nat> {
    if r.Announced? && r.peer.key != 0 then Some(r.peer.key) else None
  }

  ghost function KeyOr0(k: Option<nat>): nat {
    if k.Some? then k.value else 0
  }

  ghost function NameIn(r: Report): Option<string> {
    if r.Announced? then Some(r.peer.name) else Some(r.name)
  }

  /** Field by field, the merged record is the latest that was said about it: silence never erases. */
  lemma {:induction false} MergedIsLatest(reports: seq<Report>)
    requires reports != [] && reports[0].Announced?
    ensures var m := Merged(reports);
            && m.endpoint == Latest(reports, EndpointIn) && m.sessionAddr == Latest(reports, SessionIn)
            && m.fingerprint == Latest(reports, FingerprintIn) && Some(m.name) == Latest(reports, NameIn)
            && m.key == KeyOr0(Latest(reports, KeyIn))
  {
    if |reports| == 1 {
      assert reports[..0] == [];
    } else {
      MergedIsLatest(reports[..|reports| - 1]);
    }
  }

  /**
    After any mix of reports, renames and expiries: at most 64 entries, which are exactly the most recently
    touched ids, and each record carries, field by field, the latest value reported since the id last entered.
   */
  lemma {:induction false} TableIsRecencyPrefix(trail: seq<Track>, ops: seq<Op>, id: NodeId)
    requires History(trail, ops)
    ensures var t := trail[|ops|];
            && Inv(t) && FiledRight(t) && |t.peers| <= 64 && MostRecent(t.peers.Keys, t.touched)
            && (id in t.peers ==>
                  && id in t.reports && t.peers[id].node == id && t.peers[id].lastSeen == t.touched[id]
                  && t.peers[id].endpoint == Latest(t.reports[id], EndpointIn)
                  && t.peers[id].sessionAddr == Latest(t.reports[id], SessionIn)
                  && t.peers[id].key == KeyOr0(Latest(t.reports[id], KeyIn))
                  && t.peers[id].fingerprint == Latest(t.reports[id], FingerprintIn)
                  && Some(t.peers[id].name) == Latest(t.reports[id], NameIn))
    decreases |ops|
  {
    var t := trail[|ops|];
    if ops == [] {
    } else {
      var n := |ops| - 1;
      assert Stepped(trail[n], ops[n], trail[n + 1]);
      TableIsRecencyPrefix(trail[..n + 1], ops[..n], id);
      StepKeepsInv(trail[n], ops[n], t);
      FiledStep(trail[n], ops[n], t);
    }
    if id in t.peers {
      MergedIsLatest(t.reports[id]);
    }
  }

  // ---------- who is still there ----------

  /** The ids touched later than this one. */
  ghost function Newer(t: Track, id: NodeId): set<NodeId>
    requires id in t.touched
  {
    set n | n in t.touched && t.touched[n] > t.touched[id]
  }

  /** Touching is later than everything before it, and only what is touched moves. */
  lemma TouchedStep(t: Track, op: Op, u: Track, id: NodeId)
    requires Stamped(t) && Stepped(t, op, u) && id in u.touched
    ensures (id in t.touched && u.touched[id] == t.touched[id])
            || (id in u.peers && ((op.Add? && op.peer.node == id) || (op.Rename? && op.id == id)))
    ensures forall n | n in t.touched :: n in u.touched && t.touched[n] <= u.touched[n]
  {
    hide Merge, Reported, Oldest;
  }

  lemma NewerGrows(t: Track, op: Op, u: Track, id: NodeId)
    requires Stamped(t) && Stepped(t, op, u) && id in t.touched && id in u.touched && u.touched[id] == t.touched[id]
    ensures Newer(t, id) <= Newer(u, id)
  {
    TouchedStep(t, op, u, id);
  }

  /** An eviction takes an id that the 63 others of a full table, and the newcomer, are all newer than. */
  lemma EvictedIsOld(t: Track, op: Op, u: Track, id: NodeId)
    requires Inv(t) && Stepped(t, op, u) && op.Add? && id in t.peers && id !in u.peers
    ensures id in u.touched && u.touched[id] == t.touched[id] && |Newer(u, id)| >= 64
  {
    hide Merged, Reported, RecordsMerged, Merge;
    var m, p := t.peers, op.peer;
    assert p.node !in m && |m| >= 64;
    var others := m.Keys - {id} + {p.node};
    forall n | n in others
      ensures n in Newer(u, id)
    {
      if n != p.node {
        assert m[id].lastSeen <= m[n].lastSeen;
      }
    }
    assert |m| == |m.Keys| && |m.Keys - {id}| == |m.Keys| - 1;
    SubsetSmaller(others, Newer(u, id));
  }

  lemma KeptUnlessOld(t: Track, op: Op, u: Track, id: NodeId)
    requires Inv(t) && Stepped(t, op, u) && id in t.peers
    requires op.Expire? ==> op.now - t.touched[id] < 90_000_000_000
    ensures id in u.peers || (id in u.touched && u.touched[id] == t.touched[id] && |Newer(u, id)| >= 64)
  {
    hide Merged, Reported, RecordsMerged, Merge, Newer;
    if op.Add? && id !in u.peers {
      EvictedIsOld(t, op, u, id);
    }
  }

  /** Pruning leaves nothing that was last touched ninety seconds ago or more. */
  lemma PruningLeavesTheRecent(t: Track, now: nat, u: Track, id: NodeId)
    requires Inv(t) && Stepped(t, Expire(now), u)
    ensures id in u.peers <==> id in t.peers && now - t.touched[id] < 90_000_000_000
  {
    hide Merged, RecordsMerged, MostRecent;
  }

  /**
    An id is in the table if fewer than 64 others were touched since it was, and no pruning came ninety seconds or
    more after it: together with the bound, the table is as large as it may be.
   */
  lemma {:induction false} RecentIsKept(trail: seq<Track>, ops: seq<Op>, id: NodeId)
    requires History(trail, ops)
    requires var t := trail[|ops|];
             && id in t.touched && |Newer(t, id)| < 64
             && forall i | 0 <= i < |ops| :: ops[i].Expire? ==> ops[i].now - t.touched[id] < 90_000_000_000
    ensures id in trail[|ops|].peers
    decreases |ops|
  {
    hide Newer, Stepped, Inv;
    if ops != [] {
      var n := |ops| - 1;
      var t, op, u := trail[n], ops[n], trail[n + 1];
      assert Stepped(t, op, u);
      TableIsRecencyPrefix(trail[..n + 1], ops[..n], id);
      assert Inv(t);
      StampedOf(t);
      TouchedStep(t, op, u, id);
      if id in t.touched && u.touched[id] == t.touched[id] {
        NewerGrows(t, op, u, id);
        SubsetSmaller(Newer(t, id), Newer(u, id));
        RecentIsKept(trail[..n + 1], ops[..n], id);
        KeptUnlessOld(t, op, u, id);
      }
    }
  }

  lemma StampedOf(t: Track)
    requires Inv(t)
    ensures Stamped(t) && (forall n | n in t.peers :: n in t.touched)
  {
  }
}
