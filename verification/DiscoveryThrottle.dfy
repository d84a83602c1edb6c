/** How often a discovered endpoint is dialled: a bounded map of last attempts with eviction by age. */
module DiscoveryThrottle {
  import opened SetSizes

  type NodeId = nat
  type Address = nat

  const MAX_ATTEMPTS := 256
  /** Thirty seconds of the monotonic clock, which counts nanoseconds. */
  const RETRY := 30_000_000_000

  datatype Attempt = Attempt(addr: Address, at: nat)

  type Attempts = map<NodeId, Attempt>

  datatype Call = Call(node: NodeId, addr: Address, now: nat)

  ghost predicate Oldest(m: Attempts, k: NodeId) {
    k in m && forall n | n in m :: m[k].at <= m[n].at
  }

  predicate TooSoon(m: Attempts, c: Call) {
    c.node in m && m[c.node].addr == c.addr && c.now < m[c.node].at + RETRY
  }

  /** One call: the decision and the map it leaves; ties for the oldest entry are broken in some way. */
  ghost predicate Decided(m: Attempts, c: Call, ok: bool, r: Attempts) {
    && ok == !TooSoon(m, c)
    && if !ok then r == m
       else if c.node !in m && |m| >= MAX_ATTEMPTS then
         exists k: NodeId :: Oldest(m, k) && r == (m - {k})[c.node := Attempt(c.addr, c.now)]
       else r == m[c.node := Attempt(c.addr, c.now)]
  }

  class Throttle {
    var attempts: Attempts

    constructor ()
      ensures attempts == map[]
    {
      attempts := map[];
    }

    method OldestNode() returns (k: NodeId)
      requires attempts != map[]
      ensures Oldest(attempts, k)
    {
      k :| k in attempts;
      var rest := attempts.Keys - {k};
      while rest != {}
        invariant k in attempts && k !in rest && rest <= attempts.Keys
        invariant forall n | n in attempts && n !in rest :: attempts[k].at <= attempts[n].at
        decreases rest
      {
        var n :| n in rest;
        rest := rest - {n};
        if attempts[n].at < attempts[k].at { k := n; }
      }
    }

    method ShouldAttempt(node: NodeId, addr: Address, now: nat) returns (ok: bool)
      modifies this
      ensures Decided(old(attempts), Call(node, addr, now), ok, attempts)
    {
      if node in attempts {
        var last := attempts[node];
        if last.addr == addr && now < last.at + RETRY {
          return false;
        }
      } else if |attempts| >= MAX_ATTEMPTS {
        var oldest := OldestNode();
        attempts := attempts - {oldest};
      }
      attempts := attempts[node := Attempt(addr, now)];
      ok := true;
    }
  }

  // ---------- whole histories of calls ----------

  /** The calls, their decisions, and the map before each of them and at the end; the clock never runs backwards. */
  datatype History = History(calls: seq<Call>, oks: seq<bool>, maps: seq<Attempts>)

  ghost predicate Genuine(h: History) {
    && |h.oks| == |h.calls| && |h.maps| == |h.calls| + 1 && h.maps[0] == map[]
    && (forall i | 0 <= i < |h.calls| :: Decided(h.maps[i], h.calls[i], h.oks[i], h.maps[i + 1]))
    && (forall i, j | 0 <= i < j < |h.calls| :: h.calls[i].now <= h.calls[j].now)
  }

  ghost predicate Approved(h: History, k: nat, node: NodeId, addr: Address, at: nat)
    requires Genuine(h) && k < |h.calls|
  {
    h.oks[k] && h.calls[k] == Call(node, addr, at)
  }

  lemma SizeStep(m: Attempts, c: Call, ok: bool, r: Attempts)
    requires Decided(m, c, ok, r) && |m| <= MAX_ATTEMPTS
    ensures |r| <= MAX_ATTEMPTS
  {
    assert |m| == |m.Keys| && |r| == |r.Keys|;
    if ok && c.node in m {
      assert r.Keys == m.Keys;
    } else if ok && |m| >= MAX_ATTEMPTS {
      var k: NodeId :| Oldest(m, k) && r == (m - {k})[c.node := Attempt(c.addr, c.now)];
      assert r.Keys == m.Keys - {k} + {c.node};
    } else if ok {
      assert r.Keys == m.Keys + {c.node};
    }
  }

  /** The map never outgrows its bound, and every entry is the trace of an approval. */
  lemma {:induction false} BoundedAndJustified(h: History, s: nat, n: NodeId)
    requires Genuine(h) && s < |h.maps|
    ensures |h.maps[s]| <= 256
    ensures n in h.maps[s] ==> exists k | 0 <= k < s :: Approved(h, k, n, h.maps[s][n].addr, h.maps[s][n].at)
    decreases s
  {
    if s > 0 {
      BoundedAndJustified(h, s - 1, n);
      SizeStep(h.maps[s - 1], h.calls[s - 1], h.oks[s - 1], h.maps[s]);
      if n in h.maps[s] {
        if n in h.maps[s - 1] && h.maps[s][n] == h.maps[s - 1][n] {
          var k :| 0 <= k < s - 1 && Approved(h, k, n, h.maps[s][n].addr, h.maps[s][n].at);
        } else {
          assert Approved(h, s - 1, n, h.maps[s][n].addr, h.maps[s][n].at);
        }
      }
    }
  }

  /** The other nodes approved before call `s`, no earlier than time `from`. */
  ghost function Others(h: History, s: nat, x: NodeId, from: nat): set<NodeId>
    requires Genuine(h) && s <= |h.calls|
  {
    set k | 0 <= k < s && h.oks[k] && h.calls[k].node != x && from <= h.calls[k].now :: h.calls[k].node
  }

  /**
    To lose its entry a node must be the oldest of a full map, so everyone else there is as recent, and one
    more comes in.
   */
  lemma EvictionNeedsOthers(h: History, s: nat, x: NodeId)
    requires Genuine(h) && s < |h.calls| && x in h.maps[s] && x !in h.maps[s + 1]
    ensures |Others(h, s + 1, x, h.maps[s][x].at)| >= 256
  {
    var m, c := h.maps[s], h.calls[s];
    assert Decided(m, c, h.oks[s], h.maps[s + 1]);
    assert h.oks[s] && c.node !in m && |m| >= MAX_ATTEMPTS && Oldest(m, x);
    var who := Others(h, s + 1, x, m[x].at);
    forall n | n in m.Keys - {x} + {c.node}
      ensures n in who
    {
      if n == c.node {
        TimeOf(h, s, x);
        assert h.calls[s].node == n;
      } else {
        BoundedAndJustified(h, s, n);
        var k :| 0 <= k < s && Approved(h, k, n, m[n].addr, m[n].at);
        assert h.calls[k].node == n;
      }
    }
    assert |m| == |m.Keys| && |m.Keys - {x}| == |m.Keys| - 1;
    SubsetSmaller(m.Keys - {x} + {c.node}, who);
  }

  lemma TimeOf(h: History, s: nat, n: NodeId)
    requires Genuine(h) && s < |h.calls| && n in h.maps[s]
    ensures h.maps[s][n].at <= h.calls[s].now
  {
    BoundedAndJustified(h, s, n);
    var k :| 0 <= k < s && Approved(h, k, n, h.maps[s][n].addr, h.maps[s][n].at);
    assert h.calls[k].now <= h.calls[s].now;
  }

  ghost predicate SameAddressOnly(h: History, i: nat, j: nat, x: NodeId, addr: Address)
    requires Genuine(h) && j <= |h.calls|
  {
    forall k | i < k < j && h.oks[k] && h.calls[k].node == x :: h.calls[k].addr == addr
  }

  lemma OthersGrow(h: History, s: nat, t: nat, x: NodeId, later: nat, from: nat)
    requires Genuine(h) && s <= t <= |h.calls| && from <= later
    ensures |Others(h, s, x, later)| <= |Others(h, t, x, from)|
  {
    SubsetSmaller(Others(h, s, x, later), Others(h, t, x, from));
  }

  lemma EntryStaysOrLeaves(m: Attempts, c: Call, ok: bool, r: Attempts, x: NodeId)
    requires Decided(m, c, ok, r) && x in r
    ensures if ok && c.node == x then r[x] == Attempt(c.addr, c.now) else x in m && r[x] == m[x]
  {
  }

  /** Until enough others have been approved, the node keeps an entry for this address no older than its approval. */
  lemma {:induction false} HeldOrCrowded(h: History, i: nat, s: nat)
    requires Genuine(h) && i < s <= |h.calls| && h.oks[i]
    requires SameAddressOnly(h, i, s, h.calls[i].node, h.calls[i].addr)
    ensures var x, m := h.calls[i].node, h.maps[s];
            || |Others(h, s, x, h.calls[i].now)| >= MAX_ATTEMPTS
            || (x in m && m[x].addr == h.calls[i].addr && h.calls[i].now <= m[x].at)
    decreases s
  {
    hide Others, Decided;
    var x, from := h.calls[i].node, h.calls[i].now;
    var m, c, r := h.maps[s - 1], h.calls[s - 1], h.maps[s];
    assert Decided(m, c, h.oks[s - 1], r);
    if s == i + 1 {
      Recorded(m, c, r);
    } else {
      HeldOrCrowded(h, i, s - 1);
      OthersGrow(h, s - 1, s, x, from, from);
      if x in r {
        EntryStaysOrLeaves(m, c, h.oks[s - 1], r, x);
      } else if x in m {
        EvictionNeedsOthers(h, s - 1, x);
        if from <= m[x].at {
          OthersGrow(h, s, s, x, m[x].at, from);
        }
      }
    }
  }

  lemma Recorded(m: Attempts, c: Call, r: Attempts)
    requires Decided(m, c, true, r)
    ensures c.node in r && r[c.node] == Attempt(c.addr, c.now)
  {
  }

  /**
    Two approvals of the same node and address less than thirty seconds apart, with no other address of that
    node approved in between, mean that at least 256 other nodes were approved at or after the first one's time.
   */
  lemma RetryOnlyAfterCrowding(h: History, i: nat, j: nat)
    requires Genuine(h) && i < j < |h.calls| && h.oks[i] && h.oks[j]
    requires h.calls[i].node == h.calls[j].node && h.calls[i].addr == h.calls[j].addr
    requires h.calls[j].now - h.calls[i].now < 30_000_000_000
    requires SameAddressOnly(h, i, j, h.calls[i].node, h.calls[i].addr)
    ensures |Others(h, j, h.calls[i].node, h.calls[i].now)| >= 256
  {
    HeldOrCrowded(h, i, j);
    assert Decided(h.maps[j], h.calls[j], h.oks[j], h.maps[j + 1]);
  }

  /** Nothing is refused without cause: only an approval of that very address less than thirty seconds before. */
  lemma {:induction false} RefusedOnlyAfterApproval(h: History, j: nat)
    requires Genuine(h) && j < |h.calls| && !h.oks[j]
    ensures exists i | 0 <= i < j ::
              && h.oks[i] && h.calls[i].node == h.calls[j].node && h.calls[i].addr == h.calls[j].addr
              && h.calls[j].now - h.calls[i].now < 30_000_000_000
  {
    var m, c := h.maps[j], h.calls[j];
    assert Decided(m, c, h.oks[j], h.maps[j + 1]);
    BoundedAndJustified(h, j, c.node);
    var k :| 0 <= k < j && Approved(h, k, c.node, m[c.node].addr, m[c.node].at);
    assert h.calls[k] == Call(c.node, c.addr, m[c.node].at);
  }
}
