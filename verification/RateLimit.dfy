/** How many remote actions the fixed one-second window lets through in any stretch of time. */
module RateLimit {
  import opened Tokens
  import opened CalculatorEngine
  import opened RemoteRouter

  ghost predicate Monotone(times: seq<nat>) {
    forall i, j | 0 <= i < j < |times| :: times[i] <= times[j]
  }

  /** The requests that one peer's window grants, by their times. */
  ghost function Granted(w: Option<RateWindow>, times: seq<nat>): seq<nat>
    decreases |times|
  {
    if times == [] then []
    else
      var (next, ok) := Charge(w, times[0]);
      (if ok then [times[0]] else []) + Granted(Some(next), times[1..])
  }

  /** How many of the times lie in the half-open interval from `lo` to `hi`. */
  ghost function CountIn(times: seq<nat>, lo: nat, hi: nat): nat {
    if times == [] then 0 else (if lo <= times[0] < hi then 1 else 0) + CountIn(times[1..], lo, hi)
  }

  lemma {:induction false} CountInConcat(a: seq<nat>, b: seq<nat>, lo: nat, hi: nat)
    ensures CountIn(a + b, lo, hi) == CountIn(a, lo, hi) + CountIn(b, lo, hi)
  {
    if a == [] {
      assert a + b == b;
    } else {
      assert (a + b)[1..] == a[1..] + b;
      CountInConcat(a[1..], b, lo, hi);
    }
  }

  /** How many windows can still open before `hi`, when the next may open at `next`. */
  ghost function Openings(next: nat, hi: nat): nat
    decreases hi - next
  {
    if hi <= next then 0 else 1 + Openings(next + SECOND, hi)
  }

  lemma {:induction false} OpeningsShrink(next: nat, later: nat, hi: nat)
    requires next <= later
    ensures Openings(later, hi) <= Openings(next, hi)
    decreases hi - next
  {
    if later < hi {
      OpeningsShrink(next + SECOND, later + SECOND, hi);
    }
  }

  lemma {:induction false} OpeningsWithin(next: nat, seconds: nat)
    ensures Openings(next, next + seconds * SECOND) <= seconds
    decreases seconds
  {
    if seconds > 0 {
      OpeningsWithin(next + SECOND, seconds - 1);
      assert next + seconds * SECOND == (next + SECOND) + (seconds - 1) * SECOND;
    }
  }

  /** Everything the limiter can still grant before `hi`. */
  ghost function Room(w: RateWindow, hi: nat): int {
    MAX_REMOTE_ACTIONS_PER_SECOND - w.count + MAX_REMOTE_ACTIONS_PER_SECOND * Openings(w.started + SECOND, hi)
  }

  lemma {:induction false} NothingBefore(w: Option<RateWindow>, times: seq<nat>, lo: nat, hi: nat)
    requires Monotone(times) && (times != [] ==> hi <= times[0])
    ensures CountIn(Granted(w, times), lo, hi) == 0
    decreases |times|
  {
    if times != [] {
      var (next, ok) := Charge(w, times[0]);
      NothingBefore(Some(next), times[1..], lo, hi);
      CountInConcat(if ok then [times[0]] else [], Granted(Some(next), times[1..]), lo, hi);
    }
  }

  /** One request spends at least one unit of room for each grant. */
  lemma ChargeSpendsRoom(w: RateWindow, t: nat, hi: nat)
    requires w.started <= t < hi && w.count <= MAX_REMOTE_ACTIONS_PER_SECOND
    ensures var (next, ok) := Charge(Some(w), t);
            && next.started <= t && next.count <= MAX_REMOTE_ACTIONS_PER_SECOND
            && (if ok then 1 else 0) + Room(next, hi) <= Room(w, hi)
  {
    if w.started + SECOND <= t {
      OpeningsShrink(w.started + SECOND, t, hi);
    }
  }

  lemma {:induction false} GrantsFitRoom(w: RateWindow, times: seq<nat>, lo: nat, hi: nat)
    requires Monotone(times) && (times != [] ==> w.started <= times[0]) && w.count <= MAX_REMOTE_ACTIONS_PER_SECOND
    ensures CountIn(Granted(Some(w), times), lo, hi) <= Room(w, hi)
    decreases |times|
  {
    if times == [] {
    } else if hi <= times[0] {
      NothingBefore(Some(w), times, lo, hi);
    } else {
      var (next, ok) := Charge(Some(w), times[0]);
      ChargeSpendsRoom(w, times[0], hi);
      GrantsFitRoom(next, times[1..], lo, hi);
      CountInConcat(if ok then [times[0]] else [], Granted(Some(next), times[1..]), lo, hi);
      assert CountIn(if ok then [times[0]] else [], lo, hi) <= if ok then 1 else 0;
    }
  }

  /**
    Any half-open interval of whole seconds holds fewer grants than one budget more than it has seconds:
    a window that opened before the interval spent its first grant on opening.
   */
  lemma {:induction false} WindowBound(w: Option<RateWindow>, times: seq<nat>, lo: nat, seconds: nat)
    requires Monotone(times)
    requires w.Some? ==>
               1 <= w.value.count <= MAX_REMOTE_ACTIONS_PER_SECOND && (times != [] ==> w.value.started <= times[0])
    ensures CountIn(Granted(w, times), lo, lo + seconds * SECOND) < MAX_REMOTE_ACTIONS_PER_SECOND * (seconds + 1)
    decreases |times|
  {
    var hi := lo + seconds * SECOND;
    if times != [] {
      var t := times[0];
      var (next, ok) := Charge(w, t);
      CountInConcat(if ok then [t] else [], Granted(Some(next), times[1..]), lo, hi);
      if t < lo {
        WindowBound(Some(next), times[1..], lo, seconds);
        assert CountIn(if ok then [t] else [], lo, hi) == 0;
      } else if hi <= t {
        NothingBefore(w, times, lo, hi);
      } else {
        FirstInside(w, t, lo, seconds);
        GrantsFitRoom(next, times[1..], lo, hi);
        assert CountIn(if ok then [t] else [], lo, hi) <= if ok then 1 else 0;
      }
    }
  }

  lemma FirstInside(w: Option<RateWindow>, t: nat, lo: nat, seconds: nat)
    requires lo <= t < lo + seconds * SECOND
    requires w.Some? ==> 1 <= w.value.count <= MAX_REMOTE_ACTIONS_PER_SECOND && w.value.started <= t
    ensures var (next, ok) := Charge(w, t);
            && next.count <= MAX_REMOTE_ACTIONS_PER_SECOND && next.started <= t
            && (if ok then 1 else 0) + Room(next, lo + seconds * SECOND) < MAX_REMOTE_ACTIONS_PER_SECOND * (seconds + 1)
  {
    var hi := lo + seconds * SECOND;
    OpeningsWithin(lo, seconds);
    if w.Some? && t < w.value.started + SECOND {
      OpeningsShrink(lo, w.value.started + SECOND, hi);
    } else {
      OpeningsShrink(lo + SECOND, t + SECOND, hi);
      assert Openings(lo, hi) == 1 + Openings(lo + SECOND, hi);
    }
  }

  // ---------- which requests are granted ----------

  /** The request that opened the window in which request `i` falls: each window opens a full second after the last. */
  ghost function OpenerOf(times: seq<nat>, i: nat): (o: nat)
    requires i < |times|
    ensures o <= i
  {
    if i == 0 || times[i] >= times[OpenerOf(times, i - 1)] + 1_000_000_000 then i else OpenerOf(times, i - 1)
  }

  /** The window after the first `n` requests of a peer. */
  ghost function WindowAfter(times: seq<nat>, n: nat): Option<RateWindow>
    requires n <= |times|
  {
    if n == 0 then None else Some(Charge(WindowAfter(times, n - 1), times[n - 1]).0)
  }

  lemma {:induction false} WindowAfterIs(times: seq<nat>, n: nat)
    requires 0 < n <= |times|
    ensures var o := OpenerOf(times, n - 1);
            WindowAfter(times, n) == Some(RateWindow(times[o], if n - o < 120 then n - o else 120))
  {
    if n > 1 {
      WindowAfterIs(times, n - 1);
    }
  }

  /** Whatever the schedule, a request is granted exactly when it is among the first 120 of its window. */
  lemma {:induction false} GrantedIffAmongFirst120(times: seq<nat>, i: nat)
    requires i < |times|
    ensures Charge(WindowAfter(times, i), times[i]).1 <==> i - OpenerOf(times, i) < 120
  {
    if i > 0 {
      WindowAfterIs(times, i);
    }
  }

  // ---------- the same bound for a whole router ----------

  /** The call leaves the peer's window record in place. */
  ghost predicate KeepsRecord(ev: Event, n: NodeId) {
    && !((ev.Join? || ev.Leave?) && ev.node == n)
    && (ev.Sync? ==> n in ev.bounded)
    && (ev.SetAllow? ==> ev.b)
  }

  ghost predicate Asks(r: RouterState, ev: Event, n: NodeId) {
    ev.Receive? && ev.sender == n && ev.msg.Action? && !Refused(r, n, ev.msg.envelope, ev.nowMs)
  }

  /** When the peer's actions reached the limiter during the run. */
  ghost function AskTimes(ar: Arithmetic, r: RouterState, events: seq<Event>, n: NodeId): seq<nat>
    decreases |events|
  {
    if events == [] then []
    else (if Asks(r, events[0], n) then [events[0].now] else [])
         + AskTimes(ar, Apply(ar, r, events[0]).state, events[1..], n)
  }

  /** When the peer's actions were executed during the run. */
  ghost function ActionTimes(ar: Arithmetic, r: RouterState, events: seq<Event>, n: NodeId): seq<nat>
    decreases |events|
  {
    if events == [] then []
    else (if events[0].Receive? && events[0].sender == n && events[0].msg.Action?
             && Admits(r, n, events[0].msg.envelope, events[0].nowMs, events[0].now) then [events[0].now] else [])
         + ActionTimes(ar, Apply(ar, r, events[0]).state, events[1..], n)
  }

  lemma WindowStep(ar: Arithmetic, r: RouterState, ev: Event, n: NodeId)
    requires KeepsRecord(ev, n)
    ensures Get(Apply(ar, r, ev).state.windows, n) ==
            if Asks(r, ev, n) then Some(Charge(Get(r.windows, n), ev.now).0) else Get(r.windows, n)
  {
    hide Press, Shown, Restore, ValidSnapshot, ValidTimestamp, Charge;
  }

  lemma {:induction false} ActionsAreGrants(ar: Arithmetic, r: RouterState, events: seq<Event>, n: NodeId)
    requires forall i | 0 <= i < |events| :: KeepsRecord(events[i], n)
    ensures ActionTimes(ar, r, events, n) == Granted(Get(r.windows, n), AskTimes(ar, r, events, n))
    decreases |events|
  {
    hide Apply, Refused, Charge;
    if events != [] {
      var s := Apply(ar, r, events[0]).state;
      WindowStep(ar, r, events[0], n);
      ActionsAreGrants(ar, s, events[1..], n);
      var asks := AskTimes(ar, r, events, n);
      if Asks(r, events[0], n) {
        assert asks == [events[0].now] + AskTimes(ar, s, events[1..], n);
        assert asks[0] == events[0].now && asks[1..] == AskTimes(ar, s, events[1..], n);
      } else {
        assert asks == AskTimes(ar, s, events[1..], n);
      }
    }
  }

  lemma {:induction false} AskTimesAreReadings(ar: Arithmetic, r: RouterState, events: seq<Event>, n: NodeId, from: nat)
    requires forall i | 0 <= i < |events| :: events[i].Receive? ==> from <= events[i].now
    requires forall i, j | 0 <= i < j < |events| ::
               events[i].Receive? && events[j].Receive? ==> events[i].now <= events[j].now
    ensures Monotone(AskTimes(ar, r, events, n))
    ensures forall t | t in AskTimes(ar, r, events, n) :: from <= t
    decreases |events|
  {
    hide Apply, Refused;
    if events != [] {
      var s := Apply(ar, r, events[0]).state;
      var next := if events[0].Receive? then events[0].now else from;
      AskTimesAreReadings(ar, s, events[1..], n, next);
      var rest := AskTimes(ar, s, events[1..], n);
      assert forall i | 0 <= i < |rest| :: rest[i] in rest;
    }
  }

  /** A window as the limiter leaves it: opened by a grant, within budget, and not in the future of these readings. */
  ghost predicate LiveWindow(w: RateWindow, events: seq<Event>) {
    && 1 <= w.count <= MAX_REMOTE_ACTIONS_PER_SECOND
    && forall i | 0 <= i < |events| :: events[i].Receive? ==> w.started <= events[i].now
  }

  /**
    While the peer's record stays and the clock does not run backwards, any `seconds` whole seconds see fewer
    than 120 * (seconds + 1) of its actions executed; so no single second sees more than 239. The run may begin
    with a window already open.
   */
  lemma RemoteActionRate(ar: Arithmetic, r: RouterState, events: seq<Event>, n: NodeId, lo: nat, seconds: nat)
    requires n in r.windows ==> LiveWindow(r.windows[n], events)
    requires forall i | 0 <= i < |events| :: KeepsRecord(events[i], n)
    requires forall i, j | 0 <= i < j < |events| ::
               events[i].Receive? && events[j].Receive? ==> events[i].now <= events[j].now
    ensures CountIn(ActionTimes(ar, r, events, n), lo, lo + seconds * SECOND) < 120 * (seconds + 1)
    ensures CountIn(ActionTimes(ar, r, events, n), lo, lo + SECOND) <= 239
  {
    hide AskTimes, ActionTimes, Granted, CountIn;
    ActionsAreGrants(ar, r, events, n);
    AskTimesAreReadings(ar, r, events, n, if n in r.windows then r.windows[n].started else 0);
    var asks := AskTimes(ar, r, events, n);
    assert asks != [] ==> asks[0] in asks;
    WindowBound(Get(r.windows, n), asks, lo, seconds);
    WindowBound(Get(r.windows, n), asks, lo, 1);
    assert lo + 1 * SECOND == lo + SECOND;
  }

  /** Every window a router holds is live: after any calls whose readings do not run backwards, it stays so. */
  lemma WindowsStayLive(ar: Arithmetic, r: RouterState, ev: Event, n: NodeId, more: seq<Event>)
    requires n in r.windows ==> LiveWindow(r.windows[n], [ev] + more)
    requires ev.Receive? ==> forall i | 0 <= i < |more| :: more[i].Receive? ==> ev.now <= more[i].now
    ensures var s := Apply(ar, r, ev).state; n in s.windows ==> LiveWindow(s.windows[n], more)
  {
    hide Apply, Charge, LiveWindow;
    var s := Apply(ar, r, ev).state;
    if n in s.windows {
      if KeepsRecord(ev, n) && Asks(r, ev, n) {
        WindowStep(ar, r, ev, n);
        ChargedIsLive(Get(r.windows, n), ev, more);
      } else {
        WindowUnasked(ar, r, ev, n);
        LaterIsLive(r.windows[n], ev, more);
      }
    }
  }

  lemma WindowUnasked(ar: Arithmetic, r: RouterState, ev: Event, n: NodeId)
    requires n in Apply(ar, r, ev).state.windows && !(KeepsRecord(ev, n) && Asks(r, ev, n))
    ensures n in r.windows && Apply(ar, r, ev).state.windows[n] == r.windows[n]
  {
    hide Press, Shown, Restore, ValidSnapshot, ValidTimestamp, Charge;
  }

  lemma LaterIsLive(w: RateWindow, ev: Event, more: seq<Event>)
    requires LiveWindow(w, [ev] + more)
    ensures LiveWindow(w, more)
  {
    assert forall i | 0 <= i < |more| :: more[i] == ([ev] + more)[i + 1];
  }

  lemma ChargedIsLive(w: Option<RateWindow>, ev: Event, more: seq<Event>)
    requires ev.Receive? && forall i | 0 <= i < |more| :: more[i].Receive? ==> ev.now <= more[i].now
    requires w.Some? ==> LiveWindow(w.value, [ev] + more)
    ensures LiveWindow(Charge(w, ev.now).0, more)
  {
    if w.Some? {
      LaterIsLive(w.value, ev, more);
    }
  }

  /**
    The bound is reached: one request opens a window, the rest of its budget comes late in it, and the next
    budget follows.
   */
  lemma RateBoundIsReached(late: nat)
    requires 0 < late < SECOND
    ensures var times := [0] + seq(119, _ => late) + seq(120, _ => SECOND);
            Monotone(times) && CountIn(Granted(None, times), late, late + SECOND) == 239
  {
    var times := [0] + seq(119, _ => late) + seq(120, _ => SECOND);
    Burst(RateWindow(0, 1), late, 119, seq(120, _ => SECOND), late, late + SECOND);
    Burst(RateWindow(0, 120), SECOND, 120, [], late, late + SECOND);
    assert times[0] == 0 && times[1..] == seq(119, _ => late) + seq(120, _ => SECOND);
    assert seq(120, _ => SECOND) + [] == seq(120, _ => SECOND);
    CountInConcat([0], Granted(Some(RateWindow(0, 1)), times[1..]), late, late + SECOND);
  }

  /** A burst at one instant, from a window that is full or has just room for it. */
  lemma {:induction false} Burst(w: RateWindow, t: nat, n: nat, rest: seq<nat>, lo: nat, hi: nat)
    requires lo <= t < hi && 0 < n
    requires var open := OpenWindow(Some(w), t); open.count + n == MAX_REMOTE_ACTIONS_PER_SECOND
    ensures var open := OpenWindow(Some(w), t);
            CountIn(Granted(Some(w), seq(n, _ => t) + rest), lo, hi)
            == n + CountIn(Granted(Some(open.(count := MAX_REMOTE_ACTIONS_PER_SECOND)), rest), lo, hi)
    decreases n
  {
    var times := seq(n, _ => t) + rest;
    var next := Charge(Some(w), t).0;
    assert times[0] == t && times[1..] == seq(n - 1, _ => t) + rest;
    CountInConcat([t], Granted(Some(next), times[1..]), lo, hi);
    if n == 1 {
      assert times[1..] == rest;
    } else {
      Burst(next, t, n - 1, rest, lo, hi);
    }
  }
}
