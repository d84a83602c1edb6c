/** Session liveness: a one-second tracker, a five-second check, and pongs that reset the count. */
module Heartbeat {
  const HEARTBEAT_INTERVAL_SECS := 5
  const HEARTBEAT_TIMEOUT_SECS := 15

  /** `elapsed` counts tracker ticks since the last pong; `closed` once the check has given up. */
  datatype Pulse = Pulse(elapsed: nat, closed: bool)

  datatype Beat = Tick | Check | Pong

  function Felt(p: Pulse, b: Beat): Pulse {
    if p.closed then p
    else
      match b
      case Tick => p.(elapsed := p.elapsed + 1)
      case Check => p.(closed := p.elapsed > HEARTBEAT_TIMEOUT_SECS)
      case Pong => p.(elapsed := 0)
  }

  class Monitor {
    var elapsed: nat
    var closed: bool

    ghost function State(): Pulse
      reads this
    {
      Pulse(elapsed, closed)
    }

    constructor ()
      ensures State() == Pulse(0, false)
    {
      elapsed, closed := 0, false;
    }

    method On(b: Beat)
      modifies this
      ensures State() == Felt(old(State()), b)
    {
      if closed { return; }
      match b
      case Tick => elapsed := elapsed + 1;
      case Check => if elapsed > HEARTBEAT_TIMEOUT_SECS { closed := true; }
      case Pong => elapsed := 0;
    }
  }

  ghost function After(p: Pulse, beats: seq<Beat>): Pulse {
    if beats == [] then p else Felt(After(p, beats[..|beats| - 1]), beats[|beats| - 1])
  }

  /** Tracker ticks since the last pong, or since the start. */
  ghost function TicksSincePong(beats: seq<Beat>): nat {
    if beats == [] || beats[|beats| - 1].Pong? then 0
    else TicksSincePong(beats[..|beats| - 1]) + if beats[|beats| - 1].Tick? then 1 else 0
  }

  lemma {:induction false} OpenMeansCounting(beats: seq<Beat>)
    ensures !After(Pulse(0, false), beats).closed ==> After(Pulse(0, false), beats).elapsed == TicksSincePong(beats)
  {
    if beats != [] {
      OpenMeansCounting(beats[..|beats| - 1]);
    }
  }

  /** The heartbeat closes a session exactly when some check came more than fifteen ticks after the last pong. */
  lemma {:induction false} ClosedIffOverdue(beats: seq<Beat>)
    ensures After(Pulse(0, false), beats).closed <==>
            exists k | 0 <= k < |beats| :: beats[k].Check? && TicksSincePong(beats[..k]) > 15
  {
    if beats != [] {
      var n := |beats| - 1;
      var init := beats[..n];
      ClosedIffOverdue(init);
      OpenMeansCounting(init);
      if After(Pulse(0, false), init).closed {
        var k :| 0 <= k < |init| && init[k].Check? && TicksSincePong(init[..k]) > HEARTBEAT_TIMEOUT_SECS;
        assert beats[k] == init[k] && beats[..k] == init[..k];
      } else {
        forall k | 0 <= k < n && beats[k].Check?
          ensures TicksSincePong(beats[..k]) <= HEARTBEAT_TIMEOUT_SECS
        {
          assert beats[k] == init[k] && beats[..k] == init[..k];
        }
        assert beats[..n] == init;
      }
    }
  }

  // ---------- second by second ----------

  ghost function Count(beats: seq<Beat>, b: Beat): nat {
    multiset(beats)[b]
  }

  /** What happens in one second: one tick, a check every fifth second, any pongs, in any order. */
  ghost predicate IsSecond(n: nat, beats: seq<Beat>) {
    Count(beats, Tick) == 1 && Count(beats, Check) == if n % 5 == 0 then 1 else 0
  }

  /** The session after the seconds from `from` up to but not including `until`. */
  ghost function Through(p: Pulse, seconds: nat -> seq<Beat>, from: nat, until: nat): Pulse
    requires from <= until
    decreases until
  {
    if from == until then p else After(Through(p, seconds, from, until - 1), seconds(until - 1))
  }

  lemma {:induction false} SilentCounts(p: Pulse, beats: seq<Beat>)
    requires Pong !in beats
    ensures After(p, beats).closed || After(p, beats).elapsed == p.elapsed + Count(beats, Tick)
    ensures p.closed ==> After(p, beats).closed
    ensures Check in beats && p.elapsed > HEARTBEAT_TIMEOUT_SECS ==> After(p, beats).closed
  {
    if beats != [] {
      var init, last := beats[..|beats| - 1], beats[|beats| - 1];
      assert beats == init + [last];
      SilentCounts(p, init);
    }
  }

  lemma {:induction false} SilentSeconds(p: Pulse, seconds: nat -> seq<Beat>, from: nat, until: nat)
    requires from <= until && forall n | from <= n < until :: IsSecond(n, seconds(n)) && Pong !in seconds(n)
    ensures Through(p, seconds, from, until).closed
            || Through(p, seconds, from, until).elapsed == p.elapsed + (until - from)
    ensures p.closed ==> Through(p, seconds, from, until).closed
    decreases until
  {
    if from < until {
      SilentSeconds(p, seconds, from, until - 1);
      SilentCounts(Through(p, seconds, from, until - 1), seconds(until - 1));
    }
  }

  lemma {:induction false} StaysClosed(p: Pulse, seconds: nat -> seq<Beat>, from: nat, until: nat)
    requires from <= until && p.closed
    ensures Through(p, seconds, from, until).closed
    decreases until
  {
    if from < until {
      StaysClosed(p, seconds, from, until - 1);
      ClosedStays(Through(p, seconds, from, until - 1), seconds(until - 1));
    }
  }

  lemma {:induction false} ClosedStays(p: Pulse, beats: seq<Beat>)
    requires p.closed
    ensures After(p, beats).closed
  {
    if beats != [] {
      ClosedStays(p, beats[..|beats| - 1]);
    }
  }

  lemma {:induction false} ThroughSplits(p: Pulse, seconds: nat -> seq<Beat>, from: nat, mid: nat, until: nat)
    requires from <= mid <= until
    ensures Through(p, seconds, from, until) == Through(Through(p, seconds, from, mid), seconds, mid, until)
    decreases until
  {
    if mid < until {
      ThroughSplits(p, seconds, from, mid, until - 1);
    }
  }

  /** A peer whose last pong fell in second `s` is gone by the end of second `s + 21`, from whatever state it left. */
  lemma SilentPeerClosedWithin21(p: Pulse, seconds: nat -> seq<Beat>, s: nat)
    requires forall n | s < n <= s + 21 :: IsSecond(n, seconds(n)) && Pong !in seconds(n)
    ensures Through(p, seconds, s + 1, s + 22).closed
  {
    hide After;
    var c := s + 21 - (s + 21) % HEARTBEAT_INTERVAL_SECS;
    var before := Through(p, seconds, s + 1, c);
    SilentSeconds(p, seconds, s + 1, c);
    assert IsSecond(c, seconds(c)) && Pong !in seconds(c);
    CheckCloses(before, c, seconds(c));
    assert Through(p, seconds, s + 1, c + 1) == After(before, seconds(c));
    ThroughSplits(p, seconds, s + 1, c + 1, s + 22);
    StaysClosed(After(before, seconds(c)), seconds, c + 1, s + 22);
  }

  lemma CheckCloses(p: Pulse, n: nat, beats: seq<Beat>)
    requires IsSecond(n, beats) && n % HEARTBEAT_INTERVAL_SECS == 0 && Pong !in beats
    requires p.closed || p.elapsed > HEARTBEAT_TIMEOUT_SECS
    ensures After(p, beats).closed
  {
    assert Check in multiset(beats);
    SilentCounts(p, beats);
  }

  /** Twenty-one seconds can be needed: a check just ahead of the sixteenth tick still passes. */
  lemma TwentySecondsMayNotSuffice(seconds: nat -> seq<Beat>)
    requires forall n | 4 < n <= 24 :: seconds(n) == if n % HEARTBEAT_INTERVAL_SECS == 0 then [Check, Tick] else [Tick]
    ensures !Through(Pulse(0, false), seconds, 5, 25).closed
  {
    StillOpen(seconds, 25);
  }

  lemma {:induction false} StillOpen(seconds: nat -> seq<Beat>, until: nat)
    requires 5 <= until <= 25
    requires forall n | 4 < n <= 24 :: seconds(n) == if n % HEARTBEAT_INTERVAL_SECS == 0 then [Check, Tick] else [Tick]
    ensures Through(Pulse(0, false), seconds, 5, until) == Pulse(until - 5, false)
    decreases until
  {
    if until > 5 {
      hide After;
      StillOpen(seconds, until - 1);
      ShortSeconds(Pulse(until - 6, false));
    }
  }

  lemma ShortSeconds(p: Pulse)
    ensures After(p, [Tick]) == Felt(p, Tick) && After(p, [Check, Tick]) == Felt(Felt(p, Check), Tick)
  {
    assert [Check, Tick][..1] == [Check] && [Check][..0] == [] && [Tick][..0] == [];
  }
}
