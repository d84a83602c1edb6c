/**
  The host of the network thread: bounded start and shutdown, and the flag that blocks a restart after an
  unconfirmed stop.
 */
module NetworkHost {
  import opened Tokens

  type ThreadId = nat

  datatype Mode = Offline | Lan | LoopbackTest

  /** How waiting for a thread can end. Only a completed join shows that it is over. */
  datatype Finish = OwnThread | Joined | JoinPanicked | TimedOut | Disconnected {
    predicate Stopped() {
      Joined?
    }

    predicate Ended() {
      Joined? || JoinPanicked?
    }
  }

  /** How bringing up a new thread can go; a failed start-up waits for the thread it spawned. */
  datatype Launch = SpawnFailed | Started | StartupFailed(finish: Finish)

  datatype StartResult = Running | RefusedOffline | AlreadyRunning | ShutdownUnconfirmed | Startup

  /** The manager's fields, and the threads that are in fact still running. */
  datatype Host = Host(mode: Mode, handle: Option<ThreadId>, awaiting: bool, unconfirmed: bool, sessions: set<nat>,
                       live: set<ThreadId>, spawned: nat)

  const FRESH := Host(Offline, None, false, false, {}, {}, 0)

  // ---------- what the calls do ----------

  ghost function Reaped(live: set<ThreadId>, t: ThreadId, f: Finish): set<ThreadId> {
    if f.Ended() then live - {t} else live
  }

  ghost function Shut(h: Host, f: Finish): (Host, bool) {
    var quiet := h.(mode := Offline, sessions := {});
    if h.handle.None? then (quiet, !h.unconfirmed)
    else
      var stopped := h.awaiting && f.Stopped();
      (quiet.(handle := None, awaiting := false, unconfirmed := h.unconfirmed || !stopped,
              live := if h.awaiting then Reaped(h.live, h.handle.value, f) else h.live), stopped)
  }

  ghost function Launched(h: Host, mode: Mode, l: Launch): (Host, StartResult) {
    var t := h.spawned;
    match l
    case SpawnFailed => (h, Startup)
    case Started =>
      (h.(mode := mode, handle := Some(t), awaiting := true, unconfirmed := false, live := h.live + {t},
          spawned := t + 1), Running)
    case StartupFailed(f) =>
      (h.(unconfirmed := !f.Stopped(), live := Reaped(h.live + {t}, t, f), spawned := t + 1), Startup)
  }

  ghost function Begun(h: Host, mode: Mode, finished: bool, f: Finish, l: Launch): (Host, StartResult) {
    if mode.Offline? then (h, RefusedOffline)
    else if h.unconfirmed then (h, ShutdownUnconfirmed)
    else if h.handle.None? then Launched(h, mode, l)
    else if !finished then (h, AlreadyRunning)
    else
      var (down, stopped) := Shut(h, f);
      if stopped then Launched(down, mode, l) else (down, ShutdownUnconfirmed)
  }

  // ---------- the manager ----------

  class NetworkManager {
    var mode: Mode
    var handle: Option<ThreadId>
    var awaiting: bool
    var unconfirmed: bool
    var sessions: set<nat>
    ghost var live: set<ThreadId>
    ghost var spawned: nat

    ghost function State(): Host
      reads this
    {
      Host(mode, handle, awaiting, unconfirmed, sessions, live, spawned)
    }

    constructor ()
      ensures State() == FRESH
    {
      mode, handle, awaiting, unconfirmed, sessions := Offline, None, false, false, {};
      live, spawned := {}, 0;
    }

    method FinishNetworkThread(t: ThreadId, f: Finish) returns (stopped: bool)
      modifies this`live
      ensures stopped == f.Stopped() && live == Reaped(old(live), t, f)
    {
      stopped := false;
      match f
      case OwnThread =>
      case Joined =>
        live := live - {t};
        stopped := true;
      case JoinPanicked => live := live - {t};
      case TimedOut =>
      case Disconnected =>
    }

    method Shutdown(f: Finish) returns (stopped: bool)
      modifies this
      ensures (State(), stopped) == Shut(old(State()), f)
    {
      if unconfirmed && handle == None {
        sessions := {};
        mode := Offline;
        return false;
      }
      stopped := true;
      if handle.Some? {
        var t := handle.value;
        handle := None;
        if awaiting {
          awaiting := false;
          stopped := FinishNetworkThread(t, f);
        } else {
          stopped := false;
        }
      }
      if !stopped { unconfirmed := true; }
      sessions := {};
      mode := Offline;
    }

    /** `newThread` is the id the operating system gives; it must be one this manager has not used. */
    method Start(requested: Mode, finished: bool, f: Finish, l: Launch, newThread: ThreadId) returns (r: StartResult)
      requires newThread == spawned
      modifies this
      ensures (State(), r) == Begun(old(State()), requested, finished, f, l)
    {
      if requested == Offline { return RefusedOffline; }
      if unconfirmed { return ShutdownUnconfirmed; }
      if handle.Some? {
        if !finished { return AlreadyRunning; }
        var stopped := Shutdown(f);
        if !stopped { return ShutdownUnconfirmed; }
      }
      if l.SpawnFailed? { return Startup; }
      live, spawned := live + {newThread}, spawned + 1;
      if l.StartupFailed? {
        var stopped := FinishNetworkThread(newThread, l.finish);
        unconfirmed := !stopped;
        return Startup;
      }
      mode, handle, awaiting, unconfirmed := requested, Some(newThread), true, false;
      r := Running;
    }
  }

  // ---------- every sequence of calls and thread exits ----------

  datatype Act =
    | Start(mode: Mode, finished: bool, finish: Finish, launch: Launch)
    | Shutdown(finish: Finish)
    | Exit(thread: ThreadId)

  /** A thread reported finished is finished; apart from that the outcomes are arbitrary. */
  ghost predicate Truthful(h: Host, a: Act) {
    a.Start? && a.finished && h.handle.Some? ==> h.handle.value !in h.live
  }

  ghost function Do(h: Host, a: Act): Host {
    match a
    case Start(m, finished, f, l) => Begun(h, m, finished, f, l).0
    case Shutdown(f) => Shut(h, f).0
    case Exit(t) => h.(live := h.live - {t})
  }

  ghost predicate Inv(h: Host) {
    && |h.live| <= 1
    && (forall t | t in h.live :: t < h.spawned && (h.handle == Some(t) || h.unconfirmed))
    && (h.unconfirmed ==> h.handle.None?)
    && (!h.mode.Offline? ==> h.handle.Some?)
    && (h.handle.Some? <==> h.awaiting)
  }

  lemma NothingRunsWhenFree(h: Host)
    requires Inv(h) && h.handle.None? && !h.unconfirmed
    ensures h.live == {}
  {
  }

  lemma LaunchKeeps(h: Host, mode: Mode, l: Launch)
    requires Inv(h) && h.handle.None? && !h.unconfirmed
    ensures Inv(Launched(h, mode, l).0)
  {
    NothingRunsWhenFree(h);
  }

  lemma ShutKeeps(h: Host, f: Finish)
    requires Inv(h)
    ensures Inv(Shut(h, f).0) && Shut(h, f).0.handle.None? && (h.unconfirmed ==> Shut(h, f).0.unconfirmed)
    ensures Shut(h, f).1 ==> !Shut(h, f).0.unconfirmed
  {
    var live := Shut(h, f).0.live;
    assert live <= h.live;
  }

  lemma DoKeeps(h: Host, a: Act)
    requires Inv(h) && Truthful(h, a)
    ensures Inv(Do(h, a)) && (h.unconfirmed ==> Do(h, a).unconfirmed)
  {
    match a
    case Start(m, finished, f, l) =>
      ShutKeeps(h, f);
      if h.handle.None? && !h.unconfirmed {
        LaunchKeeps(h, m, l);
      } else if h.handle.Some? && Shut(h, f).1 {
        LaunchKeeps(Shut(h, f).0, m, l);
      }
    case Shutdown(f) => ShutKeeps(h, f);
    case Exit(t) =>
  }

  ghost predicate Legal(h: Host, acts: seq<Act>)
    decreases |acts|
  {
    acts == [] || (Truthful(h, acts[0]) && Legal(Do(h, acts[0]), acts[1..]))
  }

  ghost function Run(h: Host, acts: seq<Act>): Host
    decreases |acts|
  {
    if acts == [] then h else Run(Do(h, acts[0]), acts[1..])
  }

  lemma {:induction false} InvAlways(h: Host, acts: seq<Act>)
    requires Inv(h) && Legal(h, acts)
    ensures Inv(Run(h, acts)) && (h.unconfirmed ==> Run(h, acts).unconfirmed)
    decreases |acts|
  {
    hide Inv;
    if acts != [] {
      DoKeeps(h, acts[0]);
      InvAlways(Do(h, acts[0]), acts[1..]);
    }
  }

  /**
    Over every sequence of starts, shutdowns and thread exits: at most one thread runs; a running thread that is
    not held means the flag is set; once set, at any point, the flag stays and no later start succeeds; a start
    that succeeds found no running thread at all; and a mode other than Offline means a held thread.
   */
  lemma SingleLiveRuntime(acts: seq<Act>, more: seq<Act>, start: Act)
    requires Legal(FRESH, acts) && Legal(Run(FRESH, acts), more)
    requires start.Start? && Truthful(Run(Run(FRESH, acts), more), start)
    ensures var mid := Run(FRESH, acts);
            var h := Run(mid, more);
            var r := Begun(h, start.mode, start.finished, start.finish, start.launch).1;
            && |h.live| <= 1
            && (forall t | t in h.live && h.handle != Some(t) :: h.unconfirmed)
            && (mid.unconfirmed ==> h.unconfirmed && !r.Running?)
            && (r.Running? ==> h.live == {})
            && (!h.mode.Offline? ==> h.handle.Some?)
  {
    InvAlways(FRESH, acts);
    InvAlways(Run(FRESH, acts), more);
    var h := Run(Run(FRESH, acts), more);
    if h.handle.None? && !h.unconfirmed {
      NothingRunsWhenFree(h);
    }
  }

  // ---------- clean stops and restarts ----------

  /** A thread was let go of other than by a completed join: at a shutdown, a restart or a failed start-up. */
  ghost predicate Unclean(h: Host, a: Act) {
    match a
    case Shutdown(f) => h.handle.Some? && f != Joined
    case Start(mode, finished, f, l) =>
      && mode != Offline && !h.unconfirmed
      && ((h.handle.Some? && finished && f != Joined)
          || ((h.handle.None? || (finished && f == Joined)) && l.StartupFailed? && l.finish != Joined))
    case Exit(_) => false
  }

  ghost predicate EverUnclean(h: Host, acts: seq<Act>)
    decreases |acts|
  {
    acts != [] && (Unclean(h, acts[0]) || EverUnclean(Do(h, acts[0]), acts[1..]))
  }

  lemma FlagStep(h: Host, a: Act)
    requires Inv(h)
    ensures Do(h, a).unconfirmed <==> h.unconfirmed || Unclean(h, a)
  {
  }

  lemma {:induction false} FlagFrom(h: Host, acts: seq<Act>)
    requires Inv(h) && Legal(h, acts)
    ensures Run(h, acts).unconfirmed <==> h.unconfirmed || EverUnclean(h, acts)
    decreases |acts|
  {
    hide Inv, Unclean, Do;
    if acts != [] {
      DoKeeps(h, acts[0]);
      FlagStep(h, acts[0]);
      FlagFrom(Do(h, acts[0]), acts[1..]);
    }
  }

  /** The flag says exactly that: over every run it is set if and only if some thread was not seen to end. */
  lemma {:induction false} FlagIffEverUnclean(acts: seq<Act>)
    requires Legal(FRESH, acts)
    ensures Run(FRESH, acts).unconfirmed <==> EverUnclean(FRESH, acts)
  {
    FlagFrom(FRESH, acts);
  }

  /**
    After every run: a shutdown empties the sessions, goes offline, holds no thread, and answers yes exactly when
    the flag is clear and the thread, if there was one, was joined.
   */
  lemma {:induction false} ShutdownOutcome(acts: seq<Act>, f: Finish)
    requires Legal(FRESH, acts)
    ensures var h := Run(FRESH, acts);
            var (down, stopped) := Shut(h, f);
            && down.sessions == {} && down.mode == Offline && down.handle == None
            && (stopped <==> !h.unconfirmed && (h.handle == None || f == Joined))
            && (stopped ==> down.live == {})
  {
    InvAlways(FRESH, acts);
  }

  /**
    After every run: a start runs, in the mode asked for and under a thread of its own, exactly when that mode is not
    Offline, the flag is clear, no thread is held or the held one has finished and joins, and the launch succeeds.
    Otherwise it says why.
   */
  lemma {:induction false} StartOutcome(acts: seq<Act>, a: Act)
    requires Legal(FRESH, acts) && a.Start? && Truthful(Run(FRESH, acts), a)
    ensures var h := Run(FRESH, acts);
            var (up, r) := Begun(h, a.mode, a.finished, a.finish, a.launch);
            var free := h.handle == None || (a.finished && a.finish == Joined);
            && (r == Running <==> a.mode != Offline && !h.unconfirmed && free && a.launch == Started)
            && (r == Running ==>
                  up.mode == a.mode && up.handle == Some(h.spawned) && up.live == {h.spawned} && !up.unconfirmed)
            && (r == RefusedOffline <==> a.mode == Offline)
            && (r == AlreadyRunning <==> a.mode != Offline && !h.unconfirmed && h.handle != None && !a.finished)
            && (r == Startup <==> a.mode != Offline && !h.unconfirmed && free && a.launch != Started)
            && (r == RefusedOffline || r == AlreadyRunning || (r == ShutdownUnconfirmed && h.unconfirmed) ==> up == h)
  {
    InvAlways(FRESH, acts);
    var h := Run(FRESH, acts);
    if h.handle == None && !h.unconfirmed {
      NothingRunsWhenFree(h);
    }
  }

  /** So a clean stop can be followed by a start: start, joined shutdown, start again in any mode. */
  lemma {:induction false} RestartAfterCleanStop(one: Mode, two: Mode)
    requires one != Offline && two != Offline
    ensures var acts := [Start(one, false, TimedOut, Started), Shutdown(Joined)];
            && Legal(FRESH, acts) && Shut(Run(FRESH, acts[..1]), Joined).1
            && Begun(Run(FRESH, acts), two, false, TimedOut, Started).1 == Running
  {
    var a, b := Start(one, false, TimedOut, Started), Shutdown(Joined);
    assert [a, b][1..] == [b] && [b][1..] == [] && [a, b][..1] == [a] && [a][1..] == [];
    assert Run(FRESH, [a]) == Run(Do(FRESH, a), []) == Do(FRESH, a);
    assert Run(FRESH, [a, b]) == Run(Do(FRESH, a), [b]) == Run(Do(Do(FRESH, a), b), []);
  }
}
