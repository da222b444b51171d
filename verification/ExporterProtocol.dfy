/** Interleavings of several exporter processes: one writer at a time, sequence numbers that
    go up by exactly one, no lost wake-up, and spaced attempts. */
module ExporterProtocol {
  import opened Outcomes
  import opened Exporter

  // ----- The world and its events

  /** All processes, the shared files, and the sequence numbers published so far. */
  datatype World = World(procs: map<nat, G>, shared: Shared, published: seq<int>)

  datatype Event =
    | DoInit(pid: nat, accountOk: bool, keyOk: bool, timerOk: bool, unlinked: bool)
    | DoMark(pid: nat)
    | DoHandlebar(pid: nat, now: int, isLast: bool)
    | DoReplace(pid: nat)
    | DoCommit(pid: nat)
    | DoFail(pid: nat)
    | DoStop(pid: nat, unlinked: bool)
    | DoKill(pid: nat)

  function Proc(w: World, pid: nat): G {
    if pid in w.procs then w.procs[pid] else FRESH
  }

  function With(w: World, pid: nat, next: (G, Shared)): World {
    w.(procs := w.procs[pid := next.0], shared := next.1)
  }

  /** One event; an event that cannot happen in this state changes nothing. Death of a
      process frees a locked region but not an exclusively created lock file. */
  function Next(w: World, event: Event, heartbeat: int): World {
    var g := Proc(w, event.pid);
    match event
    case DoInit(pid, accountOk, keyOk, timerOk, unlinked) =>
      With(w, pid, Init(pid, g, w.shared, accountOk, keyOk, timerOk, unlinked))
    case DoMark(pid) => With(w, pid, (MarkDue(g), w.shared))
    case DoHandlebar(pid, now, isLast) => With(w, pid, (Handlebar(g, now, isLast, heartbeat), w.shared))
    case DoReplace(pid) =>
      if g.phase.Querying? && g.phase.next >= 0 then
        With(w, pid, Replace(g, w.shared)).(published := w.published + [g.phase.next])
      else w
    case DoCommit(pid) => if g.phase.Written? then With(w, pid, (Commit(g), w.shared)) else w
    case DoFail(pid) => if g.phase.Querying? then With(w, pid, (Abandon(g), w.shared)) else w
    case DoStop(pid, unlinked) => With(w, pid, Stop(g, w.shared, unlinked))
    case DoKill(pid) =>
      With(w, pid, (FRESH, if w.shared.mode == Region && w.shared.owner == Some(pid) then w.shared.(owner := None) else w.shared))
  }

  function Trace(w: World, events: seq<Event>, heartbeat: int): World {
    if events == [] then w
    else Next(Trace(w, events[..|events| - 1], heartbeat), events[|events| - 1], heartbeat)
  }

  /** `stop` is only called between cycles. */
  ghost predicate StopsBetweenCycles(w: World, events: seq<Event>, heartbeat: int) {
    forall i :: 0 <= i < |events| && events[i].DoStop? ==>
      Proc(Trace(w, events[..i], heartbeat), events[i].pid).phase == Idle
  }

  function Start(mode: LockMode, snapshot: Snapshot): World {
    World(map[], Shared(mode, snapshot, None, false), [])
  }

  // ----- The invariant

  function DiskSequence(snapshot: Snapshot): int {
    match snapshot
    case Valid(sequence) => sequence
    case _ => 0
  }

  /** The lock belongs to at most one process, and it knows. */
  ghost predicate OneHolder(w: World) {
    && (w.shared.mode == Region ==>
          forall pid: nat :: Proc(w, pid).holdsLock <==> w.shared.owner == Some(pid))
    && (w.shared.mode == ExclusiveFile ==>
          && (forall p: nat, q: nat :: Proc(w, p).holdsLock && Proc(w, q).holdsLock ==> p == q)
          && (forall pid: nat :: Proc(w, pid).holdsLock ==> w.shared.lockFile))
  }

  /** A lock holder's sequence is the one on disk, or one behind between the replacement of
      the file and its recording; only a holder runs a cycle. */
  ghost predicate InStep(g: G, snapshot: Snapshot) {
    && (g.phase != Idle ==> g.holdsLock)
    && (g.holdsLock ==>
          && LoadSequence(snapshot).Some?
          && match g.phase
             case Idle => g.sequence == DiskSequence(snapshot)
             case Querying(next) => g.sequence == DiskSequence(snapshot) && next == g.sequence + 1
             case Written(next) => next == DiskSequence(snapshot) && next == g.sequence + 1)
  }

  /** Published numbers continue the initial one without gap or repeat, up to the disk. */
  ghost predicate Consecutive(w: World, initial: Snapshot) {
    && (forall i :: 0 <= i < |w.published| ==> w.published[i] == DiskSequence(initial) + 1 + i)
    && (if w.published == [] then w.shared.snapshot == initial
        else w.shared.snapshot == Valid(DiskSequence(initial) + |w.published|))
  }

  ghost predicate Safe(w: World, mode: LockMode, initial: Snapshot) {
    && w.shared.mode == mode
    && OneHolder(w)
    && (forall pid: nat :: InStep(Proc(w, pid), w.shared.snapshot))
    && Consecutive(w, initial)
  }

  lemma MutualExclusion(w: World, p: nat, q: nat)
    requires OneHolder(w) && Proc(w, p).holdsLock && Proc(w, q).holdsLock
    ensures p == q
  {
    assert w.shared.mode == Region || w.shared.mode == ExclusiveFile;
  }

  /** A step of one process that leaves the shared files alone. */
  lemma LocalStepSafe(w: World, pid: nat, g: G, mode: LockMode, initial: Snapshot)
    requires Safe(w, mode, initial) && g.holdsLock == Proc(w, pid).holdsLock && InStep(g, w.shared.snapshot)
    ensures Safe(With(w, pid, (g, w.shared)), mode, initial)
  {
    var next := With(w, pid, (g, w.shared));
    assert forall p: nat :: Proc(next, p) == if p == pid then g else Proc(w, p);
  }

  lemma ReplaceSafe(w: World, pid: nat, mode: LockMode, initial: Snapshot, heartbeat: int)
    requires Safe(w, mode, initial)
    ensures Safe(Next(w, DoReplace(pid), heartbeat), mode, initial)
  {
    var g := Proc(w, pid);
    var next := Next(w, DoReplace(pid), heartbeat);
    if g.phase.Querying? && g.phase.next >= 0 {
      assert InStep(g, w.shared.snapshot);
      assert forall p: nat :: Proc(next, p) == if p == pid then g.(phase := Written(g.phase.next)) else Proc(w, p);
      forall p: nat ensures InStep(Proc(next, p), next.shared.snapshot) {
        assert InStep(Proc(w, p), w.shared.snapshot);
        if p != pid && Proc(w, p).holdsLock {
          MutualExclusion(w, p, pid);
        }
      }
    }
  }

  lemma StopSafe(w: World, pid: nat, unlinked: bool, mode: LockMode, initial: Snapshot)
    requires Safe(w, mode, initial) && Proc(w, pid).phase == Idle
    ensures Safe(With(w, pid, Stop(Proc(w, pid), w.shared, unlinked)), mode, initial)
  {
    var g := Proc(w, pid);
    var next := With(w, pid, Stop(g, w.shared, unlinked));
    assert forall p: nat :: Proc(next, p) == if p == pid then Stop(g, w.shared, unlinked).0 else Proc(w, p);
    forall p: nat ensures InStep(Proc(next, p), next.shared.snapshot) {
      assert InStep(Proc(w, p), w.shared.snapshot);
    }
    if g.holdsLock {
      forall p: nat | p != pid ensures !Proc(w, p).holdsLock {
        if Proc(w, p).holdsLock { MutualExclusion(w, p, pid); }
      }
    }
  }

  /** `stop` keeps a safe world safe exactly when the process is between cycles. */
  lemma StopSafeIff(w: World, pid: nat, unlinked: bool, mode: LockMode, initial: Snapshot)
    requires Safe(w, mode, initial)
    ensures Safe(With(w, pid, Stop(Proc(w, pid), w.shared, unlinked)), mode, initial) <==> Proc(w, pid).phase == Idle
  {
    var next := With(w, pid, Stop(Proc(w, pid), w.shared, unlinked));
    if Proc(w, pid).phase == Idle {
      StopSafe(w, pid, unlinked, mode, initial);
    } else {
      assert InStep(Proc(w, pid), w.shared.snapshot);
      hide InStep;
      StoppedOutOfStep(Proc(w, pid), w.shared, unlinked);
      assert Proc(next, pid) == Stop(Proc(w, pid), w.shared, unlinked).0;
    }
  }

  lemma StoppedOutOfStep(g: G, s: Shared, unlinked: bool)
    requires InStep(g, s.snapshot) && g.phase != Idle
    ensures !InStep(Stop(g, s, unlinked).0, Stop(g, s, unlinked).1.snapshot)
  {
  }

  lemma KillSafe(w: World, pid: nat, mode: LockMode, initial: Snapshot, heartbeat: int)
    requires Safe(w, mode, initial)
    ensures Safe(Next(w, DoKill(pid), heartbeat), mode, initial)
  {
    var next := Next(w, DoKill(pid), heartbeat);
    assert forall p: nat :: Proc(next, p) == if p == pid then FRESH else Proc(w, p);
    forall p: nat ensures InStep(Proc(next, p), next.shared.snapshot) {
      assert InStep(Proc(w, p), w.shared.snapshot);
    }
  }

  /** A free lock has no holder. */
  lemma FreeLock(w: World, pid: nat)
    requires OneHolder(w) && Acquire(pid, Proc(w, pid), w.shared).Some?
    ensures forall p: nat :: !Proc(w, p).holdsLock
  {
  }

  /** A process takes a lock nobody holds, in step with the file. */
  lemma TakeSafe(w: World, pid: nat, g: G, mode: LockMode, initial: Snapshot)
    requires Safe(w, mode, initial) && (forall p: nat :: !Proc(w, p).holdsLock)
    requires g.holdsLock && InStep(g, w.shared.snapshot)
    ensures Safe(With(w, pid, (g, w.shared.(owner := Some(pid)))), mode, initial) || mode != Region
    ensures Safe(With(w, pid, (g, w.shared.(lockFile := true))), mode, initial) || mode != ExclusiveFile
  {
    hide InStep;
    var region := With(w, pid, (g, w.shared.(owner := Some(pid))));
    var file := With(w, pid, (g, w.shared.(lockFile := true)));
    assert forall p: nat :: Proc(region, p) == if p == pid then g else Proc(w, p);
    assert forall p: nat :: Proc(file, p) == if p == pid then g else Proc(w, p);
  }

  /** A process that holds nothing leaves the files with a free lock, or a stale lock file. */
  lemma GiveUpSafe(w: World, pid: nat, g: G, shared: Shared, mode: LockMode, initial: Snapshot)
    requires Safe(w, mode, initial) && (forall p: nat :: !Proc(w, p).holdsLock)
    requires !g.holdsLock && g.phase == Idle
    requires shared.mode == w.shared.mode && shared.snapshot == w.shared.snapshot
    requires mode == Region ==> shared.owner == None
    ensures Safe(With(w, pid, (g, shared)), mode, initial)
  {
    assert forall p: nat :: Proc(With(w, pid, (g, shared)), p) == if p == pid then g else Proc(w, p);
  }

  lemma InitSafe(w: World, event: Event, mode: LockMode, initial: Snapshot, heartbeat: int)
    requires Safe(w, mode, initial) && event.DoInit?
    ensures Safe(Next(w, event, heartbeat), mode, initial)
  {
    hide Consecutive, With;
    var pid, g, s := event.pid, Proc(w, event.pid), w.shared;
    assert InStep(g, s.snapshot);
    var changed := Init(pid, g, s, event.accountOk, event.keyOk, event.timerOk, event.unlinked);
    assert Next(w, event, heartbeat) == With(w, pid, changed);
    var acquired := Acquire(pid, g.(stopped := false), s);
    if !event.accountOk || acquired.None? {
      LocalStepSafe(w, pid, g.(stopped := true), mode, initial);
    } else {
      FreeLock(w, pid);
      if event.keyOk && LoadSequence(s.snapshot).Some? {
        TakeSafe(w, pid, changed.0, mode, initial);
      } else {
        GiveUpSafe(w, pid, changed.0, changed.1, mode, initial);
      }
    }
  }

  lemma NextSafe(w: World, event: Event, mode: LockMode, initial: Snapshot, heartbeat: int)
    requires Safe(w, mode, initial)
    requires event.DoStop? ==> Proc(w, event.pid).phase == Idle
    ensures Safe(Next(w, event, heartbeat), mode, initial)
  {
    var pid, g := event.pid, Proc(w, event.pid);
    assert InStep(g, w.shared.snapshot);
    match event
    case DoInit(_, _, _, _, _) => InitSafe(w, event, mode, initial, heartbeat);
    case DoMark(_) => LocalStepSafe(w, pid, MarkDue(g), mode, initial);
    case DoHandlebar(_, now, isLast) => LocalStepSafe(w, pid, Handlebar(g, now, isLast, heartbeat), mode, initial);
    case DoReplace(_) => ReplaceSafe(w, pid, mode, initial, heartbeat);
    case DoCommit(_) => if g.phase.Written? { LocalStepSafe(w, pid, Commit(g), mode, initial); }
    case DoFail(_) => if g.phase.Querying? { LocalStepSafe(w, pid, Abandon(g), mode, initial); }
    case DoStop(_, unlinked) => StopSafe(w, pid, unlinked, mode, initial);
    case DoKill(_) => KillSafe(w, pid, mode, initial, heartbeat);
  }

  /** Over all interleavings of any number of processes, with failed queries and writes,
      kills at any point, restarts, and stops between cycles: one writer at a time, every
      holder in step with the file, and consecutive published numbers. */
  lemma {:induction false} EveryTraceIsSafe(mode: LockMode, initial: Snapshot, events: seq<Event>, heartbeat: int)
    requires StopsBetweenCycles(Start(mode, initial), events, heartbeat)
    ensures Safe(Trace(Start(mode, initial), events, heartbeat), mode, initial)
  {
    hide Safe, Next;
    if events == [] {
      StartSafe(mode, initial);
    } else {
      var n := |events| - 1;
      var front := events[..n];
      assert events == front + events[n..];
      StopsInFront(Start(mode, initial), front, events[n..], heartbeat);
      EveryTraceIsSafe(mode, initial, front, heartbeat);
      NextSafe(Trace(Start(mode, initial), front, heartbeat), events[n], mode, initial, heartbeat);
    }
  }

  lemma StartSafe(mode: LockMode, initial: Snapshot)
    ensures Safe(Start(mode, initial), mode, initial)
  {
  }

  /** A process inside a cycle is due: only a completed cycle clears the flag. */
  ghost predicate RunningIsDue(g: G) {
    g.phase != Idle ==> g.due
  }

  lemma NextKeepsDue(w: World, event: Event, pid: nat, heartbeat: int)
    requires event.DoStop? ==> Proc(w, event.pid).phase == Idle
    requires RunningIsDue(Proc(w, pid))
    ensures RunningIsDue(Proc(Next(w, event, heartbeat), pid))
  {
    var g := Proc(w, pid);
    var next := Next(w, event, heartbeat);
    if pid != event.pid {
      assert Proc(next, pid) == g;
    }
  }

  lemma {:induction false} EveryRunningIsDue(mode: LockMode, initial: Snapshot, events: seq<Event>, pid: nat, heartbeat: int)
    requires StopsBetweenCycles(Start(mode, initial), events, heartbeat)
    ensures RunningIsDue(Proc(Trace(Start(mode, initial), events, heartbeat), pid))
  {
    hide Next, RunningIsDue;
    if events == [] {
      assert RunningIsDue(FRESH) by { FreshIsDue(); }
    } else {
      var n := |events| - 1;
      assert events == events[..n] + events[n..];
      StopsInFront(Start(mode, initial), events[..n], events[n..], heartbeat);
      EveryRunningIsDue(mode, initial, events[..n], pid, heartbeat);
      NextKeepsDue(Trace(Start(mode, initial), events[..n], heartbeat), events[n], pid, heartbeat);
    }
  }

  lemma FreshIsDue()
    ensures RunningIsDue(FRESH)
  {
  }

  lemma TraceSnoc(w: World, events: seq<Event>, event: Event, heartbeat: int)
    ensures Trace(w, events + [event], heartbeat) == Next(Trace(w, events, heartbeat), event, heartbeat)
  {
    assert (events + [event])[..|events|] == events;
  }

  lemma StopsInFront(w: World, front: seq<Event>, rest: seq<Event>, heartbeat: int)
    requires StopsBetweenCycles(w, front + rest, heartbeat)
    ensures StopsBetweenCycles(w, front, heartbeat)
  {
    forall i | 0 <= i < |front| ensures front[..i] == (front + rest)[..i] && front[i] == (front + rest)[i] {
    }
  }

  /** What safety means to an observer: two holders are the same process, a process that has
      just initialized successfully continues from the file, and the n-th published snapshot
      carries the initial number plus n. */
  lemma ProtocolSafety(mode: LockMode, initial: Snapshot, events: seq<Event>, heartbeat: int, init: Event)
    requires StopsBetweenCycles(Start(mode, initial), events, heartbeat) && init.DoInit?
    ensures var w := Trace(Start(mode, initial), events, heartbeat);
      && (forall p: nat, q: nat :: Proc(w, p).holdsLock && Proc(w, q).holdsLock ==> p == q)
      && (forall i :: 0 <= i < |w.published| ==> w.published[i] == DiskSequence(initial) + 1 + i)
      && var after := Proc(Next(w, init, heartbeat), init.pid);
         !Proc(w, init.pid).holdsLock && after.holdsLock ==> after.sequence == DiskSequence(initial) + |w.published|
  {
    EveryTraceIsSafe(mode, initial, events, heartbeat);
    var w := Trace(Start(mode, initial), events, heartbeat);
    NextSafe(w, init, mode, initial, heartbeat);
    forall p: nat, q: nat | Proc(w, p).holdsLock && Proc(w, q).holdsLock ensures p == q {
      MutualExclusion(w, p, q);
    }
    assert InStep(Proc(Next(w, init, heartbeat), init.pid), Next(w, init, heartbeat).shared.snapshot);
  }

  /** Process p is stopped; q takes the lock and publishes; then the query of p completes. */
  function StopInside(p: nat, q: nat): seq<Event> {
    [DoStop(p, true), DoInit(q, true, true, true, true), DoMark(q), DoHandlebar(q, 0, true), DoReplace(q), DoReplace(p)]
  }

  /** Why `stop` must wait for the cycle: from every safe world, whatever process is querying
      and whatever fresh process there is, stopping inside the cycle lets a number be
      published twice. */
  lemma StopInsideCycleRepeatsNumbers(w: World, p: nat, q: nat, mode: LockMode, initial: Snapshot, heartbeat: int)
    requires Safe(w, mode, initial) && Proc(w, p).phase.Querying? && Proc(w, q) == FRESH
    ensures var n := DiskSequence(w.shared.snapshot) + 1;
      Trace(w, StopInside(p, q), heartbeat).published == w.published + [n, n]
  {
    assert InStep(Proc(w, p), w.shared.snapshot);
    var events, n := StopInside(p, q), DiskSequence(w.shared.snapshot) + 1;
    assert p != q && Proc(w, p).phase == Querying(n) && n >= 1;
    var w1 := Next(w, events[0], heartbeat);
    StopFrees(w, p, q, heartbeat);
    var w3 := Next(Next(w1, events[1], heartbeat), events[2], heartbeat);
    FreshQueries(w1, p, q, n, heartbeat);
    var w4 := Next(w3, events[3], heartbeat);
    var w5 := Next(w4, events[4], heartbeat);
    var w6 := Next(w5, events[5], heartbeat);
    BothPublish(w4, p, q, n, heartbeat);
    Unfold(w, events, heartbeat, [w, w1, Next(w1, events[1], heartbeat), w3, w4, w5, w6]);
  }

  lemma StopFrees(w: World, p: nat, q: nat, heartbeat: int)
    requires p != q && Proc(w, p).holdsLock
    ensures var next := Next(w, DoStop(p, true), heartbeat);
      && Acquire(q, Proc(w, q).(holdsLock := false), next.shared).Some? && next.shared.snapshot == w.shared.snapshot
      && Proc(next, p).phase == Proc(w, p).phase && Proc(next, q) == Proc(w, q) && next.published == w.published
  {
  }

  lemma FreshQueries(w: World, p: nat, q: nat, n: int, heartbeat: int)
    requires p != q && Proc(w, q) == FRESH && Acquire(q, FRESH, w.shared).Some?
    requires LoadSequence(w.shared.snapshot) == Some(n - 1)
    ensures var next := Next(Next(Next(w, DoInit(q, true, true, true, true), heartbeat), DoMark(q), heartbeat), DoHandlebar(q, 0, true), heartbeat);
      Proc(next, q).phase == Querying(n) && Proc(next, p) == Proc(w, p) && next.published == w.published
  {
    var inited := Next(w, DoInit(q, true, true, true, true), heartbeat);
    assert Proc(inited, q) == G(n - 1, None, false, false, Idle, false, true, true) && Proc(inited, p) == Proc(w, p);
    hide Init;
    var marked := Next(inited, DoMark(q), heartbeat);
    assert Proc(marked, q) == G(n - 1, None, true, false, Idle, false, true, true) && Proc(marked, p) == Proc(w, p);
  }

  lemma BothPublish(w: World, p: nat, q: nat, n: int, heartbeat: int)
    requires p != q && n >= 0 && Proc(w, p).phase == Proc(w, q).phase == Querying(n)
    ensures Next(Next(w, DoReplace(q), heartbeat), DoReplace(p), heartbeat).published == w.published + [n, n]
  {
    var first := Next(w, DoReplace(q), heartbeat);
    assert first.published == w.published + [n] && Proc(first, p) == Proc(w, p);
    assert w.published + [n] + [n] == w.published + [n, n];
  }

  /** For instance: process 0 starts, queries number 1, is stopped, and 1 is published twice. */
  lemma RepeatedFirstNumber()
    ensures Trace(Start(Region, Absent), [DoInit(0, true, true, true, true), DoMark(0), DoHandlebar(0, 0, true)] + StopInside(0, 1), 30)
      .published == [1, 1]
  {
    hide Next, Trace, StopInside, Safe, StopsBetweenCycles;
    var start, opening := Start(Region, Absent), [DoInit(0, true, true, true, true), DoMark(0), DoHandlebar(0, 0, true)];
    OpeningQueries();
    EveryTraceIsSafe(Region, Absent, opening, 30);
    var w := Trace(start, opening, 30);
    QueryingNumber(w, 0, Region, Absent);
    StopInsideCycleRepeatsNumbers(w, 0, 1, Region, Absent, 30);
    TraceConcat(start, opening, StopInside(0, 1), 30);
  }

  lemma QueryingNumber(w: World, p: nat, mode: LockMode, initial: Snapshot)
    requires Safe(w, mode, initial) && Proc(w, p).phase.Querying?
    ensures Proc(w, p).phase.next == DiskSequence(w.shared.snapshot) + 1
  {
    assert InStep(Proc(w, p), w.shared.snapshot);
  }

  lemma OpeningQueries()
    ensures var opening := [DoInit(0, true, true, true, true), DoMark(0), DoHandlebar(0, 0, true)];
      var w := Trace(Start(Region, Absent), opening, 30);
      && StopsBetweenCycles(Start(Region, Absent), opening, 30)
      && Proc(w, 0).phase == Querying(1) && Proc(w, 1) == FRESH && w.published == []
  {
    var start, opening := Start(Region, Absent), [DoInit(0, true, true, true, true), DoMark(0), DoHandlebar(0, 0, true)];
    assert StopsBetweenCycles(start, opening, 30);
    FreshQueries(start, 1, 0, 1, 30);
    hide Next;
    var w1 := Next(start, opening[0], 30);
    var w2 := Next(w1, opening[1], 30);
    Unfold(start, opening, 30, [start, w1, w2, Next(w2, opening[2], 30)]);
  }

  lemma {:induction false} TraceConcat(w: World, first: seq<Event>, second: seq<Event>, heartbeat: int)
    ensures Trace(w, first + second, heartbeat) == Trace(Trace(w, first, heartbeat), second, heartbeat)
  {
    hide Next;
    if second == [] {
      assert first + second == first;
    } else {
      var n := |second| - 1;
      assert (first + second)[..|first| + n] == first + second[..n];
      TraceConcat(w, first, second[..n], heartbeat);
    }
  }

  lemma {:induction false} Unfold(w: World, events: seq<Event>, heartbeat: int, worlds: seq<World>)
    requires |worlds| == |events| + 1 && worlds[0] == w
    requires forall i :: 0 <= i < |events| ==> worlds[i + 1] == Next(worlds[i], events[i], heartbeat)
    ensures Trace(w, events, heartbeat) == worlds[|events|]
  {
    hide Next;
    if events != [] {
      Unfold(w, events[..|events| - 1], heartbeat, worlds[..|worlds| - 1]);
    }
  }

  // ----- One process in a live epoch

  /** What can happen to a running exporter that is not stopped, killed or re-initialized. */
  datatype Local = Mark | Bar(now: int, isLast: bool) | FileReplaced | Committed | Failed

  function LocalNext(g: G, event: Local, heartbeat: int): G {
    match event
    case Mark => MarkDue(g)
    case Bar(now, isLast) => Handlebar(g, now, isLast, heartbeat)
    case FileReplaced => if g.phase.Querying? then g.(phase := Written(g.phase.next)) else g
    case Committed => if g.phase.Written? then Commit(g) else g
    case Failed => if g.phase.Querying? then Abandon(g) else g
  }

  /** The local step an event is for its process; None if it ends the epoch. */
  function LocalOf(event: Event): Option<Local> {
    match event
    case DoMark(_) => Some(Mark)
    case DoHandlebar(_, now, isLast) => Some(Bar(now, isLast))
    case DoReplace(_) => Some(FileReplaced)
    case DoCommit(_) => Some(Committed)
    case DoFail(_) => Some(Failed)
    case _ => None
  }

  /** What one process sees of an interleaving. */
  function View(events: seq<Event>, pid: nat): seq<Local> {
    if events == [] then []
    else
      var last := events[|events| - 1];
      View(events[..|events| - 1], pid)
        + if last.pid == pid && LocalOf(last).Some? then [LocalOf(last).value] else []
  }

  /** The process is not stopped, killed or initialized again; others do as they like. */
  ghost predicate SameEpoch(events: seq<Event>, pid: nat) {
    forall event :: event in events && event.pid == pid ==> LocalOf(event).Some?
  }

  function After(g: G, events: seq<Local>, heartbeat: int): G {
    if events == [] then g else LocalNext(After(g, events[..|events| - 1], heartbeat), events[|events| - 1], heartbeat)
  }

  /** Local steps are the steps of the world, seen by one process. */
  lemma LocalIsWorld(w: World, pid: nat, event: Event, heartbeat: int)
    requires InStep(Proc(w, pid), w.shared.snapshot) && (event.pid == pid ==> LocalOf(event).Some?)
    ensures Proc(Next(w, event, heartbeat), pid) ==
      if event.pid == pid then LocalNext(Proc(w, pid), LocalOf(event).value, heartbeat) else Proc(w, pid)
  {
  }

  /** In every interleaving a process goes through the local steps it sees, from any point of
      the epoch on, whatever the other processes do. */
  lemma {:induction false} ViewFollows(mode: LockMode, initial: Snapshot, before: seq<Event>, after: seq<Event>, pid: nat, heartbeat: int)
    requires StopsBetweenCycles(Start(mode, initial), before + after, heartbeat) && SameEpoch(after, pid)
    ensures Proc(Trace(Start(mode, initial), before + after, heartbeat), pid)
      == After(Proc(Trace(Start(mode, initial), before, heartbeat), pid), View(after, pid), heartbeat)
    decreases |after|
  {
    hide Next, LocalNext, LocalOf, InStep, Trace, StopsBetweenCycles, View, After;
    var start := Start(mode, initial);
    if after == [] {
      assert before + after == before;
      NothingSeen(Proc(Trace(start, before, heartbeat), pid), pid, heartbeat);
    } else {
      var n := |after| - 1;
      var front, last := after[..n], after[n];
      assert after == front + [last] && before + after == (before + front) + [last];
      StopsInFront(start, before + front, [last], heartbeat);
      ViewFollows(mode, initial, before, front, pid, heartbeat);
      HolderInStep(mode, initial, before + front, pid, heartbeat);
      TraceSnoc(start, before + front, last, heartbeat);
      LocalIsWorld(Trace(start, before + front, heartbeat), pid, last, heartbeat);
      OneMoreSeen(Proc(Trace(start, before, heartbeat), pid), front, last, pid, heartbeat);
    }
  }

  lemma NothingSeen(g: G, pid: nat, heartbeat: int)
    ensures After(g, View([], pid), heartbeat) == g
  {
  }

  lemma OneMoreSeen(g: G, front: seq<Event>, last: Event, pid: nat, heartbeat: int)
    requires last.pid == pid ==> LocalOf(last).Some?
    ensures var before := After(g, View(front, pid), heartbeat);
      After(g, View(front + [last], pid), heartbeat)
        == if last.pid == pid then LocalNext(before, LocalOf(last).value, heartbeat) else before
  {
    hide LocalNext, LocalOf;
    var seen := View(front, pid);
    assert (front + [last])[..|front|] == front;
    if last.pid == pid {
      assert (seen + [LocalOf(last).value])[..|seen|] == seen;
    } else {
      assert seen + [] == seen;
    }
  }

  lemma HolderInStep(mode: LockMode, initial: Snapshot, events: seq<Event>, pid: nat, heartbeat: int)
    requires StopsBetweenCycles(Start(mode, initial), events, heartbeat)
    ensures var w := Trace(Start(mode, initial), events, heartbeat); InStep(Proc(w, pid), w.shared.snapshot)
  {
    EveryTraceIsSafe(mode, initial, events, heartbeat);
  }

  /** A process followed since a due mark: whether the running cycle began after it, and
      whether such a cycle has completed. */
  datatype Watch = Watch(g: G, begunAfter: bool, served: bool)

  function WatchNext(v: Watch, event: Local, heartbeat: int): Watch {
    var next := LocalNext(v.g, event, heartbeat);
    match event
    case Bar(_, _) => Watch(next, v.begunAfter || (v.g.phase == Idle && next.phase != Idle), v.served)
    case Committed => if v.g.phase.Written? then Watch(next, false, v.served || v.begunAfter) else v
    case Failed => if v.g.phase.Querying? then Watch(next, false, v.served) else v
    case _ => Watch(next, v.begunAfter, v.served)
  }

  function Watching(v: Watch, events: seq<Local>, heartbeat: int): Watch {
    if events == [] then v else WatchNext(Watching(v, events[..|events| - 1], heartbeat), events[|events| - 1], heartbeat)
  }

  ghost predicate Pending(v: Watch) {
    && !v.g.stopped
    && (v.g.phase != Idle ==> v.g.due)
    && (v.g.phase == Idle ==> !v.begunAfter)
    && (!v.served ==>
          && (v.g.phase == Idle ==> v.g.due)
          && (v.g.phase != Idle && !v.begunAfter ==> v.g.dueAfter))
  }

  /** No lost wake-up. After a due mark in a live epoch, whether it arrives between cycles or
      inside one, one of the two due flags stays set until a cycle that began after the mark
      has completed, through any number of failed cycles. */
  lemma {:induction false} NoLostWakeUp(g: G, events: seq<Local>, heartbeat: int)
    requires !g.stopped && (g.phase != Idle ==> g.due)
    ensures var v := Watching(Watch(MarkDue(g), false, false), events, heartbeat);
      Pending(v) && (!v.served ==> v.g.due || v.g.dueAfter)
  {
    if events != [] {
      NoLostWakeUp(g, events[..|events| - 1], heartbeat);
    }
  }

  lemma {:induction false} WatchingFollows(v: Watch, events: seq<Local>, heartbeat: int)
    ensures Watching(v, events, heartbeat).g == After(v.g, events, heartbeat)
  {
    if events != [] { WatchingFollows(v, events[..|events| - 1], heartbeat); }
  }

  /** The same in every interleaving of any number of processes, from any reachable world: the
      mark of a process that is not stopped stays pending, whatever the others do, until a
      cycle of this process that began after it has completed. */
  lemma NoLostWakeUpInTrace(mode: LockMode, initial: Snapshot, before: seq<Event>, after: seq<Event>, pid: nat, heartbeat: int)
    requires StopsBetweenCycles(Start(mode, initial), before + [DoMark(pid)] + after, heartbeat) && SameEpoch(after, pid)
    requires !Proc(Trace(Start(mode, initial), before, heartbeat), pid).stopped
    ensures var g := Proc(Trace(Start(mode, initial), before + [DoMark(pid)] + after, heartbeat), pid);
      var v := Watching(Watch(MarkDue(Proc(Trace(Start(mode, initial), before, heartbeat), pid)), false, false), View(after, pid), heartbeat);
      v.g == g && Pending(v) && (!v.served ==> g.due || g.dueAfter)
  {
    hide Trace, StopsBetweenCycles, Pending, Watching, View, After;
    var start := Start(mode, initial);
    var marked := before + [DoMark(pid)];
    StopsInFront(start, marked, after, heartbeat);
    StopsInFront(start, before, [DoMark(pid)], heartbeat);
    EveryRunningIsDue(mode, initial, before, pid, heartbeat);
    var g := Proc(Trace(start, before, heartbeat), pid);
    TraceSnoc(start, before, DoMark(pid), heartbeat);
    ViewFollows(mode, initial, marked, after, pid, heartbeat);
    NoLostWakeUp(g, View(after, pid), heartbeat);
    WatchingFollows(Watch(MarkDue(g), false, false), View(after, pid), heartbeat);
  }

  /** A pending mark is acted on: between cycles, the next last-bar callback that is a
      heartbeat after the previous attempt starts a cycle. */
  lemma PendingIsServed(v: Watch, now: int, heartbeat: int)
    requires Pending(v) && !v.served && v.g.phase == Idle && v.g.holdsLock
    requires v.g.lastAttempt.Some? ==> now - v.g.lastAttempt.value >= heartbeat
    ensures WatchNext(v, Bar(now, true), heartbeat).g.phase == Querying(v.g.sequence + 1)
    ensures WatchNext(v, Bar(now, true), heartbeat).begunAfter
  {
  }

  /** The times at which query cycles begin. */
  function Attempts(g: G, events: seq<Local>, heartbeat: int): seq<int> {
    if events == [] then []
    else
      var front := events[..|events| - 1];
      var before := After(g, front, heartbeat);
      var last := events[|events| - 1];
      Attempts(g, front, heartbeat)
        + if Begins(before, last, heartbeat) then [last.now] else []
  }

  predicate Begins(g: G, event: Local, heartbeat: int)
    ensures Begins(g, event, heartbeat) ==> event.Bar?
  {
    event.Bar? && g.phase == Idle && LocalNext(g, event, heartbeat).phase != Idle
  }

  /** Every two of `times` are a heartbeat apart for each step between them. */
  ghost predicate Spaced(times: seq<int>, heartbeat: int) {
    forall i, j :: 0 <= i < j < |times| ==> times[j] - times[i] >= (j - i) * heartbeat
  }

  lemma SpacedFurther(times: seq<int>, now: int, heartbeat: int)
    requires Spaced(times, heartbeat) && heartbeat >= 0
    requires times != [] ==> now - times[|times| - 1] >= heartbeat
    ensures Spaced(times + [now], heartbeat)
  {
    var longer := times + [now];
    forall i, j | 0 <= i < j < |longer| ensures longer[j] - longer[i] >= (j - i) * heartbeat {
      if j == |times| && i < j - 1 {
        assert times[j - 1] - times[i] >= (j - 1 - i) * heartbeat;
        Stretch(times[j - 1] - times[i], j - 1 - i, heartbeat);
      }
    }
  }

  /** Any two attempts of an epoch are at least one heartbeat interval apart, and n attempts
      span at least n - 1 intervals, whatever marks, failures and successes lie between. */
  lemma {:induction false} AttemptsAreSpaced(g: G, events: seq<Local>, heartbeat: int)
    requires g.lastAttempt == None && heartbeat >= 0
    ensures Spaced(Attempts(g, events, heartbeat), heartbeat)
    ensures var times := Attempts(g, events, heartbeat);
      After(g, events, heartbeat).lastAttempt == if times == [] then None else Some(times[|times| - 1])
  {
    hide Spaced, LocalNext;
    if events == [] {
      assert Spaced([], heartbeat) by { NoTimesSpaced(heartbeat); }
    } else {
      var n := |events| - 1;
      var before, front := After(g, events[..n], heartbeat), Attempts(g, events[..n], heartbeat);
      AttemptsAreSpaced(g, events[..n], heartbeat);
      AttemptRecorded(before, events[n], heartbeat);
      if Begins(before, events[n], heartbeat) {
        SpacedFurther(front, events[n].now, heartbeat);
      } else {
        assert front + [] == front;
      }
    }
  }

  /** In every interleaving, from any point where the process has not attempted yet. */
  lemma AttemptsInTrace(mode: LockMode, initial: Snapshot, before: seq<Event>, after: seq<Event>, pid: nat, heartbeat: int)
    requires StopsBetweenCycles(Start(mode, initial), before + after, heartbeat) && SameEpoch(after, pid) && heartbeat >= 0
    requires Proc(Trace(Start(mode, initial), before, heartbeat), pid).lastAttempt == None
    ensures var times := Attempts(Proc(Trace(Start(mode, initial), before, heartbeat), pid), View(after, pid), heartbeat);
      && Spaced(times, heartbeat)
      && Proc(Trace(Start(mode, initial), before + after, heartbeat), pid).lastAttempt
           == if times == [] then None else Some(times[|times| - 1])
  {
    hide Trace, StopsBetweenCycles, Spaced, Attempts, View, After;
    ViewFollows(mode, initial, before, after, pid, heartbeat);
    AttemptsAreSpaced(Proc(Trace(Start(mode, initial), before, heartbeat), pid), View(after, pid), heartbeat);
  }

  /** A beginning cycle records its time, a heartbeat after the recorded one; nothing else
      changes the record. */
  lemma AttemptRecorded(g: G, event: Local, heartbeat: int)
    ensures LocalNext(g, event, heartbeat).lastAttempt == if Begins(g, event, heartbeat) then Some(event.now) else g.lastAttempt
    ensures Begins(g, event, heartbeat) && g.lastAttempt.Some? ==> event.now - g.lastAttempt.value >= heartbeat
  {
  }

  lemma NoTimesSpaced(heartbeat: int)
    ensures Spaced([], heartbeat)
  {
  }

  lemma Stretch(span: int, steps: int, heartbeat: int)
    requires span >= steps * heartbeat
    ensures span + heartbeat >= (steps + 1) * heartbeat
  {
  }
}
