/** When an exporter starts a query cycle, which numbers it then publishes, and how it takes
    and gives up its place, in the terms of its state and the clock alone. */
module ExporterWakeUps {
  import opened Outcomes
  import opened Exporter
  import opened ExporterProtocol

  /** Long enough since the last attempt: one heartbeat if a query is due or no timer was
      registered, two if only the timer has been silent. Before the first attempt only a
      due query counts. */
  ghost predicate TimeToQuery(due: bool, lastAttempt: Option<int>, timer: bool, now: int, heartbeat: int) {
    match lastAttempt
    case None => due
    case Some(t) => now >= t + heartbeat && (due || now >= t + if timer then 2 * heartbeat else heartbeat)
  }

  /** A bar callback starts a cycle, for the next number, exactly in a live idle holder of the
      lock, on the last bar, when it is time. Otherwise it starts none; at most it marks the
      query due, when heartbeats are missing. Nothing else changes, here or elsewhere. */
  lemma BarDecided(w: World, pid: nat, now: int, isLast: bool, heartbeat: int)
    ensures var g := Proc(w, pid);
      var next := Next(w, DoHandlebar(pid, now, isLast), heartbeat);
      var after := Proc(next, pid);
      var starts := !g.stopped && g.phase == Idle && g.holdsLock && isLast && TimeToQuery(g.due, g.lastAttempt, g.timer, now, heartbeat);
      var silent := !g.stopped && g.phase == Idle && g.lastAttempt.Some?
        && now >= g.lastAttempt.value + if g.timer then 2 * heartbeat else heartbeat;
      && after.phase == (if starts then Querying(g.sequence + 1) else g.phase)
      && after.lastAttempt == (if starts then Some(now) else g.lastAttempt)
      && after.due == (g.due || silent) && after.dueAfter == g.dueAfter
      && after.sequence == g.sequence && after.stopped == g.stopped && after.holdsLock == g.holdsLock && after.timer == g.timer
      && next.shared == w.shared && next.published == w.published
      && forall other: nat :: other != pid ==> Proc(next, other) == Proc(w, other)
  {
  }

  /** The fallback heartbeat. In every reachable world, a live idle holder of the lock that
      has attempted before starts a cycle at every last bar two heartbeats later, one if no
      timer was registered, though nobody marked a query due; completed, that cycle publishes
      the number after the one on disk. */
  lemma HeartbeatPublishes(mode: LockMode, initial: Snapshot, events: seq<Event>, pid: nat, now: int, heartbeat: int)
    requires StopsBetweenCycles(ExporterProtocol.Start(mode, initial), events, heartbeat) && heartbeat >= 0
    requires var g := Proc(Trace(ExporterProtocol.Start(mode, initial), events, heartbeat), pid);
      && !g.stopped && g.phase == Idle && g.holdsLock && g.lastAttempt.Some?
      && now >= g.lastAttempt.value + if g.timer then 2 * heartbeat else heartbeat
    ensures var start := ExporterProtocol.Start(mode, initial);
      var w := Trace(start, events, heartbeat);
      var begun := Trace(start, events + [DoHandlebar(pid, now, true)], heartbeat);
      var done := Trace(start, events + [DoHandlebar(pid, now, true)] + [DoReplace(pid)] + [DoCommit(pid)], heartbeat);
      var number := Proc(w, pid).sequence + 1;
      && number == (if w.shared.snapshot.Valid? then w.shared.snapshot.sequence + 1 else 1)
      && Proc(begun, pid).phase == Querying(number)
      && done.published == w.published + [number] && done.shared.snapshot == Valid(number)
      && Proc(done, pid).phase == Idle && Proc(done, pid).sequence == number && Proc(done, pid).lastAttempt == Some(now)
  {
    hide Trace, StopsBetweenCycles, Next, Replace, Commit;
    var start := ExporterProtocol.Start(mode, initial);
    var bar := events + [DoHandlebar(pid, now, true)];
    HolderInStep(mode, initial, events, pid, heartbeat);
    TraceSnoc(start, events, DoHandlebar(pid, now, true), heartbeat);
    TraceSnoc(start, bar, DoReplace(pid), heartbeat);
    TraceSnoc(start, bar + [DoReplace(pid)], DoCommit(pid), heartbeat);
    BarDecided(Trace(start, events, heartbeat), pid, now, true, heartbeat);
    CycleCompletes(Trace(start, bar, heartbeat), pid, heartbeat);
  }

  /** Replacing the file and recording it publishes the number that is being queried. */
  lemma CycleCompletes(w: World, pid: nat, heartbeat: int)
    requires Proc(w, pid).phase.Querying? && Proc(w, pid).phase.next >= 0
    ensures var g, number := Proc(w, pid), Proc(w, pid).phase.next;
      var written := Next(w, DoReplace(pid), heartbeat);
      var done := Next(written, DoCommit(pid), heartbeat);
      && written.published == w.published + [number] && written.shared.snapshot == Valid(number)
      && Proc(written, pid).sequence == g.sequence
      && done.published == written.published && done.shared == written.shared
      && Proc(done, pid) == G(number, g.lastAttempt, g.dueAfter, false, Idle, g.stopped, g.holdsLock, g.timer)
  {
  }

  /** A whole cycle of the exporter object: completed, it publishes its number and leaves the
      query due only if it was marked while it ran; raised, it publishes nothing and leaves
      the query as due as it was. */
  lemma {:induction false} CycleMeans(begun: G, s: Shared, marks: nat, outcome: CycleOutcome)
    requires begun.phase.Querying? && begun.phase.next >= 0 && !begun.stopped
    ensures var (after, files) := Cycle(begun, s, marks, outcome);
      && after.phase == Idle && after.lastAttempt == begun.lastAttempt
      && after.stopped == begun.stopped && after.holdsLock == begun.holdsLock && after.timer == begun.timer
      && (outcome == Completes ==>
            && files == s.(snapshot := Valid(begun.phase.next)) && after.sequence == begun.phase.next
            && after.due == (begun.dueAfter || marks > 0) && !after.dueAfter)
      && (outcome != Completes ==>
            && files == s && after.sequence == begun.sequence
            && after.due == begun.due && after.dueAfter == (begun.dueAfter || marks > 0))
  {
    MarksMean(begun, marks);
  }

  lemma {:induction false} MarksMean(g: G, count: nat)
    requires !g.stopped && g.phase != Idle
    ensures Marks(g, count) == g.(dueAfter := g.dueAfter || count > 0)
  {
    if count > 0 { MarksMean(g, count - 1); }
  }

  // ----- Starting and stopping

  /** The lock can be had: nobody owns the region, or there is no exclusive file. */
  ghost predicate LockFree(s: Shared) {
    match s.mode
    case Region => s.owner.None?
    case ExclusiveFile => !s.lockFile
  }

  /** Initialization takes over exactly with a good account, a free lock, a key, and a file
      that is absent or carries a number from one up; it then continues from that number with
      nothing due. When it fails, the process is stopped, and the lock is as free as it was
      unless an exclusive file could not be removed. The snapshot is never touched. */
  lemma InitTakesOver(w: World, pid: nat, accountOk: bool, keyOk: bool, timerOk: bool, unlinked: bool, heartbeat: int)
    requires !Proc(w, pid).holdsLock
    ensures var next := Next(w, DoInit(pid, accountOk, keyOk, timerOk, unlinked), heartbeat);
      var g := Proc(next, pid);
      var readable := w.shared.snapshot == Absent || (w.shared.snapshot.Valid? && w.shared.snapshot.sequence >= 1);
      var takes := accountOk && LockFree(w.shared) && keyOk && readable;
      && (takes <==> g.holdsLock) && (takes <==> !g.stopped)
      && (takes ==>
            && g == G(if w.shared.snapshot.Valid? then w.shared.snapshot.sequence else 0, None, false, false, Idle, false, true, timerOk)
            && !LockFree(next.shared) && (w.shared.mode == Region ==> next.shared.owner == Some(pid)))
      && (!takes && (unlinked || w.shared.mode == Region) ==> (LockFree(next.shared) <==> LockFree(w.shared)))
      && next.shared.snapshot == w.shared.snapshot && next.shared.mode == w.shared.mode && next.published == w.published
  {
    InitMeans(Proc(w, pid), w.shared, pid, accountOk, keyOk, timerOk, unlinked);
    hide Init;
  }

  lemma InitMeans(before: G, s: Shared, pid: nat, accountOk: bool, keyOk: bool, timerOk: bool, unlinked: bool)
    requires !before.holdsLock
    ensures var (g, shared) := Init(pid, before, s, accountOk, keyOk, timerOk, unlinked);
      var readable := s.snapshot == Absent || (s.snapshot.Valid? && s.snapshot.sequence >= 1);
      var takes := accountOk && LockFree(s) && keyOk && readable;
      && (takes <==> g.holdsLock) && (takes <==> !g.stopped)
      && (takes ==>
            && g == G(if s.snapshot.Valid? then s.snapshot.sequence else 0, None, false, false, Idle, false, true, timerOk)
            && !LockFree(shared) && (s.mode == Region ==> shared.owner == Some(pid)))
      && (!takes && (unlinked || s.mode == Region) ==> (LockFree(shared) <==> LockFree(s)))
      && shared.snapshot == s.snapshot && shared.mode == s.mode
  {
  }

  /** A process that already holds the lock does not take it twice: it stops instead, and
      keeps the lock it has. */
  lemma InitWhileHolding(w: World, pid: nat, accountOk: bool, keyOk: bool, timerOk: bool, unlinked: bool, heartbeat: int)
    requires Proc(w, pid).holdsLock
    ensures var next := Next(w, DoInit(pid, accountOk, keyOk, timerOk, unlinked), heartbeat);
      Proc(next, pid) == Proc(w, pid).(stopped := true) && next.shared == w.shared && next.published == w.published
  {
  }

  /** A stop gives the lock back and clears both due flags. */
  lemma StopGivesUp(w: World, pid: nat, unlinked: bool, heartbeat: int)
    ensures var g, next := Proc(w, pid), Next(w, DoStop(pid, unlinked), heartbeat);
      var after := Proc(next, pid);
      && after.stopped && !after.due && !after.dueAfter && !after.holdsLock && after.phase == g.phase
      && (g.holdsLock && w.shared.mode == Region ==> next.shared.owner == None)
      && (g.holdsLock && w.shared.mode == ExclusiveFile ==> next.shared.lockFile == !unlinked)
      && (!g.holdsLock ==> next.shared == w.shared)
      && next.shared.snapshot == w.shared.snapshot && next.published == w.published
  {
  }

  /** A process stopped between cycles stays as it is, whatever marks and bars still reach
      it, so it starts nothing until it is initialized again. */
  lemma {:induction false} StoppedStaysQuiet(g: G, events: seq<Local>, heartbeat: int)
    requires g.stopped && g.phase == Idle
    ensures After(g, events, heartbeat) == g && Attempts(g, events, heartbeat) == []
  {
    if events != [] { StoppedStaysQuiet(g, events[..|events| - 1], heartbeat); }
  }
}
