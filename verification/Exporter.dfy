/** The QMT snapshot exporter: a writer lock shared by processes, due flags set by callbacks
    (also while a query runs), and a sequence number kept in step with an atomically
    replaced file. */
module Exporter {
  import opened Outcomes

  // ----- State

  datatype Snapshot = Absent | Valid(sequence: nat) | Corrupt

  /** How the lock is taken: a locked file region that dies with its process, or a file
      created exclusively that only a release removes. */
  datatype LockMode = Region | ExclusiveFile

  /** What all processes see. `owner` is the region's owner; `lockFile` the exclusive file. */
  datatype Shared = Shared(mode: LockMode, snapshot: Snapshot, owner: Option<nat>, lockFile: bool)

  /** Where a query cycle stands: not running, querying, or file replaced but not recorded. */
  datatype Phase = Idle | Querying(next: int) | Written(next: int)

  /** The exporter state `G` of one process; `query_in_progress` is `phase != Idle`. */
  datatype G = G(sequence: int, lastAttempt: Option<int>, due: bool, dueAfter: bool,
                 phase: Phase, stopped: bool, holdsLock: bool, timer: bool)

  const FRESH := G(0, None, false, false, Idle, false, false, false)

  // ----- Lock

  function Acquire(pid: nat, g: G, s: Shared): Option<(G, Shared)> {
    if g.holdsLock then None
    else match s.mode
      case Region => if s.owner.Some? then None else Some((g.(holdsLock := true), s.(owner := Some(pid))))
      case ExclusiveFile => if s.lockFile then None else Some((g.(holdsLock := true), s.(lockFile := true)))
  }

  /** Releasing an exclusive lock can leave the file behind if it cannot be removed. */
  function Release(g: G, s: Shared, unlinked: bool): (G, Shared) {
    if !g.holdsLock then (g, s)
    else (g.(holdsLock := false),
          if s.mode == Region then s.(owner := None) else s.(lockFile := !unlinked))
  }

  /** `_load_last_sequence`: None when it raises. */
  function LoadSequence(snapshot: Snapshot): Option<int> {
    match snapshot
    case Absent => Some(0)
    case Valid(sequence) => if sequence >= 1 then Some(sequence) else None
    case Corrupt => None
  }

  // ----- Callbacks as functions

  function Init(pid: nat, g: G, s: Shared, accountOk: bool, keyOk: bool, timerOk: bool, unlinked: bool): (G, Shared) {
    if !accountOk then (g.(stopped := true), s)
    else
      var acquired := Acquire(pid, g.(stopped := false), s);
      if acquired.None? then (g.(stopped := true), s)
      else
        var (held, locked) := acquired.value;
        var sequence := LoadSequence(locked.snapshot);
        if keyOk && sequence.Some? then
          (held.(sequence := sequence.value, lastAttempt := None, due := false, dueAfter := false, phase := Idle, timer := timerOk), locked)
        else
          var (released, free) := Release(held, locked, unlinked);
          (released.(sequence := 0, stopped := true), free)
  }

  function MarkDue(g: G): G {
    if g.stopped then g else if g.phase != Idle then g.(dueAfter := true) else g.(due := true)
  }

  function Stop(g: G, s: Shared, unlinked: bool): (G, Shared) {
    Release(g.(stopped := true, due := false, dueAfter := false), s, unlinked)
  }

  /** Whether `handlebar` marks the query due on its own, because heartbeats are missing. */
  predicate Overdue(g: G, now: int, heartbeat: int) {
    && !g.due && g.lastAttempt.Some?
    && now - g.lastAttempt.value >= if g.timer then 2 * heartbeat else heartbeat
  }

  /** Whether `handlebar` starts a query cycle, after that marking. */
  predicate Starts(g: G, now: int, isLast: bool, heartbeat: int) {
    && !g.stopped && g.phase == Idle
    && (g.due || Overdue(g, now, heartbeat))
    && (g.lastAttempt.Some? ==> now - g.lastAttempt.value >= heartbeat)
    && isLast && g.holdsLock
  }

  /** `handlebar` up to the point where a started cycle is querying. */
  function Handlebar(g: G, now: int, isLast: bool, heartbeat: int): G {
    if g.stopped || g.phase != Idle then g
    else
      var marked := if Overdue(g, now, heartbeat) then MarkDue(g) else g;
      if Starts(g, now, isLast, heartbeat) then marked.(phase := Querying(g.sequence + 1), lastAttempt := Some(now)) else marked
  }

  function Replace(g: G, s: Shared): (G, Shared)
    requires g.phase.Querying? && g.phase.next >= 0
  {
    (g.(phase := Written(g.phase.next)), s.(snapshot := Valid(g.phase.next)))
  }

  function Commit(g: G): G
    requires g.phase.Written?
  {
    g.(sequence := g.phase.next, due := g.dueAfter, dueAfter := false, phase := Idle)
  }

  function Abandon(g: G): G {
    g.(phase := Idle)
  }

  // ----- The exporter object

  datatype CycleOutcome = QueryRaises | WriteRaises | Completes

  function Marks(g: G, count: nat): G {
    if count == 0 then g else MarkDue(Marks(g, count - 1))
  }

  /** A whole cycle: begun, marked `marks` times while it ran, then completed or raised. */
  function Cycle(begun: G, s: Shared, marks: nat, outcome: CycleOutcome): (G, Shared)
    requires begun.phase.Querying? && begun.phase.next >= 0
  {
    var marked := Marks(begun, marks);
    MarksKeepPhase(begun, marks);
    if outcome == Completes then
      var (written, after) := Replace(marked, s);
      (Commit(written), after)
    else (Abandon(marked), s)
  }

  lemma {:induction false} MarksKeepPhase(g: G, count: nat)
    ensures Marks(g, count).phase == g.phase && Marks(g, count).stopped == g.stopped
  {
    if count > 0 { MarksKeepPhase(g, count - 1); }
  }

  /** The files and locks beneath the bridge root. */
  class Bridge {
    const mode: LockMode
    var snapshot: Snapshot
    var owner: Option<nat>
    var lockFile: bool

    function State(): Shared
      reads this
    {
      Shared(mode, snapshot, owner, lockFile)
    }

    constructor (mode: LockMode, snapshot: Snapshot)
      ensures State() == Shared(mode, snapshot, None, false)
    {
      this.mode, this.snapshot, owner, lockFile := mode, snapshot, None, false;
    }
  }

  class QmtExporter {
    const pid: nat
    const heartbeat: int
    const bridge: Bridge
    var sequence: int
    var lastAttempt: Option<int>
    var queryDue: bool
    var queryDueAfterCurrent: bool
    var phase: Phase
    var stopped: bool
    var holdsLock: bool
    var timerRegistered: bool

    function State(): G
      reads this
    {
      G(sequence, lastAttempt, queryDue, queryDueAfterCurrent, phase, stopped, holdsLock, timerRegistered)
    }

    constructor (pid: nat, heartbeat: int, bridge: Bridge)
      ensures this.pid == pid && this.heartbeat == heartbeat && this.bridge == bridge
      ensures State() == FRESH
    {
      this.pid, this.heartbeat, this.bridge := pid, heartbeat, bridge;
      sequence, lastAttempt, queryDue, queryDueAfterCurrent := 0, None, false, false;
      phase, stopped, holdsLock, timerRegistered := Idle, false, false, false;
    }

    method AcquireWriterLock() returns (ok: bool)
      modifies this`holdsLock, bridge
      ensures var acquired := Acquire(pid, old(State()), old(bridge.State()));
        && ok == acquired.Some?
        && (State(), bridge.State()) == if ok then acquired.value else (old(State()), old(bridge.State()))
    {
      if holdsLock {
        return false;
      }
      if bridge.mode == Region {
        if bridge.owner.Some? {
          return false;
        }
        bridge.owner := Some(pid);
      } else {
        if bridge.lockFile {
          return false;
        }
        bridge.lockFile := true;
      }
      holdsLock := true;
      ok := true;
    }

    method ReleaseWriterLock(unlinked: bool)
      modifies this`holdsLock, bridge
      ensures (State(), bridge.State()) == Release(old(State()), old(bridge.State()), unlinked)
    {
      if holdsLock {
        if bridge.mode == Region {
          bridge.owner := None;
        } else {
          bridge.lockFile := !unlinked;
        }
        holdsLock := false;
      }
    }

    /** `init`; `ok` is false when it raises. */
    method Initialize(accountOk: bool, keyOk: bool, timerOk: bool, unlinked: bool) returns (ok: bool)
      modifies this, bridge
      ensures (State(), bridge.State()) == Init(pid, old(State()), old(bridge.State()), accountOk, keyOk, timerOk, unlinked)
      ensures ok ==> holdsLock && !stopped
    {
      ok := false;
      if !accountOk {
        stopped := true;
        return;
      }
      stopped := false;
      var acquired := AcquireWriterLock();
      if !acquired {
        stopped := true;
        return;
      }
      var loaded := LoadSequence(bridge.snapshot);
      if !keyOk || loaded.None? {
        ReleaseWriterLock(unlinked);
        sequence := 0;
        stopped := true;
        return;
      }
      sequence, lastAttempt := loaded.value, None;
      queryDue, queryDueAfterCurrent, phase := false, false, Idle;
      timerRegistered := timerOk;
      ok := true;
    }

    /** `_mark_query_due`, called by the timer, after `init`, and by `handlebar`. */
    method MarkQueryDue()
      modifies this
      ensures State() == MarkDue(old(State()))
    {
      if stopped {
        return;
      }
      if phase != Idle {
        queryDueAfterCurrent := true;
        return;
      }
      queryDue := true;
    }

    /** `_complete_due_query_cycle`, with the marks that arrive while it runs. */
    method CompleteDueQueryCycle(now: int, marks: nat, outcome: CycleOutcome) returns (done: bool)
      requires sequence >= 0 && phase == Idle
      modifies this, bridge
      ensures var g, s := old(State()), old(bridge.State());
        if g.stopped || !g.due || !g.holdsLock then !done && State() == g && bridge.State() == s
        else
          && done == (outcome == Completes)
          && (State(), bridge.State()) == Cycle(g.(phase := Querying(g.sequence + 1), lastAttempt := Some(now)), s, marks, outcome)
    {
      if stopped || !queryDue || !holdsLock {
        return false;
      }
      phase := Querying(sequence + 1);
      lastAttempt := Some(now);
      ghost var begun := State();
      MarksKeepPhase(begun, marks);
      for i := 0 to marks
        invariant State() == Marks(begun, i) && bridge.State() == old(bridge.State())
      {
        MarkQueryDue();
      }
      if outcome != Completes {
        phase := Idle;
        return false;
      }
      bridge.snapshot := Valid(phase.next);
      sequence := phase.next;
      queryDue := queryDueAfterCurrent;
      queryDueAfterCurrent := false;
      phase := Idle;
      done := true;
    }

    /** `handlebar` between cycles: mark if overdue, and run a due cycle on the last bar. */
    method HandleBar(now: int, isLast: bool, marks: nat, outcome: CycleOutcome) returns (done: bool)
      requires sequence >= 0 && phase == Idle
      modifies this, bridge
      ensures var g, s := old(State()), old(bridge.State());
        var begun := Handlebar(g, now, isLast, heartbeat);
        if Starts(g, now, isLast, heartbeat)
        then done == (outcome == Completes) && (State(), bridge.State()) == Cycle(begun, s, marks, outcome)
        else !done && State() == begun && bridge.State() == s
    {
      done := false;
      if stopped {
        return;
      }
      if !queryDue && lastAttempt.Some? {
        var fallback := if timerRegistered then heartbeat * 2 else heartbeat;
        if now - lastAttempt.value >= fallback {
          MarkQueryDue();
        }
      }
      if !queryDue {
        return;
      }
      if lastAttempt.Some? && now - lastAttempt.value < heartbeat {
        return;
      }
      if isLast {
        done := CompleteDueQueryCycle(now, marks, outcome);
      }
    }

    method StopExporter(unlinked: bool)
      modifies this, bridge
      ensures (State(), bridge.State()) == Stop(old(State()), old(bridge.State()), unlinked)
    {
      stopped := true;
      queryDue := false;
      queryDueAfterCurrent := false;
      ReleaseWriterLock(unlinked);
    }
  }
}
