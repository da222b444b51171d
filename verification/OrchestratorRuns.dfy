/** Which calls of a plan are dispatched, with what arguments, and how failure spreads. */
module OrchestratorRuns {
  import opened Outcomes
  import opened Orchestrator

  function Observed(calls: seq<ToolCall>, registry: Registry): (r: seq<Observation>)
    ensures |r| == |calls|
  {
    Execute(calls, registry).observations
  }

  /** One observation per call, in order; earlier ones do not depend on later calls. */
  lemma {:induction false} OneObservationPerCall(calls: seq<ToolCall>, registry: Registry, n: nat)
    requires n <= |calls|
    ensures Observed(calls[..n], registry) == Observed(calls, registry)[..n]
    ensures forall i :: 0 <= i < |calls| ==> Observed(calls, registry)[i].callId == calls[i].callId
  {
    if calls == [] {
    } else {
      var front := calls[..|calls| - 1];
      OneObservationPerCall(front, registry, if n < |calls| then n else n - 1);
      assert Observed(calls, registry)[..|calls| - 1] == Observed(front, registry);
      if n < |calls| {
        assert front[..n] == calls[..n];
        assert Observed(calls, registry)[..n] == Observed(front, registry)[..n];
      } else {
        assert calls[..n] == calls;
      }
    }
  }

  /** Some call among the first n has this id and failed, or was blocked. */
  ghost predicate FailedBefore(calls: seq<ToolCall>, observations: seq<Observation>, n: nat, id: string)
    requires n <= |calls| == |observations|
  {
    exists j :: 0 <= j < n && calls[j].callId == id && !observations[j].Succeeded?
  }

  /** The j-th call is the latest among the first n with this id to have succeeded. */
  ghost predicate LatestSuccess(calls: seq<ToolCall>, observations: seq<Observation>, n: nat, id: string, j: nat)
    requires n <= |calls| == |observations|
  {
    && j < n && calls[j].callId == id && observations[j].Succeeded?
    && forall k :: j < k < n && calls[k].callId == id ==> !observations[k].Succeeded?
  }

  /** The table of outputs holds, for every id with a success, the output of its latest one. */
  ghost predicate OutputsMean(calls: seq<ToolCall>, observations: seq<Observation>, outputs: Outputs)
    requires |calls| == |observations|
  {
    && (forall id :: id in outputs ==>
          exists j: nat :: LatestSuccess(calls, observations, |calls|, id, j) && outputs[id] == observations[j].output)
    && (forall id, j: nat :: LatestSuccess(calls, observations, |calls|, id, j) ==> id in outputs)
  }

  ghost predicate FailedMean(calls: seq<ToolCall>, observations: seq<Observation>, failed: set<string>)
    requires |calls| == |observations|
  {
    forall id :: id in failed <==> FailedBefore(calls, observations, |calls|, id)
  }

  /** The executor's tables, read off the observations. */
  lemma {:induction false} TablesMean(calls: seq<ToolCall>, registry: Registry)
    ensures OutputsMean(calls, Observed(calls, registry), Execute(calls, registry).outputs)
    ensures FailedMean(calls, Observed(calls, registry), Execute(calls, registry).failed)
  {
    if calls != [] {
      hide OutputsMean, FailedMean;
      var m := |calls| - 1;
      TablesMean(calls[..m], registry);
      var before, observations := Execute(calls[..m], registry), Observed(calls, registry);
      assert observations[..m] == before.observations;
      OutputsStep(calls, observations, before.outputs);
      FailedMeanStep(calls, observations, before.failed);
    }
  }

  lemma OutputsStep(calls: seq<ToolCall>, observations: seq<Observation>, outputs: Outputs)
    requires |calls| == |observations| > 0
    requires OutputsMean(calls[..|calls| - 1], observations[..|calls| - 1], outputs)
    ensures var m := |calls| - 1;
      OutputsMean(calls, observations,
                  if observations[m].Succeeded? then outputs[calls[m].callId := observations[m].output] else outputs)
  {
    var m := |calls| - 1;
    var front, was, last := calls[..m], observations[..m], calls[m];
    var after := if observations[m].Succeeded? then outputs[last.callId := observations[m].output] else outputs;
    forall id | id in after
      ensures exists j: nat :: LatestSuccess(calls, observations, |calls|, id, j) && after[id] == observations[j].output
    {
      if observations[m].Succeeded? && id == last.callId {
        assert LatestSuccess(calls, observations, |calls|, id, m);
      } else {
        assert id in outputs;
        var j: nat :| LatestSuccess(front, was, |front|, id, j) && outputs[id] == was[j].output;
        assert LatestSuccess(calls, observations, |calls|, id, j);
      }
    }
    forall id, j: nat | LatestSuccess(calls, observations, |calls|, id, j) ensures id in after {
      if j < m {
        assert LatestSuccess(front, was, |front|, id, j);
      }
    }
  }

  lemma FailedMeanStep(calls: seq<ToolCall>, observations: seq<Observation>, failed: set<string>)
    requires |calls| == |observations| > 0
    requires FailedMean(calls[..|calls| - 1], observations[..|calls| - 1], failed)
    ensures var m := |calls| - 1;
      FailedMean(calls, observations, if observations[m].Succeeded? then failed else failed + {calls[m].callId})
  {
    hide FailedBefore;
    var m := |calls| - 1;
    var after := if observations[m].Succeeded? then failed else failed + {calls[m].callId};
    forall id ensures id in after <==> FailedBefore(calls, observations, |calls|, id) {
      FailedStep(calls, observations[..m], observations, id);
    }
  }

  lemma FailedStep(calls: seq<ToolCall>, was: seq<Observation>, observations: seq<Observation>, id: string)
    requires |calls| == |observations| > 0 && was == observations[..|calls| - 1]
    ensures var m := |calls| - 1;
      FailedBefore(calls, observations, |calls|, id) <==>
        FailedBefore(calls[..m], was, m, id) || (calls[m].callId == id && !observations[m].Succeeded?)
  {
    var m := |calls| - 1;
    if FailedBefore(calls[..m], was, m, id) {
      var j :| 0 <= j < m && calls[..m][j].callId == id && !was[j].Succeeded?;
      assert calls[j].callId == id && !observations[j].Succeeded?;
    }
    if FailedBefore(calls, observations, |calls|, id) && !(calls[m].callId == id && !observations[m].Succeeded?) {
      var j :| 0 <= j < |calls| && calls[j].callId == id && !observations[j].Succeeded?;
      assert calls[..m][j].callId == id && !was[j].Succeeded?;
    }
  }

  /** Some call among the first n has this id and succeeded. */
  ghost predicate SucceededBefore(calls: seq<ToolCall>, observations: seq<Observation>, n: nat, id: string)
    requires n <= |calls| == |observations|
  {
    exists j :: 0 <= j < n && calls[j].callId == id && observations[j].Succeeded?
  }

  lemma {:induction false} LatestExists(calls: seq<ToolCall>, observations: seq<Observation>, n: nat, id: string)
    requires n <= |calls| == |observations| && SucceededBefore(calls, observations, n, id)
    ensures exists j: nat :: LatestSuccess(calls, observations, n, id, j)
  {
    if calls[n - 1].callId == id && observations[n - 1].Succeeded? {
      assert LatestSuccess(calls, observations, n, id, n - 1);
    } else {
      var j :| 0 <= j < n && calls[j].callId == id && observations[j].Succeeded?;
      assert SucceededBefore(calls, observations, n - 1, id);
      LatestExists(calls, observations, n - 1, id);
      var k: nat :| LatestSuccess(calls, observations, n - 1, id, k);
      assert LatestSuccess(calls, observations, n, id, k);
    }
  }

  /** A tool is dispatched exactly when every reference nested anywhere in its arguments names
      an earlier call that succeeded, and no earlier call of that name failed. */
  lemma DispatchedIff(calls: seq<ToolCall>, registry: Registry, i: nat)
    requires i < |calls|
    ensures var observations := Observed(calls, registry);
      !observations[i].Blocked? <==>
        forall id :: id in EntryReferences(calls[i].arguments) ==>
          SucceededBefore(calls, observations, i, id) && !FailedBefore(calls, observations, i, id)
  {
    hide EntryReferences, ResolveEntries, FirstUnmet;
    var before, observations := calls[..i], Observed(calls, registry);
    OneObservationPerCall(calls, registry, i);
    OneObservationPerCall(calls, registry, i + 1);
    var was, e := Observed(before, registry), Execute(before, registry);
    TablesMean(before, registry);
    assert calls[..i + 1][..i] == before;
    assert observations[i] == Observed(calls[..i + 1], registry)[i];
    ResolveEntriesErrors(calls[i].arguments, e.outputs, e.failed);
    UnmetIff(EntryReferences(calls[i].arguments), e.outputs, e.failed);
    forall id ensures Met(id, e.outputs, e.failed) <==>
      SucceededBefore(calls, observations, i, id) && !FailedBefore(calls, observations, i, id)
    {
      TablesBefore(calls, observations, was, i, id);
      MetIff(before, was, e, id);
    }
  }

  lemma TablesBefore(calls: seq<ToolCall>, observations: seq<Observation>, was: seq<Observation>, i: nat, id: string)
    requires i <= |calls| == |observations| && was == observations[..i]
    ensures SucceededBefore(calls[..i], was, i, id) <==> SucceededBefore(calls, observations, i, id)
    ensures FailedBefore(calls[..i], was, i, id) <==> FailedBefore(calls, observations, i, id)
  {
    forall j | 0 <= j < i ensures calls[..i][j] == calls[j] && was[j] == observations[j] {
    }
  }

  lemma MetIff(calls: seq<ToolCall>, observations: seq<Observation>, e: Execution, id: string)
    requires |observations| == |calls|
    requires FailedMean(calls, observations, e.failed) && OutputsMean(calls, observations, e.outputs)
    ensures Met(id, e.outputs, e.failed) <==>
      SucceededBefore(calls, observations, |calls|, id) && !FailedBefore(calls, observations, |calls|, id)
  {
    if SucceededBefore(calls, observations, |calls|, id) {
      LatestExists(calls, observations, |calls|, id);
    }
  }

  ghost predicate UniqueIds(calls: seq<ToolCall>) {
    forall i, j :: 0 <= i < j < |calls| ==> calls[i].callId != calls[j].callId
  }

  /** With unique ids: dispatched exactly when each reference names an earlier successful call. */
  lemma DispatchedIffUnique(calls: seq<ToolCall>, registry: Registry, i: nat)
    requires i < |calls| && UniqueIds(calls)
    ensures var observations := Observed(calls, registry);
      !observations[i].Blocked? <==>
        forall id :: id in EntryReferences(calls[i].arguments) ==> SucceededBefore(calls, observations, i, id)
  {
    DispatchedIff(calls, registry, i);
  }

  /** A dispatched call gets, wherever its arguments refer to a call, the output of the latest
      success of that id, and elsewhere what the plan says. */
  lemma DispatchedWith(calls: seq<ToolCall>, registry: Registry, i: nat, path: seq<nat>)
    requires i < |calls| && !Observed(calls, registry)[i].Blocked?
    requires At(Dict(calls[i].arguments), path).Some?
    ensures var observations := Observed(calls, registry);
      var planned, given := At(Dict(calls[i].arguments), path).value, At(Dict(observations[i].arguments), path);
      && given.Some?
      && (if planned.Ref? then
            exists j: nat :: LatestSuccess(calls, observations, i, planned.callId, j) && given.value == observations[j].output
          else SameNode(planned, given.value))
  {
    hide ResolveEntries, At, SameNode;
    var before, observations := calls[..i], Observed(calls, registry);
    OneObservationPerCall(calls, registry, i);
    OneObservationPerCall(calls, registry, i + 1);
    assert calls[..i + 1][..i] == before;
    assert observations[i] == Observed(calls[..i + 1], registry)[i];
    var e := Execute(before, registry);
    TablesMean(before, registry);
    var value := Dict(calls[i].arguments);
    assert ResolveValue(value, e.outputs, e.failed) == Success(Dict(observations[i].arguments));
    ResolvedAt(value, e.outputs, e.failed, path);
    var planned := At(value, path).value;
    if planned.Ref? {
      var was := Observed(before, registry);
      var j: nat :| LatestSuccess(before, was, i, planned.callId, j) && e.outputs[planned.callId] == was[j].output;
      forall k | 0 <= k < i ensures before[k] == calls[k] && was[k] == observations[k] {
      }
      assert LatestSuccess(calls, observations, i, planned.callId, j);
    }
  }

  /** Each call of the chain refers to the one before it, at any depth of its arguments. */
  ghost predicate Chain(calls: seq<ToolCall>, chain: seq<nat>) {
    && (forall k :: 0 <= k < |chain| ==> chain[k] < |calls|)
    && forall k :: 0 < k < |chain| ==> calls[chain[k - 1]].callId in EntryReferences(calls[chain[k]].arguments)
  }

  /** Failure reaches every transitive dependant: down a chain of references that starts at a
      call that did not succeed, no call is dispatched. */
  lemma {:induction false} FailureSpreads(calls: seq<ToolCall>, registry: Registry, chain: seq<nat>)
    requires UniqueIds(calls) && Chain(calls, chain) && |chain| > 1
    requires !Observed(calls, registry)[chain[0]].Succeeded?
    ensures Observed(calls, registry)[chain[|chain| - 1]].Blocked?
  {
    hide EntryReferences, Execute;
    var n := |chain| - 1;
    var observations := Observed(calls, registry);
    if n > 1 { FailureSpreads(calls, registry, chain[..n]); }
    var a, b := chain[n - 1], chain[n];
    assert !observations[a].Succeeded?;
    DispatchedIffUnique(calls, registry, b);
    var id := calls[a].callId;
    forall j | 0 <= j < b && calls[j].callId == id ensures !observations[j].Succeeded? {
      assert j == a;
    }
    assert !SucceededBefore(calls, observations, b, id);
  }

  // ----- What is observed

  /** The i-th child of a node. */
  function Child(value: Value, i: nat): Option<Value> {
    match value
    case Dict(entries) => if i < |entries| then Some(entries[i].value) else None
    case Tup(items) => if i < |items| then Some(items[i]) else None
    case Lst(items) => if i < |items| then Some(items[i]) else None
    case _ => None
  }

  ghost predicate Stands(value: Value, path: seq<nat>, id: string) {
    At(value, path) == Some(Ref(id))
  }

  lemma StandsBelow(value: Value, i: nat, path: seq<nat>, id: string)
    ensures Stands(value, [i] + path, id) <==> Child(value, i).Some? && Stands(Child(value, i).value, path, id)
  {
    assert ([i] + path)[1..] == path;
  }

  /** A reference stands in a node that is no reference exactly if it stands in a child. */
  lemma StandsInChild(value: Value, id: string)
    ensures (exists path :: Stands(value, path, id)) <==>
      value == Ref(id) || exists i: nat, path :: Child(value, i).Some? && Stands(Child(value, i).value, path, id)
  {
    hide At;
    if path :| Stands(value, path, id) {
      if path == [] {
        assert value == Ref(id) by { AtRoot(value); }
      } else {
        assert path == [path[0]] + path[1..];
        StandsBelow(value, path[0], path[1..], id);
      }
    }
    if value == Ref(id) {
      AtRoot(value);
      assert Stands(value, [], id);
    }
    if i: nat, path :| Child(value, i).Some? && Stands(Child(value, i).value, path, id) {
      StandsBelow(value, i, path, id);
    }
  }

  lemma AtRoot(value: Value)
    ensures At(value, []) == Some(value)
  {
  }

  /** The references of a value are exactly those that stand somewhere in it. */
  lemma {:induction false} ReferencesStand(value: Value, id: string)
    ensures id in References(value) <==> exists path :: Stands(value, path, id)
    decreases value
  {
    StandsInChild(value, id);
    hide Stands;
    match value
    case Atom(_) => {}
    case Ref(other) => {}
    case Dict(entries) => {
      EntriesStand(entries, id);
      forall i | 0 <= i < |entries| ensures Child(value, i) == Some(entries[i].value) {
      }
    }
    case Tup(items) => {
      ItemsStand(items, id);
      forall i | 0 <= i < |items| ensures Child(value, i) == Some(items[i]) {
      }
    }
    case Lst(items) => {
      ItemsStand(items, id);
      forall i | 0 <= i < |items| ensures Child(value, i) == Some(items[i]) {
      }
    }
  }

  lemma {:induction false} ItemsStand(items: seq<Value>, id: string)
    ensures id in ItemReferences(items) <==> exists i, path :: 0 <= i < |items| && Stands(items[i], path, id)
    decreases items
  {
    hide Stands;
    if items != [] {
      ReferencesStand(items[0], id);
      ItemsStand(items[1..], id);
      if i, path :| 0 <= i < |items| && Stands(items[i], path, id) {
        if i > 0 { assert items[1..][i - 1] == items[i]; }
      }
    }
  }

  lemma {:induction false} EntriesStand(entries: seq<Entry>, id: string)
    ensures id in EntryReferences(entries) <==> exists i, path :: 0 <= i < |entries| && Stands(entries[i].value, path, id)
    decreases entries
  {
    hide Stands;
    if entries != [] {
      ReferencesStand(entries[0].value, id);
      EntriesStand(entries[1..], id);
      if i, path :| 0 <= i < |entries| && Stands(entries[i].value, path, id) {
        if i > 0 { assert entries[1..][i - 1] == entries[i]; }
      }
    }
  }

  /** The first of the ids that is not met, and the error it causes. */
  ghost predicate FirstAt(ids: seq<string>, outputs: Outputs, failed: set<string>, k: int, error: DependencyError) {
    && 0 <= k < |ids| && !Met(ids[k], outputs, failed)
    && (forall j :: 0 <= j < k ==> Met(ids[j], outputs, failed))
    && error == if ids[k] in failed then DependencyFailed(ids[k]) else DependencyMissing(ids[k])
  }

  lemma {:induction false} FirstUnmetIs(ids: seq<string>, outputs: Outputs, failed: set<string>)
    ensures var first := FirstUnmet(ids, outputs, failed);
      first.Some? ==> exists k :: FirstAt(ids, outputs, failed, k, first.value)
  {
    hide Met;
    if ids != [] {
      var first := FirstUnmet(ids, outputs, failed);
      if Met(ids[0], outputs, failed) {
        FirstUnmetIs(ids[1..], outputs, failed);
        if first.Some? {
          var k :| FirstAt(ids[1..], outputs, failed, k, first.value);
          assert FirstAt(ids, outputs, failed, k + 1, first.value) by { LaterFirst(ids, outputs, failed, k, first.value); }
        }
      } else {
        assert FirstAt(ids, outputs, failed, 0, first.value);
      }
    }
  }

  lemma LaterFirst(ids: seq<string>, outputs: Outputs, failed: set<string>, k: int, error: DependencyError)
    requires ids != [] && Met(ids[0], outputs, failed) && FirstAt(ids[1..], outputs, failed, k, error)
    ensures FirstAt(ids, outputs, failed, k + 1, error)
  {
    hide Met;
    assert ids[k + 1] == ids[1..][k];
    forall j | 0 <= j < k + 1 ensures Met(ids[j], outputs, failed) {
      if j > 0 { assert ids[j] == ids[1..][j - 1]; }
    }
  }

  ghost predicate Settled(calls: seq<ToolCall>, observations: seq<Observation>, i: nat, id: string)
    requires i <= |calls| == |observations|
  {
    SucceededBefore(calls, observations, i, id) && !FailedBefore(calls, observations, i, id)
  }

  /** What each call is observed to do. A dispatched call ends as the registry answers to its
      tool and the arguments it was given: with that output, or with that message. A blocked
      one names the first reference in its arguments that is not settled by earlier calls, as
      failed if one of that id failed, and otherwise as missing. */
  lemma ObservedIs(calls: seq<ToolCall>, registry: Registry, i: nat)
    requires i < |calls|
    ensures var observations := Observed(calls, registry);
      var o, ids := observations[i], EntryReferences(calls[i].arguments);
      && o.callId == calls[i].callId
      && (!o.Blocked? ==>
            match registry(i, calls[i].tool, o.arguments)
            case Output(value) => o == Succeeded(calls[i].callId, o.arguments, value)
            case Error(message) => o == Failed(calls[i].callId, o.arguments, message))
      && (o.Blocked? ==>
            exists k :: 0 <= k < |ids| && !Settled(calls, observations, i, ids[k])
              && (forall j :: 0 <= j < k ==> Settled(calls, observations, i, ids[j]))
              && o.error == if FailedBefore(calls, observations, i, ids[k]) then DependencyFailed(ids[k]) else DependencyMissing(ids[k]))
  {
    hide EntryReferences, FirstUnmet, Met, FailedBefore, SucceededBefore, Settled, Step;
    var before, observations := calls[..i], Observed(calls, registry);
    OneObservationPerCall(calls, registry, i);
    OneObservationPerCall(calls, registry, i + 1);
    var was, e := Observed(before, registry), Execute(before, registry);
    TablesMean(before, registry);
    assert calls[..i + 1][..i] == before;
    assert Execute(calls[..i + 1], registry) == Step(e, calls[i], registry);
    StepObserves(e, calls[i], registry);
    assert observations[i] == Step(e, calls[i], registry).observations[i];
    forall id
      ensures Met(id, e.outputs, e.failed) <==> Settled(calls, observations, i, id)
      ensures id in e.failed <==> FailedBefore(calls, observations, i, id)
    {
      TablesBefore(calls, observations, was, i, id);
      MetIff(before, was, e, id);
      SettledIs(calls, observations, i, id);
    }
    if observations[i].Blocked? {
      FirstUnmetIs(EntryReferences(calls[i].arguments), e.outputs, e.failed);
      var k :| FirstAt(EntryReferences(calls[i].arguments), e.outputs, e.failed, k, observations[i].error);
    }
  }

  lemma SettledIs(calls: seq<ToolCall>, observations: seq<Observation>, i: nat, id: string)
    requires i <= |calls| == |observations|
    ensures Settled(calls, observations, i, id) <==> SucceededBefore(calls, observations, i, id) && !FailedBefore(calls, observations, i, id)
  {
  }

  lemma StepObserves(e: Execution, call: ToolCall, registry: Registry)
    ensures var next, n := Step(e, call, registry), |e.observations|;
      && |next.observations| == n + 1 && next.observations[n].callId == call.callId
      && var o := next.observations[n];
         && (o.Blocked? ==> FirstUnmet(EntryReferences(call.arguments), e.outputs, e.failed) == Some(o.error))
         && (!o.Blocked? ==>
               match registry(n, call.tool, o.arguments)
               case Output(value) => o == Succeeded(call.callId, o.arguments, value)
               case Error(message) => o == Failed(call.callId, o.arguments, message))
  {
    ResolveEntriesErrors(call.arguments, e.outputs, e.failed);
    hide EntryReferences, ResolveEntries, FirstUnmet;
  }
}
