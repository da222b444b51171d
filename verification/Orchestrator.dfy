/** Execution of an agent plan: nested references to earlier observations are resolved while
    executing, and a call whose dependency failed or is missing is not dispatched. */
module Orchestrator {
  import opened Outcomes

  // ----- Values with references

  datatype Value =
    | Atom(text: string)
    | Ref(callId: string)
    | Dict(entries: seq<Entry>)
    | Tup(items: seq<Value>)
    | Lst(items: seq<Value>)

  datatype Entry = Entry(key: string, value: Value)

  datatype DependencyError = DependencyFailed(callId: string) | DependencyMissing(callId: string)

  type Outputs = map<string, Value>

  function ResolveValue(value: Value, outputs: Outputs, failed: set<string>): Result<Value, DependencyError>
    decreases value
  {
    match value
    case Atom(_) => Success(value)
    case Ref(id) =>
      if id in failed then Failure(DependencyFailed(id))
      else if id !in outputs then Failure(DependencyMissing(id))
      else Success(outputs[id])
    case Dict(entries) => (match ResolveEntries(entries, outputs, failed) case Success(r) => Success(Dict(r)) case Failure(e) => Failure(e))
    case Tup(items) => (match ResolveItems(items, outputs, failed) case Success(r) => Success(Tup(r)) case Failure(e) => Failure(e))
    case Lst(items) => (match ResolveItems(items, outputs, failed) case Success(r) => Success(Lst(r)) case Failure(e) => Failure(e))
  }

  function ResolveItems(items: seq<Value>, outputs: Outputs, failed: set<string>): Result<seq<Value>, DependencyError>
    decreases items
  {
    if items == [] then Success([])
    else
      match ResolveValue(items[0], outputs, failed)
      case Failure(e) => Failure(e)
      case Success(first) =>
        match ResolveItems(items[1..], outputs, failed)
        case Failure(e) => Failure(e)
        case Success(rest) => Success([first] + rest)
  }

  function ResolveEntries(entries: seq<Entry>, outputs: Outputs, failed: set<string>): Result<seq<Entry>, DependencyError>
    decreases entries
  {
    if entries == [] then Success([])
    else
      match ResolveValue(entries[0].value, outputs, failed)
      case Failure(e) => Failure(e)
      case Success(first) =>
        match ResolveEntries(entries[1..], outputs, failed)
        case Failure(e) => Failure(e)
        case Success(rest) => Success([Entry(entries[0].key, first)] + rest)
  }

  // ----- What resolution means

  /** The calls a value refers to, at any depth, in the order they are met. */
  function References(value: Value): seq<string>
    decreases value
  {
    match value
    case Atom(_) => []
    case Ref(id) => [id]
    case Dict(entries) => EntryReferences(entries)
    case Tup(items) => ItemReferences(items)
    case Lst(items) => ItemReferences(items)
  }

  function ItemReferences(items: seq<Value>): seq<string>
    decreases items
  {
    if items == [] then [] else References(items[0]) + ItemReferences(items[1..])
  }

  function EntryReferences(entries: seq<Entry>): seq<string>
    decreases entries
  {
    if entries == [] then [] else References(entries[0].value) + EntryReferences(entries[1..])
  }

  predicate Met(id: string, outputs: Outputs, failed: set<string>) {
    id !in failed && id in outputs
  }

  /** The error of the first reference that is not met, if any. */
  function FirstUnmet(ids: seq<string>, outputs: Outputs, failed: set<string>): Option<DependencyError> {
    if ids == [] then None
    else if Met(ids[0], outputs, failed) then FirstUnmet(ids[1..], outputs, failed)
    else Some(if ids[0] in failed then DependencyFailed(ids[0]) else DependencyMissing(ids[0]))
  }

  lemma {:induction false} FirstUnmetConcat(a: seq<string>, b: seq<string>, outputs: Outputs, failed: set<string>)
    ensures FirstUnmet(a + b, outputs, failed) ==
      if FirstUnmet(a, outputs, failed).Some? then FirstUnmet(a, outputs, failed) else FirstUnmet(b, outputs, failed)
  {
    if a == [] {
      assert a + b == b;
    } else {
      assert (a + b)[1..] == a[1..] + b;
      FirstUnmetConcat(a[1..], b, outputs, failed);
    }
  }

  lemma {:induction false} UnmetIff(ids: seq<string>, outputs: Outputs, failed: set<string>)
    ensures FirstUnmet(ids, outputs, failed) == None <==> forall id :: id in ids ==> Met(id, outputs, failed)
  {
    if ids != [] {
      UnmetIff(ids[1..], outputs, failed);
      assert forall id :: id in ids <==> id == ids[0] || id in ids[1..];
    }
  }

  predicate Agrees<T>(r: Result<T, DependencyError>, unmet: Option<DependencyError>) {
    match r
    case Success(_) => unmet == None
    case Failure(e) => unmet == Some(e)
  }

  /** Resolution fails with the first reference that is not met, however deeply nested, a
      failed dependency taking precedence over a missing output. */
  lemma {:induction false} ResolveErrors(value: Value, outputs: Outputs, failed: set<string>)
    ensures Agrees(ResolveValue(value, outputs, failed), FirstUnmet(References(value), outputs, failed))
    decreases value
  {
    match value
    case Atom(_) =>
    case Ref(_) =>
    case Dict(entries) => ResolveEntriesErrors(entries, outputs, failed);
    case Tup(items) => ResolveItemsErrors(items, outputs, failed);
    case Lst(items) => ResolveItemsErrors(items, outputs, failed);
  }

  lemma {:induction false} ResolveItemsErrors(items: seq<Value>, outputs: Outputs, failed: set<string>)
    ensures Agrees(ResolveItems(items, outputs, failed), FirstUnmet(ItemReferences(items), outputs, failed))
    decreases items
  {
    if items != [] {
      ResolveErrors(items[0], outputs, failed);
      ResolveItemsErrors(items[1..], outputs, failed);
      FirstUnmetConcat(References(items[0]), ItemReferences(items[1..]), outputs, failed);
    }
  }

  lemma {:induction false} ResolveEntriesErrors(entries: seq<Entry>, outputs: Outputs, failed: set<string>)
    ensures Agrees(ResolveEntries(entries, outputs, failed), FirstUnmet(EntryReferences(entries), outputs, failed))
    decreases entries
  {
    if entries != [] {
      ResolveErrors(entries[0].value, outputs, failed);
      ResolveEntriesErrors(entries[1..], outputs, failed);
      FirstUnmetConcat(References(entries[0].value), EntryReferences(entries[1..]), outputs, failed);
    }
  }

  /** The value reached by taking the given child at each level. */
  function At(value: Value, path: seq<nat>): Option<Value>
    decreases path
  {
    if path == [] then Some(value)
    else
      match value
      case Dict(entries) => if path[0] < |entries| then At(entries[path[0]].value, path[1..]) else None
      case Tup(items) => if path[0] < |items| then At(items[path[0]], path[1..]) else None
      case Lst(items) => if path[0] < |items| then At(items[path[0]], path[1..]) else None
      case _ => None
  }

  /** Same node, apart from its children. */
  predicate SameNode(a: Value, b: Value) {
    match a
    case Atom(_) => a == b
    case Ref(_) => false
    case Dict(entries) => b.Dict? && |b.entries| == |entries| && forall i :: 0 <= i < |entries| ==> b.entries[i].key == entries[i].key
    case Tup(items) => b.Tup? && |b.items| == |items|
    case Lst(items) => b.Lst? && |b.items| == |items|
  }

  lemma {:induction false} ItemsResolved(items: seq<Value>, outputs: Outputs, failed: set<string>, i: nat)
    requires ResolveItems(items, outputs, failed).Success? && i < |items|
    ensures var r := ResolveItems(items, outputs, failed).value;
      |r| == |items| && ResolveValue(items[i], outputs, failed) == Success(r[i])
  {
    ItemsLength(items, outputs, failed);
    if i > 0 { ItemsResolved(items[1..], outputs, failed, i - 1); }
  }

  lemma {:induction false} ItemsLength(items: seq<Value>, outputs: Outputs, failed: set<string>)
    ensures var r := ResolveItems(items, outputs, failed); r.Success? ==> |r.value| == |items|
  {
    if items != [] { ItemsLength(items[1..], outputs, failed); }
  }

  lemma {:induction false} EntriesResolved(entries: seq<Entry>, outputs: Outputs, failed: set<string>, i: nat)
    requires ResolveEntries(entries, outputs, failed).Success? && i < |entries|
    ensures var r := ResolveEntries(entries, outputs, failed).value;
      |r| == |entries| && r[i].key == entries[i].key && ResolveValue(entries[i].value, outputs, failed) == Success(r[i].value)
  {
    EntriesLength(entries, outputs, failed);
    if i > 0 { EntriesResolved(entries[1..], outputs, failed, i - 1); }
  }

  lemma {:induction false} EntriesLength(entries: seq<Entry>, outputs: Outputs, failed: set<string>)
    ensures var r := ResolveEntries(entries, outputs, failed); r.Success? ==> |r.value| == |entries|
  {
    if entries != [] { EntriesLength(entries[1..], outputs, failed); }
  }

  /** Resolution replaces every reference by the referenced output, wherever it stands, and
      keeps every other node: at any path of the original the result holds just that. */
  lemma {:induction false} ResolvedAt(value: Value, outputs: Outputs, failed: set<string>, path: seq<nat>)
    requires ResolveValue(value, outputs, failed).Success? && At(value, path).Some?
    ensures var original, resolved := At(value, path).value, At(ResolveValue(value, outputs, failed).value, path);
      && resolved.Some?
      && (if original.Ref? then original.callId in outputs && resolved.value == outputs[original.callId]
          else SameNode(original, resolved.value))
    decreases path
  {
    match value
    case Atom(_) =>
    case Ref(_) =>
    case Dict(entries) =>
      var r := ResolveEntries(entries, outputs, failed).value;
      forall i | 0 <= i < |entries| ensures |r| == |entries| && r[i].key == entries[i].key {
        EntriesResolved(entries, outputs, failed, i);
      }
      EntriesLength(entries, outputs, failed);
      if path != [] {
        EntriesResolved(entries, outputs, failed, path[0]);
        ResolvedAt(entries[path[0]].value, outputs, failed, path[1..]);
      }
    case Tup(items) =>
      ItemsLength(items, outputs, failed);
      if path != [] {
        ItemsResolved(items, outputs, failed, path[0]);
        ResolvedAt(items[path[0]], outputs, failed, path[1..]);
      }
    case Lst(items) =>
      ItemsLength(items, outputs, failed);
      if path != [] {
        ItemsResolved(items, outputs, failed, path[0]);
        ResolvedAt(items[path[0]], outputs, failed, path[1..]);
      }
  }

  // ----- Execution

  datatype ToolCall = ToolCall(callId: string, tool: string, arguments: seq<Entry>)

  datatype ToolResult = Output(value: Value) | Error(message: string)

  /** What the registry answers to the i-th call of the plan, given its resolved arguments. */
  type Registry = (nat, string, seq<Entry>) -> ToolResult

  /** `Blocked` is an observation whose error is the dependency error: nothing was dispatched. */
  datatype Observation =
    | Succeeded(callId: string, arguments: seq<Entry>, output: Value)
    | Failed(callId: string, arguments: seq<Entry>, message: string)
    | Blocked(callId: string, error: DependencyError)

  datatype Execution = Execution(observations: seq<Observation>, outputs: Outputs, failed: set<string>)

  function Step(e: Execution, call: ToolCall, registry: Registry): Execution {
    match ResolveEntries(call.arguments, e.outputs, e.failed)
    case Failure(error) =>
      Execution(e.observations + [Blocked(call.callId, error)], e.outputs, e.failed + {call.callId})
    case Success(arguments) =>
      match registry(|e.observations|, call.tool, arguments)
      case Output(value) =>
        Execution(e.observations + [Succeeded(call.callId, arguments, value)], e.outputs[call.callId := value], e.failed)
      case Error(message) =>
        Execution(e.observations + [Failed(call.callId, arguments, message)], e.outputs, e.failed + {call.callId})
  }

  function Execute(calls: seq<ToolCall>, registry: Registry): (e: Execution)
    ensures |e.observations| == |calls|
  {
    if calls == [] then Execution([], map[], {})
    else Step(Execute(calls[..|calls| - 1], registry), calls[|calls| - 1], registry)
  }

  method ExecuteAgentPlan(calls: seq<ToolCall>, registry: Registry) returns (observations: seq<Observation>)
    ensures observations == Execute(calls, registry).observations
  {
    observations := [];
    var outputs: Outputs := map[];
    var failed: set<string> := {};
    for i := 0 to |calls|
      invariant Execution(observations, outputs, failed) == Execute(calls[..i], registry)
    {
      var call := calls[i];
      assert calls[..i + 1][..i] == calls[..i];
      var resolved := ResolveEntries(call.arguments, outputs, failed);
      if resolved.Failure? {
        observations := observations + [Blocked(call.callId, resolved.error)];
        failed := failed + {call.callId};
      } else {
        var result := registry(|observations|, call.tool, resolved.value);
        match result {
          case Output(value) =>
            observations := observations + [Succeeded(call.callId, resolved.value, value)];
            outputs := outputs[call.callId := value];
          case Error(message) =>
            observations := observations + [Failed(call.callId, resolved.value, message)];
            failed := failed + {call.callId};
        }
      }
    }
    assert calls[..|calls|] == calls;
  }
}
