/**
 * `Processor` (processor.h, processor.cpp): the static registry of
 * processors (`processors`, `count`) and every member that looks a
 * processor up in it. A processor is addressed by id; `Processor::Get` is
 * a lookup in `processors`.
 */
module Registries {
  import opened Wrappers
  import opened Signatures
  import opened DataModel
  import opened Inputs
  import opened Propagation

  /** The processor a `Make` or `MakeSwap` of `kind` constructs: no ports yet, dirty. */
  function NewProcessor(id: ProcessorId, kind: ProcessorKind): ProcRecord {
    ProcRecord(id, kind, [], [], map[], true)
  }

  /** A group may only name registered processors as the roots of its nested graph. */
  ghost predicate NestedRootsIn(kind: ProcessorKind, ids: set<ProcessorId>) {
    kind.Group? ==> kind.nestedRoots <= ids
  }

  /**
   * The registry invariant: every record sits under its own id, no id
   * exceeds `count`, and every id a processor refers to (its clients, a
   * group's roots) is registered.
   */
  ghost predicate WellFormed(procs: Processors, count: ProcessorId) {
    (forall q :: q in procs ==> procs[q].id == q && q <= count) &&
    (forall q :: q in procs ==> Clients(procs[q]) <= procs.Keys) &&
    (forall q :: q in procs ==> NestedRootsIn(procs[q].kind, procs.Keys))
  }

  /** `b` has the ids, kinds and output links of `a`. */
  ghost predicate SameWiring(a: Processors, b: Processors) {
    a.Keys == b.Keys &&
    forall q :: q in a ==>
      b[q].id == a[q].id && b[q].kind == a[q].kind && b[q].outputLinks == a[q].outputLinks
  }

  /** `b` has the ids, kinds, inputs and links of `a`; flags and outputs may differ. */
  ghost predicate SameStructure(a: Processors, b: Processors) {
    SameWiring(a, b) && forall q :: q in a ==> b[q].inputs == a[q].inputs
  }

  lemma SameStructureWellFormed(a: Processors, b: Processors, count: ProcessorId)
    requires WellFormed(a, count) && SameWiring(a, b)
    ensures WellFormed(b, count)
  {
    forall q | q in b ensures Clients(b[q]) <= b.Keys {
      assert Clients(b[q]) == Clients(a[q]);
    }
  }

  lemma FlagsOnlyIsSameStructure(a: Processors, b: Processors)
    requires FlagsOnly(a, b)
    ensures SameStructure(a, b)
  {
  }

  /** Input `k` bound to `linkedOutput`, when there is such an input. */
  function Rebind(inputs: seq<Input>, k: nat, linkedOutput: DataAddress): (r: seq<Input>)
    ensures |r| == |inputs|
  {
    if k < |inputs| then inputs[k := inputs[k].(linkedOutput := linkedOutput)] else inputs
  }

  /** `linkedInput` appended to the client list of output slot `slot`. */
  function AppendClient(links: map<nat, seq<DataAddress>>, slot: nat, linkedInput: DataAddress): map<nat, seq<DataAddress>> {
    links[slot := (if slot in links then links[slot] else []) + [linkedInput]]
  }

  class Registry {
    /** The last id handed out by `Make`. */
    var count: ProcessorId
    var processors: Processors

    ghost predicate Valid()
      reads this
    {
      WellFormed(processors, count)
    }

    /** The program starts with an empty registry and `count == 0`. */
    constructor ()
      ensures Valid() && count == 0 && processors == map[]
    {
      count := 0;
      processors := map[];
    }

    /** `Processor::Get`: the processor under `id`, or null. */
    function Get(id: ProcessorId): (r: Option<ProcRecord>)
      reads this
      ensures r.Some? <==> id in processors
      ensures r.Some? ==> r.value == processors[id]
    {
      if id in processors then Some(processors[id]) else None
    }

    /**
     * `Processor::Make`: pre-increments `count` and registers a new dirty
     * processor under it. The source has no `return` statement, so the
     * pointer it hands back is undefined and this model returns nothing;
     * the new id is the new `count`.
     */
    method Make(kind: ProcessorKind)
      requires Valid() && NestedRootsIn(kind, processors.Keys)
      modifies this
      ensures Valid()
      ensures count == old(count) + 1 && count != UNLINKED
      ensures count !in old(processors)
      ensures forall q :: q in old(processors) ==> q < count
      ensures processors == old(processors)[count := NewProcessor(count, kind)]
      ensures processors[count].needsUpdate
    {
      count := count + 1;
      processors := processors[count := NewProcessor(count, kind)];
    }

    /**
     * `Processor::MakeSwap(id)`: refuses (null) when `id >= count`,
     * otherwise registers a new dirty processor under `id`, replacing any
     * processor there. Its other return is undefined, so only the refusal
     * is reported. `MakeSwap(count)` is refused although `count` is the
     * newest id, and `MakeSwap(UNLINKED)` registers a processor under
     * `UNLINKED` once `count > 0`.
     */
    method MakeSwap(id: ProcessorId, kind: ProcessorKind) returns (refused: bool)
      requires Valid() && NestedRootsIn(kind, processors.Keys + {id})
      modifies this
      ensures Valid() && count == old(count)
      ensures refused <==> id >= count
      ensures refused ==> processors == old(processors)
      ensures !refused ==> processors == old(processors)[id := NewProcessor(id, kind)]
    {
      if id >= count {
        return true;
      }
      processors := processors[id := NewProcessor(id, kind)];
      refused := false;
      assert forall q :: q in old(processors) ==> Clients(processors[q]) <= Clients(old(processors)[q]) + Clients(processors[id]);
    }

    /** `NeedsUpdate`: returns the flag and leaves it cleared. */
    method NeedsUpdate(id: ProcessorId) returns (r: bool)
      requires Valid() && id in processors
      modifies this
      ensures Valid() && count == old(count)
      ensures r == old(processors[id].needsUpdate)
      ensures processors == old(processors)[id := old(processors[id]).(needsUpdate := false)]
    {
      r := processors[id].needsUpdate;
      if r {
        processors := processors[id := processors[id].(needsUpdate := false)];
        assert FlagsOnly(old(processors), processors);
        FlagsOnlyIsSameStructure(old(processors), processors);
        SameStructureWellFormed(old(processors), processors, count);
      }
    }

    ghost function CleanSet(): set<ProcessorId>
      reads this
    {
      Clean(processors)
    }

    /**
     * `SetNeedsUpdate`: nothing happens to a dirty processor; a clean one
     * becomes dirty and passes the call on, depth first, to every client of
     * every output slot.
     */
    method SetNeedsUpdate(id: ProcessorId)
      requires Valid() && id in processors
      modifies this
      decreases CleanSet(), 2
      ensures Valid() && count == old(count)
      ensures FlagsOnly(old(processors), processors)
      ensures old(processors[id].needsUpdate) ==> processors == old(processors)
      ensures FlagsPropagated(old(processors), processors, id)
    {
      if processors[id].needsUpdate {
        return;
      }
      ghost var before := processors;
      processors := processors[id := processors[id].(needsUpdate := true)];
      PropagationStart(before, id);
      var links := processors[id].outputLinks;
      var slots := links.Keys;
      ghost var visited: set<ProcessorId> := {};
      // std::map visits the slots in ascending order; any order ends in the same state
      while slots != {}
        invariant count == old(count)
        invariant PartlyPropagated(before, processors, id)
        invariant links == before[id].outputLinks && slots <= links.Keys
        invariant visited <= processors.Keys && visited !! CleanSet()
        invariant forall k, j :: k in links && k !in slots && 0 <= j < |links[k]| ==>
          links[k][j].processor in visited
        decreases slots
      {
        var k :| k in slots;
        visited := NotifyClients(id, links[k], before, visited);
        slots := slots - {k};
      }
      FlagsOnlyIsSameStructure(before, processors);
      SameStructureWellFormed(before, processors, count);
      assert ClientsDirty(before, processors, id) by {
        forall c | c in Clients(before[id]) && c in processors ensures processors[c].needsUpdate {
          var k, j :| k in links && 0 <= j < |links[k]| && links[k][j].processor == c;
          assert c in visited;
        }
      }
      PropagationDone(before, processors, id);
    }

    /**
     * The inner loop of `SetNeedsUpdate(id)`: `SetNeedsUpdate` on each
     * client of one output slot of `id`, in order.
     */
    method NotifyClients(id: ProcessorId, clients: seq<DataAddress>, ghost before: Processors,
                         ghost visited: set<ProcessorId>)
      returns (ghost visitedOut: set<ProcessorId>)
      requires WellFormed(before, count) && PartlyPropagated(before, processors, id)
      requires forall m :: 0 <= m < |clients| ==> clients[m].processor in Clients(before[id])
      requires visited <= processors.Keys && visited !! CleanSet()
      modifies this
      decreases Clean(before), 1
      ensures count == old(count)
      ensures PartlyPropagated(before, processors, id)
      ensures visitedOut <= processors.Keys && visitedOut !! CleanSet()
      ensures visited <= visitedOut
      ensures forall m :: 0 <= m < |clients| ==> clients[m].processor in visitedOut
    {
      visitedOut := visited;
      var j := 0;
      while j < |clients|
        invariant 0 <= j <= |clients|
        invariant count == old(count)
        invariant PartlyPropagated(before, processors, id)
        invariant visitedOut <= processors.Keys && visitedOut !! CleanSet()
        invariant visited <= visitedOut
        invariant forall m :: 0 <= m < j ==> clients[m].processor in visitedOut
      {
        visitedOut := NotifyClient(id, clients[j].processor, before, visitedOut);
        j := j + 1;
      }
    }

    /** `SetNeedsUpdate` on one client `c` of `id`, inside `SetNeedsUpdate(id)`. */
    method NotifyClient(id: ProcessorId, c: ProcessorId, ghost before: Processors,
                        ghost visited: set<ProcessorId>)
      returns (ghost visitedOut: set<ProcessorId>)
      requires WellFormed(before, count) && PartlyPropagated(before, processors, id)
      requires c in Clients(before[id])
      requires visited <= processors.Keys && visited !! CleanSet()
      modifies this
      decreases Clean(before), 0
      ensures count == old(count)
      ensures PartlyPropagated(before, processors, id)
      ensures visitedOut == visited + {c}
      ensures visitedOut <= processors.Keys && visitedOut !! CleanSet()
    {
      ghost var mid := processors;
      FlagsOnlyIsSameStructure(before, processors);
      SameStructureWellFormed(before, processors, count);
      MonotoneShrinksClean(before, processors);
      assert id in Clean(before) && id !in CleanSet();
      SetNeedsUpdate(c);
      PropagationStep(before, mid, processors, id, c);
      MonotoneShrinksClean(mid, processors);
      visitedOut := visited + {c};
    }

    /**
     * `AddInputLink`: rebinds input `k` when it exists, then marks the
     * processor dirty (`SetNeedsUpdate`) either way.
     */
    method AddInputLink(id: ProcessorId, k: nat, linkedOutput: DataAddress)
      requires Valid() && id in processors
      modifies this
      ensures Valid() && count == old(count)
      ensures processors.Keys == old(processors).Keys
      ensures FlagsOnly(old(processors)[id := old(processors[id]).(inputs := Rebind(old(processors[id]).inputs, k, linkedOutput))],
                        processors)
      ensures FlagsPropagated(old(processors), processors, id)
    {
      var rec := processors[id];
      if k < |rec.inputs| {
        processors := processors[id := rec.(inputs := rec.inputs[k := rec.inputs[k].(linkedOutput := linkedOutput)])];
        assert SameWiring(old(processors), processors) by {
          assert forall q :: q in processors ==> Clients(processors[q]) == Clients(old(processors)[q]);
        }
        SameStructureWellFormed(old(processors), processors, count);
      }
      ghost var relinked := processors;
      SetNeedsUpdate(id);
      assert SameFlagsAndLinks(old(processors), relinked);
      PropagationIgnoresInputs(old(processors), relinked, processors, id);
    }

    /**
     * `AddOutputLink`: appends `linkedInput` to the client list of output
     * slot `slot`, creating the list when the slot has none.
     */
    method AddOutputLink(id: ProcessorId, slot: nat, linkedInput: DataAddress)
      requires Valid() && id in processors && linkedInput.processor in processors
      modifies this
      ensures Valid() && count == old(count)
      ensures processors ==
        old(processors)[id := old(processors[id]).(outputLinks := AppendClient(old(processors[id]).outputLinks, slot, linkedInput))]
    {
      var rec := processors[id];
      var list := if slot in rec.outputLinks then rec.outputLinks[slot] else [];
      processors := processors[id := rec.(outputLinks := rec.outputLinks[slot := list + [linkedInput]])];
      assert Clients(processors[id]) <= Clients(rec) + {linkedInput.processor} by {
        forall c | c in Clients(processors[id]) ensures c in Clients(rec) + {linkedInput.processor} {
          var s, j :| s in processors[id].outputLinks && 0 <= j < |processors[id].outputLinks[s]| &&
            processors[id].outputLinks[s][j].processor == c;
          if s != slot || j < |list| {
            assert c in Clients(rec);
          }
        }
      }
    }

    /** `HasLinkedInputs`: whether some input is bound to a producer. */
    method HasLinkedInputs(id: ProcessorId) returns (r: bool)
      requires id in processors
      ensures r <==> AnyLinked(processors[id].inputs)
    {
      var inputs := processors[id].inputs;
      r := false;
      var k := 0;
      while k < |inputs|
        invariant 0 <= k <= |inputs|
        invariant forall m :: 0 <= m < k ==> !IsLinked(inputs[m])
      {
        if IsLinked(inputs[k]) {
          return true;
        }
        k := k + 1;
      }
    }

    /**
     * `CanProcess`: false as soon as an input is unlinked without a default
     * or yields no data; true when every input passes.
     */
    method CanProcess(id: ProcessorId) returns (r: bool)
      requires id in processors
      requires forall k :: 0 <= k < |processors[id].inputs| ==> Resolvable(processors[id].inputs[k], processors)
      ensures r <==> forall k :: 0 <= k < |processors[id].inputs| ==> Usable(processors[id].inputs[k], processors)
    {
      var inputs := processors[id].inputs;
      var k := 0;
      while k < |inputs|
        invariant 0 <= k <= |inputs|
        invariant forall m :: 0 <= m < k ==> Usable(inputs[m], processors)
      {
        var input := inputs[k];
        if input.linkedOutput.processor == UNLINKED && input.defaultValue.None? {
          return false;
        }
        if GetInputData(input, processors).None? {
          return false;
        }
        k := k + 1;
      }
      return true;
    }

    /** What a processor's `Process` does to the registry: it writes its own outputs. */
    method SetOutputs(id: ProcessorId, outputs: seq<Data>)
      requires Valid() && id in processors
      modifies this
      ensures Valid() && count == old(count)
      ensures processors == old(processors)[id := old(processors[id]).(outputs := outputs)]
    {
      processors := processors[id := processors[id].(outputs := outputs)];
      assert SameStructure(old(processors), processors);
      SameStructureWellFormed(old(processors), processors, count);
    }
  }
}
