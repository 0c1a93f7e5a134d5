/**
 * The graph (processor.h `Graph`, processor.cpp `Graph::Execute`,
 * `CreateLink`, `RemoveLink`) and the processing of a single processor,
 * including `GroupProcessor::Process`.
 */
module Scheduler {
  import opened Signatures
  import opened DataModel
  import opened Inputs
  import opened Propagation
  import opened Registries

  /**
   * What the `Process` of a processor computes for its own outputs, from
   * its kind, inputs and current outputs: the GPU, script and builtin work
   * is not modelled.
   */
  type Effect = (ProcessorKind, seq<Input>, seq<Data>) -> seq<Data>

  /**
   * The outputs after one `Process()`: a group runs its nested graph and
   * keeps its outputs, a builtin without a call does nothing, every other
   * kind applies the effect.
   */
  function Processed(rec: ProcRecord, effect: Effect): seq<Data> {
    match rec.kind
    case Group(_) => rec.outputs
    case Builtin(hasCall) => if hasCall then effect(rec.kind, rec.inputs, rec.outputs) else rec.outputs
    case _ => effect(rec.kind, rec.inputs, rec.outputs)
  }

  ghost predicate NoDup(s: seq<ProcessorId>) {
    forall i, j :: 0 <= i < j < |s| ==> s[i] != s[j]
  }

  ghost function Elems(s: seq<ProcessorId>): set<ProcessorId> {
    set x | x in s
  }

  /**
   * `ran` lists, once each, the processors whose `Process` was called
   * between `before` and `after`: exactly those whose dirty flag was
   * consumed. No flag was raised, and only those processors have new
   * outputs, each the result of one `Process`.
   */
  ghost predicate Ran(before: Processors, after: Processors, ran: seq<ProcessorId>, effect: Effect) {
    before.Keys == after.Keys && NoDup(ran) &&
    (forall q :: q in ran ==> q in before) &&
    (forall q :: q in before ==> (q in ran <==> before[q].needsUpdate && !after[q].needsUpdate)) &&
    (forall q :: q in before && after[q].needsUpdate ==> before[q].needsUpdate) &&
    (forall q :: q in before && q !in ran ==> after[q].outputs == before[q].outputs) &&
    (forall q :: q in ran ==> after[q].outputs == Processed(before[q], effect))
  }

  lemma RanNothing(a: Processors, effect: Effect)
    ensures Ran(a, a, [], effect)
  {
  }

  /** Consuming the flag of a dirty `p` and running it once. */
  lemma RanOne(a: Processors, p: ProcessorId, effect: Effect)
    requires p in a && a[p].needsUpdate
    ensures Ran(a, a[p := a[p].(needsUpdate := false, outputs := Processed(a[p], effect))], [p], effect)
  {
  }

  /** Two stretches of processing make one; no processor runs in both. */
  lemma {:induction false} RanTrans(a: Processors, b: Processors, c: Processors,
                                    r1: seq<ProcessorId>, r2: seq<ProcessorId>, effect: Effect)
    requires SameStructure(a, b) && Ran(a, b, r1, effect) && Ran(b, c, r2, effect)
    ensures Ran(a, c, r1 + r2, effect)
  {
    var r := r1 + r2;
    forall i, j | 0 <= i < j < |r| ensures r[i] != r[j] {
      if j < |r1| {
      } else if i >= |r1| {
        assert r[i] == r2[i - |r1|] && r[j] == r2[j - |r1|];
      } else {
        assert r[i] in r1 && r[j] in r2;
      }
    }
    forall q | q in r ensures q in a && c[q].outputs == Processed(a[q], effect) {
      if q in r1 {
        assert !b[q].needsUpdate;
        assert q !in r2;
      } else {
        assert q in r2;
        assert a[q].needsUpdate && b[q].needsUpdate;
        assert q !in r1;
        assert b[q].kind == a[q].kind && b[q].inputs == a[q].inputs;
      }
    }
    forall q | q in a ensures (q in r <==> a[q].needsUpdate && !c[q].needsUpdate) {
      if q in r1 {
        assert !b[q].needsUpdate;
      }
    }
  }

  /** Cleaning `p` and replacing its outputs leaves the structure alone. */
  lemma ProcessedSameStructure(a: Processors, p: ProcessorId, outputs: seq<Data>)
    requires p in a
    ensures SameStructure(a, a[p := a[p].(needsUpdate := false, outputs := outputs)])
  {
  }

  lemma SameStructureTrans(a: Processors, b: Processors, c: Processors)
    requires SameStructure(a, b) && SameStructure(b, c)
    ensures SameStructure(a, c)
  {
  }

  /** Equal structure means equal inputs and equal clients. */
  lemma SameStructureClients(a: Processors, b: Processors, q: ProcessorId)
    requires SameStructure(a, b) && q in a
    ensures q in b && b[q].inputs == a[q].inputs && Clients(b[q]) == Clients(a[q])
  {
    assert b[q].outputLinks == a[q].outputLinks;
  }

  /** The readiness test of `CheckReady`: every linked input's producer is done. */
  method IsReady(reg: Registry, p: ProcessorId, done: set<ProcessorId>) returns (r: bool)
    requires p in reg.processors
    ensures r == ReadyIn(reg.processors[p].inputs, done)
  {
    var inputs := reg.processors[p].inputs;
    var k := 0;
    while k < |inputs|
      invariant 0 <= k <= |inputs|
      invariant forall m :: 0 <= m < k ==> !IsLinked(inputs[m]) || inputs[m].linkedOutput.processor in done
    {
      var producer := inputs[k].linkedOutput.processor;
      if !(producer == UNLINKED || producer in done) {
        return false;
      }
      k := k + 1;
    }
    return true;
  }

  /** `CheckReady`: `p` goes to `ready` when it is ready, to `backlog` otherwise. */
  method CheckReady(reg: Registry, p: ProcessorId, done: set<ProcessorId>,
                    ready: set<ProcessorId>, backlog: set<ProcessorId>)
    returns (ready': set<ProcessorId>, backlog': set<ProcessorId>)
    requires p in reg.processors
    ensures ReadyIn(reg.processors[p].inputs, done) ==> ready' == ready + {p} && backlog' == backlog
    ensures !ReadyIn(reg.processors[p].inputs, done) ==> ready' == ready && backlog' == backlog + {p}
  {
    var isReady := IsReady(reg, p, done);
    if isReady {
      ready', backlog' := ready + {p}, backlog;
    } else {
      ready', backlog' := ready, backlog + {p};
    }
  }

  /**
   * The client loop of the `Process` lambda: `CheckReady` on every client
   * of every output slot of `p`. Each client lands in `ready` exactly when
   * it is ready; nothing already pending is dropped.
   */
  method CheckClients(reg: Registry, p: ProcessorId, done: set<ProcessorId>,
                      ready: set<ProcessorId>, backlog: set<ProcessorId>)
    returns (ready': set<ProcessorId>, backlog': set<ProcessorId>)
    requires reg.Valid() && p in reg.processors
    ensures ready <= ready' && backlog <= backlog'
    ensures ready' + backlog' == ready + backlog + Clients(reg.processors[p])
    ensures forall q :: q in ready' && q !in ready ==>
      q in reg.processors && ReadyIn(reg.processors[q].inputs, done)
    ensures forall q :: q in backlog' && q !in backlog ==> q in reg.processors
    ensures forall q :: q in Clients(reg.processors[p]) ==>
      (ReadyIn(reg.processors[q].inputs, done) ==> q in ready') &&
      (!ReadyIn(reg.processors[q].inputs, done) ==> q in backlog')
  {
    var links := reg.processors[p].outputLinks;
    assert Clients(reg.processors[p]) <= reg.processors.Keys;
    ready', backlog' := ready, backlog;
    var slots := links.Keys;
    ghost var seen: set<ProcessorId> := {};
    while slots != {}
      invariant slots <= links.Keys
      invariant seen <= Clients(reg.processors[p])
      invariant forall k, j :: k in links && k !in slots && 0 <= j < |links[k]| ==> links[k][j].processor in seen
      invariant ready <= ready' && backlog <= backlog'
      invariant ready' + backlog' == ready + backlog + seen
      invariant forall q :: q in ready' && q !in ready ==> q in reg.processors && ReadyIn(reg.processors[q].inputs, done)
      invariant forall q :: q in backlog' && q !in backlog ==> q in reg.processors
      invariant forall q :: q in seen ==>
        q in reg.processors &&
        (ReadyIn(reg.processors[q].inputs, done) ==> q in ready') &&
        (!ReadyIn(reg.processors[q].inputs, done) ==> q in backlog')
      decreases slots
    {
      var k :| k in slots;
      var clients := links[k];
      var j := 0;
      while j < |clients|
        invariant 0 <= j <= |clients|
        invariant seen <= Clients(reg.processors[p])
        invariant forall k, j :: k in links && k !in slots && 0 <= j < |links[k]| ==> links[k][j].processor in seen
        invariant forall m :: 0 <= m < j ==> clients[m].processor in seen
        invariant ready <= ready' && backlog <= backlog'
        invariant ready' + backlog' == ready + backlog + seen
        invariant forall q :: q in ready' && q !in ready ==> q in reg.processors && ReadyIn(reg.processors[q].inputs, done)
        invariant forall q :: q in backlog' && q !in backlog ==> q in reg.processors
        invariant forall q :: q in seen ==>
          q in reg.processors &&
          (ReadyIn(reg.processors[q].inputs, done) ==> q in ready') &&
          (!ReadyIn(reg.processors[q].inputs, done) ==> q in backlog')
      {
        var c := clients[j].processor;
        assert c in Clients(reg.processors[p]);
        ready', backlog' := CheckReady(reg, c, done, ready', backlog');
        seen := seen + {c};
        j := j + 1;
      }
      slots := slots - {k};
    }
    assert Clients(reg.processors[p]) <= seen by {
      forall c | c in Clients(reg.processors[p]) ensures c in seen {
        var k, j :| k in links && 0 <= j < |links[k]| && links[k][j].processor == c;
      }
    }
  }

  /** Some processor of `order` lists `q` among its clients. */
  ghost predicate Reached(procs: Processors, order: seq<ProcessorId>, q: ProcessorId) {
    exists i :: 0 <= i < |order| && order[i] in procs && q in Clients(procs[order[i]])
  }

  /** What is reached from a prefix of the order is reached from the whole order. */
  lemma ReachedPrefix(procs: Processors, order: seq<ProcessorId>, order': seq<ProcessorId>, q: ProcessorId)
    requires order <= order' && Reached(procs, order, q)
    ensures Reached(procs, order', q)
  {
    var i :| 0 <= i < |order| && order[i] in procs && q in Clients(procs[order[i]]);
    assert order'[i] == order[i];
  }

  /**
   * The order in which `Execute` visits processors: each one was a root,
   * or, when its turn came, it was a client of a processor visited before
   * it and every producer linked to it had already been visited.
   */
  ghost predicate VisitOrder(procs: Processors, roots: set<ProcessorId>, order: seq<ProcessorId>) {
    forall j :: 0 <= j < |order| ==>
      order[j] in procs &&
      (order[j] in roots ||
       (ReadyIn(procs[order[j]].inputs, Elems(order[..j])) && Reached(procs, order[..j], order[j])))
  }

  /** Visiting a root, or a reached and ready processor, next keeps the visit order. */
  lemma OrderExtends(P0: Processors, roots: set<ProcessorId>, order: seq<ProcessorId>, p: ProcessorId)
    requires VisitOrder(P0, roots, order)
    requires p in P0 && (p in roots || (ReadyIn(P0[p].inputs, Elems(order)) && Reached(P0, order, p)))
    ensures VisitOrder(P0, roots, order + [p])
  {
    var order' := order + [p];
    forall j | 0 <= j < |order'|
      ensures order'[j] in P0 &&
        (order'[j] in roots ||
         (ReadyIn(P0[order'[j]].inputs, Elems(order'[..j])) && Reached(P0, order'[..j], order'[j])))
    {
      if j < |order| {
        assert order'[..j] == order[..j];
      } else {
        assert order'[..j] == order;
      }
    }
  }

  /** The visit order depends only on inputs and links. */
  lemma {:induction false} VisitOrderTransfer(a: Processors, b: Processors, roots: set<ProcessorId>, order: seq<ProcessorId>)
    requires SameStructure(a, b) && VisitOrder(a, roots, order)
    ensures VisitOrder(b, roots, order)
  {
    forall j | 0 <= j < |order| && order[j] !in roots
      ensures ReadyIn(b[order[j]].inputs, Elems(order[..j])) && Reached(b, order[..j], order[j])
    {
      var i :| 0 <= i < j && order[..j][i] in a && order[j] in Clients(a[order[..j][i]]);
      SameStructureClients(a, b, order[i]);
      assert order[..j][i] in b && order[j] in Clients(b[order[..j][i]]);
    }
  }

  /** The dirty processors of a registry. */
  ghost function Dirty(procs: Processors): set<ProcessorId> {
    set q | q in procs && procs[q].needsUpdate
  }

  /** What `Execute` reads of a registry: ids, kinds, inputs and links, without flags and outputs. */
  ghost function Wiring(procs: Processors): Processors {
    map q | q in procs :: procs[q].(outputs := [], needsUpdate := false)
  }

  lemma WiringSame(a: Processors, b: Processors)
    requires SameStructure(a, b)
    ensures Wiring(a) == Wiring(b)
  {
    forall q | q in a ensures Wiring(a)[q] == Wiring(b)[q] {
      assert a[q].id == b[q].id && a[q].kind == b[q].kind;
    }
  }

  /** Processing moves exactly the processors that ran out of the dirty set. */
  lemma DirtyAfterRan(a: Processors, b: Processors, ran: seq<ProcessorId>, effect: Effect)
    requires Ran(a, b, ran, effect)
    ensures Dirty(b) == Dirty(a) - Elems(ran)
  {
  }

  /**
   * What one visit of a processor did: nothing (it was clean), one
   * `Process` of a processor that is not a group, or one `Process` of a
   * group, whose nested `Execute` visited `order` with these steps.
   */
  datatype Step =
    | Skipped
    | ProcessedOne(p: ProcessorId)
    | ProcessedGroup(p: ProcessorId, order: seq<ProcessorId>, steps: seq<Step>)

  /** The processors a run of steps processed, in the order their `Process` began. */
  ghost function Flat(steps: seq<Step>): seq<ProcessorId>
    decreases steps
  {
    if steps == [] then [] else Flat(steps[..|steps| - 1]) + StepRan(steps[|steps| - 1])
  }

  ghost function StepRan(s: Step): seq<ProcessorId>
    decreases s
  {
    match s
    case Skipped => []
    case ProcessedOne(p) => [p]
    case ProcessedGroup(p, _, inner) => [p] + Flat(inner)
  }

  /**
   * Step `s` is what visiting `p` does when `dirty` are the processors
   * still dirty: a clean processor is skipped, a dirty one is processed,
   * and a dirty group's nested run visits in a visit order from the
   * group's roots, each of its own steps traced in turn.
   */
  ghost predicate StepTraced(wiring: Processors, dirty: set<ProcessorId>, p: ProcessorId, s: Step)
    decreases s
  {
    p in wiring &&
    (s.Skipped? <==> p !in dirty) &&
    (s.ProcessedOne? ==> s.p == p && !wiring[p].kind.Group?) &&
    (s.ProcessedGroup? ==>
      s.p == p && wiring[p].kind.Group? &&
      VisitOrder(wiring, wiring[p].kind.nestedRoots, s.order) &&
      Traced(wiring, dirty - {p}, s.order, s.steps))
  }

  /**
   * One step per visit of `order`, each traced against the processors
   * that were dirty at the start and had not been processed before it.
   */
  ghost predicate Traced(wiring: Processors, dirty: set<ProcessorId>, order: seq<ProcessorId>, steps: seq<Step>)
    decreases steps
  {
    |steps| == |order| &&
    forall j :: 0 <= j < |steps| ==> StepTraced(wiring, dirty - Elems(Flat(steps[..j])), order[j], steps[j])
  }

  /** One more visit extends the trace and appends its processing. */
  lemma TracedExtend(wiring: Processors, dirty: set<ProcessorId>, order: seq<ProcessorId>, steps: seq<Step>,
                     p: ProcessorId, s: Step)
    requires Traced(wiring, dirty, order, steps)
    requires StepTraced(wiring, dirty - Elems(Flat(steps)), p, s)
    ensures Traced(wiring, dirty, order + [p], steps + [s])
    ensures Flat(steps + [s]) == Flat(steps) + StepRan(s)
  {
    var steps' := steps + [s];
    assert steps'[..|steps|] == steps;
    forall j | 0 <= j < |steps'|
      ensures StepTraced(wiring, dirty - Elems(Flat(steps'[..j])), (order + [p])[j], steps'[j])
    {
      if j < |steps| {
        assert steps'[..j] == steps[..j];
      }
    }
  }

  /** Every client of a processor of `order` is in `order` too. */
  ghost predicate Closed(wiring: Processors, order: seq<ProcessorId>) {
    forall q :: q in order ==> q in wiring && Clients(wiring[q]) <= Elems(order)
  }

  /**
   * A group's step holds a complete nested `Execute`: the nested roots are
   * visited first, once each, every client of a nested visit is visited,
   * and the groups processed inside ran completely in turn.
   */
  ghost predicate StepComplete(wiring: Processors, s: Step)
    decreases s
  {
    s.ProcessedGroup? ==>
      s.p in wiring && wiring[s.p].kind.Group? &&
      |wiring[s.p].kind.nestedRoots| <= |s.order| &&
      Elems(s.order[..|wiring[s.p].kind.nestedRoots|]) == wiring[s.p].kind.nestedRoots &&
      Closed(wiring, s.order) && GroupsRan(wiring, s.steps)
  }

  /** Every group processed along `steps`, at any depth, ran its nested graph completely. */
  ghost predicate GroupsRan(wiring: Processors, steps: seq<Step>)
    decreases steps
  {
    forall j :: 0 <= j < |steps| ==> StepComplete(wiring, steps[j])
  }

  /** One more complete step keeps the steps after `steps0` complete. */
  lemma GroupsRanAppend(wiring: Processors, steps0: seq<Step>, steps: seq<Step>, s: Step)
    requires steps0 <= steps && GroupsRan(wiring, steps[|steps0|..]) && StepComplete(wiring, s)
    ensures GroupsRan(wiring, (steps + [s])[|steps0|..])
  {
    assert (steps + [s])[|steps0|..] == steps[|steps0|..] + [s];
  }

  /** Complete steps followed by complete steps are complete. */
  lemma GroupsRanConcat(wiring: Processors, steps0: seq<Step>, steps: seq<Step>)
    requires steps0 <= steps && GroupsRan(wiring, steps0) && GroupsRan(wiring, steps[|steps0|..])
    ensures GroupsRan(wiring, steps)
  {
    forall j | 0 <= j < |steps| ensures StepComplete(wiring, steps[j]) {
      if j >= |steps0| {
        assert steps[j] == steps[|steps0|..][j - |steps0|];
      } else {
        assert steps[j] == steps0[j];
      }
    }
  }

  /** Closure under clients is about links only, which every registry of the same structure shares. */
  lemma ClosedTransfer(a: Processors, b: Processors, order: seq<ProcessorId>)
    requires SameStructure(a, b)
    requires forall q :: q in order ==> q in b && Clients(b[q]) <= Elems(order)
    ensures Closed(Wiring(a), order)
  {
    forall q | q in order ensures q in Wiring(a) && Clients(Wiring(a)[q]) <= Elems(order) {
      SameStructureClients(b, a, q);
      assert Wiring(a)[q].outputLinks == a[q].outputLinks;
    }
  }

  /** What a prefix of the steps processed is a prefix of what all of them processed. */
  lemma {:induction false} FlatPrefix(steps: seq<Step>, i: nat, j: nat)
    requires i <= j <= |steps|
    ensures Flat(steps[..i]) <= Flat(steps[..j])
    decreases j
  {
    if i < j {
      assert steps[..j][..j - 1] == steps[..j - 1];
      FlatPrefix(steps, i, j - 1);
      PrefixTrans(Flat(steps[..i]), Flat(steps[..j - 1]), Flat(steps[..j]));
    }
  }

  lemma PrefixIn(a: seq<ProcessorId>, b: seq<ProcessorId>, x: ProcessorId)
    requires a <= b && x in a
    ensures x in b
  {
    var k :| 0 <= k < |a| && a[k] == x;
    assert b[k] == x;
  }

  /** A visit that processed something processed the visited processor itself. */
  lemma StepRanHead(p: ProcessorId, s: Step)
    requires !s.Skipped? && s.p == p
    ensures p in StepRan(s)
  {
    assert StepRan(s)[0] == p;
  }

  /** Every processor a prefix of a sequence holds, the sequence holds. */
  lemma PrefixElems(a: seq<ProcessorId>, b: seq<ProcessorId>)
    requires a <= b
    ensures Elems(a) <= Elems(b)
  {
    forall x | x in a ensures x in b {
      PrefixIn(a, b, x);
    }
  }

  /** A visit finds a processor visited before clean: processed then, or clean from the start. */
  lemma {:induction false} LaterVisitSkipped(wiring: Processors, dirty: set<ProcessorId>,
                                             order: seq<ProcessorId>, steps: seq<Step>, i: nat, j: nat)
    requires Traced(wiring, dirty, order, steps)
    requires i < j < |steps| && order[i] == order[j]
    ensures steps[j].Skipped?
  {
    var p := order[i];
    assert StepTraced(wiring, dirty - Elems(Flat(steps[..i])), p, steps[i]);
    assert steps[..i + 1][..i] == steps[..i];
    var upto := Flat(steps[..i + 1]);
    assert upto == Flat(steps[..i]) + StepRan(steps[i]);
    if !steps[i].Skipped? {
      StepRanHead(p, steps[i]);
    }
    assert p !in dirty - Elems(upto);
    FlatPrefix(steps, i + 1, j);
    PrefixElems(upto, Flat(steps[..j]));
    assert StepTraced(wiring, dirty - Elems(Flat(steps[..j])), p, steps[j]);
  }

  /**
   * `Execute` processes a processor at its first visit only: a later
   * visit of the same processor finds it clean and skips it.
   */
  lemma FirstVisitRuns(wiring: Processors, dirty: set<ProcessorId>, order: seq<ProcessorId>, steps: seq<Step>)
    requires Traced(wiring, dirty, order, steps)
    ensures forall j :: 0 <= j < |steps| && !steps[j].Skipped? ==> order[j] !in order[..j]
  {
    forall j | 0 <= j < |steps| && !steps[j].Skipped? ensures order[j] !in order[..j] {
      if i :| 0 <= i < j && order[i] == order[j] {
        LaterVisitSkipped(wiring, dirty, order, steps, i, j);
      }
    }
  }

  /**
   * The processors a run that meets no group processes: each dirty one at
   * its first visit, in the order of those visits.
   */
  ghost function FirstDirty(dirty: set<ProcessorId>, order: seq<ProcessorId>): seq<ProcessorId>
    decreases |order|
  {
    if order == [] then []
    else
      var pre := order[..|order| - 1];
      var p := order[|order| - 1];
      FirstDirty(dirty, pre) + (if p in dirty && p !in pre then [p] else [])
  }

  /** Each dirty processor that was visited appears in `FirstDirty`, and nothing else. */
  lemma {:induction false} FirstDirtyElems(dirty: set<ProcessorId>, order: seq<ProcessorId>)
    ensures Elems(FirstDirty(dirty, order)) == Elems(order) * dirty
    decreases |order|
  {
    if order != [] {
      var pre, p := order[..|order| - 1], order[|order| - 1];
      FirstDirtyElems(dirty, pre);
      assert order == pre + [p];
      assert Elems(order) == Elems(pre) + {p};
      var tail := if p in dirty && p !in pre then [p] else [];
      assert Elems(FirstDirty(dirty, pre) + tail) == Elems(FirstDirty(dirty, pre)) + Elems(tail);
    }
  }

  /** The steps of a prefix of the visits trace that prefix. */
  lemma TracedPrefix(wiring: Processors, dirty: set<ProcessorId>, order: seq<ProcessorId>, steps: seq<Step>, n: nat)
    requires Traced(wiring, dirty, order, steps) && n <= |steps|
    ensures Traced(wiring, dirty, order[..n], steps[..n])
  {
    forall j | 0 <= j < n
      ensures StepTraced(wiring, dirty - Elems(Flat(steps[..n][..j])), order[..n][j], steps[..n][j])
    {
      assert steps[..n][..j] == steps[..j];
    }
  }

  /**
   * When no visit is of a group, `Execute` processes exactly the
   * processors dirty at its start, each at its first visit, in visit
   * order.
   */
  lemma {:induction false} TracedWithoutGroups(wiring: Processors, dirty: set<ProcessorId>,
                                               order: seq<ProcessorId>, steps: seq<Step>)
    requires Traced(wiring, dirty, order, steps)
    requires forall j :: 0 <= j < |order| ==> order[j] in wiring && !wiring[order[j]].kind.Group?
    ensures Flat(steps) == FirstDirty(dirty, order)
    decreases |order|
  {
    if order != [] {
      var n := |order| - 1;
      var pre, p := order[..n], order[n];
      TracedPrefix(wiring, dirty, order, steps, n);
      TracedWithoutGroups(wiring, dirty, pre, steps[..n]);
      FirstDirtyElems(dirty, pre);
      assert StepTraced(wiring, dirty - Elems(Flat(steps[..n])), p, steps[n]);
      assert steps == steps[..n] + [steps[n]];
      assert Flat(steps) == Flat(steps[..n]) + StepRan(steps[n]);
      assert p in Elems(pre) <==> p in pre;
    }
  }

  /** Steps that all skipped processed nothing. */
  lemma {:induction false} FlatSkipped(steps: seq<Step>)
    requires forall j :: 0 <= j < |steps| ==> steps[j].Skipped?
    ensures Flat(steps) == []
    decreases |steps|
  {
    if steps != [] {
      FlatSkipped(steps[..|steps| - 1]);
    }
  }

  /**
   * Running `Execute` again with nothing dirtied in between processes
   * nothing: after a complete run every visited processor is clean and
   * its clients were visited, so a second run from the same roots only
   * meets clean processors.
   */
  lemma {:induction false} RerunProcessesNothing(P1: Processors, roots: set<ProcessorId>, order1: seq<ProcessorId>,
                                                 order2: seq<ProcessorId>, steps2: seq<Step>)
    requires roots <= Elems(order1)
    requires forall q :: q in order1 ==> q in P1 && !P1[q].needsUpdate && Clients(P1[q]) <= Elems(order1)
    requires VisitOrder(P1, roots, order2)
    requires Traced(Wiring(P1), Dirty(P1), order2, steps2)
    ensures Elems(order2) <= Elems(order1)
    ensures Flat(steps2) == []
  {
    RevisitsOnly(P1, roots, order1, order2, |order2|);
    forall j | 0 <= j < |steps2| ensures steps2[j].Skipped? {
      assert order2[j] in order2[..|order2|];
      assert StepTraced(Wiring(P1), Dirty(P1) - Elems(Flat(steps2[..j])), order2[j], steps2[j]);
    }
    FlatSkipped(steps2);
    assert order2[..|order2|] == order2;
  }

  /** A visit order from `roots` stays inside a set of processors closed under clients. */
  lemma {:induction false} RevisitsOnly(P1: Processors, roots: set<ProcessorId>, order1: seq<ProcessorId>,
                                        order2: seq<ProcessorId>, n: nat)
    requires roots <= Elems(order1)
    requires forall q :: q in order1 ==> q in P1 && Clients(P1[q]) <= Elems(order1)
    requires VisitOrder(P1, roots, order2) && n <= |order2|
    ensures Elems(order2[..n]) <= Elems(order1)
    decreases n
  {
    if n > 0 {
      RevisitsOnly(P1, roots, order1, order2, n - 1);
      var q := order2[n - 1];
      if q !in roots {
        assert Reached(P1, order2[..n - 1], q);
        var i :| 0 <= i < n - 1 && order2[..n - 1][i] in P1 && q in Clients(P1[order2[..n - 1][i]]);
        assert order2[..n - 1][i] in Elems(order1);
      }
      assert order2[..n] == order2[..n - 1] + [q];
    }
  }

  /** `done` is what `order` has visited, in a visit order, and all of it is clean in `now`. */
  ghost predicate Visited(P0: Processors, now: Processors, roots: set<ProcessorId>,
                          done: set<ProcessorId>, order: seq<ProcessorId>)
  {
    done == Elems(order) && done <= P0.Keys &&
    (forall q :: q in done ==> q in now && !now[q].needsUpdate) &&
    VisitOrder(P0, roots, order)
  }

  /** Every ready processor is ready, and everything pending was reached from `order`. */
  ghost predicate Pending(P0: Processors, done: set<ProcessorId>, order: seq<ProcessorId>,
                          ready: set<ProcessorId>, backlog: set<ProcessorId>)
  {
    ready <= P0.Keys && (forall q :: q in ready ==> ReadyIn(P0[q].inputs, done)) &&
    backlog <= P0.Keys &&
    (forall q :: q in ready + backlog ==> Reached(P0, order, q))
  }

  /** `steps` traces the visits of `order` from `P0`, and `ran` is what they processed. */
  ghost predicate TraceSoFar(P0: Processors, order: seq<ProcessorId>, ran: seq<ProcessorId>, steps: seq<Step>) {
    Traced(Wiring(P0), Dirty(P0), order, steps) && ran == Flat(steps)
  }

  /**
   * The state of `Execute` between two steps, against the registry `P0`
   * it started from.
   */
  ghost predicate Progress(P0: Processors, now: Processors, roots: set<ProcessorId>,
                           done: set<ProcessorId>, order: seq<ProcessorId>,
                           ready: set<ProcessorId>, backlog: set<ProcessorId>,
                           ran: seq<ProcessorId>, steps: seq<Step>, effect: Effect)
  {
    SameStructure(P0, now) && Ran(P0, now, ran, effect) &&
    Visited(P0, now, roots, done, order) &&
    TraceSoFar(P0, order, ran, steps) &&
    Pending(P0, done, order, ready, backlog)
  }

  /**
   * `p->Process()`, dispatched on the kind of `p`. A group runs one
   * `Execute` of its nested graph, which needs one unit of `fuel`, and
   * reports what ran there in `nested`, traced by `nestedSteps` along
   * `nestedOrder`; `cut` reports a group left unprocessed for lack of fuel
   * or one whose nested run was cut short. Every other kind only sets its
   * own outputs.
   */
  method Process(reg: Registry, p: ProcessorId, effect: Effect, fuel: nat)
    returns (nested: seq<ProcessorId>, nestedOrder: seq<ProcessorId>, nestedPending: set<ProcessorId>,
             nestedCut: bool, cut: bool, ghost nestedSteps: seq<Step>)
    requires reg.Valid() && p in reg.processors && !reg.processors[p].needsUpdate
    modifies reg
    decreases fuel, 0
    ensures reg.Valid() && reg.count == old(reg.count)
    ensures SameStructure(old(reg.processors), reg.processors)
    ensures Ran(old(reg.processors)[p := old(reg.processors[p]).(outputs := Processed(old(reg.processors[p]), effect))],
                reg.processors, nested, effect)
    ensures !old(reg.processors[p].kind).Group? ==>
      nested == [] && nestedOrder == [] && nestedSteps == [] && nestedPending == {} && !nestedCut && !cut
    ensures cut ==> old(reg.processors[p].kind).Group?
    ensures old(reg.processors[p].kind).Group? && fuel == 0 ==>
      cut && nested == [] && nestedOrder == [] && nestedSteps == []
    // Whatever ran is what the nested visits processed, in their order.
    ensures Traced(Wiring(old(reg.processors)), Dirty(old(reg.processors)), nestedOrder, nestedSteps) &&
      nested == Flat(nestedSteps)
    ensures VisitOrder(old(reg.processors), if old(reg.processors[p].kind).Group? then old(reg.processors[p].kind).nestedRoots else {},
                       nestedOrder)
    // With fuel, a group is exactly one `Execute` of its nested graph from its roots.
    ensures old(reg.processors[p].kind).Group? && fuel > 0 ==>
      old(reg.processors[p].kind).nestedRoots <= Elems(nestedOrder) <= reg.processors.Keys &&
      nestedPending <= reg.processors.Keys &&
      (forall q :: q in nestedOrder ==> !reg.processors[q].needsUpdate) &&
      (forall q :: q in nestedOrder ==> Clients(reg.processors[q]) <= Elems(nestedOrder) + nestedPending) &&
      (nestedCut ==> RanGroup(old(reg.processors), nested)) &&
      (cut <==> nestedPending != {} || nestedCut) &&
      |old(reg.processors[p].kind).nestedRoots| <= |nestedOrder| &&
      Elems(nestedOrder[..|old(reg.processors[p].kind).nestedRoots|]) == old(reg.processors[p].kind).nestedRoots
    // A run that was not cut executed its nested graph completely.
    ensures !cut ==>
      Closed(Wiring(old(reg.processors)), nestedOrder) && GroupsRan(Wiring(old(reg.processors)), nestedSteps)
  {
    ghost var P0 := reg.processors;
    var rec := reg.processors[p];
    nestedOrder, nestedPending, nestedCut, cut, nestedSteps := [], {}, false, false, [];
    if rec.kind.Group? {
      assert P0[p := rec.(outputs := Processed(rec, effect))] == P0;
      if fuel == 0 {
        nested, cut := [], true;
        RanNothing(P0, effect);
      } else {
        assert NestedRootsIn(rec.kind, reg.processors.Keys);
        var waves;
        nestedOrder, nested, nestedPending, waves, nestedCut, cut, nestedSteps :=
          Schedule(reg, rec.kind.nestedRoots, effect, fuel - 1);
        if !cut {
          ClosedTransfer(P0, reg.processors, nestedOrder);
        }
      }
    } else {
      if rec.kind != Builtin(false) {
        reg.SetOutputs(p, effect(rec.kind, rec.inputs, rec.outputs));
      }
      nested := [];
      RanNothing(reg.processors, effect);
      ProcessedSameStructure(P0, p, Processed(rec, effect));
    }
  }

  /** Consuming the flag of `p` and then processing `p` is one run of `p` followed by `nested`. */
  lemma RunComposes(P0: Processors, P1: Processors, P2: Processors, p: ProcessorId,
                    nested: seq<ProcessorId>, effect: Effect)
    requires p in P0 && P0[p].needsUpdate && P1 == P0[p := P0[p].(needsUpdate := false)]
    requires SameStructure(P1, P2)
    requires Ran(P1[p := P1[p].(outputs := Processed(P1[p], effect))], P2, nested, effect)
    ensures SameStructure(P0, P2) && Ran(P0, P2, [p] + nested, effect)
  {
    var Q := P0[p := P0[p].(needsUpdate := false, outputs := Processed(P0[p], effect))];
    RanOne(P0, p, effect);
    ProcessedSameStructure(P0, p, Processed(P0[p], effect));
    assert Q == P1[p := P1[p].(outputs := Processed(P1[p], effect))];
    RanTrans(P0, Q, P2, [p], nested, effect);
    assert SameStructure(P0, P1);
    SameStructureTrans(P0, P1, P2);
  }

  /** The step of a dirty processor whose flag was consumed and which then processed `nested`. */
  lemma {:induction false} RunStep(P0: Processors, P1: Processors, p: ProcessorId, nestedOrder: seq<ProcessorId>,
                                   nestedSteps: seq<Step>)
    requires p in P0 && P0[p].needsUpdate && P1 == P0[p := P0[p].(needsUpdate := false)]
    requires P0[p].kind.Group?
    requires Traced(Wiring(P1), Dirty(P1), nestedOrder, nestedSteps)
    requires VisitOrder(P1, P0[p].kind.nestedRoots, nestedOrder)
    ensures StepTraced(Wiring(P0), Dirty(P0), p, ProcessedGroup(p, nestedOrder, nestedSteps))
  {
    assert SameStructure(P0, P1);
    WiringSame(P0, P1);
    assert Dirty(P1) == Dirty(P0) - {p};
    assert SameStructure(P1, Wiring(P0));
    VisitOrderTransfer(P1, Wiring(P0), P0[p].kind.nestedRoots, nestedOrder);
  }

  /** A dirty group whose nested run was complete took a complete step. */
  lemma RunComplete(P0: Processors, P1: Processors, p: ProcessorId, nestedOrder: seq<ProcessorId>,
                    nestedSteps: seq<Step>)
    requires p in P0 && P1 == P0[p := P0[p].(needsUpdate := false)] && P0[p].kind.Group?
    requires |P0[p].kind.nestedRoots| <= |nestedOrder|
    requires Elems(nestedOrder[..|P0[p].kind.nestedRoots|]) == P0[p].kind.nestedRoots
    requires Closed(Wiring(P1), nestedOrder) && GroupsRan(Wiring(P1), nestedSteps)
    ensures StepComplete(Wiring(P0), ProcessedGroup(p, nestedOrder, nestedSteps))
  {
    assert SameStructure(P0, P1);
    WiringSame(P0, P1);
  }

  /**
   * `if (p->NeedsUpdate()) p->Process();`: a dirty processor is cleaned
   * and processed, a clean one is left alone. `step` is what happened.
   */
  method Run(reg: Registry, p: ProcessorId, effect: Effect, fuel: nat)
    returns (ran: seq<ProcessorId>, cut: bool, ghost step: Step)
    requires reg.Valid() && p in reg.processors
    modifies reg
    decreases fuel, 1
    ensures reg.Valid() && reg.count == old(reg.count)
    ensures SameStructure(old(reg.processors), reg.processors)
    ensures Ran(old(reg.processors), reg.processors, ran, effect)
    ensures !reg.processors[p].needsUpdate
    ensures old(reg.processors[p].needsUpdate) ==> |ran| > 0 && ran[0] == p
    ensures !old(reg.processors[p].needsUpdate) ==> ran == [] && reg.processors == old(reg.processors)
    ensures cut ==> old(reg.processors[p].needsUpdate) && old(reg.processors[p].kind).Group?
    // Only `p`, and for a group what its nested run processed, is processed.
    ensures StepTraced(Wiring(old(reg.processors)), Dirty(old(reg.processors)), p, step) && ran == StepRan(step)
    // A dirty group that was not cut ran its nested graph completely.
    ensures !cut ==> StepComplete(Wiring(old(reg.processors)), step)
  {
    ghost var P0 := reg.processors;
    var dirty := reg.NeedsUpdate(p);
    cut := false;
    if !dirty {
      ran, step := [], Skipped;
      RanNothing(P0, effect);
      return;
    }
    ghost var P1 := reg.processors;
    var nested, nestedOrder, nestedPending, nestedCut;
    ghost var nestedSteps;
    nested, nestedOrder, nestedPending, nestedCut, cut, nestedSteps := Process(reg, p, effect, fuel);
    RunComposes(P0, P1, reg.processors, p, nested, effect);
    ran := [p] + nested;
    if P0[p].kind.Group? {
      step := ProcessedGroup(p, nestedOrder, nestedSteps);
      RunStep(P0, P1, p, nestedOrder, nestedSteps);
      assert StepRan(step) == [p] + Flat(nestedSteps);
      if !cut {
        RunComplete(P0, P1, p, nestedOrder, nestedSteps);
      }
    } else {
      step := ProcessedOne(p);
      assert ran == [p];
    }
  }

  /** Some processor of `ran` is a group of `P0`. */
  ghost predicate RanGroup(P0: Processors, ran: seq<ProcessorId>) {
    exists q :: q in ran && q in P0 && P0[q].kind.Group?
  }

  /** A prefix of a prefix is a prefix. */
  lemma PrefixTrans(a: seq<ProcessorId>, b: seq<ProcessorId>, c: seq<ProcessorId>)
    requires a <= b && b <= c
    ensures a <= c
  {
    assert c[..|a|] == b[..|a|];
  }

  /** Running more keeps a group among what ran. */
  lemma RanGroupGrows(P0: Processors, ran: seq<ProcessorId>, ran': seq<ProcessorId>)
    requires ran <= ran' && RanGroup(P0, ran)
    ensures RanGroup(P0, ran')
  {
    var q :| q in ran && q in P0 && P0[q].kind.Group?;
    var i :| 0 <= i < |ran| && ran[i] == q;
    assert ran'[i] == q;
  }

  /** The run of `p` after `steps`, seen against the registry `P0` the pass started from. */
  lemma {:induction false} VisitStep(P0: Processors, P1: Processors, P2: Processors, order: seq<ProcessorId>,
                                     steps: seq<Step>, p: ProcessorId, s: Step, effect: Effect)
    requires SameStructure(P0, P1) && Ran(P0, P1, Flat(steps), effect)
    requires Traced(Wiring(P0), Dirty(P0), order, steps)
    requires StepTraced(Wiring(P1), Dirty(P1), p, s)
    ensures Traced(Wiring(P0), Dirty(P0), order + [p], steps + [s])
    ensures Flat(steps + [s]) == Flat(steps) + StepRan(s)
  {
    WiringSame(P0, P1);
    DirtyAfterRan(P0, P1, Flat(steps), effect);
    TracedExtend(Wiring(P0), Dirty(P0), order, steps, p, s);
  }

  /** The pending processors stay reached after `p` is visited, and `p`'s clients are reached. */
  lemma {:induction false} PendingReached(P0: Processors, order: seq<ProcessorId>, p: ProcessorId,
                                          pending: set<ProcessorId>, pending': set<ProcessorId>)
    requires p in P0 && forall q :: q in pending ==> Reached(P0, order, q)
    requires pending' <= pending + Clients(P0[p])
    ensures forall q :: q in pending' ==> Reached(P0, order + [p], q)
  {
    forall q | q in pending' ensures Reached(P0, order + [p], q) {
      if q in pending {
        ReachedPrefix(P0, order, order + [p], q);
      } else {
        assert (order + [p])[|order|] == p;
      }
    }
  }

  /** Visiting `p`, which ends clean while no flag is raised, extends what was visited. */
  lemma {:induction false} VisitedAfter(P0: Processors, P1: Processors, P2: Processors, roots: set<ProcessorId>,
                                        done: set<ProcessorId>, order: seq<ProcessorId>, p: ProcessorId)
    requires Visited(P0, P1, roots, done, order)
    requires p in P0 && (p in roots || (ReadyIn(P0[p].inputs, done) && Reached(P0, order, p)))
    requires P1.Keys == P2.Keys && (forall q :: q in P1 && P2[q].needsUpdate ==> P1[q].needsUpdate)
    requires p in P2 && !P2[p].needsUpdate
    ensures Visited(P0, P2, roots, done + {p}, order + [p])
  {
    assert Elems(order + [p]) == done + {p};
    OrderExtends(P0, roots, order, p);
  }

  /** Testing the clients of `p` keeps what is pending ready and reached. */
  lemma {:induction false} PendingAfter(P0: Processors, P2: Processors, done: set<ProcessorId>, order: seq<ProcessorId>,
                                        ready: set<ProcessorId>, backlog: set<ProcessorId>, p: ProcessorId,
                                        ready': set<ProcessorId>, backlog': set<ProcessorId>)
    requires Pending(P0, done, order, ready, backlog)
    requires SameStructure(P0, P2) && p in P0
    requires ready' + backlog' == ready + backlog + Clients(P2[p])
    requires forall q :: q in ready' && q !in ready ==> q in P2 && ReadyIn(P2[q].inputs, done + {p})
    requires forall q :: q in backlog' && q !in backlog ==> q in P2
    ensures Pending(P0, done + {p}, order + [p], ready', backlog')
  {
    SameStructureClients(P0, P2, p);
    forall q | q in ready' ensures ReadyIn(P0[q].inputs, done + {p}) {
      if q !in ready {
        SameStructureClients(P0, P2, q);
      }
    }
    PendingReached(P0, order, p, ready + backlog, ready' + backlog');
  }

  /**
   * The state after visiting `p`: `P1` is the registry before the run of
   * `p` and `P2` after it, `s` what the run did, and `ready'`/`backlog'`
   * the pending sets after testing `p`'s clients.
   */
  lemma {:induction false} ProgressAfterVisit(P0: Processors, P1: Processors, P2: Processors, roots: set<ProcessorId>,
                                              done: set<ProcessorId>, order: seq<ProcessorId>,
                                              ready: set<ProcessorId>, backlog: set<ProcessorId>,
                                              ran: seq<ProcessorId>, steps: seq<Step>, effect: Effect,
                                              p: ProcessorId, s: Step,
                                              ready': set<ProcessorId>, backlog': set<ProcessorId>)
    requires Progress(P0, P1, roots, done, order, ready, backlog, ran, steps, effect)
    requires p in P0 && (p in roots || (ReadyIn(P0[p].inputs, done) && Reached(P0, order, p)))
    requires SameStructure(P1, P2) && Ran(P1, P2, StepRan(s), effect) && !P2[p].needsUpdate
    requires StepTraced(Wiring(P1), Dirty(P1), p, s)
    requires ready' + backlog' == ready + backlog + Clients(P2[p])
    requires forall q :: q in ready' && q !in ready ==> q in P2 && ReadyIn(P2[q].inputs, done + {p})
    requires forall q :: q in backlog' && q !in backlog ==> q in P2
    ensures Progress(P0, P2, roots, done + {p}, order + [p], ready', backlog', ran + StepRan(s), steps + [s], effect)
  {
    RanTrans(P0, P1, P2, ran, StepRan(s), effect);
    SameStructureTrans(P0, P1, P2);
    VisitStep(P0, P1, P2, order, steps, p, s, effect);
    VisitedAfter(P0, P1, P2, roots, done, order, p);
    PendingAfter(P0, P2, done, order, ready, backlog, p, ready', backlog');
  }

  /**
   * The `Process` lambda of `Execute`: run `p`, mark it done, and test
   * every client of `p` for readiness.
   */
  method Visit(reg: Registry, p: ProcessorId, effect: Effect, fuel: nat,
               ghost P0: Processors, ghost roots: set<ProcessorId>,
               done: set<ProcessorId>, order: seq<ProcessorId>,
               ready: set<ProcessorId>, backlog: set<ProcessorId>, ran: seq<ProcessorId>, ghost steps: seq<Step>)
    returns (done': set<ProcessorId>, order': seq<ProcessorId>,
             ready': set<ProcessorId>, backlog': set<ProcessorId>, ran': seq<ProcessorId>, cut: bool,
             ghost steps': seq<Step>, ghost step: Step)
    requires reg.Valid() && Progress(P0, reg.processors, roots, done, order, ready, backlog, ran, steps, effect)
    requires p in P0 && (p in roots || (ReadyIn(P0[p].inputs, done) && Reached(P0, order, p)))
    modifies reg
    decreases fuel, 2
    ensures reg.Valid() && reg.count == old(reg.count)
    ensures Progress(P0, reg.processors, roots, done', order', ready', backlog', ran', steps', effect)
    ensures done' == done + {p} && order' == order + [p]
    ensures steps' == steps + [step] && ran' == ran + StepRan(step)
    ensures ran <= ran' && (cut ==> p in ran' && P0[p].kind.Group?)
    ensures !cut ==> StepComplete(Wiring(P0), step)
    ensures ready <= ready' && backlog <= backlog'
    ensures ready' + backlog' == ready + backlog + Clients(P0[p])
  {
    ghost var P1 := reg.processors;
    var r;
    r, cut, step := Run(reg, p, effect, fuel);
    ran' := ran + r;
    steps' := steps + [step];
    done' := done + {p};
    order' := order + [p];
    ready', backlog' := CheckClients(reg, p, done', ready, backlog);
    ProgressAfterVisit(P0, P1, reg.processors, roots, done, order, ready, backlog, ran, steps, effect,
                       p, step, ready', backlog');
    SameStructureClients(P0, reg.processors, p);
    WiringSame(P0, P1);
  }

  /** Every client of a done processor is done or among `pending`. */
  ghost predicate Covered(P0: Processors, done: set<ProcessorId>, pending: set<ProcessorId>)
    requires done <= P0.Keys
  {
    forall q :: q in done ==> Clients(P0[q]) <= done + pending
  }

  /** Visiting `p` moves it from pending to done and makes its clients pending. */
  lemma CoveredVisit(P0: Processors, done: set<ProcessorId>, pending: set<ProcessorId>,
                     p: ProcessorId, pending': set<ProcessorId>)
    requires done <= P0.Keys && p in P0 && Covered(P0, done, pending)
    requires pending - {p} <= pending' && Clients(P0[p]) <= pending'
    ensures Covered(P0, done + {p}, pending')
  {
  }

  /** Taking `p` out of what is left of a wave adds it to what was visited. */
  lemma WaveGrows(processing: set<ProcessorId>, rest: set<ProcessorId>, p: ProcessorId)
    requires rest <= processing && p in rest
    ensures processing - (rest - {p}) == (processing - rest) + {p}
    ensures |processing - (rest - {p})| == |processing - rest| + 1
  {
    assert p !in processing - rest;
  }

  /**
   * Part way through the wave `processing`, which started from `done`,
   * `order` and `steps`: `rest` is still to be visited, each of it a root
   * or ready and reached, and the wave's visits so far follow `order`.
   */
  ghost predicate Wave(P0: Processors, roots: set<ProcessorId>, processing: set<ProcessorId>, others: set<ProcessorId>,
                       done: set<ProcessorId>, order: seq<ProcessorId>, steps: seq<Step>, rest: set<ProcessorId>,
                       done': set<ProcessorId>, order': seq<ProcessorId>,
                       ready': set<ProcessorId>, backlog': set<ProcessorId>, steps': seq<Step>)
  {
    rest <= processing && processing <= P0.Keys && done <= done' && processing - rest <= done' && done' <= P0.Keys &&
    (forall q :: q in rest ==> q in roots || (ReadyIn(P0[q].inputs, done') && Reached(P0, order', q))) &&
    Covered(P0, done', ready' + backlog' + rest + others) &&
    order <= order' && steps <= steps' &&
    |order'| == |order| + |processing - rest| && Elems(order'[|order|..]) == processing - rest
  }

  /** One visit of `p` from the rest of the wave keeps the wave's state. */
  lemma {:induction false} WaveStep(P0: Processors, roots: set<ProcessorId>, processing: set<ProcessorId>,
                                    others: set<ProcessorId>, done: set<ProcessorId>, order: seq<ProcessorId>,
                                    steps: seq<Step>, rest: set<ProcessorId>,
                                    done': set<ProcessorId>, order': seq<ProcessorId>,
                                    ready': set<ProcessorId>, backlog': set<ProcessorId>, steps': seq<Step>,
                                    p: ProcessorId, done'': set<ProcessorId>, order'': seq<ProcessorId>,
                                    ready'': set<ProcessorId>, backlog'': set<ProcessorId>, steps'': seq<Step>)
    requires Wave(P0, roots, processing, others, done, order, steps, rest, done', order', ready', backlog', steps')
    requires p in rest
    requires done'' == done' + {p} && order'' == order' + [p] && steps' <= steps''
    requires ready' <= ready'' && backlog' <= backlog'' && ready'' + backlog'' == ready' + backlog' + Clients(P0[p])
    ensures Wave(P0, roots, processing, others, done, order, steps, rest - {p}, done'', order'', ready'', backlog'', steps'')
  {
    CoveredVisit(P0, done', ready' + backlog' + rest + others, p, ready'' + backlog'' + (rest - {p}) + others);
    forall q | q in rest - {p} && q !in roots ensures Reached(P0, order'', q) {
      ReachedPrefix(P0, order', order'', q);
    }
    assert order''[|order|..] == order'[|order|..] + [p];
    WaveGrows(processing, rest, p);
  }

  /** A wave that has not started has all of `processing` left. */
  lemma WaveStart(P0: Processors, roots: set<ProcessorId>, processing: set<ProcessorId>, others: set<ProcessorId>,
                  done: set<ProcessorId>, order: seq<ProcessorId>, steps: seq<Step>,
                  ready: set<ProcessorId>, backlog: set<ProcessorId>)
    requires processing <= P0.Keys && done <= P0.Keys
    requires forall q :: q in processing ==> q in roots || (ReadyIn(P0[q].inputs, done) && Reached(P0, order, q))
    requires Covered(P0, done, ready + backlog + processing + others)
    ensures Wave(P0, roots, processing, others, done, order, steps, processing, done, order, ready, backlog, steps)
  {
    assert processing - processing == {};
    assert order[|order|..] == [];
  }

  /** A wave with nothing left has visited all of `processing`, in `order'` after `order`. */
  lemma {:induction false} WaveDone(P0: Processors, roots: set<ProcessorId>, processing: set<ProcessorId>,
                                    others: set<ProcessorId>, done: set<ProcessorId>, order: seq<ProcessorId>,
                                    steps: seq<Step>, rest: set<ProcessorId>,
                                    done': set<ProcessorId>, order': seq<ProcessorId>,
                                    ready': set<ProcessorId>, backlog': set<ProcessorId>, steps': seq<Step>)
    requires Wave(P0, roots, processing, others, done, order, steps, rest, done', order', ready', backlog', steps')
    requires rest == {}
    ensures done <= done' && processing <= done' && done' <= P0.Keys
    ensures Covered(P0, done', ready' + backlog' + others)
    ensures order <= order' && steps <= steps'
    ensures |order'| == |order| + |processing| && Elems(order'[|order|..]) == processing
  {
    assert ready' + backlog' + rest + others == ready' + backlog' + others;
    assert processing - rest == processing;
  }

  /** One turn of the loop over a wave: visits `p`, taken from what is left of it. */
  method VisitInWave(reg: Registry, p: ProcessorId, effect: Effect, fuel: nat,
                     ghost P0: Processors, ghost roots: set<ProcessorId>,
                     ghost processing: set<ProcessorId>, ghost others: set<ProcessorId>,
                     ghost done0: set<ProcessorId>, ghost order0: seq<ProcessorId>, ghost steps0: seq<Step>,
                     ghost rest: set<ProcessorId>, ghost ran0: seq<ProcessorId>,
                     done: set<ProcessorId>, order: seq<ProcessorId>,
                     ready: set<ProcessorId>, backlog: set<ProcessorId>, ran: seq<ProcessorId>, cut: bool,
                     ghost steps: seq<Step>)
    returns (done': set<ProcessorId>, order': seq<ProcessorId>,
             ready': set<ProcessorId>, backlog': set<ProcessorId>, ran': seq<ProcessorId>, cut': bool,
             ghost steps': seq<Step>)
    requires reg.Valid() && Progress(P0, reg.processors, roots, done, order, ready, backlog, ran, steps, effect)
    requires Wave(P0, roots, processing, others, done0, order0, steps0, rest, done, order, ready, backlog, steps)
    requires p in rest && ran0 <= ran && (cut ==> RanGroup(P0, ran))
    requires !cut ==> GroupsRan(Wiring(P0), steps[|steps0|..])
    modifies reg
    decreases fuel, 3
    ensures reg.Valid() && reg.count == old(reg.count)
    ensures Progress(P0, reg.processors, roots, done', order', ready', backlog', ran', steps', effect)
    ensures Wave(P0, roots, processing, others, done0, order0, steps0, rest - {p}, done', order', ready', backlog', steps')
    ensures ran0 <= ran' && (cut' ==> RanGroup(P0, ran'))
    ensures !cut' ==> GroupsRan(Wiring(P0), steps'[|steps0|..])
  {
    var c;
    ghost var step;
    done', order', ready', backlog', ran', c, steps', step :=
      Visit(reg, p, effect, fuel, P0, roots, done, order, ready, backlog, ran, steps);
    WaveStep(P0, roots, processing, others, done0, order0, steps0, rest, done, order, ready, backlog,
             steps, p, done', order', ready', backlog', steps');
    PrefixTrans(ran0, ran, ran');
    if cut {
      RanGroupGrows(P0, ran, ran');
    } else if !c {
      GroupsRanAppend(Wiring(P0), steps0, steps, step);
    }
    cut' := cut || c;
  }

  /**
   * `for (auto* p : processing) Process(p);` (and the loop over the roots):
   * visits every processor of `processing` once, in an order chosen by
   * the set, and processes only through those visits. `others` are the
   * pending processors that are not handed in here.
   */
  method VisitAll(reg: Registry, processing: set<ProcessorId>, effect: Effect, fuel: nat,
                  ghost P0: Processors, ghost roots: set<ProcessorId>,
                  done: set<ProcessorId>, order: seq<ProcessorId>,
                  ready: set<ProcessorId>, backlog: set<ProcessorId>, ran: seq<ProcessorId>, ghost steps: seq<Step>,
                  ghost others: set<ProcessorId>)
    returns (done': set<ProcessorId>, order': seq<ProcessorId>,
             ready': set<ProcessorId>, backlog': set<ProcessorId>, ran': seq<ProcessorId>, cut: bool,
             ghost steps': seq<Step>)
    requires reg.Valid() && Progress(P0, reg.processors, roots, done, order, ready, backlog, ran, steps, effect)
    requires processing <= P0.Keys
    requires forall q :: q in processing ==> q in roots || (ReadyIn(P0[q].inputs, done) && Reached(P0, order, q))
    requires Covered(P0, done, ready + backlog + processing + others)
    modifies reg
    decreases fuel, 4
    ensures reg.Valid() && reg.count == old(reg.count)
    ensures Progress(P0, reg.processors, roots, done', order', ready', backlog', ran', steps', effect)
    ensures done <= done' && processing <= done'
    ensures Covered(P0, done', ready' + backlog' + others)
    ensures ran <= ran' && (cut ==> RanGroup(P0, ran'))
    // The wave's processors are visited once each, after what was visited before.
    ensures order <= order' && steps <= steps'
    ensures |order'| == |order| + |processing| && Elems(order'[|order|..]) == processing
    // Every group the wave processed without a cut ran its nested graph completely.
    ensures !cut ==> GroupsRan(Wiring(P0), steps'[|steps|..])
  {
    done', order', ready', backlog', ran', cut, steps' := done, order, ready, backlog, ran, false, steps;
    var rest := processing;
    WaveStart(P0, roots, processing, others, done, order, steps, ready, backlog);
    while rest != {}
      invariant reg.Valid() && reg.count == old(reg.count)
      invariant Progress(P0, reg.processors, roots, done', order', ready', backlog', ran', steps', effect)
      invariant Wave(P0, roots, processing, others, done, order, steps, rest, done', order', ready', backlog', steps')
      invariant ran <= ran' && (cut ==> RanGroup(P0, ran'))
      invariant !cut ==> GroupsRan(Wiring(P0), steps'[|steps|..])
      decreases rest
    {
      var p :| p in rest;
      done', order', ready', backlog', ran', cut, steps' :=
        VisitInWave(reg, p, effect, fuel, P0, roots, processing, others, done, order, steps, rest, ran,
                    done', order', ready', backlog', ran', cut, steps');
      rest := rest - {p};
    }
    WaveDone(P0, roots, processing, others, done, order, steps, rest, done', order', ready', backlog', steps');
  }

  /** `for (auto* p : prev_backlog) CheckReady(p);` */
  method Recheck(reg: Registry, prevBacklog: set<ProcessorId>, ghost P0: Processors, done: set<ProcessorId>,
                 ready: set<ProcessorId>, backlog: set<ProcessorId>)
    returns (ready': set<ProcessorId>, backlog': set<ProcessorId>)
    requires SameStructure(P0, reg.processors) && prevBacklog <= P0.Keys
    ensures ready <= ready' && backlog <= backlog'
    ensures ready' + backlog' == ready + backlog + prevBacklog
    ensures forall q :: q in ready' && q !in ready ==> q in P0 && ReadyIn(P0[q].inputs, done)
    ensures backlog' <= backlog + prevBacklog
    ensures forall q :: q in prevBacklog ==>
      (ReadyIn(P0[q].inputs, done) ==> q in ready') && (!ReadyIn(P0[q].inputs, done) ==> q in backlog')
  {
    ready', backlog' := ready, backlog;
    var rest := prevBacklog;
    while rest != {}
      invariant rest <= prevBacklog
      invariant ready <= ready' && backlog <= backlog'
      invariant ready' + backlog' + rest == ready + backlog + prevBacklog
      invariant forall q :: q in ready' && q !in ready ==> q in P0 && ReadyIn(P0[q].inputs, done)
      invariant backlog' <= backlog + prevBacklog
      invariant forall q :: q in prevBacklog && q !in rest ==>
        (ReadyIn(P0[q].inputs, done) ==> q in ready') && (!ReadyIn(P0[q].inputs, done) ==> q in backlog')
      decreases rest
    {
      var p :| p in rest;
      SameStructureClients(P0, reg.processors, p);
      ready', backlog' := CheckReady(reg, p, done, ready', backlog');
      rest := rest - {p};
    }
  }

  /** Before the roots are visited nothing is done, pending or run, and the roots are to be visited. */
  lemma ScheduleStart(P0: Processors, roots: set<ProcessorId>, effect: Effect)
    requires roots <= P0.Keys
    ensures Progress(P0, P0, roots, {}, [], {}, {}, [], [], effect)
    ensures Covered(P0, {}, {} + {} + roots + {})
  {
    RanNothing(P0, effect);
    assert SameStructure(P0, P0);
    assert Traced(Wiring(P0), Dirty(P0), [], []);
  }

  /**
   * Between the rounds of `Execute`: the roots were visited first, and
   * every client of a visited processor is visited or pending.
   */
  ghost predicate Rounds(P0: Processors, roots: set<ProcessorId>, done: set<ProcessorId>, order: seq<ProcessorId>,
                         ready: set<ProcessorId>, backlog: set<ProcessorId>)
  {
    done <= P0.Keys && roots <= done &&
    |roots| <= |order| && Elems(order[..|roots|]) == roots &&
    Covered(P0, done, ready + backlog)
  }

  /** The wave of the roots leaves the state between rounds. */
  lemma FirstRound(P0: Processors, roots: set<ProcessorId>, done: set<ProcessorId>, order: seq<ProcessorId>,
                   ready: set<ProcessorId>, backlog: set<ProcessorId>)
    requires done <= P0.Keys && roots <= done && Covered(P0, done, ready + backlog + {})
    requires |order| == |roots| && Elems(order[0..]) == roots
    ensures Rounds(P0, roots, done, order, ready, backlog)
  {
    assert order[..|roots|] == order;
    assert ready + backlog + {} == ready + backlog;
  }

  /** A round visits what was ready, with the backlog pending beside it. */
  lemma RoundEnter(P0: Processors, now: Processors, roots: set<ProcessorId>, done: set<ProcessorId>,
                   order: seq<ProcessorId>, ready: set<ProcessorId>, backlog: set<ProcessorId>,
                   ran: seq<ProcessorId>, steps: seq<Step>, effect: Effect)
    requires Progress(P0, now, roots, done, order, ready, backlog, ran, steps, effect)
    requires Rounds(P0, roots, done, order, ready, backlog)
    ensures Progress(P0, now, roots, done, order, {}, {}, ran, steps, effect)
    ensures ready <= P0.Keys && backlog <= P0.Keys
    ensures forall q :: q in ready ==> q in roots || (ReadyIn(P0[q].inputs, done) && Reached(P0, order, q))
    ensures Covered(P0, done, {} + {} + ready + backlog)
  {
    assert {} + {} + ready + backlog == ready + backlog;
  }

  /** The re-test of the previous backlog keeps what is ready and pending reached. */
  lemma PendingRecheck(P0: Processors, done': set<ProcessorId>, order: seq<ProcessorId>, order': seq<ProcessorId>,
                       prevBacklog: set<ProcessorId>, ready': set<ProcessorId>, backlog': set<ProcessorId>,
                       ready'': set<ProcessorId>, backlog'': set<ProcessorId>)
    requires Pending(P0, done', order', ready', backlog') && prevBacklog <= P0.Keys && order <= order'
    requires forall q :: q in prevBacklog ==> Reached(P0, order, q)
    requires ready' <= ready'' && ready'' + backlog'' == ready' + backlog' + prevBacklog
    requires forall q :: q in ready'' && q !in ready' ==> q in P0 && ReadyIn(P0[q].inputs, done')
    ensures Pending(P0, done', order', ready'', backlog'')
  {
    forall q | q in prevBacklog ensures Reached(P0, order', q) {
      ReachedPrefix(P0, order, order', q);
    }
  }

  /** A round keeps the roots first, and the re-tested backlog stays pending. */
  lemma RoundsStep(P0: Processors, roots: set<ProcessorId>, done: set<ProcessorId>, order: seq<ProcessorId>,
                   processing: set<ProcessorId>, prevBacklog: set<ProcessorId>,
                   done': set<ProcessorId>, order': seq<ProcessorId>,
                   ready': set<ProcessorId>, backlog': set<ProcessorId>,
                   ready'': set<ProcessorId>, backlog'': set<ProcessorId>)
    requires Rounds(P0, roots, done, order, processing, prevBacklog)
    requires done <= done' && done' <= P0.Keys && order <= order'
    requires Covered(P0, done', ready' + backlog' + prevBacklog)
    requires ready'' + backlog'' == ready' + backlog' + prevBacklog
    ensures Rounds(P0, roots, done', order', ready'', backlog'')
  {
    assert order'[..|roots|] == order[..|roots|];
  }

  /** What `Execute` promises, from the state its last round left. */
  lemma ScheduleEnd(P0: Processors, now: Processors, roots: set<ProcessorId>, done: set<ProcessorId>,
                    order: seq<ProcessorId>, ready: set<ProcessorId>, backlog: set<ProcessorId>,
                    ran: seq<ProcessorId>, steps: seq<Step>, effect: Effect)
    requires Progress(P0, now, roots, done, order, ready, backlog, ran, steps, effect)
    requires Rounds(P0, roots, done, order, ready, backlog)
    ensures roots <= Elems(order) <= now.Keys
    ensures forall q :: q in order ==> !now[q].needsUpdate
    ensures ready + backlog <= now.Keys
    ensures forall q :: q in order ==> Clients(now[q]) <= Elems(order) + (ready + backlog)
    ensures ready + backlog == {} ==> forall q :: q in order ==> Clients(now[q]) <= Elems(order)
  {
    forall q | q in order ensures Clients(now[q]) <= Elems(order) + (ready + backlog) {
      SameStructureClients(P0, now, q);
    }
  }

  /**
   * `Graph::Execute` on the processors `roots`: every root is processed,
   * then rounds of the ready processors and re-tests of the backlog follow
   * until both are empty. `fuel` bounds the number of rounds and the
   * nesting depth of groups. `pending` holds what was still ready or in
   * the backlog when the `waves` of rounds ran out, and `groupCut` tells
   * that some group that ran here had its nested run cut short;
   * `exhausted` is the one or the other.
   *
   * The roots are visited first, once each. Every later visit is of a
   * client of an earlier one, after every producer linked to it. `steps`
   * traces each visit: the processors processed are exactly the dirty
   * ones at their first visit (and, inside a group's visit, what its
   * nested run processed), each once. Everything visited is clean
   * afterwards. Every client of a visited processor was visited or is
   * pending, so when fuel sufficed the visited set is closed under
   * clients.
   */
  method Schedule(reg: Registry, roots: set<ProcessorId>, effect: Effect, fuel: nat)
    returns (order: seq<ProcessorId>, ran: seq<ProcessorId>, pending: set<ProcessorId>,
             waves: nat, groupCut: bool, exhausted: bool, ghost steps: seq<Step>)
    requires reg.Valid() && roots <= reg.processors.Keys
    modifies reg
    decreases fuel, 5
    ensures reg.Valid() && reg.count == old(reg.count)
    ensures SameStructure(old(reg.processors), reg.processors)
    ensures Ran(old(reg.processors), reg.processors, ran, effect)
    ensures roots <= Elems(order) <= reg.processors.Keys
    ensures |roots| <= |order| && Elems(order[..|roots|]) == roots
    ensures forall q :: q in order ==> !reg.processors[q].needsUpdate
    ensures VisitOrder(old(reg.processors), roots, order)
    ensures Traced(Wiring(old(reg.processors)), Dirty(old(reg.processors)), order, steps) && ran == Flat(steps)
    ensures pending <= reg.processors.Keys
    ensures forall q :: q in order ==> Clients(reg.processors[q]) <= Elems(order) + pending
    ensures waves <= fuel && (pending != {} ==> waves == fuel)
    ensures groupCut ==> RanGroup(old(reg.processors), ran)
    ensures exhausted <==> pending != {} || groupCut
    ensures !exhausted ==> forall q :: q in order ==> Clients(reg.processors[q]) <= Elems(order)
    ensures !groupCut ==> GroupsRan(Wiring(old(reg.processors)), steps)
  {
    ghost var P0 := reg.processors;
    ScheduleStart(P0, roots, effect);
    var done, ready, backlog;
    done, order, ready, backlog, ran, groupCut, steps :=
      VisitAll(reg, roots, effect, fuel, P0, roots, {}, [], {}, {}, [], [], {});
    FirstRound(P0, roots, done, order, ready, backlog);
    assert steps[0..] == steps;
    waves := 0;
    while (ready != {} || backlog != {}) && waves < fuel
      invariant reg.Valid() && reg.count == old(reg.count)
      invariant Progress(P0, reg.processors, roots, done, order, ready, backlog, ran, steps, effect)
      invariant Rounds(P0, roots, done, order, ready, backlog)
      invariant waves <= fuel && (groupCut ==> RanGroup(P0, ran))
      invariant !groupCut ==> GroupsRan(Wiring(P0), steps)
      decreases fuel - waves
    {
      var processing, prevBacklog := ready, backlog;
      var cut;
      ghost var prev, prevDone, prevOrder, prevSteps := ran, done, order, steps;
      RoundEnter(P0, reg.processors, roots, done, order, ready, backlog, ran, steps, effect);
      done, order, ready, backlog, ran, cut, steps :=
        VisitAll(reg, processing, effect, fuel, P0, roots, done, order, {}, {}, ran, steps, prevBacklog);
      if groupCut {
        RanGroupGrows(P0, prev, ran);
      } else if !cut {
        GroupsRanConcat(Wiring(P0), prevSteps, steps);
      }
      groupCut := groupCut || cut;
      ghost var ready', backlog' := ready, backlog;
      ready, backlog := Recheck(reg, prevBacklog, P0, done, ready, backlog);
      PendingRecheck(P0, done, prevOrder, order, prevBacklog, ready', backlog', ready, backlog);
      RoundsStep(P0, roots, prevDone, prevOrder, processing, prevBacklog, done, order, ready', backlog', ready, backlog);
      waves := waves + 1;
    }
    pending := ready + backlog;
    exhausted := pending != {} || groupCut;
    ScheduleEnd(P0, reg.processors, roots, done, order, ready, backlog, ran, steps, effect);
  }

  /**
   * The registry after linking `output` to `input`: the input is bound to
   * the producer and the producer's slot lists the input as a client.
   */
  ghost function Wired(procs: Processors, output: DataAddress, input: DataAddress): (r: Processors)
    requires input.processor in procs && output.processor in procs
    ensures r.Keys == procs.Keys
  {
    var a := procs[input.processor := procs[input.processor].(inputs :=
               Rebind(procs[input.processor].inputs, input.dataIndex, output))];
    a[output.processor := a[output.processor].(outputLinks :=
        AppendClient(a[output.processor].outputLinks, output.dataIndex, input))]
  }

  /** Propagation is about flags only: new links leave it intact. */
  lemma FlagsPropagatedRelinked(before: Processors, a: Processors, b: Processors, id: ProcessorId)
    requires FlagsPropagated(before, a, id)
    requires a.Keys == b.Keys && forall q :: q in a ==> b[q].needsUpdate == a[q].needsUpdate
    ensures FlagsPropagated(before, b, id)
  {
    forall q | NewlyDirty(before, b, q) ensures ClientsDirty(before, b, q) {
      assert NewlyDirty(before, a, q);
    }
  }

  /** The two registry updates of `CreateLink` make `Wired`, with flags set as `AddInputLink` left them. */
  lemma {:induction false} CreateLinkState(P0: Processors, P1: Processors, P2: Processors,
                                           output: DataAddress, input: DataAddress)
    requires input.processor in P0 && output.processor in P0
    requires FlagsOnly(P0[input.processor := P0[input.processor].(inputs :=
               Rebind(P0[input.processor].inputs, input.dataIndex, output))], P1)
    requires FlagsPropagated(P0, P1, input.processor)
    requires P2 == P1[output.processor := P1[output.processor].(outputLinks :=
               AppendClient(P1[output.processor].outputLinks, output.dataIndex, input))]
    ensures FlagsOnly(Wired(P0, output, input), P2)
    ensures FlagsPropagated(P0, P2, input.processor)
  {
    FlagsPropagatedRelinked(P0, P1, P2, input.processor);
  }

  /** The registry half of `CreateLink`: `AddInputLink` on the consumer, then `AddOutputLink` on the producer. */
  method Wire(reg: Registry, output: DataAddress, input: DataAddress)
    requires reg.Valid() && input.processor in reg.processors && output.processor in reg.processors
    modifies reg
    ensures reg.Valid() && reg.count == old(reg.count)
    ensures FlagsOnly(Wired(old(reg.processors), output, input), reg.processors)
    ensures FlagsPropagated(old(reg.processors), reg.processors, input.processor)
  {
    ghost var P0 := reg.processors;
    reg.AddInputLink(input.processor, input.dataIndex, output);
    ghost var P1 := reg.processors;
    reg.AddOutputLink(output.processor, output.dataIndex, input);
    CreateLinkState(P0, P1, reg.processors, output, input);
  }

  datatype LinkData = LinkData(output: DataAddress, input: DataAddress)

  /**
   * A graph: its links by id, the processors it starts `Execute` from,
   * and the last link id handed out. The processors themselves live in
   * the registry.
   */
  class Graph {
    var links: map<LinkId, LinkData>
    var noInputProcessors: set<ProcessorId>
    var linkCount: LinkId

    constructor()
      ensures links == map[] && noInputProcessors == {} && linkCount == 0
    {
      links, noInputProcessors, linkCount := map[], {}, 0;
    }

    /**
     * Runs the graph from its processors without inputs; see `Schedule`.
     * A processor without inputs that is not registered would be
     * dereferenced as a null pointer, hence the precondition.
     */
    method Execute(reg: Registry, effect: Effect, fuel: nat)
      returns (order: seq<ProcessorId>, ran: seq<ProcessorId>, pending: set<ProcessorId>,
               waves: nat, groupCut: bool, exhausted: bool, ghost steps: seq<Step>)
      requires reg.Valid() && noInputProcessors <= reg.processors.Keys
      modifies reg
      ensures reg.Valid() && reg.count == old(reg.count)
      ensures SameStructure(old(reg.processors), reg.processors)
      ensures Ran(old(reg.processors), reg.processors, ran, effect)
      ensures noInputProcessors <= Elems(order) <= reg.processors.Keys
      ensures forall q :: q in order ==> !reg.processors[q].needsUpdate
      ensures |noInputProcessors| <= |order| && Elems(order[..|noInputProcessors|]) == noInputProcessors
      ensures VisitOrder(old(reg.processors), noInputProcessors, order)
      ensures Traced(Wiring(old(reg.processors)), Dirty(old(reg.processors)), order, steps) && ran == Flat(steps)
      ensures pending <= reg.processors.Keys
      ensures forall q :: q in order ==> Clients(reg.processors[q]) <= Elems(order) + pending
      ensures waves <= fuel && (pending != {} ==> waves == fuel)
      ensures groupCut ==> RanGroup(old(reg.processors), ran)
      ensures exhausted <==> pending != {} || groupCut
      ensures !exhausted ==> forall q :: q in order ==> Clients(reg.processors[q]) <= Elems(order)
      ensures !groupCut ==> GroupsRan(Wiring(old(reg.processors)), steps)
    {
      order, ran, pending, waves, groupCut, exhausted, steps := Schedule(reg, noInputProcessors, effect, fuel);
    }

    /**
     * Binds input `input` to output `output`, marks the consumer (and what
     * it feeds) dirty, records the link under a fresh id and returns it.
     * Nothing checks that the two signatures can be linked.
     */
    method CreateLink(reg: Registry, output: DataAddress, input: DataAddress) returns (id: LinkId)
      requires reg.Valid() && input.processor in reg.processors && output.processor in reg.processors
      modifies this, reg
      ensures reg.Valid() && reg.count == old(reg.count)
      ensures FlagsOnly(Wired(old(reg.processors), output, input), reg.processors)
      ensures FlagsPropagated(old(reg.processors), reg.processors, input.processor)
      ensures id == old(linkCount) + 1 && linkCount == id
      ensures links == old(links)[id := LinkData(output, input)]
      ensures noInputProcessors == old(noInputProcessors) - {input.processor}
    {
      Wire(reg, output, input);
      noInputProcessors := noInputProcessors - {input.processor};
      linkCount := linkCount + 1;
      links := links[linkCount := LinkData(output, input)];
      id := linkCount;
    }

    /**
     * Forgets nothing: `RemoveInput` and `RemoveOutput` have empty bodies,
     * so the link stays in `links` and the registry is untouched. Only
     * the consumer's place among the processors without inputs is
     * updated: it is one exactly when none of its inputs is linked.
     */
    method RemoveLink(reg: Registry, linkId: LinkId)
      requires linkId in links ==>
        links[linkId].input.processor in reg.processors && links[linkId].output.processor in reg.processors
      modifies this
      ensures links == old(links) && linkCount == old(linkCount)
      ensures linkId !in links ==> noInputProcessors == old(noInputProcessors)
      ensures linkId in links ==>
        var consumer := links[linkId].input.processor;
        noInputProcessors ==
          if AnyLinked(reg.processors[consumer].inputs) then old(noInputProcessors) - {consumer}
          else old(noInputProcessors) + {consumer}
    {
      if linkId in links {
        var consumer := links[linkId].input.processor;
        var linked := reg.HasLinkedInputs(consumer);
        if linked {
          noInputProcessors := noInputProcessors - {consumer};
        } else {
          noInputProcessors := noInputProcessors + {consumer};
        }
      }
    }
  }
}
