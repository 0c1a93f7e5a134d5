/**
 * The dirty flags of the processor registry and what `SetNeedsUpdate`
 * (processor.cpp) does to them, stated on registry snapshots.
 */
module Propagation {
  import opened Signatures
  import opened Inputs

  /** Every processor that some output slot of `rec` feeds. */
  ghost function Clients(rec: ProcRecord): set<ProcessorId> {
    set k, j | k in rec.outputLinks && 0 <= j < |rec.outputLinks[k]| :: rec.outputLinks[k][j].processor
  }

  /** The clean processors of a registry. */
  ghost function Clean(procs: Processors): set<ProcessorId> {
    set q | q in procs && !procs[q].needsUpdate
  }

  /** `b` differs from `a` in dirty flags only. */
  ghost predicate FlagsOnly(a: Processors, b: Processors) {
    a.Keys == b.Keys &&
    forall q :: q in a ==> b[q] == a[q].(needsUpdate := b[q].needsUpdate)
  }

  /** Dirty stays dirty. */
  ghost predicate Monotone(a: Processors, b: Processors)
    requires a.Keys == b.Keys
  {
    forall q :: q in a && a[q].needsUpdate ==> b[q].needsUpdate
  }

  ghost predicate NewlyDirty(before: Processors, after: Processors, q: ProcessorId) {
    q in before && q in after && !before[q].needsUpdate && after[q].needsUpdate
  }

  /** A chain of clean processors, each feeding the next. */
  ghost predicate CleanPath(procs: Processors, path: seq<ProcessorId>) {
    |path| >= 1 &&
    (forall i :: 0 <= i < |path| ==> path[i] in procs && !procs[path[i]].needsUpdate) &&
    (forall i :: 0 <= i < |path| - 1 ==> path[i] in procs && path[i + 1] in Clients(procs[path[i]]))
  }

  /** `q` is reached from `id` through processors that are all clean. */
  ghost predicate CleanReach(procs: Processors, id: ProcessorId, q: ProcessorId) {
    exists path :: CleanPath(procs, path) && path[0] == id && path[|path| - 1] == q
  }

  /** Every client of `q` is dirty in `after`. */
  ghost predicate ClientsDirty(before: Processors, after: Processors, q: ProcessorId) {
    q in before && forall c :: c in Clients(before[q]) && c in after ==> after[c].needsUpdate
  }

  /**
   * The outcome of `SetNeedsUpdate(id)`: `id` is dirty, nothing becomes
   * clean, only processors reached from `id` through clean ones become
   * dirty, and every client of a newly dirty processor is dirty.
   */
  ghost predicate FlagsPropagated(before: Processors, after: Processors, id: ProcessorId) {
    before.Keys == after.Keys &&
    Monotone(before, after) &&
    (id in after ==> after[id].needsUpdate) &&
    (forall q :: NewlyDirty(before, after, q) ==> CleanReach(before, id, q)) &&
    (forall q :: NewlyDirty(before, after, q) ==> ClientsDirty(before, after, q))
  }

  /**
   * The state inside `SetNeedsUpdate(id)` once `id` itself is dirty: as
   * above, except that the clients of `id` are still being visited.
   */
  ghost predicate PartlyPropagated(before: Processors, now: Processors, id: ProcessorId) {
    FlagsOnly(before, now) &&
    id in before && !before[id].needsUpdate && now[id].needsUpdate &&
    Monotone(before, now) &&
    (forall q :: NewlyDirty(before, now, q) ==> CleanReach(before, id, q)) &&
    (forall q :: NewlyDirty(before, now, q) && q != id ==> ClientsDirty(before, now, q))
  }

  lemma MonotoneShrinksClean(a: Processors, b: Processors)
    requires a.Keys == b.Keys && Monotone(a, b)
    ensures Clean(b) <= Clean(a)
  {
  }

  /** A clean path of a later state was clean, with the same edges, before. */
  lemma CleanPathEarlier(a: Processors, b: Processors, path: seq<ProcessorId>)
    requires FlagsOnly(a, b) && Monotone(a, b) && CleanPath(b, path)
    ensures CleanPath(a, path)
  {
    forall i | 0 <= i < |path| - 1
      ensures path[i + 1] in Clients(a[path[i]])
    {
      assert a[path[i]].outputLinks == b[path[i]].outputLinks;
      assert Clients(a[path[i]]) == Clients(b[path[i]]);
    }
  }

  /** Dirtying `id` itself starts the propagation. */
  lemma {:induction false} PropagationStart(before: Processors, id: ProcessorId)
    requires id in before && !before[id].needsUpdate
    ensures PartlyPropagated(before, before[id := before[id].(needsUpdate := true)], id)
  {
    var now := before[id := before[id].(needsUpdate := true)];
    forall q | NewlyDirty(before, now, q) ensures CleanReach(before, id, q) {
      assert q == id;
      assert CleanPath(before, [id]);
    }
  }

  /**
   * One recursive call on a client `c` of `id` keeps the propagation
   * state: whatever it dirties was reached from `c` through clean
   * processors, hence from `id`.
   */
  lemma {:induction false} PropagationStep(before: Processors, mid: Processors, after: Processors,
                                           id: ProcessorId, c: ProcessorId)
    requires PartlyPropagated(before, mid, id)
    requires c in Clients(before[id])
    requires FlagsOnly(mid, after) && FlagsPropagated(mid, after, c)
    ensures PartlyPropagated(before, after, id)
    ensures c in after ==> after[c].needsUpdate
  {
    forall q | NewlyDirty(before, after, q) ensures CleanReach(before, id, q) {
      if !mid[q].needsUpdate {
        assert NewlyDirty(mid, after, q);
        var path :| CleanPath(mid, path) && path[0] == c && path[|path| - 1] == q;
        CleanPathEarlier(before, mid, path);
        var longer := [id] + path;
        assert before[id].outputLinks == mid[id].outputLinks;
        assert CleanPath(before, longer);
      } else {
        assert NewlyDirty(before, mid, q);
      }
    }
    forall q | NewlyDirty(before, after, q) && q != id ensures ClientsDirty(before, after, q) {
      assert before[q].outputLinks == mid[q].outputLinks;
      assert Clients(before[q]) == Clients(mid[q]);
      if !mid[q].needsUpdate {
        assert NewlyDirty(mid, after, q);
      } else {
        assert NewlyDirty(before, mid, q);
        assert ClientsDirty(before, mid, q);
      }
    }
  }

  /** Once every client of `id` is dirty the propagation is complete. */
  lemma PropagationDone(before: Processors, now: Processors, id: ProcessorId)
    requires PartlyPropagated(before, now, id) && ClientsDirty(before, now, id)
    ensures FlagsPropagated(before, now, id)
  {
  }

  /** Along a clean path from `id`, every processor ends up dirty. */
  lemma {:induction false} PropagationReachesPath(before: Processors, after: Processors, id: ProcessorId,
                                                  path: seq<ProcessorId>)
    requires FlagsPropagated(before, after, id)
    requires CleanPath(before, path) && path[0] == id
    ensures after[path[|path| - 1]].needsUpdate
    decreases |path|
  {
    if |path| > 1 {
      var prefix := path[..|path| - 1];
      assert CleanPath(before, prefix);
      PropagationReachesPath(before, after, id, prefix);
      var p := path[|path| - 2];
      assert prefix[|prefix| - 1] == p;
      assert NewlyDirty(before, after, p);
      assert ClientsDirty(before, after, p);
    }
  }

  /**
   * `SetNeedsUpdate(id)` dirties exactly the processors that were dirty
   * already or are reached from `id` through a chain of clean processors
   * (none at all when `id` was dirty).
   */
  lemma {:induction false} PropagationExact(before: Processors, after: Processors, id: ProcessorId, q: ProcessorId)
    requires FlagsPropagated(before, after, id) && q in before
    ensures after[q].needsUpdate <==> before[q].needsUpdate || CleanReach(before, id, q)
  {
    if CleanReach(before, id, q) {
      var path :| CleanPath(before, path) && path[0] == id && path[|path| - 1] == q;
      PropagationReachesPath(before, after, id, path);
    }
    if after[q].needsUpdate && !before[q].needsUpdate {
      assert NewlyDirty(before, after, q);
    }
  }

  /** Marking an already dirty processor reaches nothing. */
  lemma NoReachFromDirty(before: Processors, id: ProcessorId, q: ProcessorId)
    requires id in before && before[id].needsUpdate
    ensures !CleanReach(before, id, q)
  {
  }

  /** `a` and `b` agree on ids, flags and links: inputs and outputs may differ. */
  ghost predicate SameFlagsAndLinks(a: Processors, b: Processors) {
    a.Keys == b.Keys &&
    forall q :: q in a ==> a[q].needsUpdate == b[q].needsUpdate && a[q].outputLinks == b[q].outputLinks
  }

  /** Propagation only looks at flags and links. */
  lemma PropagationIgnoresInputs(a: Processors, b: Processors, after: Processors, id: ProcessorId)
    requires SameFlagsAndLinks(a, b) && FlagsPropagated(b, after, id)
    ensures FlagsPropagated(a, after, id)
  {
    forall q | NewlyDirty(a, after, q) ensures CleanReach(a, id, q) && ClientsDirty(a, after, q) {
      assert NewlyDirty(b, after, q);
      var path :| CleanPath(b, path) && path[0] == id && path[|path| - 1] == q;
      forall i | 0 <= i < |path| - 1 ensures path[i + 1] in Clients(a[path[i]]) {
        assert Clients(a[path[i]]) == Clients(b[path[i]]);
      }
      assert CleanPath(a, path);
      assert Clients(a[q]) == Clients(b[q]);
    }
  }
}
