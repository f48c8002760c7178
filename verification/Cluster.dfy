/** The cluster as the controller touches it: objects by key, and what applying a manifest set,
    pruning and waiting for removal can do to them (apps/stackd/src/reconcile.ts:208-309). */
module Cluster {
  import opened Manifests
  import opened State

  /** `deleting`: deleted but not gone yet (its finalizers are still running). */
  datatype Live = Live(obj: KubeObject, deleting: bool)

  type Objects = map<Key, Live>

  ghost predicate WellKeyed(cluster: Objects) {
    forall k :: k in cluster ==> KeyOf(cluster[k].obj.ref) == k
  }

  /** Carries this backend's labels and is not on its way out. */
  predicate Mine(c: Config, live: Live) {
    IsOurs(live.obj, c.backend) && !live.deleting
  }

  /** Every object of the backend that a prune or a purge could delete is one of the `known`. */
  ghost predicate Tracked(c: Config, cluster: Objects, known: set<Key>) {
    forall k :: k in cluster && Mine(c, cluster[k]) && PrunableKey(k, c.namespace, c.kinds) ==> k in known
  }

  /** Those of them that are not. */
  ghost function Untracked(c: Config, cluster: Objects, known: set<Key>): set<Key> {
    set k | k in cluster && Mine(c, cluster[k]) && PrunableKey(k, c.namespace, c.kinds) && k !in known
  }

  function Put(cluster: Objects, o: KubeObject): Objects {
    var k := KeyOf(o.ref);
    cluster[k := Live(o, k in cluster && cluster[k].deleting)]
  }

  function PutAll(cluster: Objects, objs: seq<KubeObject>): Objects {
    if objs == [] then cluster else Put(PutAll(cluster, objs[..|objs| - 1]), objs[|objs| - 1])
  }

  function Select(objs: seq<KubeObject>, p: KubeObject -> bool): (r: seq<KubeObject>)
    ensures forall o :: o in r <==> o in objs && p(o)
  {
    if objs == [] then []
    else
      var rest := Select(objs[1..], p);
      if p(objs[0]) then [objs[0]] + rest else rest
  }

  function Crds(objs: seq<KubeObject>): seq<KubeObject> {
    Select(objs, (o: KubeObject) => IsCrd(o.ref))
  }

  /** Everything but CRDs, Namespaces leading. */
  function Others(objs: seq<KubeObject>): seq<KubeObject> {
    Select(objs, (o: KubeObject) => !IsCrd(o.ref) && o.ref.kind == "Namespace") +
    Select(objs, (o: KubeObject) => !IsCrd(o.ref) && o.ref.kind != "Namespace")
  }

  /** The order a set is applied in. */
  function ApplyOrder(objs: seq<KubeObject>): (order: seq<KubeObject>)
    ensures forall o :: o in order <==> o in objs
  {
    Crds(objs) + Others(objs)
  }

  /** Nothing is sent before every CRD of the set, and no namespaced content before its Namespaces. */
  lemma CrdsLead(objs: seq<KubeObject>, i: nat, j: nat)
    requires i < j < |ApplyOrder(objs)|
    ensures var order := ApplyOrder(objs);
            && (IsCrd(order[j].ref) ==> IsCrd(order[i].ref))
            && (order[j].ref.kind == "Namespace" && !IsCrd(order[i].ref) ==> order[i].ref.kind == "Namespace")
  {
    var order, crds := ApplyOrder(objs), Crds(objs);
    var spaces := Select(objs, (o: KubeObject) => !IsCrd(o.ref) && o.ref.kind == "Namespace");
    var rest := Select(objs, (o: KubeObject) => !IsCrd(o.ref) && o.ref.kind != "Namespace");
    forall k | 0 <= k < |order|
      ensures k < |crds| ==> order[k] in crds
      ensures |crds| <= k < |crds| + |spaces| ==> order[k] in spaces
      ensures |crds| + |spaces| <= k ==> order[k] in rest
    {
    }
  }

  lemma KeysSnoc(objs: seq<KubeObject>, last: KubeObject)
    ensures Keys(RefsOf(objs + [last])) == Keys(RefsOf(objs)) + {KeyOf(last.ref)}
  {
    assert RefsOf(objs + [last]) == RefsOf(objs) + [last.ref];
    assert forall r :: r in RefsOf(objs) + [last.ref] <==> r in RefsOf(objs) || r == last.ref;
  }

  /** `after` is `before` with `objs` added, each key holding one of them, and nothing else changed. */
  ghost predicate Added(before: Objects, after: Objects, objs: seq<KubeObject>) {
    && after.Keys == before.Keys + Keys(RefsOf(objs))
    && (forall k :: k in before && k !in Keys(RefsOf(objs)) ==> after[k] == before[k])
    && (forall k :: k in Keys(RefsOf(objs)) ==> after[k].obj in objs && KeyOf(after[k].obj.ref) == k)
  }

  lemma AddedNone(before: Objects)
    ensures Added(before, before, [])
  {
  }

  lemma PutOne(cluster: Objects, o: KubeObject)
    ensures var after := Put(cluster, o);
      && after.Keys == cluster.Keys + {KeyOf(o.ref)} && after[KeyOf(o.ref)].obj == o
      && (forall k :: k in cluster && k != KeyOf(o.ref) ==> after[k] == cluster[k])
  {
  }

  lemma AddedOne(before: Objects, between: Objects, objs: seq<KubeObject>, last: KubeObject)
    requires Added(before, between, objs)
    ensures Added(before, Put(between, last), objs + [last])
  {
    hide RefsOf, Keys, KeyOf;
    KeysSnoc(objs, last);
    var all, after, keys := objs + [last], Put(between, last), Keys(RefsOf(objs));
    PutOne(between, last);
    assert after.Keys == before.Keys + Keys(RefsOf(all));
    forall k | k in Keys(RefsOf(all)) ensures after[k].obj in all && KeyOf(after[k].obj.ref) == k {
      if k == KeyOf(last.ref) {
        assert last in all;
      } else {
        assert k in keys && after[k] == between[k] && after[k].obj in objs;
      }
    }
  }

  lemma {:induction false} PutAllAdds(cluster: Objects, objs: seq<KubeObject>)
    ensures Added(cluster, PutAll(cluster, objs), objs)
    ensures WellKeyed(cluster) ==> WellKeyed(PutAll(cluster, objs))
  {
    hide Added, Put, WellKeyed;
    if objs == [] {
      AddedNone(cluster);
    } else {
      var n := |objs| - 1;
      PutAllAdds(cluster, objs[..n]);
      assert objs == objs[..n] + [objs[n]];
      AddedOne(cluster, PutAll(cluster, objs[..n]), objs[..n], objs[n]);
      PutKeyed(PutAll(cluster, objs[..n]), objs[n]);
    }
  }

  lemma PutKeyed(cluster: Objects, o: KubeObject)
    ensures WellKeyed(cluster) ==> WellKeyed(Put(cluster, o))
  {
  }

  /** Every object of the set is in the cluster as rendered, or as another object of the set with the
      same key was. */
  ghost predicate InPlace(cluster: Objects, objs: seq<KubeObject>) {
    forall o :: o in objs ==>
      && KeyOf(o.ref) in cluster && cluster[KeyOf(o.ref)].obj in objs
      && (OnePerKey(objs) ==> cluster[KeyOf(o.ref)].obj == o)
  }

  ghost predicate OnePerKey(objs: seq<KubeObject>) {
    forall a, b :: a in objs && b in objs && KeyOf(a.ref) == KeyOf(b.ref) ==> a == b
  }

  /** `after` is `before` with some objects among `touched` deleted or on their way out. */
  ghost predicate Reduced(before: Objects, after: Objects, touched: set<Key>) {
    && (forall k :: k in after ==>
          k in before && after[k].obj == before[k].obj && (before[k].deleting ==> after[k].deleting))
    && (forall k :: k in before && k !in touched ==> k in after && after[k] == before[k])
  }

  /** `after` is `before` without some objects that were on their way out. */
  ghost predicate Settled(before: Objects, after: Objects) {
    && (forall k :: k in after ==> k in before && after[k] == before[k])
    && (forall k :: k in before && !before[k].deleting ==> k in after)
  }

  /** Nothing of `refs` that may be deleted is live with this backend's labels. */
  ghost predicate NoneMine(c: Config, cluster: Objects, refs: seq<ObjectRef>, purge: bool) {
    forall r :: r in refs && Prunable(r, c.namespace, c.kinds, purge) && KeyOf(r) in cluster ==>
      !Mine(c, cluster[KeyOf(r)])
  }

  ghost predicate AllGone(c: Config, cluster: Objects, refs: seq<ObjectRef>, purge: bool) {
    forall r :: r in refs && Prunable(r, c.namespace, c.kinds, purge) && KeyOf(r) in cluster ==>
      !IsOurs(cluster[KeyOf(r)].obj, c.backend)
  }

  /** Applying objects the controller knows of keeps every one of its objects known. */
  lemma AppliedTracked(c: Config, cluster: Objects, objs: seq<KubeObject>, known: set<Key>)
    requires Tracked(c, cluster, known) && Keys(RefsOf(objs)) <= known
    ensures Tracked(c, PutAll(cluster, objs), known)
  {
    PutAllAdds(cluster, objs);
  }

  /** Once everything known but what is `left` has been pruned, only that is there. */
  lemma PrunedTracked(c: Config, cluster: Objects, known: set<Key>, refs: seq<ObjectRef>, left: set<Key>)
    requires Tracked(c, cluster, known) && AllCoreV1(refs)
    requires NoneMine(c, cluster, refs, false)
    requires forall k :: k in known && k !in left ==> k in Keys(refs) && !DataKey(k)
    ensures Tracked(c, cluster, left)
  {
    forall k | k in cluster && Mine(c, cluster[k]) && PrunableKey(k, c.namespace, c.kinds) ensures k in left {
      if k !in left {
        var r :| r in refs && KeyOf(r) == k;
        PrunableByKey(r, c.namespace, c.kinds);
        assert false;
      }
    }
  }

  lemma {:induction false} PutAllConcat(cluster: Objects, a: seq<KubeObject>, b: seq<KubeObject>)
    ensures PutAll(PutAll(cluster, a), b) == PutAll(cluster, a + b)
  {
    hide Put;
    if b == [] {
      assert a + b == a;
    } else {
      var n := |b| - 1;
      PutAllConcat(cluster, a, b[..n]);
      assert (a + b)[..|a| + n] == a + b[..n];
      assert (a + b)[|a| + n] == b[n];
    }
  }

  lemma ReducedTwice(a: Objects, b: Objects, c: Objects, touched: set<Key>, more: set<Key>)
    requires Reduced(a, b, touched) && Reduced(b, c, more) && more <= touched
    ensures Reduced(a, c, touched)
    ensures WellKeyed(b) ==> WellKeyed(c)
  {
  }

  lemma NoneMineOneMore(c: Config, before: Objects, after: Objects, refs: seq<ObjectRef>, i: nat, purge: bool)
    requires i < |refs| && Reduced(before, after, {KeyOf(refs[i])})
    requires NoneMine(c, before, refs[..i], purge) && NoneMine(c, after, [refs[i]], purge)
    ensures NoneMine(c, after, refs[..i + 1], purge)
  {
    forall r | r in refs[..i + 1] && Prunable(r, c.namespace, c.kinds, purge) && KeyOf(r) in after
      ensures !Mine(c, after[KeyOf(r)])
    {
      if r !in refs[..i] {
        assert r == refs[i] && r in [refs[i]];
      }
    }
  }

  lemma ReducedTracked(c: Config, before: Objects, after: Objects, touched: set<Key>, known: set<Key>)
    requires Reduced(before, after, touched) && Tracked(c, before, known)
    ensures Tracked(c, after, known)
  {
  }

  lemma SettledTracked(c: Config, before: Objects, after: Objects, known: set<Key>)
    requires Settled(before, after) && Tracked(c, before, known)
    ensures Tracked(c, after, known)
    ensures WellKeyed(before) ==> WellKeyed(after)
  {
  }

  /** The moment a promotion is stored, what it stops tracking is exactly what it is about to prune;
      once that is pruned, nothing is left behind. */
  lemma PromotedTracked(c: Config, cluster: Objects, s: BackendState, refs: seq<ObjectRef>, next: BackendState,
    orphans: set<Key>)
    requires WellFormed(s)
    requires Keys(next.inventory) == Keys(refs) && Keys(next.retained) == DataKnown(s) - Keys(refs)
    requires Tracked(c, cluster, Known(s) + orphans)
    ensures var removed := RemovedRefs(s.inventory, refs);
            && Tracked(c, cluster, Known(next) + (orphans + Keys(removed)))
            && AllCoreV1(removed)
            && forall k :: k in Keys(removed) && DataKey(k) ==> k in Known(next)
  {
    RemovedKeys(s.inventory, refs);
    RetainedKeys(s);
  }

  lemma InKeys(objs: seq<KubeObject>, o: KubeObject)
    requires o in objs
    ensures KeyOf(o.ref) in Keys(RefsOf(objs))
  {
    var i :| 0 <= i < |objs| && objs[i] == o;
    assert RefsOf(objs)[i] == o.ref;
  }

  lemma PutInPlace(cluster: Objects, objs: seq<KubeObject>)
    requires WellKeyed(cluster)
    ensures InPlace(PutAll(cluster, ApplyOrder(objs)), objs)
  {
    var order := ApplyOrder(objs);
    PutAllAdds(cluster, order);
    forall o | o in objs ensures KeyOf(o.ref) in Keys(RefsOf(order)) {
      InKeys(order, o);
    }
  }

  lemma ReducedInPlace(before: Objects, after: Objects, touched: set<Key>, objs: seq<KubeObject>)
    requires InPlace(before, objs) && Reduced(before, after, touched)
    requires touched !! Keys(RefsOf(objs))
    ensures InPlace(after, objs)
  {
    forall o | o in objs ensures KeyOf(o.ref) in Keys(RefsOf(objs)) {
      InKeys(objs, o);
    }
  }

  /** Once a fall back has pruned, the state it is about to store lists everything that is left. */
  lemma FellBackTracked(c: Config, cluster: Objects, s: BackendState, refs: seq<ObjectRef>, good: seq<ObjectRef>,
    next: BackendState, orphans: set<Key>)
    requires StateOk(c, s) && AllCoreV1(refs)
    requires Known(next) == Keys(good) + DataKnown(WithInventory(s, refs))
    requires Tracked(c, cluster, Known(WithInventory(s, refs)) + orphans)
    requires NoneMine(c, cluster, RemovedRefs(WithInventory(s, refs).inventory, good), false)
    ensures Tracked(c, cluster, Known(next) + orphans)
  {
    var attempted := WithInventory(s, refs);
    var gone := RemovedRefs(attempted.inventory, good);
    WithInventoryOk(c, s, refs);
    RemovedKeys(attempted.inventory, good);
    RetainedKeys(attempted);
    PrunedTracked(c, cluster, Known(attempted) + orphans, gone, Known(next) + orphans);
  }

  /** With the workloads gone, the data is all that is left. */
  lemma RemovedTracked(c: Config, cluster: Objects, s: BackendState, orphans: set<Key>)
    requires StateOk(c, s) && Tracked(c, cluster, Known(s) + orphans)
    requires AllGone(c, cluster, s.inventory, false)
    ensures Tracked(c, cluster, Known(Removed(s)) + orphans)
  {
    RemovedOk(c, s);
    RetainedKeys(s);
    PrunedTracked(c, cluster, Known(s) + orphans, s.inventory, Known(Removed(s)) + orphans);
  }

  /** With the retained data gone too, nothing is. */
  lemma PurgedTracked(c: Config, cluster: Objects, s: BackendState, orphans: set<Key>)
    requires WellFormed(s) && s.inventory == [] && Tracked(c, cluster, Known(s) + orphans)
    requires AllGone(c, cluster, s.retained, true)
    ensures Tracked(c, cluster, orphans)
    ensures DataGone(c, cluster, DataKnown(s))
  {
    PurgedGone(c, cluster, s);
    RetainedKeys(s);
  }

  lemma PurgedGone(c: Config, cluster: Objects, s: BackendState)
    requires WellFormed(s) && s.inventory == [] && AllGone(c, cluster, s.retained, true)
    ensures DataGone(c, cluster, DataKnown(s))
  {
    forall k | k in Known(s) && PrunableKey(k, c.namespace, c.kinds) && k in cluster
      ensures !IsOurs(cluster[k].obj, c.backend)
    {
      var r :| r in s.retained && KeyOf(r) == k;
      PrunableByKey(r, c.namespace, c.kinds);
    }
  }

  /** None of the data that may be purged carries this backend's labels any more. */
  ghost predicate DataGone(c: Config, cluster: Objects, data: set<Key>) {
    forall k :: k in data && PrunableKey(k, c.namespace, c.kinds) && k in cluster ==> !IsOurs(cluster[k].obj, c.backend)
  }
}
