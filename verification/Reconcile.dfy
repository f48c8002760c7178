/** One backend's reconcile (apps/stackd/src/reconcile.ts). Every call that leaves the process may
    fail, having happened or not; a method that returns `!ok` stands both for the error it throws and
    for the process dying there, so what holds at `!ok` holds at every crash point. */
module Reconcile {
  import opened Wrappers
  import opened Manifests
  import opened State
  import opened Store
  import opened Cluster
  import opened Ticks
  import opened Runs

  // `spoilt`: an error kept the attempt from being seen ready. `fault`: one kept the stored set from being read.
  datatype AttemptEnd =
    | Healthy(good: LastGood)
    | Unhealthy(spoilt: bool, fault: bool)
    | RolledBack(spoilt: bool, objs: seq<KubeObject>)

  class Controller {
    const cfg: Config
    const store: StateStore
    var cluster: Objects
    var record: Integrity // scpd's, from the last report it stored
    var memory: Option<StateDigests> // this process's: of a state it stored, or trusted on load
    var appliedAt: Option<int>

    // This tick's account.
    ghost var found: World // what the tick found
    ghost var hasLoaded: bool
    ghost var earlier: set<BackendState> // every state stored before it
    ghost var rendered: set<KubeObject>
    ghost var applied: set<KubeObject>
    ghost var deleted: set<Deletion>
    ghost var saves: seq<Save>
    ghost var reports: seq<Notice>
    ghost var healthy: Option<seq<KubeObject>> // the set the last readiness check passed, if it did
    // The whole run's.
    ghost var log: seq<TickLog> // every tick so far
    ghost var saved: set<BackendState> // every state this controller stored
    ghost var anchor: Option<StateDigests> // the digests trusted before scpd had a record
    ghost var owed: set<Key> // data tracked since the last purge acted on
    ghost var orphans: set<Key> // left behind by a promotion's prune that was cut short
    ghost var sound: bool // no state was rewritten, every load verified, core references carry v1

    /** A first start: nothing stored, nothing recorded, none of the backend's objects around. */
    constructor (cfg: Config, chunkBytes: nat, cluster: Objects)
      requires chunkBytes > 0 && Lawful(cfg.codec)
      requires WellKeyed(cluster) && Tracked(cfg, cluster, {})
      ensures Valid() && sound && DigestsGenuine() && Agreed() && Faithful(cfg, store.Current()) && log == []
      ensures fresh(store) && this.cfg == cfg && this.cluster == cluster && store.Current() == EMPTY_STATE
    {
      this.cfg, this.cluster := cfg, cluster;
      store := new StateStore(cfg.codec, chunkBytes);
      record, memory, appliedAt := Integrity(None, None), None, None;
      rendered, applied, deleted, saves, reports, healthy, hasLoaded := {}, {}, {}, [], [], None, false;
      log, saved, anchor, owed, orphans, sound := [], {}, None, {}, {}, true;
    }

    ghost predicate Valid()
      reads this`cluster, this`owed, this`orphans, this`sound, store`cell
    {
      && store.Valid() && store.codec == cfg.codec
      && WellKeyed(cluster)
      && (sound ==> BookKept(store.Current()))
    }

    /** The bookkeeping is right for the stored state `s`. */
    ghost predicate BookKept(s: BackendState)
      reads this`cluster, this`owed, this`orphans
    {
      && StateOk(cfg, s)
      && Tracked(cfg, cluster, Known(s) + orphans)
      && owed == DataKnown(s)
    }

    ghost function Now(): World
      reads this`cluster, this`record, this`memory, this`orphans, this`sound, store`cell
    {
      World(store.Current(), record, memory, cluster, orphans, sound)
    }

    /** The digests the controller may hand scpd: of a state it stored, or the one trusted first. */
    ghost predicate Genuine(d: StateDigests)
      reads this`saved, this`anchor
    {
      anchor == Some(d) || exists s :: s in saved && DigestsOf(s) == d
    }

    ghost predicate DigestsGenuine()
      reads this`record, this`memory, this`saved, this`anchor
    {
      && (record.inventory.None? ==> record.lastGood.None?)
      && (record.inventory.Some? ==> Genuine(StateDigests(record.lastGood, record.inventory.value)))
      && (memory.Some? ==> Genuine(memory.value))
    }

    /** A report would not erase scpd's record. */
    ghost predicate CanReport()
      reads this`memory, this`record
    {
      memory.None? ==> record.inventory.None?
    }

    /** The store, scpd and the controller say the same: the next load is trusted. */
    ghost predicate Agreed()
      reads this`memory, this`record, store`cell
    {
      && VerifyState(store.Current(), record) == Trust(true, true)
      && (memory.Some? ==> memory.value == DigestsOf(store.Current()))
    }

    // ---- this tick's account --------------------------------------------------------------------

    ghost predicate Seen()
      reads this`found, this`cluster, this`applied, this`deleted
    {
      Traced(found.cluster, cluster, applied, deleted)
    }

    ghost predicate Filed()
      reads this`found, this`saves, this`saved, this`earlier, store`cell
    {
      && store.Current() == LastSaved(found.state, saves)
      && saved == earlier + set s | s in saves :: s.state
    }

    ghost predicate Told()
      reads this`found, this`record, this`reports, this`saves, this`hasLoaded
    {
      && record == LastStored(found.record, reports)
      && (found.record.inventory.None? ==> found.record.lastGood.None?)
      && (found.record.inventory.Some? ==> record.inventory.Some?)
      && NoticesTrue(found, hasLoaded, saves, reports)
    }

    ghost predicate Minded()
      reads this`found, this`memory, this`saves, this`hasLoaded
    {
      memory == MemoryAfter(Recalled(found, hasLoaded), saves)
    }

    /** The account explains how the cluster, the store, scpd and the memory differ from what was found. */
    ghost predicate Ledger()
      reads this`found, this`cluster, this`applied, this`deleted, this`saves, this`saved, this`earlier
      reads this`memory, this`record, this`reports, this`hasLoaded, store`cell
    {
      Seen() && Filed() && Told() && Minded()
    }

    /** Nothing is ever taken out of the account. */
    twostate predicate OnlyAdds()
      reads this`rendered, this`applied, this`deleted, this`saves, this`reports
    {
      && old(rendered) <= rendered && old(applied) <= applied && old(deleted) <= deleted
      && old(saves) <= saves && old(reports) <= reports
    }

    twostate predicate Unsaved()
      reads this`saves, store`cell
    {
      saves == old(saves) && store.cell == old(store.cell)
    }

    /** At most one state was saved, and it is the one stored. */
    twostate predicate SavesOne()
      reads this`saves, store`cell
    {
      forall s :: s in saves ==> s in old(saves) || s.state == store.Current()
    }

    // ---- rendering and applying -----------------------------------------------------------------

    ghost predicate RenderedOk()
      reads this`rendered
    {
      forall o :: o in rendered ==> Admissible(o.ref, cfg.namespace, cfg.kinds) && IsOurs(o, cfg.backend)
    }

    /** Every render named core objects at the core group's one version. */
    ghost predicate RenderedCore()
      reads this`rendered
    {
      forall o :: o in rendered ==> CoreV1(o.ref)
    }

    /** `renderBackend`: the chart may come out as anything; what passes is admissible and labelled. */
    method Render(t: Tick, output: Option<seq<KubeObject>>) returns (ok: bool, desired: DesiredSet)
      requires RenderedOk()
      modifies this`rendered, this`sound
      ensures OnlyAdds() && RenderedOk()
      ensures ok <==> RenderOf(cfg, t, output).Some?
      ensures ok <==>
        && output.Some? && output.value != []
        && forall o :: o in output.value ==> Admissible(o.ref, cfg.namespace, cfg.kinds)
      ensures ok ==> RenderOf(cfg, t, output) == Some(desired) && Accepted(cfg, desired.objects, t.release)
      ensures ok ==> desired.fingerprint == cfg.codec.fingerprint(desired.objects)
      ensures ok ==> && |desired.objects| == |output.value|
                     && forall i :: 0 <= i < |desired.objects| ==>
                          Stamped(desired.objects[i], output.value[i], cfg.backend, t.release)
      ensures rendered == old(rendered) + ObjectsOf(RenderOf(cfg, t, output))
      ensures sound ==> old(sound)
      ensures ok && sound ==> AllCoreV1(RefsOf(desired.objects))
      ensures old(sound) && RenderedCore() ==> sound
    {
      ok := output.Some?;
      desired := DesiredSet([], "");
      if !ok { return; }
      var objects := StampAll(output.value, cfg.backend, t.release);
      desired := DesiredSet(objects, cfg.codec.fingerprint(objects));
      if output.value == [] || exists o | o in output.value :: !Admissible(o.ref, cfg.namespace, cfg.kinds) {
        ok := false;
        return;
      }
      RenderAccepted(cfg, t, output);
      RenderKeeps(cfg, t, output);
      AcceptedOurs(cfg, objects, t.release);
      rendered := rendered + ObjectsOf(Some(desired));
      sound := sound && AllCoreV1(RefsOf(objects));
    }

    method KubeApply(o: KubeObject) returns (ok: bool)
      requires Seen()
      modifies this`cluster, this`applied
      ensures OnlyAdds() && Seen()
      ensures (cluster, applied) == (old(cluster), old(applied)) ||
              (cluster, applied) == (Put(old(cluster), o), old(applied) + {o})
      ensures ok ==> cluster == Put(old(cluster), o)
    {
      var happened: bool := *;
      if happened {
        TracedPut(found.cluster, cluster, o, applied, deleted);
        cluster := Put(cluster, o);
        applied := applied + {o};
      }
      ok := *;
      ok := ok && happened;
    }

    method ApplyEach(objs: seq<KubeObject>) returns (ok: bool, ghost n: nat)
      requires Seen()
      modifies this`cluster, this`applied
      ensures OnlyAdds() && Seen()
      ensures n <= |objs| && cluster == PutAll(old(cluster), objs[..n]) && (ok ==> n == |objs|)
      ensures forall o :: o in applied ==> o in old(applied) || o in objs
    {
      hide Seen;
      n := 0;
      for i := 0 to |objs|
        invariant OnlyAdds() && Seen()
        invariant n == i && cluster == PutAll(old(cluster), objs[..i])
        invariant forall o :: o in applied ==> o in old(applied) || o in objs
      {
        assert objs[..i + 1][..i] == objs[..i];
        ghost var before := cluster;
        ok := KubeApply(objs[i]);
        if !ok {
          if cluster != before { n := n + 1; }
          return;
        }
        n := n + 1;
      }
      assert objs[..|objs|] == objs;
      ok := true;
    }

    /** In the order of `ApplyOrder`, waiting behind the CRDs until they are Established. Whatever fails,
        what was applied is a prefix of that order. */
    method ApplyManifestSet(t: Tick, objs: seq<KubeObject>) returns (ok: bool, ghost n: nat)
      requires Seen()
      modifies this`cluster, this`applied
      ensures OnlyAdds() && Seen()
      ensures n <= |ApplyOrder(objs)| && cluster == PutAll(old(cluster), ApplyOrder(objs)[..n])
      ensures ok ==> n == |ApplyOrder(objs)|
      ensures n > |Crds(objs)| && Crds(objs) != [] ==> t.established(Crds(objs))
      ensures forall o :: o in applied ==> o in old(applied) || o in objs
    {
      hide Seen;
      var crds, others := Crds(objs), Others(objs);
      ok, n := ApplyEach(crds);
      assert ApplyOrder(objs)[..n] == crds[..n];
      if !ok { return; }
      if |crds| > 0 {
        ok := *; // the polls
        ok := ok && t.established(crds);
        if !ok { return; }
      }
      ghost var m;
      ok, m := ApplyEach(others);
      PutAllConcat(old(cluster), crds, others[..m]);
      n := n + m;
      assert ApplyOrder(objs)[..n] == crds + others[..m];
    }

    /** Applying a set whose objects are all listed, cut short or not. */
    method ApplyKnown(t: Tick, objs: seq<KubeObject>) returns (ok: bool)
      requires Valid() && Seen()
      requires sound ==> Keys(RefsOf(objs)) <= Known(store.Current())
      modifies this`cluster, this`applied
      ensures OnlyAdds() && Seen() && Valid()
      ensures forall o :: o in applied ==> o in old(applied) || o in objs
      ensures ok ==> InPlace(cluster, objs)
    {
      hide Seen, StateOk, Tracked, DataKnown, Known;
      ghost var n;
      ghost var order := ApplyOrder(objs);
      ok, n := ApplyManifestSet(t, objs);
      PutAllAdds(old(cluster), order[..n]);
      if sound {
        SameKeys(objs, order[..n]);
        AppliedTracked(cfg, old(cluster), order[..n], Known(store.Current()) + orphans);
      }
      if ok {
        assert order[..n] == order;
        PutInPlace(old(cluster), objs);
      }
    }

    /** A readiness check. What it found is remembered, so that nothing is promoted on less. */
    method CheckReadiness(t: Tick, objs: seq<KubeObject>) returns (ok: bool, ready: bool)
      modifies this`healthy
      ensures ready == t.ready(objs)
      ensures healthy == if ok && ready then Some(objs) else None
    {
      ok, ready := *, t.ready(objs);
      healthy := if ok && ready then Some(objs) else None;
    }

    /** The wait after an attempt: an error in it, or before it, counts as not ready. */
    method AwaitReady(t: Tick, objs: seq<KubeObject>, complete: bool) returns (ready: bool, ghost fault: bool)
      requires healthy == None
      modifies this`healthy
      ensures ready <==> complete && !fault && t.ready(objs)
      ensures healthy == if ready then Some(objs) else None
    {
      ready, fault := false, false;
      if complete {
        var ok;
        ok, ready := CheckReadiness(t, objs);
        fault := !ok;
        ready := ok && ready;
      }
    }

    // ---- removing -------------------------------------------------------------------------------

    method KubeDelete(ref: ObjectRef) returns (ok: bool)
      requires Seen() && WasDeleted(found.cluster, applied, deleted, KeyOf(ref))
      modifies this`cluster
      ensures Seen()
      ensures Reduced(old(cluster), cluster, {KeyOf(ref)})
      ensures ok && KeyOf(ref) in cluster ==> cluster[KeyOf(ref)].deleting
    {
      var k := KeyOf(ref);
      ok := *;
      var happened, lingers: bool := *, *;
      if ok || happened {
        if k in cluster && lingers {
          cluster := cluster[k := cluster[k].(deleting := true)];
        } else {
          cluster := cluster - {k};
        }
      }
      TracedDelete(found.cluster, old(cluster), cluster, applied, deleted, k);
    }

    method PruneOne(ref: ObjectRef, purge: bool) returns (ok: bool)
      requires WellKeyed(cluster) && Seen()
      modifies this`cluster, this`deleted
      ensures OnlyAdds() && Seen()
      ensures Reduced(old(cluster), cluster, {KeyOf(ref)})
      ensures ok ==> NoneMine(cfg, cluster, [ref], purge)
      ensures forall d :: d in deleted ==> d in old(deleted) || MayPrune(d, [ref], purge)
    {
      hide Traced, WasDeleted, Prunable, IsOurs;
      if !Prunable(ref, cfg.namespace, cfg.kinds, purge) { return true; }
      ok := *; // the read
      if ok && KeyOf(ref) in cluster && IsOurs(cluster[KeyOf(ref)].obj, cfg.backend) {
        ghost var d := Deletion(ref, cluster[KeyOf(ref)].obj, purge);
        TracedMore(found.cluster, cluster, applied, deleted, d);
        deleted := deleted + {d};
        ok := KubeDelete(ref);
      }
    }

    /** Deletes what `refs` names, if it may be deleted and carries the backend's labels. */
    method PruneRemoved(refs: seq<ObjectRef>, purge: bool) returns (ok: bool)
      requires WellKeyed(cluster) && Seen()
      modifies this`cluster, this`deleted
      ensures OnlyAdds() && Seen()
      ensures Reduced(old(cluster), cluster, Keys(refs)) && WellKeyed(cluster)
      ensures ok ==> NoneMine(cfg, cluster, refs, purge)
      ensures forall d :: d in deleted ==> d in old(deleted) || MayPrune(d, refs, purge)
    {
      hide Seen;
      for i := 0 to |refs|
        invariant OnlyAdds() && Seen()
        invariant Reduced(old(cluster), cluster, Keys(refs)) && WellKeyed(cluster)
        invariant NoneMine(cfg, cluster, refs[..i], purge)
        invariant forall d :: d in deleted ==> d in old(deleted) || MayPrune(d, refs, purge)
      {
        ghost var before := cluster;
        assert refs[i] in refs && KeyOf(refs[i]) in Keys(refs);
        ok := PruneOne(refs[i], purge);
        ReducedTwice(old(cluster), before, cluster, Keys(refs), {KeyOf(refs[i])});
        if !ok { return; }
        NoneMineOneMore(cfg, before, cluster, refs, i, purge);
      }
      assert refs[..|refs|] == refs;
      ok := true;
    }

    ghost predicate MayPrune(d: Deletion, refs: seq<ObjectRef>, purge: bool) {
      && d.ref in refs && d.purge == purge
      && Prunable(d.ref, cfg.namespace, cfg.kinds, purge)
      && IsOurs(d.found, cfg.backend) && KeyOf(d.found.ref) == KeyOf(d.ref)
    }

    /** Objects on their way out may go at any time. */
    method Settle()
      requires Seen()
      modifies this`cluster
      ensures Seen() && Settled(old(cluster), cluster)
    {
      var leaving: set<Key> := *;
      cluster := map k | k in cluster && !(k in leaving && cluster[k].deleting) :: cluster[k];
      TracedSettled(found.cluster, old(cluster), cluster, applied, deleted);
    }

    method AwaitGone(refs: seq<ObjectRef>, purge: bool) returns (ok: bool, gone: bool)
      requires Seen()
      modifies this`cluster
      ensures Seen() && Settled(old(cluster), cluster)
      ensures gone ==> AllGone(cfg, cluster, refs, purge)
    {
      hide Seen;
      gone := false;
      var polls: nat := *;
      while !gone && polls > 0
        invariant Seen() && Settled(old(cluster), cluster)
        invariant gone ==> AllGone(cfg, cluster, refs, purge)
      {
        Settle();
        ok := *;
        if !ok { return; }
        gone := forall r | r in refs && Prunable(r, cfg.namespace, cfg.kinds, purge) ::
                  KeyOf(r) in cluster ==> !IsOurs(cluster[KeyOf(r)].obj, cfg.backend);
        polls := polls - 1;
      }
      ok := true;
    }

    // ---- storing and reporting ------------------------------------------------------------------

    /** `save`. `purge` marks the one save that may forget data. */
    method SaveState(s: BackendState, ghost purge: bool) returns (ok: bool)
      requires Filed() && Told() && Minded()
      modifies this`memory, this`saved, this`saves, this`owed, store`cell
      ensures OnlyAdds() && Filed() && Told() && Minded()
      ensures ok ==> store.cell == Some(s) && memory == Some(DigestsOf(s)) && s in saved
      ensures !ok ==> memory == old(memory)
      ensures || (!ok && Unsaved() && (saved, owed) == old((saved, owed)))
              || (store.cell == Some(s) && saves == old(saves) + [Save(s, ok)] && saved == old(saved) + {s}
                  && owed == if purge then {} else old(owed) + DataKnown(s))
      ensures old(DigestsGenuine()) ==> DigestsGenuine()
      ensures old(CanReport()) ==> CanReport()
    {
      hide MemoryAfter, Recalled, DigestsOf, DataKnown;
      ghost var before := store.cell;
      ok := store.Save(s);
      if ok || store.cell != before {
        SavedAlso(saves, Save(s, ok));
        MemoryLast(Recalled(found, hasLoaded), saves, Save(s, ok));
        NoticesStay(found, hasLoaded, saves, Save(s, ok), reports);
        saves := saves + [Save(s, ok)];
        saved := saved + {s};
        owed := if purge then {} else owed + DataKnown(s);
      }
      if ok { memory := Some(DigestsOf(s)); }
    }

    static lemma SavedAlso(saves: seq<Save>, s: Save)
      ensures LastSaved(EMPTY_STATE, saves + [s]) == s.state
      ensures (set x | x in saves + [s] :: x.state) == (set x | x in saves :: x.state) + {s.state}
    {
      assert s in saves + [s];
      assert forall x :: x in saves + [s] <==> x in saves || x == s;
    }

    /** One status report: scpd stores the digests, or never hears of them. */
    method Publish(digests: Option<StateDigests>) returns (stored: bool)
      requires DigestsGenuine() && Told()
      requires digests.Some? ==> Genuine(digests.value)
      requires digests.None? ==> record.inventory.None?
      requires IntegrityOf(digests) == Handed(found, hasLoaded, saves)
      modifies this`record, this`reports
      ensures OnlyAdds() && Told()
      ensures reports == old(reports) + [Notice(IntegrityOf(digests), stored, saves)]
      ensures old(record.inventory.Some?) ==> record.inventory.Some?
      ensures DigestsGenuine()
      ensures record == if stored then IntegrityOf(digests) else old(record)
    {
      hide Handed, Genuine, NoticesTrue, LastStored;
      stored := *;
      ghost var r := Notice(IntegrityOf(digests), stored, saves);
      NoticeAlso(found, hasLoaded, saves, reports, r);
      reports := reports + [r];
      if stored { record := IntegrityOf(digests); }
    }

    /** A report on the way: what is remembered, so scpd's record is never erased by it. */
    method Announce()
      requires DigestsGenuine() && CanReport() && Told() && Minded()
      modifies this`record, this`reports
      ensures OnlyAdds() && Told() && DigestsGenuine() && CanReport() && |reports| == old(|reports|) + 1
      ensures old(record.inventory.Some?) ==> record.inventory.Some?
    {
      hide Genuine, MemoryAfter, Recalled;
      var _ := Publish(memory);
    }

    /** A save the bookkeeping is right for: nothing live drops out of sight, and no data is forgotten
        but by a purge. */
    method SaveBooked(next: BackendState, ghost purge: bool) returns (ok: bool)
      requires Valid() && DigestsGenuine() && Ledger()
      requires sound ==> StaysBooked(next, purge)
      modifies this`memory, this`saved, this`saves, this`owed, store`cell
      ensures OnlyAdds() && Ledger()
      ensures Valid() && DigestsGenuine() && (old(CanReport()) ==> CanReport())
      ensures memory == old(memory) || memory.Some?
      ensures purge || old(owed) <= owed
      ensures SavesOne()
      ensures (!ok && Unsaved() && owed == old(owed)) || (|saves| > old(|saves|) && store.cell == Some(next))
    {
      hide Seen, Filed, Told, Minded, DigestsOf, Tracked, StateOk, DigestsGenuine, DataKnown, Known;
      ok := SaveState(next, purge);
    }

    ghost predicate StaysBooked(next: BackendState, purge: bool)
      reads this`cluster, this`owed, this`orphans
    {
      && StateOk(cfg, next) && Tracked(cfg, cluster, Known(next) + orphans)
      && (if purge then DataKnown(next) == {} else owed <= DataKnown(next))
    }

    // ---- promote --------------------------------------------------------------------------------

    /** None of the cells from `i` on, up to the n-th, is there. */
    ghost predicate CellsGone(i: nat, n: nat)
      reads store`chunks
    {
      forall j :: i <= j < n ==> j !in store.chunks
    }

    /** The state is the promoted one, and the cells its record names hold the promoted set. */
    ghost predicate IsPromoted(t: Tick, state: BackendState, desired: DesiredSet, good: LastGood)
      reads store
    {
      && t.ready(desired.objects) && IsGood(cfg, t, desired, good)
      && store.cell == Some(Promoted(state, RefsOf(desired.objects), good, t.purgeGeneration))
      && Complete(store.chunks, good.chunks) && Joined(store.chunks, good.chunks) == cfg.codec.pack(desired.objects)
      && (state.lastGood.Some? ==> CellsGone(good.chunks, state.lastGood.value.chunks))
    }

    /** What a promotion is about to prune is the backend's to name, and its data stays known. */
    ghost predicate PrunesOnly(removed: seq<ObjectRef>)
      reads store`cell
    {
      AllCoreV1(removed) && forall k :: k in Keys(removed) && DataKey(k) ==> k in Known(store.Current())
    }

    /** The save that makes a promotion final: what it stops listing counts as orphaned until pruned. */
    method StorePromoted(t: Tick, state: BackendState, desired: DesiredSet, good: LastGood) returns (ok: bool)
      requires Valid() && DigestsGenuine() && Ledger()
      requires IsRender(cfg, t, desired) && IsGood(cfg, t, desired, good)
      requires sound ==> AllCoreV1(RefsOf(desired.objects)) && state == store.Current()
      modifies this`memory, this`saved, this`saves, this`owed, this`orphans, store`cell
      ensures OnlyAdds() && Ledger() && SavesOne()
      ensures old(owed) <= owed
      ensures Valid() && DigestsGenuine() && (old(CanReport()) ==> CanReport())
      ensures if Unsaved() then !ok && orphans == old(orphans)
              else && |saves| > old(|saves|)
                   && store.cell == Some(Promoted(state, RefsOf(desired.objects), good, t.purgeGeneration))
                   && orphans == old(orphans) + Keys(RemovedRefs(state.inventory, RefsOf(desired.objects)))
      ensures ok && sound ==> PrunesOnly(RemovedRefs(state.inventory, RefsOf(desired.objects)))
    {
      hide Seen, Filed, Told, Minded, DigestsOf, CanReport;
      var refs := RefsOf(desired.objects);
      var next := Promoted(state, refs, good, t.purgeGeneration);
      if sound {
        PromotedOk(cfg, state, desired.objects, good, t.purgeGeneration);
        PromotedTracked(cfg, cluster, state, refs, next, orphans);
      }
      ok := SaveState(next, false);
      if |saves| > old(|saves|) {
        orphans := orphans + Keys(RemovedRefs(state.inventory, refs));
      }
    }

    /** Only a set found healthy is promoted. Wherever this ends, what is stored is still the state from
        before, or the promoted one with its set in the cells; only behind the promoted state is anything
        pruned, and only there, when the prune does not finish, can objects be left that nothing lists. */
    method Promote(t: Tick, state: BackendState, desired: DesiredSet) returns (ok: bool, ghost good: LastGood)
      requires healthy == Some(desired.objects) && t.ready(desired.objects)
      requires Valid() && DigestsGenuine() && Ledger()
      requires IsRender(cfg, t, desired)
      requires sound ==> AllCoreV1(RefsOf(desired.objects)) && state == store.Current()
      modifies this`cluster, this`deleted, this`memory, this`saved, this`saves, this`owed, this`orphans, store
      ensures OnlyAdds() && Ledger() && SavesOne()
      ensures old(owed) <= owed
      ensures Valid() && DigestsGenuine() && (old(CanReport()) ==> CanReport())
      ensures if Unsaved() then !ok && (cluster, deleted, orphans) == old((cluster, deleted, orphans))
              else |saves| > old(|saves|) && IsPromoted(t, state, desired, good)
      ensures ok ==> orphans == old(orphans)
      ensures old(orphans) <= orphans <= old(orphans) + Keys(RemovedRefs(state.inventory, RefsOf(desired.objects)))
      ensures Reduced(old(cluster), cluster, Keys(RemovedRefs(state.inventory, RefsOf(desired.objects))))
      ensures ok ==> NoneMine(cfg, cluster, RemovedRefs(state.inventory, RefsOf(desired.objects)), false)
      ensures forall d :: d in deleted ==> d in old(deleted) || MayPrune(d, state.inventory, false)
    {
      hide NoneMine;
      hide Seen, Filed, Told, Minded, DigestsOf, IsRender, OldOrPiece, Complete, Joined, Split, Promoted,
        DigestsGenuine;
      hide CanReport, BookKept, WellKeyed, PrunesOnly, AllCoreV1;
      var previous := match state.lastGood case None => 0 case Some(g) => g.chunks;
      var count, sha;
      ok, count, sha := store.SaveLastGood(desired.objects, previous);
      var record := LastGood(t.release, desired.fingerprint, t.upgradeGeneration, count, sha);
      good := record.(sha256 := Sha256(cfg.codec.pack(desired.objects)));
      if !ok { return; }
      ok := StorePromoted(t, state, desired, record);
      if !ok { return; }
      var removed := RemovedRefs(state.inventory, RefsOf(desired.objects));
      ok := PrunePromoted(removed, old(orphans));
    }

    method PrunePromoted(removed: seq<ObjectRef>, ghost before: set<Key>) returns (ok: bool)
      requires Valid() && Seen() && orphans == before + Keys(removed)
      requires sound ==> PrunesOnly(removed)
      modifies this`cluster, this`deleted, this`orphans
      ensures OnlyAdds() && Valid() && Seen()
      ensures orphans == if ok then before else old(orphans)
      ensures Reduced(old(cluster), cluster, Keys(removed)) && (ok ==> NoneMine(cfg, cluster, removed, false))
      ensures forall d :: d in deleted ==> d in old(deleted) || MayPrune(d, removed, false)
    {
      hide Seen;
      ghost var known := Known(store.Current());
      ok := PruneRemoved(removed, false);
      if sound {
        ReducedTracked(cfg, old(cluster), cluster, Keys(removed), known + orphans);
        if ok { PrunedTracked(cfg, cluster, known + orphans, removed, known + before); }
      }
      if ok { orphans := before; }
    }

    /** What `Promote` says about orphans, in the terms a whole tick uses. */
    lemma PromotedOrphans(t: Tick, s: BackendState, state: BackendState, desired: DesiredSet, good: LastGood,
      ok: bool, before: set<Key>)
      requires state == s || state == Attempted(s, desired)
      requires IsPromoted(t, state, desired, good)
      requires if ok then orphans == before
               else before <= orphans <= before + Keys(RemovedRefs(state.inventory, RefsOf(desired.objects)))
      ensures Promotes(cfg, t, s, desired, store.Current())
      ensures OrphansOnlyBehind(cfg, t, s, desired, ok, before, store.Current(), orphans)
    {
      hide Promoted, Merged;
      var refs := RefsOf(desired.objects);
      UnionKeys(s.inventory, refs);
      RemovedKeys(state.inventory, refs);
      PromotedInventory(state, refs, good, t.purgeGeneration);
    }

    static lemma PromotedInventory(s: BackendState, refs: seq<ObjectRef>, good: LastGood, purgeGeneration: int)
      ensures var next := Promoted(s, refs, good, purgeGeneration);
        next.inventory == refs && next.lastGood == Some(good)
    {
    }

    // ---- fall back ------------------------------------------------------------------------------

    /** The cells hold the very bytes the record has the hash of, and every object in them is admissible. */
    ghost predicate Intact(good: LastGood)
      reads store
    {
      && Complete(store.chunks, good.chunks) && Joined(store.chunks, good.chunks) == good.sha256.bytes
      && Restamped(cfg, good).Some? && AllAdmissible(cfg, Restamped(cfg, good).value)
    }

    /** What a fall back may apply: exactly the set whose bytes the record's hash is of, and only if the
        bytes in the cells now are those; otherwise it refuses. */
    method RecordedSet(good: LastGood) returns (fault: bool, objs: Option<seq<KubeObject>>)
      requires Valid()
      ensures objs.Some? ==> Restamped(cfg, good) == objs && AllAdmissible(cfg, objs.value)
      ensures !fault ==> (objs.Some? <==> Intact(good))
    {
      objs := None;
      var loaded;
      fault, loaded := store.LoadLastGood(good.chunks);
      match loaded {
        case None =>
        case Some((stored, sha)) =>
          var stamped := StampAll(stored, cfg.backend, good.release);
          assert forall i :: 0 <= i < |stored| ==> stamped[i].ref == stored[i].ref;
          if sha == good.sha256 && AllAdmissible(cfg, stamped) {
            objs := Some(stamped);
          }
      }
    }

    /** Applies the good set, then prunes what only the failed attempt had. */
    method ApplyGood(t: Tick, good: seq<KubeObject>, attempted: seq<ObjectRef>) returns (ok: bool)
      requires Valid() && Seen()
      requires sound ==> Keys(RefsOf(good)) <= Known(store.Current())
      modifies this`cluster, this`applied, this`deleted
      ensures OnlyAdds() && Seen() && Valid()
      ensures forall o :: o in applied ==> o in old(applied) || o in good
      ensures forall d :: d in deleted ==> d in old(deleted) || MayPrune(d, attempted, false)
      ensures ok ==> NoneMine(cfg, cluster, RemovedRefs(attempted, RefsOf(good)), false)
      ensures ok ==> InPlace(cluster, good)
    {
      hide Seen, StateOk, Tracked, DataKnown, Known;
      ok := ApplyKnown(t, good);
      if !ok { return; }
      ghost var before := cluster;
      var onlyFailed := RemovedRefs(attempted, RefsOf(good));
      ok := PruneRemoved(onlyFailed, false);
      RemovedKeys(attempted, RefsOf(good));
      ReducedInPlace(before, cluster, Keys(onlyFailed), good);
      if sound { ReducedTracked(cfg, before, cluster, Keys(onlyFailed), Known(store.Current()) + orphans); }
    }

    /** Remembers a failure there is nothing to fall back from, or nothing trustworthy. */
    method StoreFailure(state: BackendState, refs: seq<ObjectRef>, failed: FailedAttempt) returns (ok: bool)
      requires Valid() && DigestsGenuine() && Ledger()
      requires sound ==> StateOk(cfg, state) && AllCoreV1(refs)
      requires state.lastGood.Some? ==> failed.fingerprint != state.lastGood.value.fingerprint
      requires store.cell == Some(WithInventory(state, refs))
      modifies this`memory, this`saved, this`saves, this`owed, store`cell
      ensures OnlyAdds() && Ledger() && SavesOne()
      ensures old(owed) <= owed
      ensures Valid() && DigestsGenuine() && (old(CanReport()) ==> CanReport())
      ensures (!ok && Unsaved())
        || (|saves| > old(|saves|) && store.cell == Some(WithInventory(state, refs).(failed := Some(failed))))
    {
      hide Ledger, DigestsGenuine, StateOk;
      if sound { FailedOk(cfg, state, refs, failed); }
      ok := SaveBooked(WithInventory(state, refs).(failed := Some(failed)), false);
    }

    method StoreFellBack(state: BackendState, refs: seq<ObjectRef>, good: LastGood, failed: FailedAttempt)
      returns (ok: bool)
      requires Valid() && DigestsGenuine() && Ledger()
      requires state.lastGood == Some(good) && Restamped(cfg, good).Some?
      requires sound ==> StateOk(cfg, state) && AllCoreV1(refs) && failed.fingerprint != good.fingerprint
      requires store.cell == Some(WithInventory(state, refs))
      requires NoneMine(cfg, cluster,
        RemovedRefs(WithInventory(state, refs).inventory, RefsOf(Restamped(cfg, good).value)), false)
      modifies this`memory, this`saved, this`saves, this`owed, store`cell
      ensures OnlyAdds() && Ledger() && SavesOne()
      ensures old(owed) <= owed
      ensures Valid() && DigestsGenuine() && (old(CanReport()) ==> CanReport())
      ensures (!ok && Unsaved()) || (|saves| > old(|saves|) && IsFellBack(state, refs, good, failed))
      ensures sound ==> OnlyLeft(Keys(RefsOf(Restamped(cfg, good).value)) + DataKnown(WithInventory(state, refs)))
    {
      hide Ledger, DigestsGenuine, StateOk, WithInventory, FellBack, Restamped, NoneMine, DataKnown, WellKeyed, Tracked;
      var goodRefs := RefsOf(Restamped(cfg, good).value);
      var next := FellBack(state, WithInventory(state, refs).inventory, goodRefs, failed);
      if sound {
        FellBackOk(cfg, state, refs, failed);
        FellBackTracked(cfg, cluster, state, refs, goodRefs, next, orphans);
      }
      ok := SaveBooked(next, false);
    }

    ghost predicate IsFellBack(state: BackendState, refs: seq<ObjectRef>, good: LastGood, failed: FailedAttempt)
      reads store`cell
    {
      && Restamped(cfg, good).Some?
      && store.cell == Some(FellBack(state, WithInventory(state, refs).inventory, RefsOf(Restamped(cfg, good).value),
        failed))
    }

    /** Every object of the backend a prune could reach is in `known`, or was left behind earlier. */
    ghost predicate OnlyLeft(known: set<Key>)
      reads this`cluster, this`orphans
    {
      Tracked(cfg, cluster, known + orphans)
    }

    /** A fall back either restores exactly the recorded set, and then that set, data, CRDs and Namespaces
        are all that is left; or refuses and applies nothing. Either way the failure is remembered. */
    method FallBack(t: Tick, state: BackendState, refs: seq<ObjectRef>, good: LastGood, failed: FailedAttempt)
        returns (ok: bool, restored: bool, ghost fault: bool)
      requires Valid() && DigestsGenuine() && Ledger()
      requires state.lastGood == Some(good) && failed.fingerprint != good.fingerprint
      requires sound ==> StateOk(cfg, state) && AllCoreV1(refs)
      requires store.cell == Some(WithInventory(state, refs))
      modifies this`cluster, this`applied, this`deleted, this`appliedAt
      modifies this`memory, this`saved, this`saves, this`owed, store`cell
      ensures OnlyAdds() && Ledger() && SavesOne()
      ensures old(owed) <= owed
      ensures Valid() && DigestsGenuine() && (old(CanReport()) ==> CanReport())
      ensures forall o :: o in applied ==> o in old(applied) || Restorable(cfg, good, o)
      ensures !fault ==> (restored <==> Intact(good))
      ensures !restored ==> applied == old(applied) && cluster == old(cluster) && deleted == old(deleted)
      ensures forall d :: d in deleted ==> d in old(deleted) || MayPrune(d, WithInventory(state, refs).inventory, false)
      ensures || (!ok && Unsaved())
              || (|saves| > old(|saves|) &&
                  if restored then IsFellBack(state, refs, good, failed) && InPlace(cluster, Restamped(cfg, good).value)
                  else store.cell == Some(WithInventory(state, refs).(failed := Some(failed))))
      ensures ok && restored ==> appliedAt == Some(t.now)
      ensures ok && restored && sound ==>
        OnlyLeft(Keys(RefsOf(Restamped(cfg, good).value)) + DataKnown(WithInventory(state, refs)))
    {
      hide Seen, Filed, Told, Minded, DigestsGenuine, CanReport, WellKeyed, BookKept, StateOk, NoneMine, MayPrune,
        InPlace, FellBack;
      var attempted := WithInventory(state, refs);
      var objs;
      fault, objs := RecordedSet(good);
      restored := objs.Some?;
      if !restored {
        ok := StoreFailure(state, refs, failed);
        return;
      }
      if sound { FellBackOk(cfg, state, refs, failed); }
      ok := ApplyGood(t, objs.value, attempted.inventory);
      if !ok { return; }
      appliedAt := Some(t.now);
      ok := StoreFellBack(state, refs, good, failed);
    }

    // ---- disable --------------------------------------------------------------------------------

    /** Reports, deletes what may be deleted, and waits for it to be gone. */
    method PruneAndWait(refs: seq<ObjectRef>, purge: bool) returns (ok: bool, gone: bool)
      requires Valid() && DigestsGenuine() && CanReport() && Ledger()
      modifies this`cluster, this`deleted, this`record, this`reports
      ensures OnlyAdds() && Ledger()
      ensures old(record.inventory.Some?) ==> record.inventory.Some?
      ensures Valid() && DigestsGenuine() && CanReport()
      ensures forall d :: d in deleted ==> d in old(deleted) || MayPrune(d, refs, purge)
      ensures gone ==> AllGone(cfg, cluster, refs, purge)
    {
      hide Seen, Filed, Told, Minded, DigestsGenuine, CanReport;
      hide StateOk, Tracked, WellKeyed, Reduced, Settled, NoneMine, AllGone, MayPrune, DataKnown, Known;
      ghost var known := Known(store.Current()) + orphans;
      gone := false;
      Announce();
      ok := PruneRemoved(refs, purge);
      if sound { ReducedTracked(cfg, old(cluster), cluster, Keys(refs), known); }
      if !ok { return; }
      ghost var before := cluster;
      ok, gone := AwaitGone(refs, purge);
      SettledKeyed(before, cluster);
      if sound { SettledTracked(cfg, before, cluster, known); }
    }

    static lemma SettledKeyed(before: Objects, after: Objects)
      requires WellKeyed(before) && Settled(before, after)
      ensures WellKeyed(after)
    {
    }

    /** Removes a disabled backend's workloads and forgets all but its data, once they are gone. */
    method RemoveWorkloads(state: BackendState) returns (ok: bool, done: bool)
      requires Valid() && DigestsGenuine() && CanReport() && Ledger()
      requires sound ==> state == store.Current()
      modifies this`cluster, this`deleted, this`appliedAt
      modifies this`memory, this`record, this`reports, this`saved, this`saves, this`owed, store
      ensures OnlyAdds() && Ledger() && SavesOne()
      ensures old(record.inventory.Some?) ==> record.inventory.Some?
      ensures old(owed) <= owed
      ensures Valid() && DigestsGenuine() && CanReport()
      ensures forall d :: d in deleted ==> d in old(deleted) || MayPrune(d, state.inventory, false)
      ensures || (!(ok && done) && Unsaved())
              || (|saves| > old(|saves|) && store.cell == Some(Removed(state))
                && AllGone(cfg, cluster, state.inventory, false)
                && (state.lastGood.Some? ==> CellsGone(0, state.lastGood.value.chunks)))
      ensures ok && done ==> appliedAt.None?
    {
      hide Ledger, DigestsGenuine, WellKeyed, BookKept, AllGone, Removed, MayPrune;
      done := false;
      var gone;
      ok, gone := PruneAndWait(state.inventory, false);
      if !ok || !gone { return; }
      if state.lastGood.Some? {
        ok := store.DropLastGood(state.lastGood.value.chunks);
        if !ok { return; }
      }
      ok := StoreRemoved(state);
      if !ok { return; }
      appliedAt := None;
      done := true;
    }

    method StoreRemoved(state: BackendState) returns (ok: bool)
      requires Valid() && DigestsGenuine() && Ledger()
      requires AllGone(cfg, cluster, state.inventory, false)
      requires sound ==> state == store.Current()
      modifies this`memory, this`saved, this`saves, this`owed, store`cell
      ensures OnlyAdds() && Ledger() && SavesOne()
      ensures old(owed) <= owed
      ensures Valid() && DigestsGenuine()
      ensures memory == old(memory) || memory.Some?
      ensures (!ok && Unsaved()) || (|saves| > old(|saves|) && store.cell == Some(Removed(state)))
    {
      hide Ledger, DigestsGenuine, AllCoreV1, Faithful, GoodCore, Removed, AllGone, Tracked, DataKnown;
      if sound {
        RemovedOk(cfg, state);
        RemovedTracked(cfg, cluster, state, orphans);
      }
      ok := SaveBooked(Removed(state), false);
    }

    /** Acts on a purge request: the generation is recorded only once the data is gone. */
    method PurgeData(state: BackendState, purgeGeneration: int) returns (ok: bool, done: bool)
      requires Valid() && DigestsGenuine() && CanReport() && Ledger()
      requires state.inventory == []
      requires sound ==> state == store.Current()
      modifies this`cluster, this`deleted
      modifies this`memory, this`record, this`reports, this`saved, this`saves, this`owed, store`cell
      ensures OnlyAdds() && Ledger() && SavesOne()
      ensures old(record.inventory.Some?) ==> record.inventory.Some?
      ensures Valid() && DigestsGenuine() && CanReport()
      ensures forall d :: d in deleted ==> d in old(deleted) || MayPrune(d, state.retained, true)
      ensures || (!(ok && done) && Unsaved() && old(owed) <= owed)
              || (|saves| > old(|saves|) && store.cell == Some(Purged(purgeGeneration))
                && AllGone(cfg, cluster, state.retained, true)
                  && (WellFormed(state) ==> DataGone(cfg, cluster, DataKnown(state))))
    {
      hide Ledger, DigestsGenuine, WellKeyed, BookKept, AllGone, DataGone, MayPrune;
      done := false;
      if |state.retained| > 0 {
        var gone;
        ok, gone := PruneAndWait(state.retained, true);
        if !ok || !gone { return; }
      } else {
        NothingToWaitFor(cluster);
      }
      ok := StorePurged(state, purgeGeneration);
      done := ok;
    }

    lemma NothingToWaitFor(cluster: Objects)
      ensures AllGone(cfg, cluster, [], true)
    {
    }

    method StorePurged(state: BackendState, purgeGeneration: int) returns (ok: bool)
      requires Valid() && DigestsGenuine() && Ledger()
      requires state.inventory == [] && AllGone(cfg, cluster, state.retained, true)
      requires sound ==> state == store.Current()
      modifies this`memory, this`saved, this`saves, this`owed, store`cell
      ensures OnlyAdds() && Ledger() && SavesOne()
      ensures Valid() && DigestsGenuine()
      ensures memory == old(memory) || memory.Some?
      ensures || (!ok && Unsaved() && owed == old(owed))
              || (|saves| > old(|saves|) && store.cell == Some(Purged(purgeGeneration)))
      ensures WellFormed(state) ==> DataGone(cfg, cluster, DataKnown(state))
    {
      hide Ledger, AllGone, DataGone, DigestsGenuine;
      if WellFormed(state) { PurgedGone(cfg, cluster, state); }
      if sound { PurgedTracked(cfg, cluster, state, orphans); }
      ok := SaveBooked(Purged(purgeGeneration), true);
    }

    /** The tick of a backend that is switched off: first everything but its data goes, in one stored
        step, and then, if a purge is due, the data. */
    method Disable(t: Tick, state: BackendState) returns (ok: bool, phase: Phase)
      requires Valid() && DigestsGenuine() && CanReport() && Ledger()
      requires sound ==> state == store.Current()
      modifies this`cluster, this`deleted, this`appliedAt
      modifies this`memory, this`record, this`reports, this`saved, this`saves, this`owed, store
      ensures OnlyAdds() && Ledger()
      ensures forall s :: s in saves ==> s in old(saves) || DisabledMoves(t, state, s.state)
      ensures old(record.inventory.Some?) ==> record.inventory.Some?
      ensures Valid() && DigestsGenuine() && CanReport()
      ensures forall d :: d in deleted ==>
        || d in old(deleted)
        || MayPrune(d, state.inventory, false)
        || (t.purgeGeneration > state.purgedGeneration && MayPrune(d, state.inventory + state.retained, true))
      ensures Unsaved() || (|saves| > old(|saves|) && DisabledMoves(t, state, store.Current()))
      ensures Unsaved() || (state.lastGood.Some? ==> CellsGone(0, state.lastGood.value.chunks))
      ensures old(owed) <= owed
        || (store.cell == Some(Purged(t.purgeGeneration)) && t.purgeGeneration > state.purgedGeneration)
      ensures WellFormed(state) && !Unsaved() && store.cell != Some(Removed(state)) ==>
        DataGone(cfg, cluster, DataKnown(state))
      ensures ok && phase == Disabled ==> store.Current() == TurnedOffAs(t, state, old(store.Current()))
    {
      hide Ledger, DigestsGenuine, CanReport, AllGone, DataGone, Prunable, IsOurs, Valid, DataKnown;
      phase := Removing;
      var current, done := state, true;
      if |state.inventory| > 0 || state.lastGood.Some? {
        ok, done := RemoveWorkloads(state);
        if !ok || !done { return; }
        current := Removed(state);
      }
      ForgottenSoFar(state, current);
      if t.purgeGeneration > current.purgedGeneration {
        ok, done := PurgeData(current, t.purgeGeneration);
        if !ok || !done { return; }
      }
      ok, phase := true, Disabled;
    }

    /** Removing the workloads forgets no data. */
    lemma ForgottenSoFar(state: BackendState, current: BackendState)
      requires if state.inventory != [] || state.lastGood.Some? then current == Removed(state) else current == state
      ensures current.inventory == [] && current.purgedGeneration == state.purgedGeneration
      ensures forall r :: r in current.retained ==> r in state.inventory + state.retained
      ensures WellFormed(state) ==> WellFormed(current) && DataKnown(current) == DataKnown(state)
    {
      UnionKeys(state.retained, DataOf(state.inventory));
      if WellFormed(state) { RemovedOk(cfg, state); }
    }

    // ---- attempt --------------------------------------------------------------------------------

    /** How an attempt ended, when it did. */
    ghost predicate AttemptEnded(t: Tick, state: BackendState, desired: DesiredSet, end: AttemptEnd)
      reads this`cluster, this`orphans, this`sound, this`healthy, store
    {
      var attempted, failed := Attempted(state, desired), FailureOf(t, desired);
      match end
      case Healthy(good) =>
        && healthy == Some(desired.objects) && IsPromoted(t, attempted, desired, good)
        && InPlace(cluster, desired.objects)
      case Unhealthy(spoilt, fault) =>
        && (spoilt || !t.ready(desired.objects))
        && store.cell == Some(attempted.(failed := Some(failed)))
        && (state.lastGood.Some? && !fault ==> !Intact(state.lastGood.value))
      case RolledBack(spoilt, objs) =>
        && (spoilt || !t.ready(desired.objects))
        && state.lastGood.Some? && Restamped(cfg, state.lastGood.value) == Some(objs) && InPlace(cluster, objs)
        && store.cell == Some(FellBack(state, attempted.inventory, RefsOf(objs), failed))
        && (sound ==> OnlyLeft(Keys(RefsOf(objs)) + DataKnown(attempted)))
    }

    method StoreAttempt(state: BackendState, desired: DesiredSet) returns (ok: bool)
      requires Valid() && DigestsGenuine() && Ledger()
      requires sound ==> AllCoreV1(RefsOf(desired.objects)) && state == store.Current()
      modifies this`memory, this`saved, this`saves, this`owed, store`cell
      ensures OnlyAdds() && Ledger() && SavesOne()
      ensures old(owed) <= owed
      ensures Valid() && DigestsGenuine() && (old(CanReport()) ==> CanReport())
      ensures (!ok && Unsaved()) || (|saves| > old(|saves|) && store.cell == Some(Attempted(state, desired)))
      ensures ok && sound ==> Keys(RefsOf(desired.objects)) <= Known(store.Current())
    {
      hide Ledger, DigestsGenuine, CanReport, StateOk, WellKeyed;
      if sound { WithInventoryOk(cfg, state, RefsOf(desired.objects)); }
      ok := SaveBooked(Attempted(state, desired), false);
    }

    /** The inventory an attempt will leave is stored first; only then is anything applied. */
    method StartAttempt(t: Tick, state: BackendState, desired: DesiredSet) returns (ok: bool, complete: bool)
      requires Valid() && DigestsGenuine() && CanReport() && Ledger()
      requires sound ==> AllCoreV1(RefsOf(desired.objects)) && state == store.Current()
      modifies this`cluster, this`applied, this`appliedAt
      modifies this`memory, this`record, this`reports, this`saved, this`saves, this`owed, store`cell
      ensures OnlyAdds() && Ledger() && SavesOne()
      ensures old(record.inventory.Some?) ==> record.inventory.Some?
      ensures old(owed) <= owed
      ensures Valid() && DigestsGenuine() && CanReport()
      ensures if Unsaved() then !ok && (cluster, applied) == old((cluster, applied))
              else |saves| > old(|saves|) && store.cell == Some(Attempted(state, desired))
      ensures complete ==> InPlace(cluster, desired.objects) && appliedAt == Some(t.now)
      ensures !complete ==> appliedAt == old(appliedAt)
      ensures forall o :: o in applied ==> o in old(applied) || o in desired.objects
    {
      hide Seen, Filed, Told, Minded, DigestsGenuine, CanReport;
      hide WellKeyed, BookKept, AllCoreV1, Merged, Known, Attempted, InPlace;
      complete := false;
      Announce();
      ok := StoreAttempt(state, desired);
      if !ok { return; }
      complete := ApplyKnown(t, desired.objects);
      if complete { appliedAt := Some(t.now); }
      ok := *; // an error is caught; dying is not
    }

    /** An attempt that did not become healthy: remembered, and the last good set restored if it proves
        to be the recorded one. */
    method EndAttempt(t: Tick, state: BackendState, desired: DesiredSet, ghost spoilt: bool)
      returns (ok: bool, phase: Phase, ghost end: AttemptEnd)
      requires Valid() && DigestsGenuine() && CanReport() && Ledger()
      requires sound ==> StateOk(cfg, state) && AllCoreV1(RefsOf(desired.objects))
      requires store.cell == Some(Attempted(state, desired))
      requires state.lastGood.Some? ==> desired.fingerprint != state.lastGood.value.fingerprint
      requires spoilt || !t.ready(desired.objects)
      modifies this`cluster, this`applied, this`deleted, this`appliedAt
      modifies this`memory, this`saved, this`saves, this`owed, store`cell
      ensures OnlyAdds() && Ledger() && SavesOne()
      ensures old(owed) <= owed
      ensures Valid() && DigestsGenuine() && CanReport()
      ensures ok ==> phase == (if end.RolledBack? && t.ready(end.objs) then Degraded else Failed)
      ensures ok ==> !end.Healthy? && AttemptEnded(t, state, desired, end)
      ensures forall o :: o in applied ==>
        o in old(applied) || (state.lastGood.Some? && Restorable(cfg, state.lastGood.value, o))
      ensures forall d :: d in deleted ==> d in old(deleted) || MayPrune(d, Attempted(state, desired).inventory, false)
      ensures || (!ok && Unsaved())
              || (|saves| > old(|saves|) &&
                  (FailedFrom(t, state, desired, store.Current())
                    || RolledBackFrom(cfg, t, state, desired, store.Current())))
    {
      hide Ledger, DigestsGenuine, CanReport, BookKept, StateOk, WellKeyed, Restorable, MayPrune, WithInventory,
        FellBack;
      phase, end := Failed, Unhealthy(spoilt, false);
      if state.lastGood.None? {
        ok := StoreFailure(state, RefsOf(desired.objects), FailureOf(t, desired));
        return;
      }
      var restored;
      ghost var fault;
      ok, restored, fault :=
        FallBack(t, state, RefsOf(desired.objects), state.lastGood.value, FailureOf(t, desired));
      end := Unhealthy(spoilt, fault);
      if ok && restored {
        var good := Restamped(cfg, state.lastGood.value).value;
        phase := if t.ready(good) then Degraded else Failed;
        end := RolledBack(spoilt, good);
      }
    }

    lemma BookedOk(state: BackendState)
      requires Valid() && (sound ==> state == store.Current())
      ensures sound ==> StateOk(cfg, state)
    {
    }

    /** Promotes from `s`, or from the attempt made from it. */
    method PromoteFrom(t: Tick, ghost s: BackendState, state: BackendState, desired: DesiredSet)
      returns (ok: bool, ghost good: LastGood)
      requires state == s || state == Attempted(s, desired)
      requires healthy == Some(desired.objects) && t.ready(desired.objects)
      requires Valid() && DigestsGenuine() && Ledger()
      requires IsRender(cfg, t, desired)
      requires sound ==> AllCoreV1(RefsOf(desired.objects)) && state == store.Current()
      modifies this`cluster, this`deleted, this`memory, this`saved, this`saves, this`owed, this`orphans, store
      ensures OnlyAdds() && Ledger() && SavesOne()
      ensures old(owed) <= owed
      ensures Valid() && DigestsGenuine() && (old(CanReport()) ==> CanReport())
      ensures if Unsaved() then !ok && (cluster, deleted, orphans) == old((cluster, deleted, orphans))
              else && |saves| > old(|saves|) && IsPromoted(t, state, desired, good)
                   && PromotedFrom(cfg, t, state, desired, store.Current())
                   && OrphansOnlyBehind(cfg, t, s, desired, ok, old(orphans), store.Current(), orphans)
      ensures old(InPlace(cluster, desired.objects)) ==> InPlace(cluster, desired.objects)
      ensures forall d :: d in deleted ==> d in old(deleted) || MayPrune(d, state.inventory, false)
    {
      hide Ledger, DigestsGenuine, CanReport, Valid, IsRender, Promotes, OrphansOnlyBehind, MayPrune;
      ok, good := Promote(t, state, desired);
      RemovedKeys(state.inventory, RefsOf(desired.objects));
      if old(InPlace(cluster, desired.objects)) {
        var removed := RemovedRefs(state.inventory, RefsOf(desired.objects));
        ReducedInPlace(old(cluster), cluster, Keys(removed), desired.objects);
      }
      if |saves| > old(|saves|) {
        PromotedOrphans(t, s, state, desired, good, ok, old(orphans));
      }
    }

    /** The wait behind what was applied, and what it leads to. */
    method FinishAttempt(t: Tick, state: BackendState, desired: DesiredSet, complete: bool)
        returns (ok: bool, phase: Phase, ghost end: AttemptEnd)
      requires Valid() && DigestsGenuine() && CanReport() && Ledger()
      requires IsRender(cfg, t, desired)
      requires sound ==> StateOk(cfg, state) && AllCoreV1(RefsOf(desired.objects))
      requires store.cell == Some(Attempted(state, desired))
      requires state.lastGood.Some? ==> desired.fingerprint != state.lastGood.value.fingerprint
      requires healthy == None && (complete ==> InPlace(cluster, desired.objects))
      modifies this`cluster, this`applied, this`deleted, this`appliedAt, this`healthy
      modifies this`memory, this`record, this`reports, this`saved, this`saves, this`owed, this`orphans, store
      ensures OnlyAdds() && Ledger() && SavesOne()
      ensures old(record.inventory.Some?) ==> record.inventory.Some?
      ensures old(owed) <= owed
      ensures Valid() && DigestsGenuine() && CanReport()
      ensures ok ==> (phase == Ready <==> end.Healthy?) && AttemptEnded(t, state, desired, end)
      ensures ok && !end.Healthy? ==> healthy != Some(desired.objects)
      ensures if Unsaved() then !ok && orphans == old(orphans)
              else && AttemptMoves(cfg, t, state, desired, store.Current())
                   && OrphansOnlyBehind(cfg, t, state, desired, ok, old(orphans), store.Current(), orphans)
      ensures forall o :: o in applied ==>
        o in old(applied) || (state.lastGood.Some? && Restorable(cfg, state.lastGood.value, o))
      ensures forall d :: d in deleted ==> d in old(deleted) || MayPrune(d, Attempted(state, desired).inventory, false)
    {
      hide Ledger, DigestsGenuine, CanReport, Valid, IsRender, Restorable, MayPrune;
      hide IsPromoted, Promotes, FellBack, Restamped, OnlyLeft, InPlace, AllCoreV1, Promoted, Attempted, PromotedFrom;
      phase, end := Failed, Unhealthy(true, false);
      ghost var fault;
      var ready;
      ready, fault := AwaitReady(t, desired.objects, complete);
      if ready {
        ghost var good;
        ok, good := PromoteFrom(t, state, Attempted(state, desired), desired);
        phase, end := Ready, Healthy(good);
      } else {
        ok, phase, end := EndAttempt(t, state, desired, fault || !complete);
      }
    }

    /** Applies the desired set, and either promotes it or falls back. */
    method Attempt(t: Tick, state: BackendState, desired: DesiredSet)
      returns (ok: bool, phase: Phase, ghost end: AttemptEnd)
      requires Valid() && DigestsGenuine() && CanReport() && Ledger()
      requires IsRender(cfg, t, desired)
      requires sound ==> AllCoreV1(RefsOf(desired.objects)) && state == store.Current()
      requires state.lastGood.Some? ==> desired.fingerprint != state.lastGood.value.fingerprint
      requires healthy == None
      modifies this`cluster, this`applied, this`deleted, this`appliedAt, this`healthy
      modifies this`memory, this`record, this`reports, this`saved, this`saves, this`owed, this`orphans, store
      ensures OnlyAdds() && Ledger()
      ensures forall s :: s in saves ==> s in old(saves) || AttemptMoves(cfg, t, state, desired, s.state)
      ensures old(record.inventory.Some?) ==> record.inventory.Some?
      ensures old(owed) <= owed
      ensures Valid() && DigestsGenuine() && CanReport()
      ensures ok ==> (phase == Ready <==> end.Healthy?) && AttemptEnded(t, state, desired, end)
      ensures ok && !end.Healthy? ==> healthy != Some(desired.objects)
      ensures if Unsaved() then !ok && (cluster, applied, deleted, orphans) == old((cluster, applied, deleted, orphans))
              else && |saves| > old(|saves|) && AttemptMoves(cfg, t, state, desired, store.Current())
                   && OrphansOnlyBehind(cfg, t, state, desired, ok, old(orphans), store.Current(), orphans)
      ensures forall o :: o in applied ==> || o in old(applied) || o in desired.objects
                                           || (state.lastGood.Some? && Restorable(cfg, state.lastGood.value, o))
      ensures forall d :: d in deleted ==> d in old(deleted) || MayPrune(d, Attempted(state, desired).inventory, false)
    {
      hide Ledger, DigestsGenuine, CanReport, Valid, IsRender, Restorable, MayPrune;
      hide AttemptEnded, Promotes, AllCoreV1, Attempted, FailedFrom, RolledBackFrom, PromotedFrom;
      phase, end := Failed, Unhealthy(true, false);
      BookedOk(state);
      var complete;
      ok, complete := StartAttempt(t, state, desired);
      if !ok { return; }
      ok, phase, end := FinishAttempt(t, state, desired, complete);
    }

    // ---- one backend ----------------------------------------------------------------------------

    /** Nothing changed since the last promotion: the set goes out again when the resync is due, never
        earlier, and nothing is stored. */
    method KeepSteady(t: Tick, state: BackendState, desired: DesiredSet) returns (ok: bool, phase: Phase)
      requires Valid() && Seen() && IsRender(cfg, t, desired)
      requires sound ==> state == store.Current()
      requires state.lastGood.Some? && state.lastGood.value.fingerprint == desired.fingerprint
      modifies this`cluster, this`applied, this`appliedAt, this`healthy
      ensures OnlyAdds() && Valid() && Seen()
      ensures forall o :: o in applied ==> o in old(applied) || o in desired.objects
      ensures if old(appliedAt).Some? && t.now - old(appliedAt).value < cfg.resyncMs
              then (applied, cluster, appliedAt) == old((applied, cluster, appliedAt))
              else ok ==> InPlace(cluster, desired.objects) && appliedAt == Some(t.now)
      ensures ok ==> phase == if t.ready(desired.objects) then Ready else Degraded
    {
      hide Seen, InPlace, IsRender, BookKept, WellKeyed;
      ok, phase := true, Degraded;
      if ResyncDue(t, appliedAt) {
        ok := Resync(t, state, desired);
        if !ok { return; }
      }
      var ready;
      ok, ready := CheckReadiness(t, desired.objects);
      phase := if ready then Ready else Degraded;
    }

    predicate ResyncDue(t: Tick, appliedAt: Option<int>) {
      appliedAt.None? || t.now - appliedAt.value >= cfg.resyncMs
    }

    method Resync(t: Tick, state: BackendState, desired: DesiredSet) returns (ok: bool)
      requires Valid() && Seen() && IsRender(cfg, t, desired)
      requires sound ==> state == store.Current()
      requires state.lastGood.Some? && state.lastGood.value.fingerprint == desired.fingerprint
      modifies this`cluster, this`applied, this`appliedAt
      ensures OnlyAdds() && Valid() && Seen()
      ensures forall o :: o in applied ==> o in old(applied) || o in desired.objects
      ensures ok ==> InPlace(cluster, desired.objects) && appliedAt == Some(t.now)
    {
      hide Seen, InPlace;
      if sound { SameFingerprint(cfg, state, desired.objects, t.release); }
      ok := ApplyKnown(t, desired.objects);
      if ok { appliedAt := Some(t.now); }
    }

    /** A remembered failure is looked at again, not applied. Only a first install can gain from that: it
        is still in place, and one passed readiness check promotes it. */
    method Recheck(t: Tick, state: BackendState, desired: DesiredSet)
      returns (ok: bool, phase: Phase, ghost end: AttemptEnd)
      requires Valid() && DigestsGenuine() && Ledger()
      requires IsRender(cfg, t, desired)
      requires sound ==> AllCoreV1(RefsOf(desired.objects)) && state == store.Current()
      modifies this`cluster, this`deleted, this`healthy
      modifies this`memory, this`saved, this`saves, this`owed, this`orphans, store
      ensures OnlyAdds() && Ledger() && SavesOne()
      ensures old(owed) <= owed
      ensures Valid() && DigestsGenuine() && (old(CanReport()) ==> CanReport())
      ensures ok ==>
        if healthy == Some(desired.objects) && state.lastGood.None?
        then end.Healthy? && IsPromoted(t, state, desired, end.good)
        else Unsaved()
      ensures if Unsaved() then (cluster, deleted, orphans) == old((cluster, deleted, orphans))
              else && |saves| > old(|saves|) && state.lastGood.None?
                   && PromotedFrom(cfg, t, state, desired, store.Current())
                   && OrphansOnlyBehind(cfg, t, state, desired, ok, old(orphans), store.Current(), orphans)
      ensures forall d :: d in deleted ==> d in old(deleted) || MayPrune(d, state.inventory, false)
    {
      hide Ledger, DigestsGenuine, CanReport, Valid, IsRender, PromotedFrom, OrphansOnlyBehind, MayPrune, IsPromoted;
      phase, end := Degraded, Unhealthy(true, false);
      var ready;
      ok, ready := CheckReadiness(t, desired.objects);
      if ok && state.lastGood.None? && ready {
        ghost var good;
        ok, good := PromoteFrom(t, state, state, desired);
        phase, end := Ready, Healthy(good);
      }
    }

    /** What an enabled backend's tick does once the desired set is rendered. */
    method Act(t: Tick, state: BackendState, desired: DesiredSet)
      returns (ok: bool, phase: Phase, ghost end: AttemptEnd)
      requires Valid() && DigestsGenuine() && CanReport() && Ledger()
      requires IsRender(cfg, t, desired)
      requires sound ==> AllCoreV1(RefsOf(desired.objects)) && state == store.Current()
      requires healthy == None
      modifies this`cluster, this`applied, this`deleted, this`appliedAt, this`healthy
      modifies this`memory, this`record, this`reports, this`saved, this`saves, this`owed, this`orphans, store
      ensures OnlyAdds() && Ledger()
      ensures forall s :: s in saves ==> s in old(saves) || ActMoves(cfg, t, state, desired, s.state)
      ensures old(record.inventory.Some?) ==> record.inventory.Some?
      ensures old(owed) <= owed
      ensures Valid() && DigestsGenuine() && CanReport()
      ensures if Unsaved() then orphans == old(orphans)
              else && |saves| > old(|saves|) && ActMoves(cfg, t, state, desired, store.Current())
                   && OrphansOnlyBehind(cfg, t, state, desired, ok, old(orphans), store.Current(), orphans)
      ensures var plan := PlanOf(t, state, desired);
        && (ok && plan.Attempt? ==> (phase == Ready <==> end.Healthy?) && AttemptEnded(t, state, desired, end))
        && (ok && plan.Remembered? ==>
              if healthy == Some(desired.objects) && state.lastGood.None?
              then end.Healthy? && IsPromoted(t, state, desired, end.good)
              else Unsaved())
        && (plan.Steady? ==> if ResyncDue(t, old(appliedAt)) then ok ==> InPlace(cluster, desired.objects)
                             else (cluster, applied) == old((cluster, applied)))
        && (plan.Steady? ==> forall o :: o in applied ==> o in old(applied) || o in desired.objects)
        && (!plan.Steady? && !plan.Attempt? ==> applied == old(applied))
        && (plan.Hold? || plan.Steady? ==> Unsaved() && deleted == old(deleted))
        && (plan.Hold? ==> cluster == old(cluster))
        && (plan.Remembered? && state.lastGood.Some? ==> Unsaved() && (cluster, deleted) == old((cluster, deleted)))
      ensures forall o :: o in applied ==> || o in old(applied) || o in desired.objects
                                           || (state.lastGood.Some? && Restorable(cfg, state.lastGood.value, o))
      ensures forall d :: d in deleted ==>
        d in old(deleted) || MayPrune(d, Attempted(state, desired).inventory + state.inventory, false)
    {
      hide DigestsGenuine, CanReport, Seen, Filed, Told, Minded, Valid, IsRender, AttemptMoves, PromotedFrom;
      hide OrphansOnlyBehind, Restorable, AttemptEnded, Prunable, IsOurs, KeyOf, IsPromoted, Attempted;
      phase, end := Degraded, Unhealthy(true, false);
      match PlanOf(t, state, desired) {
        case Steady =>
          ok, phase := KeepSteady(t, state, desired);
        case Hold =>
          ok := *;
        case Remembered =>
          ok, phase, end := Recheck(t, state, desired);
        case Attempt =>
          ok, phase, end := Attempt(t, state, desired);
      }
    }

    /** A due purge is spent on an enabled backend: its generation is stored, nothing is deleted. */
    method SpendPurge(t: Tick, loaded: BackendState) returns (ok: bool, state: BackendState)
      requires Valid() && DigestsGenuine() && CanReport() && Ledger()
      requires sound ==> loaded == store.Current()
      modifies this`memory, this`saved, this`saves, this`owed, store`cell
      ensures OnlyAdds() && Ledger() && SavesOne()
      ensures old(owed) <= owed
      ensures Valid() && DigestsGenuine() && CanReport()
      ensures state == Spent(t, loaded)
      ensures if Unsaved() then ok ==> t.purgeGeneration <= loaded.purgedGeneration
              else |saves| > old(|saves|) && store.cell == Some(state) && t.purgeGeneration > loaded.purgedGeneration
      ensures ok && sound ==> state == store.Current()
      ensures !ok ==> t.purgeGeneration > loaded.purgedGeneration
    {
      hide Ledger, DigestsGenuine, Tracked, WellKeyed;
      ok, state := true, loaded;
      if t.purgeGeneration > loaded.purgedGeneration {
        state := loaded.(purgedGeneration := t.purgeGeneration);
        assert Known(state) == Known(loaded) && DataKnown(state) == DataKnown(loaded);
        assert sound ==> StateOk(cfg, state);
        ok := SaveBooked(state, false);
      }
    }

    /** What the loaded state is trusted for. Only full trust lets its digests into memory; short of that
        an empty memory takes over scpd's record. */
    method Verify(loaded: BackendState) returns (trust: Trust)
      requires DigestsGenuine()
      modifies this`memory, this`anchor
      ensures DigestsGenuine() && CanReport()
      ensures trust == VerifyState(loaded, record)
      ensures memory == if trust == Trust(true, true) then Some(DigestsOf(loaded))
                        else if old(memory).None? && record.inventory.Some?
                        then Some(StateDigests(record.lastGood, record.inventory.value))
                        else old(memory)
      ensures anchor == if trust == Trust(true, true) && record.inventory.None? then memory else old(anchor)
    {
      trust := VerifyState(loaded, record);
      if trust == Trust(true, true) {
        memory := Some(DigestsOf(loaded));
        if record.inventory.None? { anchor := memory; }
      } else if memory.None? && record.inventory.Some? {
        memory := Some(StateDigests(record.lastGood, record.inventory.value));
      }
    }

    /** Nothing has happened in this tick yet. */
    ghost predicate Opened()
      reads this, store`cell
    {
      && found == Now() && !hasLoaded && saved == earlier
      && rendered == {} && applied == {} && deleted == {} && saves == [] && reports == [] && healthy == None
    }

    /** The digests trusted for want of a record, if that is how the load was trusted. */
    ghost function AnchorThen(before: Option<StateDigests>): Option<StateDigests>
      reads this`found, this`hasLoaded
    {
      if hasLoaded && found.record.inventory.None? && VerifyState(found.state, found.record) == Trust(true, true)
      then Some(DigestsOf(found.state))
      else before
    }

    method LoadTrusted() returns (ok: bool, loaded: BackendState, trust: Trust)
      requires Valid() && DigestsGenuine() && Opened()
      modifies this`memory, this`anchor, this`sound, this`hasLoaded
      ensures Valid() && DigestsGenuine() && Minded()
      ensures hasLoaded == ok && anchor == AnchorThen(old(anchor))
      ensures !ok ==> sound == old(sound)
      ensures ok ==> && CanReport() && loaded == store.Current() && trust == VerifyState(loaded, record)
                     && sound == (old(sound) && trust == Trust(true, true))
    {
      hide BookKept, WellKeyed, DigestsGenuine, VerifyState, DigestsOf, CanReport;
      ok, loaded := store.Load();
      trust := Trust(false, false);
      if ok {
        trust := Verify(loaded);
        hasLoaded := true;
        sound := sound && trust == Trust(true, true);
      }
    }

    /** The state the tick works from: what is stored as far as it is trusted, the render's references
        for the rest. */
    method LoadVerified(t: Tick) returns (ok: bool, state: BackendState)
      requires Valid() && DigestsGenuine() && Opened()
      modifies this`memory, this`anchor, this`rendered, this`sound, this`hasLoaded
      ensures OnlyAdds() && Valid() && DigestsGenuine() && RenderedOk() && Minded()
      ensures anchor == AnchorThen(old(anchor))
      ensures ok ==> hasLoaded && CanReport()
      ensures hasLoaded && !ok ==>
        !VerifyState(found.state, found.record).inventory && RenderOf(cfg, t, t.forRefs).None?
      ensures ok ==> StartsFrom(cfg, t, state, found.state, VerifyState(found.state, found.record))
      ensures rendered ==
        if ok && !VerifyState(found.state, found.record).inventory then ObjectsOf(RenderOf(cfg, t, t.forRefs)) else {}
      ensures sound ==> old(sound) && (ok ==> state == found.state)
      ensures old(sound) && VerifyState(found.state, found.record) == Trust(true, true) && RenderedCore() ==> sound
    {
      hide BookKept, WellKeyed, VerifyState, DigestsGenuine, RenderOf;
      var loaded, trust, renderRefs := EMPTY_STATE, Trust(false, false), [];
      state := loaded;
      ok, loaded, trust := LoadTrusted();
      if !ok { return; }
      if !trust.inventory {
        ok, renderRefs := RenderRefs(t);
        if !ok { return; }
      }
      state := Effective(loaded, trust, renderRefs);
      EffectiveTrusted(loaded, trust, renderRefs);
    }

    static lemma EffectiveTrusted(loaded: BackendState, trust: Trust, renderRefs: seq<ObjectRef>)
      ensures trust == Trust(true, true) ==> Effective(loaded, trust, renderRefs) == loaded
      ensures trust.inventory ==> forall refs :: Effective(loaded, trust, renderRefs) == Effective(loaded, trust, refs)
    {
    }

    method RenderRefs(t: Tick) returns (ok: bool, refs: seq<ObjectRef>)
      requires RenderedOk()
      modifies this`rendered, this`sound
      ensures OnlyAdds() && RenderedOk()
      ensures rendered == old(rendered) + ObjectsOf(RenderOf(cfg, t, t.forRefs))
      ensures ok <==> RenderOf(cfg, t, t.forRefs).Some?
      ensures ok ==> refs == RefsInstead(cfg, t)
      ensures sound ==> old(sound)
      ensures old(sound) && RenderedCore() ==> sound
    {
      hide RenderOf;
      var desired;
      ok, desired := Render(t, t.forRefs);
      refs := RefsOf(desired.objects);
    }

    ghost predicate RenderedRef(r: ObjectRef)
      reads this`rendered
    {
      exists o :: o in rendered && o.ref == r
    }

    /** The branch that was taken, and how it ended. `due`: the resync cadence has come round. */
    ghost predicate ActedOn(t: Tick, due: bool, state: BackendState, desired: DesiredSet, ok: bool, phase: Phase,
      end: AttemptEnd)
      reads this`cluster, this`orphans, this`sound, this`healthy, this`applied, this`deleted, store
    {
      var plan := PlanOf(t, state, desired);
      && IsRender(cfg, t, desired)
      && (plan.Steady? ==> if due then ok ==> InPlace(cluster, desired.objects) else applied == {})
      && (ok && plan.Remembered? && state.lastGood.None? && healthy == Some(desired.objects) ==>
            end.Healthy? && IsPromoted(t, state, desired, end.good))
      && (!plan.Steady? && !plan.Attempt? ==> applied == {})
      && (plan.Hold? || plan.Steady? ==> deleted == {})
      && (plan.Steady? ==> forall o :: o in applied ==> o in desired.objects)
      && (ok && plan.Attempt? ==> (phase == Ready <==> end.Healthy?) && AttemptEnded(t, state, desired, end))
    }

    ghost predicate PrunesOwn(d: Deletion, loaded: BackendState)
      reads this`rendered
    {
      && !d.purge && Prunable(d.ref, cfg.namespace, cfg.kinds, false)
      && IsOurs(d.found, cfg.backend) && KeyOf(d.found.ref) == KeyOf(d.ref)
      && (RenderedRef(d.ref) || d.ref in loaded.inventory)
    }

    ghost predicate AppliesOwn(o: KubeObject, desired: DesiredSet, loaded: BackendState) {
      o in desired.objects || (loaded.lastGood.Some? && Restorable(cfg, loaded.lastGood.value, o))
    }

    /** An enabled backend's tick once a due purge is spent: the chart rendered, the branch taken. */
    method RenderAndAct(t: Tick, state: BackendState)
        returns (ok: bool, phase: Phase, ghost desired: Option<DesiredSet>, ghost end: AttemptEnd)
      requires Valid() && DigestsGenuine() && CanReport() && RenderedOk() && Ledger()
      requires sound ==> state == store.Current()
      requires applied == {} && deleted == {} && healthy == None
      modifies this`cluster, this`rendered, this`applied, this`deleted, this`appliedAt, this`healthy
      modifies this`memory, this`record, this`reports, this`saved, this`saves, this`owed, this`orphans
      modifies this`sound, store
      ensures OnlyAdds() && Ledger()
      ensures old(record.inventory.Some?) ==> record.inventory.Some?
      ensures old(owed) <= owed
      ensures Valid() && DigestsGenuine() && CanReport() && RenderedOk()
      ensures sound ==> old(sound)
      ensures old(sound) && RenderedCore() ==> sound
      ensures desired.None? ==> !ok && Unsaved() && (applied, deleted, orphans) == old((applied, deleted, orphans))
      ensures desired.Some? ==>
        && ActedOn(t, ResyncDue(t, old(appliedAt)), state, desired.value, ok, phase, end)
        && (forall s :: s in saves ==> s in old(saves) || ActMoves(cfg, t, state, desired.value, s.state))
        && (forall o :: o in applied ==> AppliesOwn(o, desired.value, state))
        && (if Unsaved() then orphans == old(orphans)
            else && |saves| > old(|saves|) && ActMoves(cfg, t, state, desired.value, store.Current())
                 && OrphansOnlyBehind(cfg, t, state, desired.value, ok, old(orphans), store.Current(), orphans))
      ensures rendered == old(rendered) + ObjectsOf(desired)
      ensures desired.Some? <==> RenderOf(cfg, t, t.forSet).Some?
      ensures forall d :: d in deleted ==> PrunesOwn(d, state)
    {
      hide Ledger, DigestsGenuine, CanReport, BookKept, WellKeyed, RenderOf, Accepted, ActMoves, OrphansOnlyBehind;
      hide AttemptEnded;
      hide Restorable, Prunable, IsOurs, PlanOf, AllCoreV1, AdmissibleKey;
      desired, end, phase := None, Unhealthy(true, false), Failed;
      var set_;
      ok, set_ := Render(t, t.forSet);
      if !ok { return; }
      desired := Some(set_);
      ok, phase, end := Act(t, state, set_);
      RefsAmong(set_.objects);
      UnionKeys(state.inventory, RefsOf(set_.objects));
    }

    /** An enabled backend's tick: a purge that is due is spent first. */
    method ReconcileEnabled(t: Tick, loaded: BackendState)
        returns (ok: bool, phase: Phase, ghost desired: Option<DesiredSet>, ghost end: AttemptEnd)
      requires Valid() && DigestsGenuine() && CanReport() && RenderedOk() && Ledger()
      requires sound ==> loaded == store.Current()
      requires applied == {} && deleted == {} && healthy == None && saves == []
      modifies this`cluster, this`rendered, this`applied, this`deleted, this`appliedAt, this`healthy
      modifies this`memory, this`record, this`reports, this`saved, this`saves, this`owed, this`orphans
      modifies this`sound, store
      ensures OnlyAdds() && Ledger()
      ensures old(record.inventory.Some?) ==> record.inventory.Some?
      ensures old(owed) <= owed
      ensures Valid() && DigestsGenuine() && CanReport() && RenderedOk()
      ensures sound ==> old(sound)
      ensures old(sound) && RenderedCore() ==> sound
      ensures saves != [] ==> EnabledMoves(cfg, t, loaded, desired, store.Current())
      ensures forall s :: s in saves ==> EnabledMoves(cfg, t, loaded, desired, s.state)
      ensures saves == [] ==> store.cell == old(store.cell)
      ensures rendered == old(rendered) + ObjectsOf(desired)
      ensures desired.None? ==> !ok && (applied, deleted, orphans) == old((applied, deleted, orphans))
      ensures desired.None? ==> RenderOf(cfg, t, t.forSet).None? || t.purgeGeneration > loaded.purgedGeneration
      ensures desired.Some? ==>
        && (t.purgeGeneration > loaded.purgedGeneration ==> saves != [])
        && ActedOn(t, ResyncDue(t, old(appliedAt)), Spent(t, loaded), desired.value, ok, phase, end)
        && (forall o :: o in applied ==> AppliesOwn(o, desired.value, loaded))
        && (if saves == [] then orphans == old(orphans)
            else OrphansOnlyBehind(cfg, t, Spent(t, loaded), desired.value, ok, old(orphans), store.Current(), orphans))
      ensures forall d :: d in deleted ==> PrunesOwn(d, loaded)
    {
      hide Ledger, DigestsGenuine, CanReport, BookKept, WellKeyed, ActMoves, ActedOn, RenderedOk, RenderedCore;
      hide Restorable, Prunable, IsOurs, RenderedRef, Promotes;
      desired, end, phase := None, Unhealthy(true, false), Failed;
      var state;
      ok, state := SpendPurge(t, loaded);
      if !ok { return; }
      ok, phase, desired, end := RenderAndAct(t, state);
    }

    // ---- one tick -------------------------------------------------------------------------------

    /** The entry this tick leaves in the log, were it to end now. */
    ghost function Entry(t: Tick, start: Option<BackendState>, desired: Option<DesiredSet>, finished: bool,
      phase: Phase, alive: bool): TickLog
      reads this, store`cell
    {
      TickLog(t, found, hasLoaded, start, desired, rendered, applied, deleted, saves, reports, finished, phase,
        alive, Now())
    }

    ghost method OpenAccount()
      modifies this`found, this`hasLoaded, this`earlier
      modifies this`rendered, this`applied, this`deleted, this`saves, this`reports, this`healthy
      ensures Opened()
    {
      hide DigestsOf;
      found, hasLoaded, earlier := Now(), false, saved;
      rendered, applied, deleted, saves, reports, healthy := {}, {}, {}, [], [], None;
    }

    /** One backend's turn: load, verify, and act on what is wanted. */
    method ReconcileBackend(t: Tick)
        returns (ok: bool, phase: Phase, ghost start: Option<BackendState>, ghost desired: Option<DesiredSet>,
          ghost end: AttemptEnd)
      requires Valid() && DigestsGenuine()
      modifies this, store
      ensures Valid() && DigestsGenuine() && Ledger() && log == old(log)
      ensures found == old(Now()) && earlier == old(saved) && anchor == AnchorThen(old(anchor))
      ensures old(record.inventory.Some?) ==> record.inventory.Some?
      ensures CanReport() || record == old(record)
      ensures start.Some? ==> CanReport() && hasLoaded
      ensures TurnOk(cfg, Entry(t, start, desired, ok, phase, false))
      ensures desired.Some? && start.Some? ==>
        ActedOn(t, ResyncDue(t, old(appliedAt)), Spent(t, start.value), desired.value, ok, phase, end)
      ensures sound && start.Some? ==> start.value == found.state
      ensures !t.enabled && saves != [] && start.Some? && start.value.lastGood.Some? ==>
        CellsGone(0, start.value.lastGood.value.chunks)
      // Data known stays known, unless a disabled backend's purge was just recorded.
      ensures old(owed) <= owed ||
        (!t.enabled && t.purgeGeneration > found.state.purgedGeneration
          && store.cell == Some(Purged(t.purgeGeneration)))
    {
      hide TurnOk, ActedOn, Valid, Ledger, VerifyState, StartsFrom, RenderedOk, DigestsGenuine, AnchorThen, RenderOf;
      desired, start, end, phase := None, None, Unhealthy(true, false), Failed;
      var state;
      ok, state := StartTurn(t);
      if !ok { return; }
      start := Some(state);
      if t.enabled {
        ok, phase, desired, end := TurnEnabled(t, state);
      } else {
        ok, phase := TurnDisabled(t, state);
      }
    }

    /** Opens the account and loads. */
    method StartTurn(t: Tick) returns (ok: bool, state: BackendState)
      requires Valid() && DigestsGenuine()
      modifies this`found, this`hasLoaded, this`earlier, this`memory, this`anchor, this`sound
      modifies this`rendered, this`applied, this`deleted, this`saves, this`reports, this`healthy
      ensures Valid() && DigestsGenuine() && Ledger()
      ensures found == old(Now()) && earlier == old(saved) && anchor == AnchorThen(old(anchor))
      ensures if ok then hasLoaded && Started(t, state) else TurnOk(cfg, Entry(t, None, None, false, Failed, false))
    {
      hide TurnOk, BookKept, WellKeyed, VerifyState, StartsFrom, RenderedCore, CanReport, Traced, MemoryAfter;
      hide Genuine, DigestsGenuine, RenderOf, Handed, LastStored, LastSaved, AnchorThen, ObjectsOf, Recalled;
      OpenAccount();
      NothingYet();
      ok, state := LoadVerified(t);
      if !ok { LoadFailed(t); }
    }

    lemma NothingYet()
      requires Opened() && DigestsGenuine()
      ensures Ledger()
    {
    }

    lemma LoadFailed(t: Tick)
      requires Valid() && found.(sound := sound, memory := memory) == Now()
      requires rendered == {} && applied == {} && deleted == {} && saves == []
      requires hasLoaded ==> !VerifyState(found.state, found.record).inventory && RenderOf(cfg, t, t.forRefs).None?
      requires sound ==> found.sound
      requires found.sound && VerifyState(found.state, found.record) == Trust(true, true) && RenderedCore() ==> sound
      ensures TurnOk(cfg, Entry(t, None, None, false, Failed, false))
    {
    }

    /** What a turn starts from once loaded and verified. */
    ghost predicate Started(t: Tick, state: BackendState)
      reads this, store
    {
      && Valid() && DigestsGenuine() && CanReport() && RenderedOk() && Ledger()
      && store.Current() == found.state && orphans == found.orphans
      && StartsFrom(cfg, t, state, found.state, VerifyState(found.state, found.record))
      && rendered == (if VerifyState(found.state, found.record).inventory then {}
        else ObjectsOf(RenderOf(cfg, t, t.forRefs)))
      && (sound ==> found.sound && state == found.state)
      && (found.sound && VerifyState(found.state, found.record) == Trust(true, true) && RenderedCore() ==> sound)
      && applied == {} && deleted == {} && saves == [] && healthy == None
    }

    method TurnEnabled(t: Tick, state: BackendState)
        returns (ok: bool, phase: Phase, ghost desired: Option<DesiredSet>, ghost end: AttemptEnd)
      requires t.enabled && Started(t, state)
      modifies this`cluster, this`rendered, this`applied, this`deleted, this`appliedAt, this`healthy
      modifies this`memory, this`record, this`reports, this`saved, this`saves, this`owed, this`orphans
      modifies this`sound, store
      ensures Valid() && DigestsGenuine() && CanReport() && Ledger()
      ensures old(record.inventory.Some?) ==> record.inventory.Some?
      ensures old(owed) <= owed && (sound ==> old(sound))
      ensures TurnOk(cfg, Entry(t, Some(state), desired, ok, phase, false))
      ensures desired.Some? ==> ActedOn(t, ResyncDue(t, old(appliedAt)), Spent(t, state), desired.value, ok, phase, end)
    {
      hide Ledger, DigestsGenuine, CanReport, BookKept, WellKeyed, ActedOn, EnabledMoves, PrunesOwn, AppliesOwn;
      hide RenderedOk, OrphansOnlyBehind, StartsFrom, VerifyState, Spent, StateOk, Tracked, RenderOf, ObjectsOf;
      hide Began, Moves, SavesOwn, Effects, Tracking, PurgeDone, Ended;
      ok, phase, desired, end := ReconcileEnabled(t, state);
      ghost var l, due := Entry(t, Some(state), desired, ok, phase, false), ResyncDue(t, old(appliedAt));
      EnabledBegan(l, due, state, end);
      EnabledEffects(l, due, state, end);
      EnabledEnded(l, due, state, end);
      TurnTracks(l, state);
    }

    lemma EnabledBegan(l: TickLog, due: bool, state: BackendState, end: AttemptEnd)
      requires l.t.enabled && l.start == Some(state) && StartsFrom(cfg, l.t, state, l.found.state, TrustOf(l))
      requires l.desired.None? ==> !l.finished && l.applied == {} && l.deleted == {}
      requires l.desired.None? ==> RenderOf(cfg, l.t, l.t.forSet).None? || l.t.purgeGeneration > state.purgedGeneration
      requires l.desired.Some? ==>
        && (l.t.purgeGeneration > state.purgedGeneration ==> l.saves != [])
        && ActedOn(l.t, due, Spent(l.t, state), l.desired.value, l.finished, l.phase, end)
      requires l.rendered == Renders(cfg, l)
      requires forall s :: s in l.saves ==> EnabledMoves(cfg, l.t, state, l.desired, s.state)
      requires if l.saves == [] then l.left.state == l.found.state
        else EnabledMoves(cfg, l.t, state, l.desired, l.left.state)
      ensures Began(cfg, l) && Moves(cfg, l) && SavesOwn(cfg, l) && PurgeDone(cfg, l)
    {
      hide EnabledMoves, PlanOf, IsRender, AttemptEnded, VerifyState, RenderOf, Renders;
    }

    lemma EnabledEffects(l: TickLog, due: bool, state: BackendState, end: AttemptEnd)
      requires RenderedOk() && l.t.enabled && l.start == Some(state)
        && StartsFrom(cfg, l.t, state, l.found.state, TrustOf(l))
      requires (l.rendered, l.applied, l.deleted) == (rendered, applied, deleted) && rendered == Renders(cfg, l)
      requires l.desired.None? ==> applied == {} && deleted == {}
      requires l.desired.Some? ==>
        && ActedOn(l.t, due, Spent(l.t, state), l.desired.value, l.finished, l.phase, end)
        && (forall o :: o in applied ==> AppliesOwn(o, l.desired.value, state))
      requires forall d :: d in deleted ==> PrunesOwn(d, state)
      ensures Effects(cfg, l)
    {
      hide PlanOf, Spent, Prunable, IsOurs, Admissible;
      forall o | o in applied ensures MayApply(cfg, l, o) {
        OwnApplied(l, state, o);
      }
      forall d | d in deleted ensures MayDelete(cfg, l, d) {
        StartedFrom(l, state, d.ref);
      }
    }

    lemma OwnApplied(l: TickLog, state: BackendState, o: KubeObject)
      requires RenderedOk() && l.rendered == rendered && StartsFrom(cfg, l.t, state, l.found.state, TrustOf(l))
      requires l.desired.Some? && l.rendered == Renders(cfg, l)
      requires AppliesOwn(o, l.desired.value, state)
      ensures MayApply(cfg, l, o)
    {
      hide Restorable, IsOurs, Admissible;
      if o !in l.desired.value.objects { RestorableOurs(cfg, state.lastGood.value, o); }
    }

    lemma EnabledEnded(l: TickLog, due: bool, state: BackendState, end: AttemptEnd)
      requires l.t.enabled && l.start == Some(state) && l.left == Now()
      requires l.desired.Some? ==> ActedOn(l.t, due, Spent(l.t, state), l.desired.value, l.finished, l.phase, end)
      ensures Ended(cfg, l)
    {
      hide PlanOf, InPlace, Restamped, RemovedRefs, UnionRefs, DataOf;
    }

    lemma TurnTracks(l: TickLog, state: BackendState)
      requires Valid() && l.start == Some(state) && l.left == Now() && l.found == found && l.rendered == rendered
      requires if l.saves != [] && l.desired.Some?
        then OrphansOnlyBehind(cfg, l.t, Spent(l.t, state), l.desired.value, l.finished,
                               found.orphans, store.Current(), orphans)
        else orphans == found.orphans
      requires sound ==> found.sound
      requires found.sound && TrustOf(l) == Trust(true, true) && RenderedCore() ==> sound
      ensures Tracking(cfg, l)
    {
      hide OrphansOnlyBehind, VerifyState, StateOk, Tracked, Spent;
    }

    method TurnDisabled(t: Tick, state: BackendState) returns (ok: bool, phase: Phase)
      requires !t.enabled && Started(t, state)
      modifies this`cluster, this`deleted, this`appliedAt
      modifies this`memory, this`record, this`reports, this`saved, this`saves, this`owed, store
      ensures Valid() && DigestsGenuine() && CanReport() && Ledger()
      ensures old(record.inventory.Some?) ==> record.inventory.Some?
      ensures old(owed) <= owed
        || (t.purgeGeneration > found.state.purgedGeneration && store.cell == Some(Purged(t.purgeGeneration)))
      ensures TurnOk(cfg, Entry(t, Some(state), None, ok, phase, false))
      ensures saves != [] && state.lastGood.Some? ==> CellsGone(0, state.lastGood.value.chunks)
    {
      hide Ledger, DigestsGenuine, CanReport, BookKept, WellKeyed, DisabledMoves, MayPrune, DataGone, WellFormed;
      hide RenderedOk, StartsFrom, VerifyState, StateOk, Tracked, DataKnown, RenderOf;
      hide Began, Moves, SavesOwn, Effects, Tracking, PurgeDone, Ended;
      ok, phase := Disable(t, state);
      ghost var l := Entry(t, Some(state), None, ok, phase, false);
      DisabledOk(l, state);
      DisabledEffects(l, state);
      TurnTracks(l, state);
    }

    lemma DisabledOk(l: TickLog, state: BackendState)
      requires !l.t.enabled && l.start == Some(state) && StartsFrom(cfg, l.t, state, l.found.state, TrustOf(l))
      requires l.desired.None? && l.applied == {} && l.rendered == Renders(cfg, l)
      requires forall s :: s in l.saves ==> DisabledMoves(l.t, state, s.state)
      requires if l.saves == [] then l.left.state == l.found.state else DisabledMoves(l.t, state, l.left.state)
      requires WellFormed(state) && l.saves != [] && l.left.state != Removed(state) ==>
        DataGone(cfg, l.left.cluster, DataKnown(state))
      requires l.finished && l.phase == Disabled ==> l.left.state == TurnedOffAs(l.t, state, l.found.state)
      ensures state.purgedGeneration == l.found.state.purgedGeneration
      ensures Began(cfg, l) && Moves(cfg, l) && SavesOwn(cfg, l) && PurgeDone(cfg, l) && Ended(cfg, l)
    {
      hide VerifyState, DataGone, WellFormed, Renders, RenderOf;
    }

    lemma DisabledEffects(l: TickLog, state: BackendState)
      requires !l.t.enabled && l.start == Some(state) && StartsFrom(cfg, l.t, state, l.found.state, TrustOf(l))
      requires l.desired.None? && l.applied == {} && l.rendered == Renders(cfg, l)
      requires forall d :: d in l.deleted ==>
        || MayPrune(d, state.inventory, false)
        || (l.t.purgeGeneration > state.purgedGeneration && MayPrune(d, state.inventory + state.retained, true))
      ensures Effects(cfg, l)
    {
      hide VerifyState, Prunable, IsOurs, Renders;
      forall d | d in l.deleted ensures MayDelete(cfg, l, d) {
        StartedFrom(l, state, d.ref);
      }
    }

    /** Any reference the tick started from is rendered, or a trusted inventory's. */
    lemma StartedFrom(l: TickLog, state: BackendState, r: ObjectRef)
      requires l.start == Some(state) && l.rendered == Renders(cfg, l)
      requires StartsFrom(cfg, l.t, state, l.found.state, TrustOf(l))
      ensures state.purgedGeneration == l.found.state.purgedGeneration
      ensures r in state.inventory + state.retained ==>
        || (exists o :: o in l.rendered && o.ref == r)
        || (TrustOf(l).inventory && r in l.found.state.inventory + l.found.state.retained)
    {
      hide RenderOf, VerifyState;
      if !TrustOf(l).inventory { RefsAmong(RenderOf(cfg, l.t, l.t.forRefs).value.objects); }
    }

    /** The closing report of a turn, failed or not: the remembered digests, or for want of any the record
        scpd came with. A process that died sends none and has lost its memory. */
    method Report(expected: Integrity) returns (alive: bool)
      requires DigestsGenuine() && Told() && Minded()
      requires expected == found.record && (CanReport() || record == expected)
      modifies this`memory, this`appliedAt, this`record, this`reports
      ensures OnlyAdds() && DigestsGenuine() && Told()
      ensures if alive then Minded() && memory == old(memory) && |reports| == old(|reports|) + 1
              else memory.None? && reports == old(reports) && record == old(record)
      ensures alive && memory.Some? && reports[|reports| - 1].stored ==> record == IntegrityOf(memory)
    {
      var died: bool := *;
      alive := !died;
      var heard: bool;
      if died {
        memory, appliedAt := None, None;
      } else if memory.None? && expected.inventory.Some? {
        heard := Publish(Some(StateDigests(expected.lastGood, expected.inventory.value)));
      } else {
        heard := Publish(memory);
      }
    }

    /** One tick for the backend: its turn, then the report. Its entry in the log is the whole account of
        it, whether it succeeded, failed or died anywhere. */
    method RunTick(t: Tick) returns (ghost l: TickLog, ghost end: AttemptEnd)
      requires Valid() && DigestsGenuine()
      modifies this, store
      ensures Valid() && DigestsGenuine()
      ensures log == old(log) + [l] && l.t == t && l.found == old(Now()) && l.left == Now()
      ensures TickOk(cfg, l)
      ensures l.desired.Some? && l.start.Some? ==>
        ActedOn(t, ResyncDue(t, old(appliedAt)), Spent(t, l.start.value), l.desired.value, l.finished, l.phase, end)
      ensures sound && l.start.Some? ==> l.start.value == l.found.state
      // A disabled backend's last good set goes with its record.
      ensures !t.enabled && l.saves != [] && l.start.Some? && l.start.value.lastGood.Some? ==>
        CellsGone(0, l.start.value.lastGood.value.chunks)
      ensures old(record.inventory.Some?) ==> record.inventory.Some?
      // The states stored, and the one trusted on first use, are those of the entry.
      ensures saved == old(saved) + SavedIn(l)
      ensures anchor == if FirstUse(l) then Some(DigestsOf(l.found.state)) else old(anchor)
      // Data known stays known, unless a disabled backend's purge was due.
      ensures old(owed) <= owed || (!t.enabled && t.purgeGeneration > l.found.state.purgedGeneration)
      // Purge generations only grow, and one an enabled tick got past is stored.
      ensures store.Current().purgedGeneration >= l.found.state.purgedGeneration
      ensures t.enabled && (l.saves != [] || l.desired.Some?) ==> store.Current().purgedGeneration >= t.purgeGeneration
      // Holds and remembered failures need nothing but records that are faithful to begin with.
      ensures Faithful(cfg, l.found.state) ==>
        && Faithful(cfg, l.left.state)
        && (HeldBack(l) || FailedBefore(l) ==> l.applied == {}) && (HeldBack(l) ==> l.deleted == {})
      // An answered tick that trusted its load, or stored anything, leaves all three in agreement.
      ensures EarnsTrust(l) && Answered(l) ==> Agreed()
      ensures !l.alive ==> memory.None?
    {
      hide TickOk, TurnOk, ActedOn, Valid, Faithful, VerifyState, DigestsGenuine, CanReport, Agreed, Answered,
        EarnsTrust;
      hide HeldBack, FailedBefore, DigestsOf, Ledger, SavedIn, CellsGone, Spent, ResyncDue, Purged, Entry;
      LawfulCodec();
      var expected := record;
      var ok, phase;
      ghost var start, desired;
      ok, phase, start, desired, end := ReconcileBackend(t);
      ghost var turn := Entry(t, start, desired, ok, phase, false);
      EntryParts(t, start, desired, ok, phase);
      l := CloseTick(expected, turn);
      PurgesRecorded(cfg, l);
    }

    lemma EntryParts(t: Tick, start: Option<BackendState>, desired: Option<DesiredSet>, finished: bool, phase: Phase)
      ensures var l := Entry(t, start, desired, finished, phase, false);
        (l.t, l.start, l.desired, l.finished, l.phase) == (t, start, desired, finished, phase)
    {
    }

    /** Reports and files the entry. */
    method CloseTick(expected: Integrity, ghost turn: TickLog) returns (ghost l: TickLog)
      requires DigestsGenuine() && Ledger() && Lawful(cfg.codec)
      requires expected == found.record && (CanReport() || record == expected)
      requires turn == Entry(turn.t, turn.start, turn.desired, turn.finished, turn.phase, false) && TurnOk(cfg, turn)
      requires turn.start.Some? ==> hasLoaded
      modifies this`memory, this`appliedAt, this`record, this`reports, this`log
      ensures DigestsGenuine()
      ensures expected.inventory.Some? ==> record.inventory.Some?
      ensures log == old(log) + [l] && l == Entry(turn.t, turn.start, turn.desired, turn.finished, turn.phase, l.alive)
      ensures l.found == found && l.left == Now() && l.loaded == hasLoaded && l.saves == saves
      ensures (l.t, l.start, l.desired) == (turn.t, turn.start, turn.desired)
      ensures (l.finished, l.phase) == (turn.finished, turn.phase)
      ensures TickOk(cfg, l) && saved == earlier + SavedIn(l)
      ensures Faithful(cfg, l.found.state) ==>
        && Faithful(cfg, l.left.state)
        && (HeldBack(l) || FailedBefore(l) ==> l.applied == {}) && (HeldBack(l) ==> l.deleted == {})
      ensures EarnsTrust(l) && Answered(l) ==> Agreed()
      ensures !l.alive ==> memory.None?
    {
      hide TurnOk, Faithful, VerifyState, HeldBack, FailedBefore, Seen, Filed, Told, Minded, Accounted, Reporting;
      hide DigestsGenuine, CanReport, Agreed, Answered, EarnsTrust, Agrees;
      var alive := Report(expected);
      l := Entry(turn.t, turn.start, turn.desired, turn.finished, turn.phase, alive);
      log := log + [l];
      ReportLeaves(cfg, turn, l);
      TickAccounts(l);
      TickAgrees(l);
      if Faithful(cfg, l.found.state) { NothingApplied(cfg, l); }
    }

    lemma TickAccounts(l: TickLog)
      requires l.found == found && l.left == Now() && l.loaded == hasLoaded && (l.saves, l.reports) == (saves, reports)
      requires (l.applied, l.deleted) == (applied, deleted)
      requires Seen() && Filed() && Told() && (if l.alive then Minded() else memory.None?)
      requires l.start.Some? ==> hasLoaded
      ensures Accounted(l) && Reporting(l) && saved == earlier + SavedIn(l)
      ensures found.record.inventory.Some? ==> record.inventory.Some?
    {
      hide Traced, MemoryAfter, Recalled, NoticesTrue, LastStored, LastSaved;
    }

    lemma TickAgrees(l: TickLog)
      requires l.found == found && l.left == Now() && l.loaded == hasLoaded && (l.saves, l.reports) == (saves, reports)
      requires (l.start.Some? ==> hasLoaded) && Filed()
      requires l.alive ==>
        Minded() && (memory.Some? && reports != [] && reports[|reports| - 1].stored ==> record == IntegrityOf(memory))
      ensures Agrees(l)
      ensures EarnsTrust(l) && Answered(l) ==> Agreed()
    {
      hide DigestsOf, VerifyState;
      if EarnsTrust(l) && Answered(l) {
        assert memory == Some(DigestsOf(store.Current()));
        RecordTrusted(store.Current());
      }
    }

    lemma LawfulCodec()
      requires Valid()
      ensures Lawful(cfg.codec)
    {
    }

    static lemma RecordTrusted(s: BackendState)
      ensures VerifyState(s, IntegrityOf(Some(DigestsOf(s)))) == Trust(true, true)
    {
    }

    // ---- whole runs -----------------------------------------------------------------------------

    /** A new process: what was only in memory is gone. */
    method Restart()
      requires DigestsGenuine()
      modifies this`memory, this`appliedAt
      ensures DigestsGenuine() && memory.None?
      ensures old(Agreed()) ==> Agreed()
    {
      memory, appliedAt := None, None;
    }

    /** The rest of the world between ticks: objects come, go and change, but none turns into one of this
        backend's that was not. */
    method OthersAct()
      requires Valid()
      modifies this`cluster
      ensures Valid() && Books(Now()) == old(Books(Now()))
    {
      var next: Objects := *;
      if forall k | k in next ::
           && KeyOf(next[k].obj.ref) == k
           && (Mine(cfg, next[k]) && PrunableKey(k, cfg.namespace, cfg.kinds) ==> k in cluster && Mine(cfg, cluster[k]))
      {
        cluster := next;
      }
    }

    /** Somebody rewrites the controller's Secrets. */
    method Rewrite()
      requires Valid()
      modifies store, this`sound
      ensures Valid() && !sound
    {
      sound := false;
      store.cell, store.chunks := *, *;
    }

    /** Any run: ticks, each possibly failing or dying anywhere; restarts; other actors; rewritten Secrets.
        `h` is what it adds to the log. */
    method Run(steps: seq<Step>) returns (ghost h: seq<TickLog>)
      requires Valid() && DigestsGenuine()
      modifies this, store
      ensures Valid() && DigestsGenuine()
      // The log holds the account of every tick, in order.
      ensures log == old(log) + h && TicksIn(h) == TicksOf(steps)
      ensures forall i :: 0 <= i < |h| ==> TickOk(cfg, h[i]) && OwnOnly(cfg, h[i]) && Untouched(cfg, h[i])
      // Whoever rewrites the Secrets, no report names digests but those the run started with, those of states
      // this controller had saved, or of one taken on first use; and scpd's record is never erased.
      ensures ReportsSourced(old(Now()), h) && Sourced(old(Now()), h, |h|, record)
      ensures old(record.inventory.Some?) ==>
        record.inventory.Some? && anchor == old(anchor) && NoFirstUse(h)
      ensures saved == old(saved) + SavedOver(h)
      // Unless somebody rewrites the Secrets, each tick finds what the one before it left, and so:
      ensures Rewrites !in steps ==> IsRun(cfg, h) && Leads(old(Now()), h, Now())
      // failures and holds are kept,
      ensures Rewrites !in steps && old(Faithful(cfg, store.Current())) ==>
        Faithful(cfg, store.Current()) && FailuresHeld(cfg, h) && FailuresStick(cfg, h) && HoldsKept(h)
      // a purge generation left behind never deletes data later on,
      ensures Rewrites !in steps ==>
        PurgesOnce(h) && store.Current().purgedGeneration >= old(store.Current()).purgedGeneration
      ensures Rewrites !in steps && NoPurgeAbove(steps, old(store.Current()).purgedGeneration) ==>
        NoDataDeleted(h) && old(owed) <= owed
      // data known is kept, trust handed on, and a promotion puts things in order again,
      ensures Rewrites !in steps ==> DataKept(cfg, h) && TrustKept(h) && Recovers(cfg, h)
      ensures sound && Rewrites !in steps && NoPurgeAbove(steps, old(store.Current()).purgedGeneration) ==>
        old(owed) <= DataKnown(store.Current())
      // and the bookkeeping stays right while loads are trusted, which they are in an answered run,
      ensures Rewrites !in steps && old(sound) && AllVerified(h) ==> sound
      ensures Rewrites !in steps && old(sound && Agreed()) && AllAnswered(h) ==> sound && Agreed()
      // with nothing out of sight unless a tick was cut short behind its stored promotion.
      ensures Rewrites !in steps && NoneCutShort(cfg, h) ==>
        orphans == old(orphans) && (sound ==> Tracked(cfg, cluster, Known(store.Current()) + old(orphans)))
    {
      hide Agreed, DigestsGenuine, Valid, VerifyState, Leads, Books, TickOk, OwnOnly, Untouched, Faithful, IsRun;
      hide NoDataDeleted, PurgeAsked;
      hide FailuresHeld, FailuresStick, HoldsKept, PurgesOnce, DataKept, TrustKept, Recovers, AllVerified,
        AllAnswered, NoneCutShort;
      hide Chained, ReportsSourced, Sourced, SavedOver, NoFirstUse;
      ghost var from := Now();
      StillTracks();
      h := TakeSteps(steps);
      StillTracks();
      RunReportsSourced(cfg, from, h, Now());
      if Rewrites !in steps {
        RunKeeps(cfg, from, h, Now());
        if NoPurgeAbove(steps, from.state.purgedGeneration) {
          TicksAmong(steps, h);
          NothingPurged(cfg, from, h, Now());
        }
      }
    }

    /** Takes stock: whatever of the backend's is live and not listed counts as orphaned. */
    ghost method TakeStock()
      requires Valid() && StateOk(cfg, store.Current())
      modifies this`orphans, this`owed, this`sound
      ensures Valid() && sound
      ensures orphans == Untracked(cfg, cluster, Known(store.Current())) && owed == DataKnown(store.Current())
    {
      orphans, owed := Untracked(cfg, cluster, Known(store.Current())), DataKnown(store.Current());
      sound := true;
    }

    /** A run from a state in order that is trusted, as an answered promotion leaves it, however it came
        to that: from there on nothing more falls out of sight, and no data is forgotten. */
    method RunOn(steps: seq<Step>) returns (ghost h: seq<TickLog>)
      requires Valid() && DigestsGenuine() && StateOk(cfg, store.Current()) && Agreed()
      modifies this, store
      ensures Valid() && DigestsGenuine() && log == old(log) + h && TicksIn(h) == TicksOf(steps)
      ensures Rewrites !in steps && AllAnswered(h) ==> sound && Agreed()
      ensures Rewrites !in steps && AllAnswered(h) && NoneCutShort(cfg, h) ==>
        Tracked(cfg, cluster, Known(store.Current()) + Untracked(cfg, old(cluster), Known(old(store.Current()))))
      ensures && Rewrites !in steps && AllAnswered(h)
              && NoPurgeAbove(steps, old(store.Current()).purgedGeneration) ==>
        KeepsData(old(store.Current()), store.Current())
    {
      hide Valid, DigestsGenuine, Agreed, StateOk, AllAnswered, NoneCutShort, Tracked, DataKnown, Known, Untracked;
      hide TickOk, OwnOnly, Untouched, IsRun, Leads, ReportsSourced, Sourced, NoFirstUse, SavedOver, FailuresHeld,
        FailuresStick, HoldsKept;
      hide PurgesOnce, DataKept, TrustKept, Recovers, AllVerified, NoDataDeleted, Faithful;
      TakeStock();
      h := Run(steps);
    }

    /** One more tick of a run; `calm` as long as nobody rewrote the Secrets. */
    method TakeTick(t: Tick, ghost from: World, ghost h: seq<TickLog>, ghost calm: bool) returns (ghost l: TickLog)
      requires Valid() && DigestsGenuine()
      requires Chained(from, h, Now()) && (calm ==> IsRun(cfg, h) && Leads(from, h, Now()))
      modifies this, store
      ensures Valid() && DigestsGenuine()
      ensures log == old(log) + [l] && l.t == t && TickOk(cfg, l) && OwnOnly(cfg, l) && Untouched(cfg, l)
      ensures saved == old(saved) + SavedIn(l) && Chained(from, h + [l], Now())
      ensures anchor == if FirstUse(l) then Some(DigestsOf(l.found.state)) else old(anchor)
      ensures calm ==> IsRun(cfg, h + [l]) && Leads(from, h + [l], Now())
      ensures (old(owed) <= owed && !PurgeAsked(h)) || PurgeAsked(h + [l])
      ensures AllAnswered(h + [l]) ==> AllAnswered(h) && (old(Agreed()) ==> Agreed())
    {
      hide Agreed, DigestsGenuine, Valid, VerifyState, Leads, Books, Answered, TickOk, OwnOnly, Untouched, Faithful;
      hide ActedOn, IsRun;
      hide AllAnswered, HeldBack, FailedBefore, Tracked, Known, DataKnown, PurgeAsked, Chained, SavedIn, FirstUse,
        DigestsOf;
      StillTracks();
      ghost var end;
      l, end := RunTick(t);
      TouchesOwn(cfg, l);
      AppliesUntouched(cfg, l);
      ChainExtends(from, h, l);
      if calm { RunExtends(cfg, from, h, l); }
      PurgeAskedOnce(h, l);
      if AllAnswered(h + [l]) { AnsweredSoFar(h, l); }
    }

    method BetweenTicks(step: Step, ghost from: World, ghost h: seq<TickLog>, ghost calm: bool)
      requires Valid() && DigestsGenuine() && !step.Ticks? && (calm ==> !step.Rewrites?)
      requires Chained(from, h, Now()) && (calm ==> Leads(from, h, Now()))
      modifies this`memory, this`appliedAt, this`cluster, this`sound, store
      ensures Valid() && DigestsGenuine() && Chained(from, h, Now())
      ensures calm ==> Leads(from, h, Now()) && (old(Agreed()) ==> Agreed())
    {
      hide Valid, Chained, Leads, DigestsOf, VerifyState, DigestsGenuine;
      ghost var before := Now();
      match step {
        case Restarts =>
          Restart();
        case Meanwhile =>
          OthersAct();
        case Rewrites =>
          Rewrite();
      }
      ChainWaits(from, h, before, Now());
      if calm { RunWaits(from, h, before, Now()); }
    }

    method TakeSteps(steps: seq<Step>) returns (ghost h: seq<TickLog>)
      requires Valid() && DigestsGenuine()
      modifies this, store
      ensures Valid() && DigestsGenuine()
      ensures log == old(log) + h && TicksIn(h) == TicksOf(steps)
      ensures forall i :: 0 <= i < |h| ==> TickOk(cfg, h[i]) && OwnOnly(cfg, h[i]) && Untouched(cfg, h[i])
      ensures Chained(old(Now()), h, Now()) && saved == old(saved) + SavedOver(h)
      ensures NoFirstUse(h) ==> anchor == old(anchor)
      ensures Rewrites !in steps ==> IsRun(cfg, h) && Leads(old(Now()), h, Now())
      ensures old(owed) <= owed || PurgeAsked(h)
      ensures Rewrites !in steps && old(Agreed()) && AllAnswered(h) ==> Agreed()
    {
      hide Agreed, DigestsGenuine, Valid, Leads, TickOk, OwnOnly, Untouched, IsRun, PurgeAsked, AllAnswered, Chained;
      hide SavedIn, SavedOver;
      hide NoFirstUse, FirstUse, DigestsOf;
      h := [];
      ghost var from := Now();
      RunBegins(cfg, from);
      ChainBegins(from);
      for i := 0 to |steps|
        invariant Valid() && DigestsGenuine()
        invariant log == old(log) + h && TicksIn(h) == TicksOf(steps[..i])
        invariant forall j :: 0 <= j < |h| ==> TickOk(cfg, h[j]) && OwnOnly(cfg, h[j]) && Untouched(cfg, h[j])
        invariant Chained(from, h, Now()) && saved == old(saved) + SavedOver(h)
        invariant NoFirstUse(h) ==> anchor == old(anchor)
        invariant Rewrites !in steps ==> IsRun(cfg, h) && Leads(from, h, Now())
        invariant old(owed) <= owed || PurgeAsked(h)
        invariant Rewrites !in steps && old(Agreed()) && AllAnswered(h) ==> Agreed()
      {
        assert steps[..i + 1][..i] == steps[..i];
        match steps[i] {
          case Ticks(t) =>
            ghost var l := TakeTick(t, from, h, Rewrites !in steps);
            SavedMore(h, l);
            FirstUseMore(h, l);
            h := h + [l];
          case _ =>
            BetweenTicks(steps[i], from, h, Rewrites !in steps);
        }
      }
      assert steps[..|steps|] == steps;
    }

    lemma StillTracks()
      requires Valid()
      ensures Lawful(cfg.codec)
      ensures sound ==> Tracked(cfg, cluster, Known(store.Current()) + orphans) && owed == DataKnown(store.Current())
      ensures Agreed() ==> VerifyState(store.Current(), record) == Trust(true, true)
    {
    }
  }

  lemma {:induction false} TicksAmong(steps: seq<Step>, h: seq<TickLog>)
    requires TicksIn(h) == TicksOf(steps)
    ensures forall i :: 0 <= i < |h| ==> Ticks(h[i].t) in steps
  {
    forall i | 0 <= i < |h| ensures Ticks(h[i].t) in steps {
      assert TicksIn(h)[i] == h[i].t;
      TickAmong(steps, h[i].t);
    }
  }

  lemma {:induction false} TickAmong(steps: seq<Step>, t: Tick)
    requires t in TicksOf(steps)
    ensures Ticks(t) in steps
  {
    var n := |steps| - 1;
    if t in TicksOf(steps[..n]) {
      TickAmong(steps[..n], t);
    } else {
      assert steps[n] == Ticks(t);
    }
  }

  datatype Step = Ticks(t: Tick) | Restarts | Meanwhile | Rewrites

  /** No disabled tick of the run asks for a purge past `generation`. */
  predicate NoPurgeAbove(steps: seq<Step>, generation: int) {
    forall i :: 0 <= i < |steps| && steps[i].Ticks? && !steps[i].t.enabled ==> steps[i].t.purgeGeneration <= generation
  }

  function TicksOf(steps: seq<Step>): seq<Tick> {
    if steps == [] then []
    else
      var n := |steps| - 1;
      TicksOf(steps[..n]) + if steps[n].Ticks? then [steps[n].t] else []
  }

  function TicksIn(h: seq<TickLog>): seq<Tick> {
    seq(|h|, i requires 0 <= i < |h| => h[i].t)
  }
}
