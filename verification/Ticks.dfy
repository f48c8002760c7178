/** One tick of the controller as the log entry it leaves: what it found, did, stored, reported and left,
    and what follows from an entry alone. Module Reconcile proves every tick to leave such an entry. */
module Ticks {
  import opened Wrappers
  import opened Manifests
  import opened State
  import opened Cluster

  /** What a tick is asked for, and what the chart and the workloads answer in it. A chart can come out
      differently each time it is rendered, or fail; it is rendered at most twice. */
  datatype Tick = Tick(
    enabled: bool,
    purgeGeneration: int,
    manual: bool,
    upgradeGeneration: int,
    release: string,
    now: int,
    forRefs: Option<seq<KubeObject>>, // rendered to replace an inventory that is not trusted
    forSet: Option<seq<KubeObject>>, // rendered to be in place
    established: seq<KubeObject> -> bool, // whether CRDs come to be within the timeout
    ready: seq<KubeObject> -> bool
  )

  datatype Phase = Ready | Degraded | Failed | Removing | Disabled

  datatype DesiredSet = DesiredSet(objects: seq<KubeObject>, fingerprint: Fingerprint)

  /** A deletion the controller asked for: the reference it named and the object it found there. */
  datatype Deletion = Deletion(ref: ObjectRef, found: KubeObject, purge: bool)

  /** A save that happened, and whether the controller was told so. */
  datatype Save = Save(state: BackendState, acked: bool)

  /** A status report, whether scpd stored it, and the tick's saves before it. */
  datatype Notice = Notice(digests: Integrity, stored: bool, behind: seq<Save>)

  /** What a tick finds and leaves. `memory` is the process's, lost when it dies. `orphans` are left behind
      by promotions whose prune was cut short; `sound` says the bookkeeping of what is in the cluster is
      known to be right. */
  datatype World = World(
    state: BackendState,
    record: Integrity,
    memory: Option<StateDigests>,
    cluster: Objects,
    orphans: set<Key>,
    sound: bool
  )

  datatype TickLog = TickLog(
    t: Tick,
    found: World,
    loaded: bool,
    start: Option<BackendState>, // what it worked from, once loaded and verified
    desired: Option<DesiredSet>, // what it rendered to be in place, if it came to that
    rendered: set<KubeObject>, // all it rendered
    applied: set<KubeObject>,
    deleted: set<Deletion>,
    saves: seq<Save>,
    reports: seq<Notice>,
    finished: bool, // no error, no death before the closing report
    phase: Phase, // what the report says, once finished
    alive: bool, // the closing report was attempted
    left: World
  )

  // ---- an entry accounts for every change --------------------------------------------------------------

  function LastSaved(from: BackendState, saves: seq<Save>): BackendState {
    if saves == [] then from else saves[|saves| - 1].state
  }

  function LastStored(from: Integrity, reports: seq<Notice>): Integrity {
    if reports == [] then from
    else
      var n := |reports| - 1;
      if reports[n].stored then reports[n].digests else LastStored(from, reports[..n])
  }

  /** A deletion was asked for, and what it found is what was there before, or was applied since. */
  ghost predicate WasDeleted(before: Objects, applied: set<KubeObject>, deleted: set<Deletion>, k: Key) {
    exists d :: d in deleted && KeyOf(d.ref) == k && (d.found in applied || (k in before && d.found == before[k].obj))
  }

  /** What holds another object than before holds an applied one; what is gone, or on its way out since,
      was deleted or was on its way out already. */
  ghost predicate Traced(before: Objects, after: Objects, applied: set<KubeObject>, deleted: set<Deletion>) {
    && (forall k :: k in after && !(k in before && after[k].obj == before[k].obj) ==> after[k].obj in applied)
    && (forall k :: k in after && after[k].deleting ==>
          (k in before && before[k].deleting) || WasDeleted(before, applied, deleted, k))
    && (forall k :: k in before && k !in after ==> before[k].deleting || WasDeleted(before, applied, deleted, k))
  }

  lemma TracedPut(before: Objects, now: Objects, o: KubeObject, applied: set<KubeObject>, deleted: set<Deletion>)
    requires Traced(before, now, applied, deleted)
    ensures Traced(before, Put(now, o), applied + {o}, deleted)
  {
    forall k | WasDeleted(before, applied, deleted, k) ensures WasDeleted(before, applied + {o}, deleted, k) {
      StillDeleted(before, applied, deleted, applied + {o}, deleted, k);
    }
  }

  lemma TracedDelete(before: Objects, now: Objects, after: Objects, applied: set<KubeObject>, deleted: set<Deletion>,
    k: Key)
    requires Traced(before, now, applied, deleted) && Reduced(now, after, {k})
    requires WasDeleted(before, applied, deleted, k)
    ensures Traced(before, after, applied, deleted)
  {
  }

  lemma TracedMore(before: Objects, now: Objects, applied: set<KubeObject>, deleted: set<Deletion>, d: Deletion)
    requires Traced(before, now, applied, deleted)
    requires KeyOf(d.ref) in now && d.found == now[KeyOf(d.ref)].obj
    ensures Traced(before, now, applied, deleted + {d})
    ensures WasDeleted(before, applied, deleted + {d}, KeyOf(d.ref))
  {
    forall k | WasDeleted(before, applied, deleted, k) ensures WasDeleted(before, applied, deleted + {d}, k) {
      StillDeleted(before, applied, deleted, applied, deleted + {d}, k);
    }
    assert d in deleted + {d};
  }

  lemma StillDeleted(before: Objects, applied: set<KubeObject>, deleted: set<Deletion>,
    more: set<KubeObject>, others: set<Deletion>, k: Key)
    requires WasDeleted(before, applied, deleted, k) && applied <= more && deleted <= others
    ensures WasDeleted(before, more, others, k)
  {
  }

  lemma TracedSettled(before: Objects, now: Objects, after: Objects, applied: set<KubeObject>, deleted: set<Deletion>)
    requires Traced(before, now, applied, deleted) && Settled(now, after)
    ensures Traced(before, after, applied, deleted)
  {
  }

  ghost predicate Accounted(l: TickLog) {
    && Traced(l.found.cluster, l.left.cluster, l.applied, l.deleted)
    && l.left.state == LastSaved(l.found.state, l.saves)
    && l.left.record == LastStored(l.found.record, l.reports)
  }

  // ---- what a tick remembers and tells scpd ---------------------------------------------------------------

  function IntegrityOf(d: Option<StateDigests>): Integrity {
    match d
    case None => Integrity(None, None)
    case Some(digests) => Integrity(digests.lastGood, Some(digests.inventory))
  }

  /** The memory behind the load: a trusted state's digests; else what was remembered, or for want of
      that scpd's record. */
  function Recalled(found: World, loaded: bool): Option<StateDigests> {
    if !loaded then found.memory
    else if VerifyState(found.state, found.record) == Trust(true, true) then Some(DigestsOf(found.state))
    else if found.memory.None? && found.record.inventory.Some?
    then Some(StateDigests(found.record.lastGood, found.record.inventory.value))
    else found.memory
  }

  /** And behind saves: the last acknowledged one's digests. */
  function MemoryAfter(memory: Option<StateDigests>, saves: seq<Save>): Option<StateDigests> {
    if saves == [] then memory
    else
      var n := |saves| - 1;
      if saves[n].acked then Some(DigestsOf(saves[n].state)) else MemoryAfter(memory, saves[..n])
  }

  /** A report carries the memory; an empty one leaves scpd its record. */
  function Handed(found: World, loaded: bool, saves: seq<Save>): Integrity {
    var memory := MemoryAfter(Recalled(found, loaded), saves);
    if memory.Some? then IntegrityOf(memory) else found.record
  }

  ghost predicate NoticesTrue(found: World, loaded: bool, saves: seq<Save>, reports: seq<Notice>) {
    forall r :: r in reports ==> r.behind <= saves && r.digests == Handed(found, loaded, r.behind)
  }

  lemma NoticesStay(found: World, loaded: bool, saves: seq<Save>, s: Save, reports: seq<Notice>)
    requires NoticesTrue(found, loaded, saves, reports)
    ensures NoticesTrue(found, loaded, saves + [s], reports)
  {
  }

  lemma NoticeAlso(found: World, loaded: bool, saves: seq<Save>, reports: seq<Notice>, r: Notice)
    requires NoticesTrue(found, loaded, saves, reports) && r.behind == saves
      && r.digests == Handed(found, loaded, saves)
    ensures NoticesTrue(found, loaded, saves, reports + [r])
    ensures LastStored(found.record, reports + [r]) == if r.stored then r.digests else LastStored(found.record, reports)
  {
    assert (reports + [r])[..|reports|] == reports;
  }

  /** Every report says what is remembered when it is made; a process that dies forgets. */
  ghost predicate Reporting(l: TickLog) {
    && NoticesTrue(l.found, l.loaded, l.saves, l.reports)
    && l.left.memory == (if l.alive then MemoryAfter(Recalled(l.found, l.loaded), l.saves) else None)
    && (l.start.Some? ==> l.loaded)
  }

  lemma MemoryLast(memory: Option<StateDigests>, saves: seq<Save>, s: Save)
    ensures MemoryAfter(memory, saves + [s]) == if s.acked then Some(DigestsOf(s.state)) else MemoryAfter(memory, saves)
  {
    assert (saves + [s])[..|saves|] == saves;
  }

  // ---- what a tick works from and renders -----------------------------------------------------------------

  /** What a chart's output is made into; nothing, if it fails, is empty or holds what may not be there. */
  function RenderOf(c: Config, t: Tick, output: Option<seq<KubeObject>>): Option<DesiredSet> {
    if output.None? || output.value == [] || !AllAdmissible(c, output.value) then None
    else
      var objects := StampAll(output.value, c.backend, t.release);
      Some(DesiredSet(objects, c.codec.fingerprint(objects)))
  }

  /** What passes is the chart's output, object by object, with this backend's labels and release. */
  lemma RenderKeeps(c: Config, t: Tick, output: Option<seq<KubeObject>>)
    requires RenderOf(c, t, output).Some?
    ensures output.Some?
    ensures var objs := RenderOf(c, t, output).value.objects;
      && |objs| == |output.value| > 0
      && forall i :: 0 <= i < |objs| ==> Stamped(objs[i], output.value[i], c.backend, t.release)
  {
    StampAllKeeps(output.value, c.backend, t.release);
  }

  /** What passes is accepted: admissible, labelled, and fingerprinted as it is. */
  lemma RenderAccepted(c: Config, t: Tick, output: Option<seq<KubeObject>>)
    requires RenderOf(c, t, output).Some?
    ensures var desired := RenderOf(c, t, output).value;
      Accepted(c, desired.objects, t.release) && desired.fingerprint == c.codec.fingerprint(desired.objects)
  {
    StampedAccepted(c, output.value, t.release);
  }

  function ObjectsOf(desired: Option<DesiredSet>): set<KubeObject> {
    if desired.None? then {} else set o | o in desired.value.objects
  }

  /** The references a refused inventory is replaced by. */
  function RefsInstead(c: Config, t: Tick): seq<ObjectRef> {
    match RenderOf(c, t, t.forRefs)
    case None => []
    case Some(desired) => RefsOf(desired.objects)
  }

  /** The stored state as far as it is trusted, else what the chart renders for it. */
  ghost predicate StartsFrom(c: Config, t: Tick, state: BackendState, loaded: BackendState, trust: Trust) {
    && (trust.inventory || RenderOf(c, t, t.forRefs).Some?)
    && state == Effective(loaded, trust, RefsInstead(c, t))
  }

  function TrustOf(l: TickLog): Trust {
    VerifyState(l.found.state, l.found.record)
  }

  function Spent(t: Tick, loaded: BackendState): BackendState {
    var g := loaded.purgedGeneration;
    loaded.(purgedGeneration := if t.purgeGeneration > g then t.purgeGeneration else g)
  }

  /** The set to be in place is what the chart renders for that. */
  ghost predicate IsRender(c: Config, t: Tick, desired: DesiredSet) {
    && RenderOf(c, t, t.forSet) == Some(desired)
    && Accepted(c, desired.objects, t.release) && desired.fingerprint == c.codec.fingerprint(desired.objects)
  }

  /** All that is rendered: for a refused inventory, and to be in place. */
  ghost function Renders(c: Config, l: TickLog): set<KubeObject> {
    (if l.start.Some? && !TrustOf(l).inventory then ObjectsOf(RenderOf(c, l.t, l.t.forRefs)) else {}) +
    ObjectsOf(l.desired)
  }

  /** Loading and rendering; a tick that got no further did nothing, and once loaded only a chart that does
      not pass, or a due purge that could not be spent, keeps it from getting further. An enabled tick that
      rendered had a due purge spent before. */
  ghost predicate Began(c: Config, l: TickLog) {
    && l.rendered == Renders(c, l)
    && (l.start.Some? ==> StartsFrom(c, l.t, l.start.value, l.found.state, TrustOf(l)))
    && (l.loaded && l.start.None? ==> !TrustOf(l).inventory && RenderOf(c, l.t, l.t.forRefs).None?)
    && (l.start.Some? && l.t.enabled && l.desired.None? ==>
          RenderOf(c, l.t, l.t.forSet).None? || l.t.purgeGeneration > l.found.state.purgedGeneration)
    && (l.start.None? ==> l.saves == [] && l.deleted == {} && l.desired.None? && !l.finished)
    && (l.desired.Some? ==>
          && l.t.enabled && l.start.Some? && IsRender(c, l.t, l.desired.value)
          && (l.t.purgeGeneration > l.found.state.purgedGeneration ==> l.saves != []))
    && (l.desired.None? ==> l.applied == {} && (l.t.enabled ==> l.deleted == {} && !l.finished))
  }

  // ---- what a tick stores ---------------------------------------------------------------------------------

  function Attempted(s: BackendState, desired: DesiredSet): BackendState {
    WithInventory(s, RefsOf(desired.objects))
  }

  function FailureOf(t: Tick, desired: DesiredSet): FailedAttempt {
    FailedAttempt(desired.fingerprint, t.release, t.upgradeGeneration)
  }

  function PlanOf(t: Tick, s: BackendState, desired: DesiredSet): Plan {
    Decide(s, desired.fingerprint, t.release, t.manual, t.upgradeGeneration)
  }

  ghost predicate IsGood(c: Config, t: Tick, desired: DesiredSet, good: LastGood) {
    good == LastGood(t.release, desired.fingerprint, t.upgradeGeneration, good.chunks,
      Sha256(c.codec.pack(desired.objects)))
  }

  ghost predicate PromotedFrom(c: Config, t: Tick, s: BackendState, desired: DesiredSet, next: BackendState) {
    && t.ready(desired.objects)
    && next.lastGood.Some? && IsGood(c, t, desired, next.lastGood.value)
    && next == Promoted(s, RefsOf(desired.objects), next.lastGood.value, t.purgeGeneration)
  }

  ghost predicate RolledBackFrom(c: Config, t: Tick, s: BackendState, desired: DesiredSet, next: BackendState) {
    && s.lastGood.Some? && Restamped(c, s.lastGood.value).Some?
    && next == FellBack(s, Attempted(s, desired).inventory, RefsOf(Restamped(c, s.lastGood.value).value),
      FailureOf(t, desired))
  }

  ghost predicate FailedFrom(t: Tick, s: BackendState, desired: DesiredSet, next: BackendState) {
    next == Attempted(s, desired).(failed := Some(FailureOf(t, desired)))
  }

  ghost predicate AttemptMoves(c: Config, t: Tick, s: BackendState, desired: DesiredSet, next: BackendState) {
    || next == Attempted(s, desired)
    || FailedFrom(t, s, desired, next)
    || RolledBackFrom(c, t, s, desired, next)
    || PromotedFrom(c, t, Attempted(s, desired), desired, next)
  }

  /** What the branch that is taken may store. */
  ghost predicate ActMoves(c: Config, t: Tick, s: BackendState, desired: DesiredSet, next: BackendState) {
    match PlanOf(t, s, desired)
    case Steady => false
    case Hold => false
    case Remembered => s.lastGood.None? && PromotedFrom(c, t, s, desired, next)
    case Attempt => AttemptMoves(c, t, s, desired, next)
  }

  ghost predicate EnabledMoves(c: Config, t: Tick, start: BackendState, desired: Option<DesiredSet>,
    next: BackendState) {
    || (t.purgeGeneration > start.purgedGeneration && next == Spent(t, start))
    || (desired.Some? && ActMoves(c, t, Spent(t, start), desired.value, next))
  }

  ghost predicate DisabledMoves(t: Tick, start: BackendState, next: BackendState) {
    || (next == Removed(start) && (start.inventory != [] || start.lastGood.Some?))
    || (next == Purged(t.purgeGeneration) && t.purgeGeneration > start.purgedGeneration)
  }

  /** Every way the stored state can change over a tick. */
  ghost predicate Moves(c: Config, l: TickLog) {
    if l.saves == [] then l.left.state == l.found.state
    else
      && l.start.Some?
      && if l.t.enabled then EnabledMoves(c, l.t, l.start.value, l.desired, l.left.state)
         else DisabledMoves(l.t, l.start.value, l.left.state)
  }

  /** And every save on the way is one of those. */
  ghost predicate SavesOwn(c: Config, l: TickLog) {
    forall s :: s in l.saves ==>
      && l.start.Some?
      && if l.t.enabled then EnabledMoves(c, l.t, l.start.value, l.desired, s.state)
         else DisabledMoves(l.t, l.start.value, s.state)
  }

  // ---- what a tick does to the cluster ---------------------------------------------------------------------

  /** An object the tick may apply: of its own render, or of the set whose bytes both the stored state
      and, once it has a record, scpd know by hash. Either way it is one the backend may contain. */
  ghost predicate MayApply(c: Config, l: TickLog, o: KubeObject) {
    var loaded, expected := l.found.state, l.found.record;
    && Admissible(o.ref, c.namespace, c.kinds) && IsOurs(o, c.backend)
    && l.desired.Some?
    && (o in l.desired.value.objects ||
        (&& loaded.lastGood.Some? && Restorable(c, loaded.lastGood.value, o)
         && (expected != Integrity(None, None) ==> expected.lastGood == Some(loaded.lastGood.value.sha256))))
  }

  /** An object the tick may delete: named by a render or by a trusted inventory, carrying the backend's
      labels, in its kinds and namespace, no CRD or Namespace, and data only when a disabled backend's
      purge is due. */
  ghost predicate MayDelete(c: Config, l: TickLog, d: Deletion) {
    && Prunable(d.ref, c.namespace, c.kinds, d.purge)
    && IsOurs(d.found, c.backend) && KeyOf(d.found.ref) == KeyOf(d.ref)
    && ((exists o :: o in l.rendered && o.ref == d.ref) ||
        (TrustOf(l).inventory && d.ref in l.found.state.inventory + l.found.state.retained))
    && (d.purge ==> !l.t.enabled && l.t.purgeGeneration > l.found.state.purgedGeneration)
  }

  ghost predicate Effects(c: Config, l: TickLog) {
    && (forall o :: o in l.applied ==> MayApply(c, l, o))
    && (forall d :: d in l.deleted ==> MayDelete(c, l, d))
    && (l.desired.Some? && l.start.Some? ==>
          var plan := PlanOf(l.t, Spent(l.t, l.start.value), l.desired.value);
          && (plan == Hold || plan == Remembered ==> l.applied == {})
          && (plan == Hold || plan == Steady ==> l.deleted == {})
          && (plan == Steady ==> forall o :: o in l.applied ==> o in l.desired.value.objects))
  }

  // ---- what a tick keeps track of --------------------------------------------------------------------------

  ghost predicate Promotes(c: Config, t: Tick, s: BackendState, desired: DesiredSet, next: BackendState) {
    PromotedFrom(c, t, s, desired, next) || PromotedFrom(c, t, Attempted(s, desired), desired, next)
  }

  /** Orphans are added only when the promoted state was stored and the tick did not finish, and then at
      most the keys the promotion stopped listing. */
  ghost predicate OrphansOnlyBehind(c: Config, t: Tick, s: BackendState, desired: DesiredSet, finished: bool,
    before: set<Key>, next: BackendState, after: set<Key>)
  {
    || after == before
    || (!finished && Promotes(c, t, s, desired, next)
      && before <= after <= before + (Keys(s.inventory) - Keys(next.inventory)))
  }

  ghost predicate StoresPromotion(c: Config, l: TickLog) {
    && l.saves != [] && l.desired.Some? && l.start.Some?
    && Promotes(c, l.t, Spent(l.t, l.start.value), l.desired.value, l.left.state)
  }

  /** The tick was cut short behind a stored promotion. */
  ghost predicate CutShort(c: Config, l: TickLog) {
    !l.finished && StoresPromotion(c, l)
  }

  ghost predicate Core(l: TickLog) {
    forall o :: o in l.rendered ==> CoreV1(o.ref)
  }

  /** The load was trusted, and renders named core objects at the core group's one version. */
  ghost predicate Verified(l: TickLog) {
    TrustOf(l) == Trust(true, true) && Core(l)
  }

  ghost predicate Tracks(c: Config, w: World) {
    StateOk(c, w.state) && Tracked(c, w.cluster, Known(w.state) + w.orphans)
  }

  ghost predicate Tracking(c: Config, l: TickLog) {
    && (if l.saves != [] && l.desired.Some? && l.start.Some?
        then OrphansOnlyBehind(c, l.t, Spent(l.t, l.start.value), l.desired.value, l.finished,
                               l.found.orphans, l.left.state, l.left.orphans)
        else l.left.orphans == l.found.orphans)
    && (l.left.sound ==> l.found.sound && Tracks(c, l.left))
    && (l.found.sound && Verified(l) ==> l.left.sound)
  }

  /** A purge that was recorded is done. */
  ghost predicate PurgeDone(c: Config, l: TickLog) {
    !l.t.enabled && l.start.Some? && WellFormed(l.start.value)
      && l.left.state.purgedGeneration > l.found.state.purgedGeneration ==>
      DataGone(c, l.left.cluster, DataKnown(l.start.value))
  }

  // ---- how a tick ends -------------------------------------------------------------------------------------

  /** An attempt ends promoted and in place, which is what Ready says; or remembered as failed, with the last good set
      back in place or not. */
  ghost predicate AttemptEnds(c: Config, t: Tick, s: BackendState, desired: DesiredSet, phase: Phase, left: World) {
    if phase == Ready
    then PromotedFrom(c, t, Attempted(s, desired), desired, left.state) && InPlace(left.cluster, desired.objects)
    else
      || FailedFrom(t, s, desired, left.state)
      || (RolledBackFrom(c, t, s, desired, left.state) && InPlace(left.cluster, Restamped(c, s.lastGood.value).value))
  }

  /** What a disable ends as: a due purge leaves nothing but its generation, otherwise the data stays known. */
  function TurnedOffAs(t: Tick, start: BackendState, found: BackendState): BackendState {
    if t.purgeGeneration > start.purgedGeneration then Purged(t.purgeGeneration)
    else if start.inventory != [] || start.lastGood.Some? then Removed(start)
    else found
  }

  ghost predicate Ended(c: Config, l: TickLog) {
    l.finished && l.start.Some? ==>
      && (l.t.enabled && l.desired.Some? && PlanOf(l.t, Spent(l.t, l.start.value), l.desired.value) == Attempt ==>
            AttemptEnds(c, l.t, Spent(l.t, l.start.value), l.desired.value, l.phase, l.left))
      && (!l.t.enabled && l.phase == Disabled ==> l.left.state == TurnedOffAs(l.t, l.start.value, l.found.state))
  }

  // ---- what a tick tells scpd ------------------------------------------------------------------------------

  /** The load succeeded, every save that happened was acknowledged, and scpd stored the closing report. */
  predicate Answered(l: TickLog) {
    && l.start.Some? && l.alive
    && (forall i :: 0 <= i < |l.saves| ==> l.saves[i].acked)
    && l.reports != [] && l.reports[|l.reports| - 1].stored
  }

  /** After an answered tick that could trust its load, or that stored anything, the next load is trusted. */
  ghost predicate Agrees(l: TickLog) {
    Answered(l) && (TrustOf(l) == Trust(true, true) || l.saves != []) ==>
      VerifyState(l.left.state, l.left.record) == Trust(true, true)
  }

  /** What a backend's turn does, before the closing report. */
  ghost predicate TurnOk(c: Config, l: TickLog) {
    && Began(c, l) && Moves(c, l) && SavesOwn(c, l)
    && Effects(c, l) && Tracking(c, l) && PurgeDone(c, l) && Ended(c, l)
  }

  /** What holds of every tick. */
  ghost predicate TickOk(c: Config, l: TickLog) {
    Accounted(l) && Reporting(l) && Agrees(l) && TurnOk(c, l)
  }

  /** The closing report changes nothing but scpd's record, and the memory if the process dies. */
  lemma ReportLeaves(c: Config, l: TickLog, r: TickLog)
    requires TurnOk(c, l)
    requires r == l.(reports := r.reports, alive := r.alive,
      left := l.left.(record := r.left.record, memory := r.left.memory))
    ensures TurnOk(c, r)
  {
  }

  // ---- one tick: what its decisions rest on ----------------------------------------------------------------

  lemma MovesFaithful(c: Config, l: TickLog)
    requires Lawful(c.codec) && Began(c, l) && Moves(c, l) && Faithful(c, l.found.state)
    ensures Faithful(c, l.left.state)
  {
    hide RenderOf, Renders, VerifyState, Effective, Merged, RemovedRefs, DataOf, StampAll, AllAdmissible;
    if l.start.Some? { StartRecords(c, l); }
    if l.saves != [] && l.t.enabled && l.desired.Some?
      && ActMoves(c, l.t, Spent(l.t, l.start.value), l.desired.value, l.left.state) {
      var s, desired := Spent(l.t, l.start.value), l.desired.value;
      if Promotes(c, l.t, s, desired, l.left.state) {
        assert GoodObjects(c, l.left.state.lastGood.value) == Some(desired.objects);
      }
    }
  }

  /** The records a turn starts from. */
  lemma StartRecords(c: Config, l: TickLog)
    requires Began(c, l) && l.start.Some?
    ensures l.start.value.failed == l.found.state.failed
    ensures l.start.value.purgedGeneration == l.found.state.purgedGeneration
    ensures l.start.value.lastGood == if TrustOf(l).lastGood then l.found.state.lastGood else None
  {
    hide RenderOf, Renders, IsRender, VerifyState;
  }

  /** The failure of a set at `f`, at generation `g` or later. */
  predicate Remembers(s: BackendState, f: Fingerprint, g: int) {
    s.failed.Some? && s.failed.value.fingerprint == f && s.failed.value.upgradeGeneration >= g
  }

  /** The three ways a failure of `f` is forgotten: another set's failure is remembered instead, the
      backend is disabled, or a set is promoted. */
  ghost predicate Forgets(c: Config, l: TickLog, f: Fingerprint) {
    && l.saves != [] && l.start.Some?
    && (|| !l.t.enabled
        || (l.desired.Some? && l.desired.value.fingerprint != f
          && l.left.state.failed == Some(FailureOf(l.t, l.desired.value)))
        || StoresPromotion(c, l))
  }

  /** While a failure of `f` is remembered, a tick either forgets it in one of these ways or still
      remembers it, at no earlier generation. */
  lemma FailureStays(c: Config, l: TickLog, f: Fingerprint, g: int)
    requires Began(c, l) && Moves(c, l) && Faithful(c, l.found.state) && Remembers(l.found.state, f, g)
    ensures Remembers(l.left.state, f, g) <==> !Forgets(c, l, f)
  {
    hide RenderOf, Renders, VerifyState, Effective, Merged, RemovedRefs, DataOf, Restamped, NamesItsSet, IsRender;
    if l.start.Some? { StartRecords(c, l); }
    if l.saves != [] && l.t.enabled && l.desired.Some? {
      assert FailureOf(l.t, l.desired.value).fingerprint == l.desired.value.fingerprint;
    }
  }

  /** The set itself is promoted only by a first install that came up after all, or on a request for a
      later generation. */
  lemma PromotedAfterAll(c: Config, l: TickLog, f: Fingerprint, g: int)
    requires Began(c, l) && Moves(c, l) && Faithful(c, l.found.state) && Remembers(l.found.state, f, g)
    requires StoresPromotion(c, l) && l.desired.value.fingerprint == f
    ensures l.start.value.lastGood.None? || l.t.upgradeGeneration > g
  {
    hide RenderOf, Renders, VerifyState, Effective, Merged, RemovedRefs, DataOf, Restamped, NamesItsSet, IsRender;
    StartRecords(c, l);
  }

  lemma NothingAtFailure(c: Config, l: TickLog, f: Fingerprint, g: int)
    requires Began(c, l) && Effects(c, l) && Faithful(c, l.found.state) && Remembers(l.found.state, f, g)
    requires l.desired.Some? && l.desired.value.fingerprint == f && l.t.upgradeGeneration <= g
    ensures l.applied == {}
  {
    hide RenderOf, Renders, VerifyState, Effective, NamesItsSet, IsRender, MayApply, MayDelete;
    StartRecords(c, l);
  }

  /** An enabled tick that finishes has settled its set: it is the last good one; or its failure is
      remembered, at this tick's generation or a later one; or it is held back. */
  lemma TickSettles(c: Config, l: TickLog)
    requires Lawful(c.codec) && Began(c, l) && Moves(c, l) && Ended(c, l) && l.finished && l.t.enabled
    ensures l.desired.Some?
    ensures var f, s := l.desired.value.fingerprint, l.left.state;
      || (s.lastGood.Some? && s.lastGood.value.fingerprint == f)
      || Remembers(s, f, l.t.upgradeGeneration)
      || (HeldBack(l) && s.lastGood == l.found.state.lastGood && s.failed == l.found.state.failed)
  {
    hide RenderOf, Renders, VerifyState, Effective, Merged, RemovedRefs, DataOf, Restamped, NamesItsSet, InPlace;
    if l.start.Some? { StartRecords(c, l); }
  }

  /** A set that is attempted and not promoted is remembered as having failed: this set, of this release,
      at this generation. */
  lemma FailureRemembered(c: Config, l: TickLog)
    requires Began(c, l) && Moves(c, l) && Ended(c, l) && l.finished && l.desired.Some? && l.start.Some?
    requires PlanOf(l.t, Spent(l.t, l.start.value), l.desired.value) == Attempt
    ensures var f, s := l.desired.value.fingerprint, l.left.state;
      || (l.phase == Ready && l.t.ready(l.desired.value.objects) && s.failed.None?
          && s.lastGood.Some? && s.lastGood.value.fingerprint == f && s.lastGood.value.release == l.t.release
          && s.lastGood.value.upgradeGeneration == l.t.upgradeGeneration)
      || (l.phase != Ready && s.lastGood == l.start.value.lastGood
          && s.failed == Some(FailedAttempt(f, l.t.release, l.t.upgradeGeneration)))
  {
    hide RenderOf, Renders, VerifyState, Effective, Merged, RemovedRefs, DataOf, Restamped, NamesItsSet, InPlace;
    StartRecords(c, l);
  }

  /** Under manual updates, with a trusted last good set and no request past its generation, nothing of
      another release is applied and the release stays. */
  lemma HeldTick(c: Config, l: TickLog)
    requires Lawful(c.codec) && Began(c, l) && Moves(c, l) && Effects(c, l) && Faithful(c, l.found.state)
    requires l.t.enabled && l.t.manual && TrustOf(l).lastGood && l.found.state.lastGood.Some?
    requires l.t.upgradeGeneration <= l.found.state.lastGood.value.upgradeGeneration
    ensures l.t.release != l.found.state.lastGood.value.release ==> l.applied == {} && l.deleted == {}
    ensures l.left.state.lastGood.Some? && l.left.state.lastGood.value.release == l.found.state.lastGood.value.release
    ensures var g := l.left.state.lastGood.value.upgradeGeneration;
      g == l.found.state.lastGood.value.upgradeGeneration || g == l.t.upgradeGeneration
  {
    hide RenderOf, Renders, VerifyState, Effective, MayApply, MayDelete, NamesItsSet, Merged, RemovedRefs, DataOf;
    if l.start.Some? { StartRecords(c, l); }
    if l.desired.Some? && l.t.release != l.found.state.lastGood.value.release {
      NewReleaseNeedsUpgrade(c, Spent(l.t, l.start.value), l.desired.value.objects, l.t.release, l.t.upgradeGeneration);
    }
  }

  /** A generation an enabled tick got past is recorded, unless the tick ended before it could store it. */
  lemma PurgeSpent(c: Config, l: TickLog)
    requires Began(c, l) && Moves(c, l)
    ensures l.left.state.purgedGeneration >= l.found.state.purgedGeneration
    ensures l.t.enabled ==>
      (l.left.state.purgedGeneration >= l.t.purgeGeneration <==>
        l.found.state.purgedGeneration >= l.t.purgeGeneration || l.saves != [])
    ensures l.desired.Some? ==> l.left.state.purgedGeneration >= l.t.purgeGeneration
    ensures l.left.state.purgedGeneration in [l.found.state.purgedGeneration, l.t.purgeGeneration]
  {
    hide IsRender, PlanOf, RenderOf, Renders, VerifyState, Merged, RemovedRefs, DataOf, Restamped;
  }

  lemma DataNeedsPurge(c: Config, l: TickLog, d: Deletion)
    requires MayDelete(c, l, d) && IsRetainedData(d.ref)
    ensures !l.t.enabled && l.t.purgeGeneration > l.found.state.purgedGeneration
  {
  }

  // ---- one tick: what it keeps -------------------------------------------------------------------------------

  /** A disabled backend's purge was recorded. */
  predicate PurgedIn(l: TickLog) {
    !l.t.enabled && l.saves != [] && l.left.state == Purged(l.t.purgeGeneration)
  }

  /** A tick works from references at the core group's one version, whatever was stored, once a trusted
      inventory is made of such. */
  lemma StartWellFormed(c: Config, l: TickLog)
    requires Began(c, l) && l.start.Some? && Core(l)
    requires TrustOf(l).inventory ==> WellFormed(l.found.state)
    ensures WellFormed(l.start.value) && WellFormed(Spent(l.t, l.start.value))
    ensures l.desired.Some? ==> AllCoreV1(RefsOf(l.desired.value.objects))
  {
    if !TrustOf(l).inventory { RefsAmong(RenderOf(c, l.t, l.t.forRefs).value.objects); }
    if l.desired.Some? { RefsAmong(l.desired.value.objects); }
  }

  /** A promotion puts the state in order, whatever it was before: the inventory is the promoted set and
      the rest of the data that was known is retained. */
  lemma PromotionRestores(c: Config, l: TickLog)
    requires Lawful(c.codec) && Began(c, l) && StoresPromotion(c, l) && Core(l)
    requires TrustOf(l).inventory ==> WellFormed(l.found.state)
    ensures StateOk(c, l.left.state)
    ensures KeepsData(l.start.value, l.left.state)
  {
    hide Promoted, Merged, StateOk;
    StartWellFormed(c, l);
    var s, desired, next := Spent(l.t, l.start.value), l.desired.value, l.left.state;
    PromotedFromWellFormed(c, l.t, s, desired, next);
  }

  lemma PromotedFromWellFormed(c: Config, t: Tick, s: BackendState, desired: DesiredSet, next: BackendState)
    requires WellFormed(s) && AllCoreV1(RefsOf(desired.objects)) && IsRender(c, t, desired)
    requires Promotes(c, t, s, desired, next) && Lawful(c.codec)
    ensures StateOk(c, next) && KeepsData(s, next)
  {
    var refs := RefsOf(desired.objects);
    AttemptedWellFormed(s, desired);
    var good := next.lastGood.value;
    if PromotedFrom(c, t, s, desired, next) {
      PromotedOk(c, s, desired.objects, good, t.purgeGeneration);
    } else {
      PromotedOk(c, Attempted(s, desired), desired.objects, good, t.purgeGeneration);
    }
  }

  lemma AttemptedWellFormed(s: BackendState, desired: DesiredSet)
    requires WellFormed(s) && AllCoreV1(RefsOf(desired.objects))
    ensures WellFormed(Attempted(s, desired)) && KeepsData(s, Attempted(s, desired))
  {
    UnionKeys(s.inventory, RefsOf(desired.objects));
  }

  lemma FellBackKeeps(c: Config, t: Tick, s: BackendState, desired: DesiredSet, next: BackendState)
    requires Sane(c, s) && AllCoreV1(RefsOf(desired.objects))
    requires RolledBackFrom(c, t, s, desired, next)
    ensures WellFormed(next) && KeepsData(s, next)
  {
    AttemptedWellFormed(s, desired);
    var attempted := Attempted(s, desired);
    var stored := GoodObjects(c, s.lastGood.value).value;
    var good := RefsOf(Restamped(c, s.lastGood.value).value);
    assert good == RefsOf(stored);
    FellBackKeys(s, attempted.inventory, good, FailureOf(t, desired));
  }

  lemma AttemptKeeps(c: Config, t: Tick, s: BackendState, desired: DesiredSet, next: BackendState)
    requires Lawful(c.codec) && Sane(c, s) && AllCoreV1(RefsOf(desired.objects)) && IsRender(c, t, desired)
    requires ActMoves(c, t, s, desired, next)
    ensures WellFormed(next) && KeepsData(s, next)
    ensures next.lastGood.Some? ==>
      next.lastGood == s.lastGood || GoodObjects(c, next.lastGood.value) == Some(desired.objects)
  {
    hide Attempted, FellBack, IsRender, PlanOf, Promoted;
    if Promotes(c, t, s, desired, next) {
      PromotedFromWellFormed(c, t, s, desired, next);
    } else if RolledBackFrom(c, t, s, desired, next) {
      FellBackKeeps(c, t, s, desired, next);
      FellBackRecords(c, t, s, desired, next);
    } else {
      AttemptedOnly(t, s, desired, next);
    }
  }

  lemma FellBackRecords(c: Config, t: Tick, s: BackendState, desired: DesiredSet, next: BackendState)
    requires RolledBackFrom(c, t, s, desired, next)
    ensures next.lastGood == s.lastGood
  {
  }

  lemma AttemptedOnly(t: Tick, s: BackendState, desired: DesiredSet, next: BackendState)
    requires WellFormed(s) && AllCoreV1(RefsOf(desired.objects))
    requires next == Attempted(s, desired) || FailedFrom(t, s, desired, next)
    ensures WellFormed(next) && KeepsData(s, next) && next.lastGood == s.lastGood
  {
    AttemptedWellFormed(s, desired);
  }

  /** Whatever happens in it, a tick keeps the stored state sane as long as renders are versioned as the
      core group is; and from what it starts with, only a recorded purge forgets data. */
  lemma TickKeeps(c: Config, l: TickLog)
    requires Lawful(c.codec) && Began(c, l) && Moves(c, l) && Core(l) && Sane(c, l.found.state)
    ensures Sane(c, l.left.state)
    ensures l.saves != [] ==> KeepsData(l.start.value, l.left.state) || PurgedIn(l)
    ensures TrustOf(l).inventory ==> KeepsData(l.found.state, l.left.state) || PurgedIn(l)
  {
    hide ActMoves, DataKnown, IsRender;
    if l.saves != [] {
      MovesFaithful(c, l);
      StartWellFormed(c, l);
      if l.t.enabled {
        EnabledKeeps(c, l);
      } else {
        DisabledKeeps(c, l);
      }
      SpentData(l.t, l.start.value);
    }
    if TrustOf(l).inventory { StartData(c, l); }
  }

  lemma EnabledKeeps(c: Config, l: TickLog)
    requires Lawful(c.codec) && Began(c, l) && Moves(c, l) && Core(l) && Sane(c, l.found.state)
    requires l.saves != [] && l.t.enabled
    ensures WellFormed(l.left.state) && GoodCore(c, l.left.state) && KeepsData(Spent(l.t, l.start.value), l.left.state)
  {
    hide ActMoves, AllCoreV1, IsRender;
    var s, next := Spent(l.t, l.start.value), l.left.state;
    StartWellFormed(c, l);
    assert Sane(c, s);
    if next != s {
      AttemptKeeps(c, l.t, s, l.desired.value, next);
    }
  }

  lemma DisabledKeeps(c: Config, l: TickLog)
    requires Began(c, l) && Moves(c, l) && Core(l) && Sane(c, l.found.state)
    requires l.saves != [] && !l.t.enabled
    ensures WellFormed(l.left.state) && GoodCore(c, l.left.state)
    ensures KeepsData(l.start.value, l.left.state) || PurgedIn(l)
  {
    StartWellFormed(c, l);
    RemovedOk(c, l.start.value);
  }

  lemma StartData(c: Config, l: TickLog)
    requires Began(c, l) && TrustOf(l).inventory
    ensures l.start.Some? ==> DataKnown(l.start.value) == DataKnown(l.found.state)
  {
  }

  lemma SpentData(t: Tick, s: BackendState)
    ensures DataKnown(Spent(t, s)) == DataKnown(s) && KeepsData(s, Spent(t, s))
  {
  }

  /** A new release under manual updates whose upgrade has not been asked for. */
  ghost predicate HeldBack(l: TickLog) {
    && l.t.enabled && l.t.manual && TrustOf(l).lastGood && l.found.state.lastGood.Some?
    && l.t.release != l.found.state.lastGood.value.release
    && l.t.upgradeGeneration <= l.found.state.lastGood.value.upgradeGeneration
  }

  /** The remembered failure, and no upgrade asked for since. */
  ghost predicate FailedBefore(l: TickLog) {
    l.desired.Some? && Remembers(l.found.state, l.desired.value.fingerprint, l.t.upgradeGeneration)
  }

  lemma NothingApplied(c: Config, l: TickLog)
    requires Lawful(c.codec) && TurnOk(c, l) && Faithful(c, l.found.state)
    ensures HeldBack(l) || FailedBefore(l) ==> l.applied == {}
    ensures HeldBack(l) ==> l.deleted == {}
    ensures Faithful(c, l.left.state)
  {
    hide Began, Moves, Effects, Tracking, PurgeDone, Ended, Faithful;
    MovesFaithful(c, l);
    if HeldBack(l) { HeldTick(c, l); }
    if FailedBefore(l) { NothingAtFailure(c, l, l.desired.value.fingerprint, l.t.upgradeGeneration); }
  }

  /** Whatever the tick found stored, all it touched was this backend's to touch. */
  ghost predicate OwnOnly(c: Config, l: TickLog) {
    && (forall o :: o in l.applied ==> Admissible(o.ref, c.namespace, c.kinds) && IsOurs(o, c.backend))
    && (forall d :: d in l.deleted ==> Prunable(d.ref, c.namespace, c.kinds, d.purge) && IsOurs(d.found, c.backend))
  }

  lemma TouchesOwn(c: Config, l: TickLog)
    requires TickOk(c, l)
    ensures OwnOnly(c, l)
    ensures l.t.enabled || l.t.purgeGeneration <= l.found.state.purgedGeneration ==>
      forall d :: d in l.deleted ==> !IsRetainedData(d.ref)
  {
  }

  /** Some object of a set, stamped. */
  ghost predicate ComesFrom(o: KubeObject, objs: seq<KubeObject>, backend: string, release: string) {
    exists x :: x in objs && Stamped(o, x, backend, release)
  }

  ghost predicate Restores(c: Config, l: TickLog, o: KubeObject) {
    && l.found.state.lastGood.Some?
    && (l.found.record != Integrity(None, None) ==>
          l.found.record.lastGood == Some(l.found.state.lastGood.value.sha256))
    && GoodObjects(c, l.found.state.lastGood.value).Some?
    && ComesFrom(o, GoodObjects(c, l.found.state.lastGood.value).value,
                 c.backend, l.found.state.lastGood.value.release)
  }

  /** Whatever the tick found stored, what it applied is as the chart gave it in this tick, or as it is in
      the set whose hash scpd has, but for the labels and the release. */
  ghost predicate Untouched(c: Config, l: TickLog) {
    forall o :: o in l.applied ==>
      || (l.t.forSet.Some? && ComesFrom(o, l.t.forSet.value, c.backend, l.t.release))
      || Restores(c, l, o)
  }

  lemma AppliesUntouched(c: Config, l: TickLog)
    requires TickOk(c, l)
    ensures Untouched(c, l)
  {
    hide Accounted, Reporting, Agrees, Moves, SavesOwn, Tracking, PurgeDone, Ended, RenderOf, Stamped, MayDelete,
      PlanOf;
    forall o | o in l.applied
      ensures || (l.t.forSet.Some? && ComesFrom(o, l.t.forSet.value, c.backend, l.t.release))
              || Restores(c, l, o)
    {
      AppliedComes(c, l, o);
    }
  }

  lemma AppliedComes(c: Config, l: TickLog, o: KubeObject)
    requires MayApply(c, l, o) && (l.desired.Some? ==> IsRender(c, l.t, l.desired.value))
    ensures (l.t.forSet.Some? && ComesFrom(o, l.t.forSet.value, c.backend, l.t.release)) || Restores(c, l, o)
  {
    hide RenderOf, Stamped, Restamped, Accepted;
    if o in l.desired.value.objects {
      FromRender(c, l.t, l.desired.value, o);
    } else {
      var good := l.found.state.lastGood.value;
      RestampedKeeps(c, good);
      var i :| 0 <= i < |Restamped(c, good).value| && Restamped(c, good).value[i] == o;
      assert GoodObjects(c, good).value[i] in GoodObjects(c, good).value;
    }
  }

  /** A set that is the last good one already changes nothing stored but the purge generation, deletes
      nothing, and applies nothing but itself. */
  lemma SteadyTick(c: Config, l: TickLog)
    requires TickOk(c, l) && l.desired.Some? && TrustOf(l).lastGood
    requires l.found.state.lastGood.Some? && l.found.state.lastGood.value.fingerprint == l.desired.value.fingerprint
    ensures l.deleted == {}
    ensures forall o :: o in l.applied ==>
      l.t.forSet.Some? && ComesFrom(o, l.t.forSet.value, c.backend, l.t.release)
    ensures l.left.state.lastGood == l.found.state.lastGood && l.left.state.failed == l.found.state.failed
    ensures TrustOf(l).inventory ==>
      l.left.state.inventory == l.found.state.inventory && l.left.state.retained == l.found.state.retained
  {
    hide Accounted, Reporting, Agrees, SavesOwn, Tracking, PurgeDone, Ended, RenderOf, Stamped, MayApply, MayDelete;
    hide Renders, VerifyState, Merged, DataOf, IsRender, Accepted, ActMoves;
    StartRecords(c, l);
    SteadyMoves(c, l);
    forall o | o in l.applied ensures l.t.forSet.Some? && ComesFrom(o, l.t.forSet.value, c.backend, l.t.release) {
      FromRender(c, l.t, l.desired.value, o);
    }
  }

  lemma FromRender(c: Config, t: Tick, desired: DesiredSet, o: KubeObject)
    requires IsRender(c, t, desired) && o in desired.objects
    ensures t.forSet.Some? && ComesFrom(o, t.forSet.value, c.backend, t.release)
  {
    hide RenderOf, Stamped, Accepted;
    RenderKeeps(c, t, t.forSet);
    var i :| 0 <= i < |desired.objects| && desired.objects[i] == o;
    assert t.forSet.value[i] in t.forSet.value;
  }

  lemma SteadyMoves(c: Config, l: TickLog)
    requires Moves(c, l) && l.start.Some? && l.t.enabled && l.desired.Some?
    requires PlanOf(l.t, Spent(l.t, l.start.value), l.desired.value) == Steady
    ensures l.left.state == l.found.state || l.left.state == Spent(l.t, l.start.value)
  {
    hide PlanOf;
  }

  /** A disabled backend ends as nothing but its data, and after a due purge not even that. */
  lemma TurnedOff(c: Config, t: Tick, s: BackendState)
    requires WellFormed(s)
    ensures var left := TurnedOffAs(t, s, s);
      && left.inventory == [] && left.lastGood.None?
      && (if t.purgeGeneration > s.purgedGeneration
          then DataKnown(left) == {} && left.purgedGeneration == t.purgeGeneration
          else DataKnown(left) == DataKnown(s) && left.purgedGeneration == s.purgedGeneration)
  {
    RemovedOk(c, s);
  }

  /** The digests do not protect a purge generation that was recorded: some rewrite that keeps them has a
      disabled backend purged for it again. */
  lemma RewritePurgesAgain(t: Tick, s: BackendState)
    ensures exists r :: DigestsOf(r) == DigestsOf(s) && TurnedOffAs(t, r, r) == Purged(t.purgeGeneration)
  {
    var r := s.(purgedGeneration := t.purgeGeneration - 1);
    assert DigestsOf(r) == DigestsOf(s) && TurnedOffAs(t, r, r) == Purged(t.purgeGeneration);
  }
}
