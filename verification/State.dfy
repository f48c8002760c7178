/** What the controller remembers of one backend (apps/stackd/src/state.ts), every value the
    reconcile stores there (apps/stackd/src/reconcile.ts), and what each of them keeps. */
module State {
  import opened Wrappers
  import opened Manifests

  /** sha256, taken to be injective: a digest is known by the bytes it was computed from. */
  datatype Digest = Sha256(bytes: seq<byte>)

  /** The digest of the inventory and retained lists, each sorted first, so order does not count. */
  datatype InventoryDigest = InventoryDigest(inventory: multiset<ObjectRef>, retained: multiset<ObjectRef>)

  datatype StateDigests = StateDigests(lastGood: Option<Digest>, inventory: InventoryDigest)

  /** What scpd keeps and hands back with the spec: both halves may be null. */
  datatype Integrity = Integrity(lastGood: Option<Digest>, inventory: Option<InventoryDigest>)

  type Fingerprint = string

  datatype LastGood = LastGood(
    release: string,
    fingerprint: Fingerprint,
    upgradeGeneration: int,
    chunks: nat,
    sha256: Digest
  )

  datatype FailedAttempt = FailedAttempt(fingerprint: Fingerprint, release: string, upgradeGeneration: int)

  datatype BackendState = BackendState(
    inventory: seq<ObjectRef>,
    retained: seq<ObjectRef>,
    lastGood: Option<LastGood>,
    failed: Option<FailedAttempt>,
    purgedGeneration: int
  )

  const EMPTY_STATE := BackendState([], [], None, None, 0)

  /** JSON and gzip as a pair of inverses, and the fingerprint of a rendered set. Module
      Fingerprints proves the second law for the canonical JSON the fingerprint hashes. */
  datatype Codec = Codec(
    pack: seq<KubeObject> -> seq<byte>,
    unpack: seq<byte> -> Option<seq<KubeObject>>,
    fingerprint: seq<KubeObject> -> Fingerprint
  )

  ghost predicate Lawful(c: Codec) {
    && (forall objs :: c.pack(objs) != [] && c.unpack(c.pack(objs)) == Some(objs))
    && (forall a, b :: c.fingerprint(a) == c.fingerprint(b) ==> multiset(a) == multiset(b))
  }

  datatype Config = Config(
    backend: string,
    namespace: string,
    kinds: seq<StackKind>,
    codec: Codec,
    resyncMs: int
  )

  // ---- digests ------------------------------------------------------------------------------------

  function InventoryDigestOf(s: BackendState): InventoryDigest {
    InventoryDigest(multiset(s.inventory), multiset(s.retained))
  }

  function ClaimedDigest(s: BackendState): Option<Digest> {
    match s.lastGood
    case None => None
    case Some(good) => Some(good.sha256)
  }

  function DigestsOf(s: BackendState): StateDigests {
    StateDigests(ClaimedDigest(s), InventoryDigestOf(s))
  }

  datatype Trust = Trust(inventory: bool, lastGood: bool)

  function VerifyState(s: BackendState, expected: Integrity): Trust {
    if expected.inventory == None && expected.lastGood == None then Trust(true, true)
    else Trust(expected.inventory == None || expected.inventory == Some(InventoryDigestOf(s)),
               ClaimedDigest(s) == expected.lastGood)
  }

  // ---- the states the reconcile moves through -------------------------------------------------------

  /** The state a tick works from, each part of the loaded one kept only as far as it is trusted. */
  function Effective(loaded: BackendState, trust: Trust, renderRefs: seq<ObjectRef>): BackendState {
    var inventory := if trust.inventory then loaded.inventory else renderRefs;
    loaded.(inventory := inventory,
            retained := if trust.inventory then loaded.retained else DataOf(inventory),
            lastGood := if trust.lastGood then loaded.lastGood else None)
  }

  function WithInventory(s: BackendState, refs: seq<ObjectRef>): BackendState {
    s.(inventory := UnionRefs(s.inventory, refs))
  }

  /** `state` is the one before the attempt, `attempted` its inventory once the attempt was saved. */
  function FellBack(state: BackendState, attempted: seq<ObjectRef>, good: seq<ObjectRef>,
    failed: FailedAttempt): BackendState {
    state.(inventory := good,
           retained := UnionRefs(state.retained, DataOf(RemovedRefs(attempted, good))),
           failed := Some(failed))
  }

  function Promoted(s: BackendState, refs: seq<ObjectRef>, good: LastGood, purgeGeneration: int): BackendState {
    BackendState(
      refs,
      RemovedRefs(UnionRefs(s.retained, DataOf(RemovedRefs(s.inventory, refs))), refs),
      Some(good),
      None,
      if s.purgedGeneration < purgeGeneration then purgeGeneration else s.purgedGeneration)
  }

  function Removed(s: BackendState): BackendState {
    EMPTY_STATE.(retained := UnionRefs(s.retained, DataOf(s.inventory)), purgedGeneration := s.purgedGeneration)
  }

  function Purged(purgeGeneration: int): BackendState {
    EMPTY_STATE.(purgedGeneration := purgeGeneration)
  }

  // ---- what they keep -------------------------------------------------------------------------------

  ghost function Known(s: BackendState): set<Key> {
    Keys(s.inventory) + Keys(s.retained)
  }

  /** The data the controller still knows of. */
  ghost function DataKnown(s: BackendState): set<Key> {
    set k | k in Known(s) && DataKey(k)
  }

  ghost predicate AllCoreV1(refs: seq<ObjectRef>) {
    forall r :: r in refs ==> CoreV1(r)
  }

  /** Every reference carries the core group's one version, and only data is retained. */
  ghost predicate WellFormed(s: BackendState) {
    && AllCoreV1(s.inventory) && AllCoreV1(s.retained)
    && (forall r :: r in s.retained ==> IsRetainedData(r))
  }

  /** The set the recorded bytes hold. */
  function GoodObjects(c: Config, good: LastGood): Option<seq<KubeObject>> {
    c.codec.unpack(good.sha256.bytes)
  }

  /** The recorded set, re-stamped: what a fall back may apply. */
  function Restamped(c: Config, good: LastGood): Option<seq<KubeObject>> {
    match GoodObjects(c, good)
    case None => None
    case Some(objs) => Some(StampAll(objs, c.backend, good.release))
  }

  predicate AllAdmissible(c: Config, objs: seq<KubeObject>) {
    forall o | o in objs :: Admissible(o.ref, c.namespace, c.kinds)
  }

  ghost predicate Restorable(c: Config, good: LastGood, o: KubeObject) {
    Restamped(c, good).Some? && AllAdmissible(c, Restamped(c, good).value) && o in Restamped(c, good).value
  }

  /** A rendered set as the controller accepts it: in the backend's kinds and namespace, stamped. */
  ghost predicate Accepted(c: Config, objs: seq<KubeObject>, release: string) {
    && objs != []
    && (forall o :: o in objs ==> Admissible(o.ref, c.namespace, c.kinds) && Stamp(o, c.backend, release) == o)
  }

  /** Stamping what is stamped changes nothing, so a re-stamped stored set is the set that was stored. */
  lemma StampTwice(o: KubeObject, backend: string, release: string)
    ensures Stamp(Stamp(o, backend, release), backend, release) == Stamp(o, backend, release)
    ensures IsOurs(Stamp(o, backend, release), backend)
  {
    var labels := Stamp(o, backend, release).labels;
    assert labels[ManagedBy := MANAGED_BY_VALUE][BackendOf := backend] == labels;
  }

  /** What a fall back restores is the stored set, object by object, stamped for this backend. */
  lemma RestampedKeeps(c: Config, good: LastGood)
    ensures Restamped(c, good).Some? <==> GoodObjects(c, good).Some?
    ensures Restamped(c, good).Some? ==>
      var objs, stored := Restamped(c, good).value, GoodObjects(c, good).value;
      |objs| == |stored| && forall i :: 0 <= i < |objs| ==> Stamped(objs[i], stored[i], c.backend, good.release)
  {
    if GoodObjects(c, good).Some? { StampAllKeeps(GoodObjects(c, good).value, c.backend, good.release); }
  }

  lemma StampedAccepted(c: Config, output: seq<KubeObject>, release: string)
    requires output != [] && forall o :: o in output ==> Admissible(o.ref, c.namespace, c.kinds)
    ensures Accepted(c, StampAll(output, c.backend, release), release)
  {
    var objs := StampAll(output, c.backend, release);
    forall i | 0 <= i < |objs|
      ensures Admissible(objs[i].ref, c.namespace, c.kinds) && Stamp(objs[i], c.backend, release) == objs[i]
    {
      assert output[i] in output;
      StampTwice(output[i], c.backend, release);
    }
  }

  lemma AcceptedOurs(c: Config, objs: seq<KubeObject>, release: string)
    requires Accepted(c, objs, release)
    ensures forall o :: o in objs ==> IsOurs(o, c.backend)
    ensures StampAll(objs, c.backend, release) == objs
  {
    forall o | o in objs ensures IsOurs(o, c.backend) {
      StampTwice(o, c.backend, release);
    }
  }

  lemma RestorableOurs(c: Config, good: LastGood, o: KubeObject)
    requires Restorable(c, good, o)
    ensures IsOurs(o, c.backend) && Admissible(o.ref, c.namespace, c.kinds)
  {
    var i :| 0 <= i < |GoodObjects(c, good).value| && Restamped(c, good).value[i] == o;
    StampTwice(GoodObjects(c, good).value[i], c.backend, good.release);
  }

  /** The last good record names an accepted set, with that set's release and fingerprint. */
  ghost predicate NamesItsSet(c: Config, good: LastGood) {
    var objs := GoodObjects(c, good);
    objs.Some? && Accepted(c, objs.value, good.release) && good.fingerprint == c.codec.fingerprint(objs.value)
  }

  /** What the decisions of a tick rest on. It speaks about the two records only, so it survives ticks
      that could not trust the inventory. */
  ghost predicate Faithful(c: Config, s: BackendState) {
    && (s.lastGood.Some? ==> NamesItsSet(c, s.lastGood.value))
    && (s.lastGood.Some? && s.failed.Some? ==> s.lastGood.value.fingerprint != s.failed.value.fingerprint)
  }

  /** And every reference in reach carries the core group's one version. */
  ghost predicate Sane(c: Config, s: BackendState) {
    WellFormed(s) && Faithful(c, s) && GoodCore(c, s)
  }

  ghost predicate GoodCore(c: Config, s: BackendState) {
    s.lastGood.Some? && GoodObjects(c, s.lastGood.value).Some? ==>
      AllCoreV1(RefsOf(GoodObjects(c, s.lastGood.value).value))
  }

  /** And the last good set is in the inventory, none of it counting as retained. */
  ghost predicate StateOk(c: Config, s: BackendState) {
    && Sane(c, s)
    && (s.lastGood.Some? ==>
          var keys := Keys(RefsOf(GoodObjects(c, s.lastGood.value).value));
          keys <= Keys(s.inventory) && keys !! Keys(s.retained))
  }

  /** Data known before is known after, by key. */
  ghost predicate KeepsData(before: BackendState, after: BackendState) {
    DataKnown(before) <= DataKnown(after)
  }

  lemma RefsAmong(objs: seq<KubeObject>)
    ensures forall r :: r in RefsOf(objs) ==> exists o :: o in objs && o.ref == r
  {
    forall r | r in RefsOf(objs) ensures exists o :: o in objs && o.ref == r {
      var i :| 0 <= i < |objs| && RefsOf(objs)[i] == r;
      assert objs[i] in objs;
    }
  }

  lemma DataOfKeys(refs: seq<ObjectRef>)
    requires AllCoreV1(refs)
    ensures Keys(DataOf(refs)) == set k | k in Keys(refs) && DataKey(k)
    ensures AllCoreV1(DataOf(refs))
  {
    forall r | r in refs ensures IsRetainedData(r) <==> DataKey(KeyOf(r)) {
      PrunableByKey(r, "", []);
    }
  }

  lemma RemovedKeys(before: seq<ObjectRef>, after: seq<ObjectRef>)
    ensures Keys(RemovedRefs(before, after)) == Keys(before) - Keys(after)
  {
  }

  /** Starting an attempt records what it is about to create before creating it. */
  lemma WithInventoryOk(c: Config, s: BackendState, refs: seq<ObjectRef>)
    requires StateOk(c, s) && AllCoreV1(refs)
    ensures StateOk(c, WithInventory(s, refs))
    ensures Keys(WithInventory(s, refs).inventory) == Keys(s.inventory) + Keys(refs)
    ensures KeepsData(s, WithInventory(s, refs))
  {
    UnionKeys(s.inventory, refs);
  }

  lemma RetainedKeys(s: BackendState)
    requires WellFormed(s)
    ensures Keys(s.retained) <= DataKnown(s)
    ensures forall k :: k in Keys(s.retained) ==> DataKey(k)
  {
    forall r | r in s.retained ensures DataKey(KeyOf(r)) {
      PrunableByKey(r, "", []);
    }
  }

  lemma FellBackKeys(s: BackendState, attempted: seq<ObjectRef>, good: seq<ObjectRef>, failed: FailedAttempt)
    requires WellFormed(s) && AllCoreV1(attempted) && AllCoreV1(good)
    ensures var next := FellBack(s, attempted, good, failed);
            && WellFormed(next)
            && Keys(next.retained) == Keys(s.retained) + set k | k in Keys(attempted) - Keys(good) && DataKey(k)
  {
    var gone := RemovedRefs(attempted, good);
    RemovedKeys(attempted, good);
    DataOfKeys(gone);
    UnionKeys(s.retained, DataOf(gone));
  }

  /** Falling back: the inventory is the last good set again, disjoint from the retained data, and no
      data of the failed attempt is forgotten. */
  lemma FellBackOk(c: Config, s: BackendState, refs: seq<ObjectRef>, failed: FailedAttempt)
    requires StateOk(c, s) && s.lastGood.Some? && AllCoreV1(refs)
    requires failed.fingerprint != s.lastGood.value.fingerprint
    ensures Restamped(c, s.lastGood.value).Some?
    ensures var attempted := WithInventory(s, refs);
            var good := RefsOf(Restamped(c, s.lastGood.value).value);
            var next := FellBack(s, attempted.inventory, good, failed);
            && StateOk(c, next) && Keys(good) <= Known(attempted) && KeepsData(attempted, next)
            && Keys(next.inventory) !! Keys(next.retained)
            && Known(next) == Keys(good) + DataKnown(attempted)
  {
    AcceptedOurs(c, GoodObjects(c, s.lastGood.value).value, s.lastGood.value.release);
    var attempted := WithInventory(s, refs);
    var good := RefsOf(GoodObjects(c, s.lastGood.value).value);
    var next := FellBack(s, attempted.inventory, good, failed);
    WithInventoryOk(c, s, refs);
    FellBackKeys(s, attempted.inventory, good, failed);
    RetainedKeys(s);
    RetainedKeys(next);
    assert Keys(good) <= Keys(s.inventory) <= Keys(attempted.inventory);
  }

  /** Refusing to fall back only adds the failure. */
  lemma FailedOk(c: Config, s: BackendState, refs: seq<ObjectRef>, failed: FailedAttempt)
    requires StateOk(c, s) && AllCoreV1(refs)
    requires s.lastGood.Some? ==> failed.fingerprint != s.lastGood.value.fingerprint
    ensures StateOk(c, WithInventory(s, refs).(failed := Some(failed)))
    ensures Known(WithInventory(s, refs).(failed := Some(failed))) == Known(WithInventory(s, refs))
    ensures DataKnown(WithInventory(s, refs).(failed := Some(failed))) == DataKnown(WithInventory(s, refs))
  {
    WithInventoryOk(c, s, refs);
  }

  /** Promoting, from any state whose references are well formed: the inventory is exactly the promoted
      set, the retained data is exactly the other data known, and the state is in order again. */
  lemma PromotedOk(c: Config, s: BackendState, objs: seq<KubeObject>, good: LastGood, purgeGeneration: int)
    requires WellFormed(s) && AllCoreV1(RefsOf(objs)) && Accepted(c, objs, good.release)
    requires GoodObjects(c, good) == Some(objs) && good.fingerprint == c.codec.fingerprint(objs)
    ensures var next := Promoted(s, RefsOf(objs), good, purgeGeneration);
            && StateOk(c, next) && KeepsData(s, next)
            && Keys(next.inventory) !! Keys(next.retained)
            && Keys(next.retained) == DataKnown(s) - Keys(RefsOf(objs))
            && next.purgedGeneration >= s.purgedGeneration && next.purgedGeneration >= purgeGeneration
            && (next.purgedGeneration == s.purgedGeneration || next.purgedGeneration == purgeGeneration)
            && next.inventory == RefsOf(objs) && next.lastGood == Some(good) && next.failed.None?
  {
    var refs := RefsOf(objs);
    var gone := RemovedRefs(s.inventory, refs);
    RemovedKeys(s.inventory, refs);
    DataOfKeys(gone);
    UnionKeys(s.retained, DataOf(gone));
    RemovedKeys(UnionRefs(s.retained, DataOf(gone)), refs);
    forall r | r in s.retained ensures DataKey(KeyOf(r)) {
      PrunableByKey(r, "", []);
    }
  }

  /** Removing a disabled backend forgets everything but its data, all of it. */
  lemma RemovedOk(c: Config, s: BackendState)
    requires WellFormed(s)
    ensures StateOk(c, Removed(s))
    ensures Known(Removed(s)) == DataKnown(s) == DataKnown(Removed(s))
  {
    DataOfKeys(s.inventory);
    UnionKeys(s.retained, DataOf(s.inventory));
    forall r | r in s.retained ensures DataKey(KeyOf(r)) {
      PrunableByKey(r, "", []);
    }
  }

  // ---- what verification accepts --------------------------------------------------------------------

  /** Once scpd has a record, a state is trusted exactly when it carries the recorded digests. */
  lemma TrustedIsRecorded(s: BackendState, expected: Integrity)
    requires expected.inventory.Some?
    ensures VerifyState(s, expected) == Trust(true, true) <==>
            DigestsOf(s) == StateDigests(expected.lastGood, expected.inventory.value)
  {
  }

  /** Each half is judged by its own digest: the two lists by theirs, in any order, and the last good
      record by its set's hash. With nothing recorded both are trusted. */
  lemma TrustByHalves(s: BackendState, e: Integrity)
    ensures var trust := VerifyState(s, e);
      && (trust.inventory <==>
            e.inventory.None? || (&& multiset(s.inventory) == e.inventory.value.inventory
                                  && multiset(s.retained) == e.inventory.value.retained))
      && (trust.lastGood <==>
            || (e.inventory.None? && e.lastGood.None?)
            || (s.lastGood.None? && e.lastGood.None?)
            || (s.lastGood.Some? && e.lastGood == Some(s.lastGood.value.sha256)))
  {
  }

  /** What is not trusted is replaced, what is trusted and what no digest covers stays. */
  lemma EffectiveParts(loaded: BackendState, trust: Trust, renderRefs: seq<ObjectRef>)
    ensures var s := Effective(loaded, trust, renderRefs);
      && s.failed == loaded.failed && s.purgedGeneration == loaded.purgedGeneration
      && s.lastGood.Some? == (trust.lastGood && loaded.lastGood.Some?)
      && (s.lastGood.Some? ==> s.lastGood == loaded.lastGood)
      && (trust.inventory ==> s.inventory == loaded.inventory && s.retained == loaded.retained)
      && (!trust.inventory ==>
            && s.inventory == renderRefs
            && forall r :: r in s.retained <==> r in renderRefs && IsRetainedData(r))
  {
  }

  /** A tick starts from all the data the stored state names exactly when the inventory is trusted or
      the render names that data too: an unverified inventory is where data can be forgotten. */
  lemma EffectiveKeepsData(c: Config, loaded: BackendState, trust: Trust, renderRefs: seq<ObjectRef>)
    requires WellFormed(loaded) && AllCoreV1(renderRefs)
    ensures KeepsData(loaded, Effective(loaded, trust, renderRefs)) <==>
            trust.inventory || DataKnown(loaded) <= Keys(renderRefs)
  {
    DataOfKeys(renderRefs);
  }

  predicate IsLast(refs: seq<ObjectRef>, i: nat)
    requires i < |refs|
  {
    forall j :: i < j < |refs| ==> KeyOf(refs[j]) != KeyOf(refs[i])
  }

  lemma {:induction false} LastWith(refs: seq<ObjectRef>, k: Key) returns (i: nat)
    requires k in Keys(refs)
    ensures i < |refs| && KeyOf(refs[i]) == k && IsLast(refs, i)
  {
    i := |refs| - 1;
    if KeyOf(refs[i]) != k {
      assert refs == refs[..i] + [refs[i]];
      var j := LastWith(refs[..i], k);
      i := j;
    }
  }

  lemma {:induction false} DistinctOnce(refs: seq<ObjectRef>, x: ObjectRef)
    requires DistinctKeys(refs)
    ensures multiset(refs)[x] == if x in refs then 1 else 0
  {
    if refs != [] {
      assert refs == [refs[0]] + refs[1..];
      DistinctOnce(refs[1..], x);
    }
  }

  lemma RepeatedTwice(refs: seq<ObjectRef>, i: nat, j: nat)
    requires i < j < |refs| && refs[i] == refs[j]
    ensures multiset(refs)[refs[i]] >= 2
  {
    assert refs == refs[..j] + ([refs[j]] + refs[j + 1..]);
    assert refs[i] in multiset(refs[..j]);
  }

  /** A list with the content of one whose keys are distinct has distinct keys too. */
  lemma DistinctByContent(a: seq<ObjectRef>, b: seq<ObjectRef>)
    requires DistinctKeys(a) && multiset(a) == multiset(b)
    ensures DistinctKeys(b)
  {
    forall i, j | 0 <= i < j < |b| ensures KeyOf(b[i]) != KeyOf(b[j]) {
      assert b[i] in multiset(a) && b[j] in multiset(a);
      if b[i] == b[j] {
        RepeatedTwice(b, i, j);
        DistinctOnce(a, b[i]);
      }
    }
  }

  lemma SameContent(a: seq<ObjectRef>, b: seq<ObjectRef>)
    requires DistinctKeys(a) && DistinctKeys(b) && forall x :: x in a <==> x in b
    ensures multiset(a) == multiset(b)
  {
    forall x ensures multiset(a)[x] == multiset(b)[x] {
      DistinctOnce(a, x);
      DistinctOnce(b, x);
    }
  }

  lemma OneWithKey(refs: seq<ObjectRef>, x: ObjectRef, y: ObjectRef)
    requires DistinctKeys(refs) && x in refs && y in refs && KeyOf(x) == KeyOf(y)
    ensures x == y
  {
    var i :| 0 <= i < |refs| && refs[i] == x;
    var j :| 0 <= j < |refs| && refs[j] == y;
    assert i == j;
  }

  /** Of every key that is added, the reference that wins is listed. */
  predicate WinnersListed(inventory: seq<ObjectRef>, refs: seq<ObjectRef>) {
    forall i :: 0 <= i < |refs| && IsLast(refs, i) ==> refs[i] in inventory
  }

  lemma WinnerMerged(inventory: seq<ObjectRef>, refs: seq<ObjectRef>, i: nat)
    requires i < |refs| && IsLast(refs, i)
    ensures refs[i] in UnionRefs(inventory, refs)
  {
    hide Merged;
    var all := inventory + refs;
    assert all[|inventory| + i] == refs[i];
    forall j | |inventory| + i < j < |all| ensures KeyOf(all[j]) != KeyOf(refs[i]) {
      assert all[j] == refs[j - |inventory|];
    }
    MergedKeepsLast(all, |inventory| + i);
  }

  lemma UntouchedStays(inventory: seq<ObjectRef>, refs: seq<ObjectRef>, i: nat)
    requires DistinctKeys(inventory) && i < |inventory| && KeyOf(inventory[i]) !in Keys(refs)
    ensures inventory[i] in UnionRefs(inventory, refs)
  {
    hide Merged;
    var all := inventory + refs;
    assert all[i] == inventory[i];
    forall j | i < j < |all| ensures KeyOf(all[j]) != KeyOf(all[i]) {
      if j < |inventory| {
        assert all[j] == inventory[j];
      } else {
        assert all[j] == refs[j - |inventory|] && refs[j - |inventory|] in refs;
      }
    }
    MergedKeepsLast(all, i);
  }

  lemma InventoryStays(inventory: seq<ObjectRef>, refs: seq<ObjectRef>, x: ObjectRef)
    requires DistinctKeys(inventory) && WinnersListed(inventory, refs) && x in inventory
    ensures x in UnionRefs(inventory, refs)
  {
    hide Merged, UnionRefs;
    if KeyOf(x) in Keys(refs) {
      var i := LastWith(refs, KeyOf(x));
      WinnerMerged(inventory, refs, i);
      OneWithKey(inventory, refs[i], x);
    } else {
      var i :| 0 <= i < |inventory| && inventory[i] == x;
      UntouchedStays(inventory, refs, i);
    }
  }

  /** Merging changes nothing exactly when no key is listed twice and the winners are listed already. */
  lemma MergeUnnoticed(inventory: seq<ObjectRef>, refs: seq<ObjectRef>)
    ensures multiset(UnionRefs(inventory, refs)) == multiset(inventory) <==>
            DistinctKeys(inventory) && WinnersListed(inventory, refs)
  {
    hide Merged;
    var merged := UnionRefs(inventory, refs);
    UnionKeys(inventory, refs);
    if multiset(merged) == multiset(inventory) {
      DistinctByContent(merged, inventory);
      forall i | 0 <= i < |refs| && IsLast(refs, i) ensures refs[i] in inventory {
        WinnerMerged(inventory, refs, i);
        assert refs[i] in multiset(merged);
      }
    }
    if DistinctKeys(inventory) && WinnersListed(inventory, refs) {
      MergeAddsNothing(inventory, refs);
    }
  }

  lemma MergeAddsNothing(inventory: seq<ObjectRef>, refs: seq<ObjectRef>)
    requires DistinctKeys(inventory) && WinnersListed(inventory, refs)
    ensures multiset(UnionRefs(inventory, refs)) == multiset(inventory)
  {
    hide Merged, UnionRefs;
    var merged := UnionRefs(inventory, refs);
    UnionKeys(inventory, refs);
    forall x | x in inventory ensures x in merged {
      InventoryStays(inventory, refs, x);
    }
    forall x | x in merged ensures x in inventory {
      var y := ListedWith(inventory, refs, KeyOf(x));
      InventoryStays(inventory, refs, y);
      OneWithKey(merged, x, y);
    }
    SameContent(merged, inventory);
  }

  lemma ListedWith(inventory: seq<ObjectRef>, refs: seq<ObjectRef>, k: Key) returns (y: ObjectRef)
    requires k in Keys(inventory) + Keys(refs) && WinnersListed(inventory, refs)
    ensures y in inventory && KeyOf(y) == k
  {
    if k in Keys(inventory) {
      y :| y in inventory && KeyOf(y) == k;
    } else {
      var i := LastWith(refs, k);
      y := refs[i];
    }
  }

  /** A crash right after an attempt's inventory was saved, before any further report: the next tick
      trusts what was saved exactly when no key was listed twice and, of each key the attempt names,
      the reference that wins was listed already. */
  lemma CrashedAttemptTrusted(s: BackendState, refs: seq<ObjectRef>)
    ensures var reported := Integrity(DigestsOf(s).lastGood, Some(DigestsOf(s).inventory));
            VerifyState(WithInventory(s, refs), reported).inventory <==>
              DistinctKeys(s.inventory) && WinnersListed(s.inventory, refs)
  {
    MergeUnnoticed(s.inventory, refs);
  }

  // ---- what verification does not see ----------------------------------------------------------------

  /** Two states are trusted alike whatever scpd has recorded exactly when they share their digests. */
  lemma TrustedAlike(s: BackendState, r: BackendState)
    ensures (forall e :: VerifyState(s, e) == VerifyState(r, e)) <==> DigestsOf(s) == DigestsOf(r)
  {
    var e := Integrity(ClaimedDigest(s), Some(InventoryDigestOf(s)));
    if forall e' :: VerifyState(s, e') == VerifyState(r, e') {
      assert VerifyState(s, e) == VerifyState(r, e);
      assert VerifyState(s, e) == Trust(true, true);
    }
  }

  /** A rewrite that keeps the digests cannot change what the backend is known to own, nor which objects
      a fall back restores, up to the release they are stamped with. */
  lemma RewriteKeeps(c: Config, s: BackendState, r: BackendState)
    requires DigestsOf(s) == DigestsOf(r)
    ensures Known(r) == Known(s) && DataKnown(r) == DataKnown(s)
    ensures r.lastGood.Some? <==> s.lastGood.Some?
    ensures s.lastGood.Some? ==> GoodObjects(c, r.lastGood.value) == GoodObjects(c, s.lastGood.value)
    ensures forall ref :: ref in s.inventory <==> ref in r.inventory
    ensures forall ref :: ref in s.retained <==> ref in r.retained
  {
    forall ref ensures (ref in s.inventory <==> ref in r.inventory) && (ref in s.retained <==> ref in r.retained) {
      assert ref in multiset(s.inventory) <==> ref in multiset(r.inventory);
      assert ref in multiset(s.retained) <==> ref in multiset(r.retained);
    }
  }

  /** Everything else it can set as it likes: the purge generation, the remembered failure, and of the
      last good record all but the hash. */
  lemma RewriteUnnoticed(s: BackendState, purgedGeneration: int, failed: Option<FailedAttempt>, good: LastGood)
    ensures var r := s.(purgedGeneration := purgedGeneration, failed := failed,
                        lastGood := if s.lastGood.None? then None else Some(good.(sha256 := s.lastGood.value.sha256)));
            DigestsOf(r) == DigestsOf(s)
  {
  }

  // ---- what a tick does next ------------------------------------------------------------------------

  datatype Plan = Steady | Hold | Remembered | Attempt

  /** The branch an enabled tick takes, in the source's order. */
  function Decide(s: BackendState, fingerprint: Fingerprint, release: string, manual: bool,
    upgradeGeneration: int): Plan {
    if s.lastGood.Some? && s.lastGood.value.fingerprint == fingerprint then Steady
    else if s.lastGood.Some? && s.lastGood.value.release != release && manual
      && upgradeGeneration <= s.lastGood.value.upgradeGeneration then Hold
    else if s.failed.Some? && s.failed.value.fingerprint == fingerprint
      && upgradeGeneration <= s.failed.value.upgradeGeneration then Remembered
    else Attempt
  }

  /** A set with the last good set's fingerprint is of its release. */
  lemma SameRelease(c: Config, good: LastGood, objs: seq<KubeObject>, release: string)
    requires Lawful(c.codec) && NamesItsSet(c, good) && Accepted(c, objs, release)
    requires good.fingerprint == c.codec.fingerprint(objs)
    ensures release == good.release
    ensures forall o :: o in objs ==> o in GoodObjects(c, good).value
  {
    var stored := GoodObjects(c, good).value;
    assert multiset(stored) == multiset(objs);
    forall o | o in objs ensures o in stored {
      assert o in multiset(objs);
    }
    assert objs[0] in objs;
  }

  /** And it adds nothing to the inventory. */
  lemma SameFingerprint(c: Config, s: BackendState, objs: seq<KubeObject>, release: string)
    requires Lawful(c.codec) && StateOk(c, s) && Accepted(c, objs, release)
    requires s.lastGood.Some? && s.lastGood.value.fingerprint == c.codec.fingerprint(objs)
    ensures release == s.lastGood.value.release
    ensures Keys(RefsOf(objs)) <= Keys(s.inventory)
  {
    SameRelease(c, s.lastGood.value, objs, release);
    SameKeys(GoodObjects(c, s.lastGood.value).value, objs);
  }

  /** Manual updates: a release other than the verified last good one is attempted only once the upgrade
      generation passes the one stored with that set. */
  lemma NewReleaseNeedsUpgrade(c: Config, s: BackendState, objs: seq<KubeObject>, release: string,
    upgradeGeneration: int)
    requires Lawful(c.codec) && Faithful(c, s) && Accepted(c, objs, release)
    requires s.lastGood.Some? && release != s.lastGood.value.release
    ensures Decide(s, c.codec.fingerprint(objs), release, true, upgradeGeneration) == Hold <==>
            upgradeGeneration <= s.lastGood.value.upgradeGeneration
  {
    if s.lastGood.value.fingerprint == c.codec.fingerprint(objs) {
      SameRelease(c, s.lastGood.value, objs, release);
    }
  }

  /** A remembered failure is applied again only once the upgrade generation passes it: it is never the
      steady state, because a failure and a last good set never share a fingerprint. */
  lemma FailureNotRetried(c: Config, s: BackendState, objs: seq<KubeObject>, release: string, manual: bool,
    upgradeGeneration: int)
    requires Faithful(c, s) && s.failed.Some? && s.failed.value.fingerprint == c.codec.fingerprint(objs)
    ensures var plan := Decide(s, c.codec.fingerprint(objs), release, manual, upgradeGeneration);
            && plan != Steady
            && (upgradeGeneration <= s.failed.value.upgradeGeneration ==> plan == Hold || plan == Remembered)
            && (upgradeGeneration > s.failed.value.upgradeGeneration ==> plan == Hold || plan == Attempt)
  {
  }

  /** So the digests do not protect the plan of a tick: whatever was held or remembered, some rewrite
      that keeps them has the set attempted. */
  lemma RewriteForcesAttempt(s: BackendState, fingerprint: Fingerprint, release: string, manual: bool,
    upgradeGeneration: int)
    ensures exists r ::
      DigestsOf(r) == DigestsOf(s) && Decide(r, fingerprint, release, manual, upgradeGeneration) == Attempt
  {
    var r := s.(failed := None);
    if s.lastGood.Some? {
      var good := LastGood(release, fingerprint + "x", upgradeGeneration - 1, 0, s.lastGood.value.sha256);
      assert |good.fingerprint| != |fingerprint|;
      r := r.(lastGood := Some(good));
    }
    assert DigestsOf(r) == DigestsOf(s);
    assert Decide(r, fingerprint, release, manual, upgradeGeneration) == Attempt;
  }
}
