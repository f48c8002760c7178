/** Kubernetes objects as the stack controller sees them (apps/stackd/src/manifests.ts): references
    and their identity, ownership labels, which kinds are admissible in a backend, and the two list
    operations the controller's bookkeeping is made of. */
module Manifests {
  import opened Wrappers

  // An absent namespace is the empty string: `refOf` drops a falsy one.
  datatype ObjectRef = ObjectRef(apiVersion: string, kind: string, name: string, ns: string)

  /** What `refKey` identifies an object by: the API group without the version. */
  datatype Key = Key(group: string, kind: string, ns: string, name: string)

  /** The two ownership labels by name, every other label by its text. */
  datatype Label = ManagedBy | BackendOf | Other(text: string)

  datatype KubeObject = KubeObject(
    ref: ObjectRef,
    labels: map<Label, string>,
    release: Option<string>, // the release annotation
    body: string // everything else in the document
  )

  datatype StackKind = StackKind(group: string, kind: string, namespaced: bool)

  const MANAGED_BY_VALUE := "scp-stackd"
  const CRD_GROUP := "apiextensions.k8s.io"
  const CRD_KIND := "CustomResourceDefinition"
  const GENERATE_ONCE_SECRETS := ["gitea-admin-secret", "scp-gitea-inline-config"]

  // ---- identity ---------------------------------------------------------------------------------

  /** The text before the first '/', or None when there is no '/'. */
  function BeforeSlash(s: string): (r: Option<string>)
    ensures r.Some? <==> '/' in s
    ensures r.Some? ==> '/' !in r.value && r.value + "/" <= s
  {
    if s == "" then None
    else if s[0] == '/' then Some("")
    else
      match BeforeSlash(s[1..])
      case None => None
      case Some(p) => Some([s[0]] + p)
  }

  function GroupOf(apiVersion: string): string {
    match BeforeSlash(apiVersion)
    case None => ""
    case Some(group) => group
  }

  function KeyOf(r: ObjectRef): Key {
    Key(GroupOf(r.apiVersion), r.kind, r.ns, r.name)
  }

  function RefKey(r: ObjectRef): string {
    GroupOf(r.apiVersion) + "/" + r.kind + "/" + r.ns + "/" + r.name
  }

  lemma CutAt(sep: char, a: string, x: string, b: string, y: string)
    requires sep !in a && sep !in b
    requires a + [sep] + x == b + [sep] + y
    ensures a == b && x == y
  {
    var s := a + [sep] + x;
    assert s == a + ([sep] + x) && s == b + ([sep] + y);
    assert forall i :: 0 <= i < |a| ==> s[i] == a[i];
    assert forall i :: 0 <= i < |b| ==> s[i] == b[i];
    assert s[|a|] == sep && s[|b|] == sep;
    assert |a| == |b|;
    assert a == s[..|a|] == b;
    assert x == s[|a| + 1..] == y;
  }

  /** The text key names the same object as `KeyOf` wherever kinds and namespaces hold no '/'
      (names may): the controller's Map and Set lookups are lookups by `Key`. */
  lemma RefKeyIdentifies(a: ObjectRef, b: ObjectRef)
    requires '/' !in a.kind && '/' !in b.kind && '/' !in a.ns && '/' !in b.ns
    ensures RefKey(a) == RefKey(b) <==> KeyOf(a) == KeyOf(b)
  {
    if RefKey(a) == RefKey(b) {
      RefKeyParts(a);
      RefKeyParts(b);
      CutAt('/', GroupOf(a.apiVersion), a.kind + "/" + (a.ns + "/" + a.name), GroupOf(b.apiVersion),
        b.kind + "/" + (b.ns + "/" + b.name));
      CutAt('/', a.kind, a.ns + "/" + a.name, b.kind, b.ns + "/" + b.name);
      CutAt('/', a.ns, a.name, b.ns, b.name);
    }
  }

  lemma RefKeyParts(r: ObjectRef)
    ensures RefKey(r) == GroupOf(r.apiVersion) + "/" + (r.kind + "/" + (r.ns + "/" + r.name))
  {
  }

  /** A reference's line in the inventory digest. */
  function InventoryLine(r: ObjectRef): string {
    r.apiVersion + "|" + r.kind + "|" + r.ns + "|" + r.name
  }

  lemma InventoryLineParts(r: ObjectRef)
    ensures InventoryLine(r) == r.apiVersion + "|" + (r.kind + "|" + (r.ns + "|" + r.name))
  {
  }

  /** Lines tell references apart, API version included, wherever no part but the name holds a '|':
      the digest of sorted lines is that of the unordered references. */
  lemma InventoryLineIdentifies(a: ObjectRef, b: ObjectRef)
    requires '|' !in a.apiVersion && '|' !in a.kind && '|' !in a.ns
    requires '|' !in b.apiVersion && '|' !in b.kind && '|' !in b.ns
    ensures InventoryLine(a) == InventoryLine(b) <==> a == b
  {
    if InventoryLine(a) == InventoryLine(b) {
      InventoryLineParts(a);
      InventoryLineParts(b);
      CutAt('|', a.apiVersion, a.kind + "|" + (a.ns + "|" + a.name), b.apiVersion,
        b.kind + "|" + (b.ns + "|" + b.name));
      CutAt('|', a.kind, a.ns + "|" + a.name, b.kind, b.ns + "|" + b.name);
      CutAt('|', a.ns, a.name, b.ns, b.name);
    }
  }

  // ---- ownership and kinds ------------------------------------------------------------------------

  function Stamp(o: KubeObject, backend: string, release: string): KubeObject {
    o.(labels := o.labels[ManagedBy := MANAGED_BY_VALUE][BackendOf := backend], release := Some(release))
  }

  function StampAll(objs: seq<KubeObject>, backend: string, release: string): (r: seq<KubeObject>) {
    seq(|objs|, i requires 0 <= i < |objs| => Stamp(objs[i], backend, release))
  }

  predicate IsOurs(o: KubeObject, backend: string) {
    && ManagedBy in o.labels && o.labels[ManagedBy] == MANAGED_BY_VALUE
    && BackendOf in o.labels && o.labels[BackendOf] == backend
  }

  /** `o` is `x` with this backend's labels and this release, and nothing else changed. */
  ghost predicate Stamped(o: KubeObject, x: KubeObject, backend: string, release: string) {
    && o.ref == x.ref && o.body == x.body && o.release == Some(release)
    && o.labels.Keys == x.labels.Keys + {ManagedBy, BackendOf}
    && o.labels[ManagedBy] == MANAGED_BY_VALUE && o.labels[BackendOf] == backend
    && (forall l :: l in x.labels && l.Other? ==> o.labels[l] == x.labels[l])
  }

  lemma StampAllKeeps(objs: seq<KubeObject>, backend: string, release: string)
    ensures var r := StampAll(objs, backend, release);
      |r| == |objs| && forall i :: 0 <= i < |objs| ==> Stamped(r[i], objs[i], backend, release)
  {
  }

  /** What is stamped for one backend is that backend's alone, and only while it carries both labels. */
  lemma OursAlone(o: KubeObject, x: KubeObject, backend: string, other: string, release: string, v: string)
    requires Stamped(o, x, backend, release)
    ensures IsOurs(o, other) <==> other == backend
    ensures forall l :: l in [ManagedBy, BackendOf] ==> !IsOurs(o.(labels := o.labels - {l}), backend)
    ensures IsOurs(o.(labels := o.labels[ManagedBy := v]), backend) <==> v == MANAGED_BY_VALUE
  {
  }

  predicate IsCrd(r: ObjectRef) {
    r.kind == CRD_KIND && CRD_GROUP + "/" <= r.apiVersion
  }

  /** Volumes and generate-once Secrets: kept until a purge. */
  predicate IsRetainedData(r: ObjectRef) {
    || (r.kind == "PersistentVolumeClaim" && r.apiVersion == "v1")
    || (r.kind == "Secret" && r.apiVersion == "v1" && r.name in GENERATE_ONCE_SECRETS)
  }

  /** `refViolation(...) === null`: the first kind listed for the group and kind decides. */
  predicate Admissible(r: ObjectRef, namespace: string, kinds: seq<StackKind>) {
    AdmissibleKey(KeyOf(r), namespace, kinds)
  }

  predicate AdmissibleKey(k: Key, namespace: string, kinds: seq<StackKind>) {
    match FindKind(k, kinds)
    case None => false
    case Some(kind) =>
      && (k.kind == "Namespace" && k.group == "" ==> k.name == namespace)
      && (kind.namespaced ==> k.ns == namespace)
  }

  function FindKind(k: Key, kinds: seq<StackKind>): Option<StackKind> {
    if kinds == [] then None
    else if kinds[0].group == k.group && kinds[0].kind == k.kind then Some(kinds[0])
    else FindKind(k, kinds[1..])
  }

  /** What a prune may delete (apps/stackd/src/reconcile.ts:255-269). */
  predicate Prunable(r: ObjectRef, namespace: string, kinds: seq<StackKind>, purge: bool) {
    && !IsCrd(r) && r.kind != "Namespace"
    && (purge || !IsRetainedData(r))
    && Admissible(r, namespace, kinds)
  }

  predicate Lists(k: StackKind, r: ObjectRef) {
    k.group == GroupOf(r.apiVersion) && k.kind == r.kind
  }

  /** The i-th entry is the first to list the reference, and has it in the namespace unless cluster-wide. */
  predicate Allows(kinds: seq<StackKind>, i: nat, r: ObjectRef, namespace: string) {
    && i < |kinds| && Lists(kinds[i], r) && (kinds[i].namespaced ==> r.ns == namespace)
    && (forall j :: 0 <= j < i ==> !Lists(kinds[j], r))
  }

  lemma AllowsLater(kinds: seq<StackKind>, i: nat, r: ObjectRef, namespace: string)
    requires kinds != [] && !Lists(kinds[0], r)
    ensures Allows(kinds, i + 1, r, namespace) <==> Allows(kinds[1..], i, r, namespace)
  {
    hide Lists;
    assert forall j :: 0 < j < |kinds| ==> kinds[j] == kinds[1..][j - 1];
    assert forall j :: 0 <= j < |kinds| - 1 ==> kinds[1..][j] == kinds[j + 1];
  }

  /** A reference may be in a backend exactly when its group and kind are listed, and the first entry
      that lists them allows it where it is; of Namespaces only the backend's own may. */
  lemma {:induction false} AdmissibleMeans(r: ObjectRef, namespace: string, kinds: seq<StackKind>)
    ensures Admissible(r, namespace, kinds) <==>
      && (r.kind == "Namespace" && GroupOf(r.apiVersion) == "" ==> r.name == namespace)
      && (exists i: nat :: Allows(kinds, i, r, namespace))
  {
    hide GroupOf;
    if kinds != [] {
      if Lists(kinds[0], r) {
        assert Allows(kinds, 0, r, namespace) <==> (kinds[0].namespaced ==> r.ns == namespace);
        assert forall i: nat :: Allows(kinds, i, r, namespace) ==> i == 0;
      } else {
        AdmissibleMeans(r, namespace, kinds[1..]);
        if i: nat :| Allows(kinds, i, r, namespace) { AllowsLater(kinds, i - 1, r, namespace); }
        if i: nat :| Allows(kinds[1..], i, r, namespace) { AllowsLater(kinds, i, r, namespace); }
      }
    }
  }

  /** No prune touches a CRD, a Namespace or another namespace's object; and none but a purge a volume
      or one of the two Secrets written once. */
  lemma PruneSpares(r: ObjectRef, namespace: string, kinds: seq<StackKind>, purge: bool)
    requires Prunable(r, namespace, kinds, purge)
    ensures r.kind != "Namespace"
    ensures r.kind == "CustomResourceDefinition" ==> GroupOf(r.apiVersion) != "apiextensions.k8s.io"
    ensures r.kind == "PersistentVolumeClaim" && r.apiVersion == "v1" ==> purge
    ensures r.kind == "Secret" && r.apiVersion == "v1" ==>
      (r.name == "gitea-admin-secret" || r.name == "scp-gitea-inline-config") ==> purge
    ensures (forall k :: k in kinds ==> k.namespaced) ==> r.ns == namespace
  {
    CrdByKey(r);
    AdmissibleMeans(r, namespace, kinds);
  }

  // The same three tests, read off the key.
  predicate CrdKey(k: Key) {
    k.kind == CRD_KIND && k.group == CRD_GROUP
  }

  predicate DataKey(k: Key) {
    k.group == "" && (k.kind == "PersistentVolumeClaim" || (k.kind == "Secret" && k.name in GENERATE_ONCE_SECRETS))
  }

  predicate PrunableKey(k: Key, namespace: string, kinds: seq<StackKind>) {
    !CrdKey(k) && k.kind != "Namespace" && AdmissibleKey(k, namespace, kinds)
  }

  /** The core API group has the single version v1. */
  predicate CoreV1(r: ObjectRef) {
    GroupOf(r.apiVersion) == "" ==> r.apiVersion == "v1"
  }

  lemma CrdByKey(r: ObjectRef)
    ensures IsCrd(r) <==> CrdKey(KeyOf(r))
  {
    var v, p := r.apiVersion, CRD_GROUP + "/";
    if p <= v {
      assert v[|CRD_GROUP|] == '/';
      var group := BeforeSlash(v).value;
      CutAt('/', group, v[|group| + 1..], CRD_GROUP, v[|p|..]);
    }
  }

  /** Deletability depends on an object's key alone once core references carry v1. */
  lemma PrunableByKey(r: ObjectRef, namespace: string, kinds: seq<StackKind>)
    requires CoreV1(r)
    ensures IsRetainedData(r) <==> DataKey(KeyOf(r))
    ensures Prunable(r, namespace, kinds, true) <==> PrunableKey(KeyOf(r), namespace, kinds)
    ensures Prunable(r, namespace, kinds, false) <==>
            PrunableKey(KeyOf(r), namespace, kinds) && !DataKey(KeyOf(r))
  {
    CrdByKey(r);
    assert r.apiVersion == "v1" ==> '/' !in r.apiVersion;
  }

  // ---- list operations ----------------------------------------------------------------------------

  function RefsOf(objs: seq<KubeObject>): (refs: seq<ObjectRef>)
    ensures |refs| == |objs| && forall i :: 0 <= i < |objs| ==> refs[i] == objs[i].ref
  {
    seq(|objs|, i requires 0 <= i < |objs| => objs[i].ref)
  }

  ghost function Keys(refs: seq<ObjectRef>): set<Key> {
    set r | r in refs :: KeyOf(r)
  }

  lemma SameKeys(objs: seq<KubeObject>, some: seq<KubeObject>)
    requires forall o :: o in some ==> o in objs
    ensures Keys(RefsOf(some)) <= Keys(RefsOf(objs))
    ensures (forall o :: o in objs ==> o in some) ==> Keys(RefsOf(some)) == Keys(RefsOf(objs))
  {
    forall k | k in Keys(RefsOf(some)) ensures k in Keys(RefsOf(objs)) {
      var i :| 0 <= i < |some| && KeyOf(RefsOf(some)[i]) == k;
      assert some[i] in objs;
    }
    if forall o :: o in objs ==> o in some {
      forall k | k in Keys(RefsOf(objs)) ensures k in Keys(RefsOf(some)) {
        var i :| 0 <= i < |objs| && KeyOf(RefsOf(objs)[i]) == k;
        assert objs[i] in some;
      }
    }
  }

  /** The references of `before` whose key `after` no longer has. */
  function RemovedRefs(before: seq<ObjectRef>, after: seq<ObjectRef>): (r: seq<ObjectRef>)
    ensures forall x :: x in r <==> x in before && KeyOf(x) !in Keys(after)
  {
    if before == [] then []
    else
      var rest := RemovedRefs(before[1..], after);
      if exists a | a in after :: KeyOf(a) == KeyOf(before[0]) then rest else [before[0]] + rest
  }

  function DataOf(refs: seq<ObjectRef>): (r: seq<ObjectRef>)
    ensures forall x :: x in r <==> x in refs && IsRetainedData(x)
  {
    if refs == [] then []
    else
      var rest := DataOf(refs[1..]);
      if IsRetainedData(refs[0]) then [refs[0]] + rest else rest
  }

  predicate DistinctKeys(refs: seq<ObjectRef>) {
    forall i, j :: 0 <= i < j < |refs| ==> KeyOf(refs[i]) != KeyOf(refs[j])
  }

  /** Setting one entry of a Map that keeps insertion order: a key already there keeps its place. */
  function SetEntry(seen: seq<ObjectRef>, r: ObjectRef): (out: seq<ObjectRef>)
    requires DistinctKeys(seen)
    ensures forall x :: x in out <==> x == r || (x in seen && KeyOf(x) != KeyOf(r))
    ensures DistinctKeys(out)
  {
    if i :| 0 <= i < |seen| && KeyOf(seen[i]) == KeyOf(r) then
      var out := seen[i := r];
      assert out[i] == r && forall j :: 0 <= j < |seen| && j != i ==> out[j] == seen[j];
      out
    else
      seen + [r]
  }

  /** The Map filled from `all` in order, read back as its values. */
  function Merged(all: seq<ObjectRef>): (out: seq<ObjectRef>)
    ensures DistinctKeys(out)
    ensures forall x :: x in out ==> x in all
    ensures Keys(out) == Keys(all)
  {
    if all == [] then []
    else
      var n := |all| - 1;
      var out := SetEntry(Merged(all[..n]), all[n]);
      assert all == all[..n] + [all[n]];
      MergedKeys(Merged(all[..n]), all[n], out);
      out
  }

  lemma MergedKeys(seen: seq<ObjectRef>, r: ObjectRef, out: seq<ObjectRef>)
    requires forall x :: x in out <==> x == r || (x in seen && KeyOf(x) != KeyOf(r))
    ensures Keys(out) == Keys(seen) + {KeyOf(r)}
  {
    forall k | k in Keys(seen) + {KeyOf(r)} ensures k in Keys(out) {
      if k == KeyOf(r) {
        assert r in out;
      } else {
        var x :| x in seen && KeyOf(x) == k;
        assert x in out;
      }
    }
  }

  function UnionRefs(a: seq<ObjectRef>, b: seq<ObjectRef>): seq<ObjectRef> {
    Merged(a + b)
  }

  lemma UnionKeys(a: seq<ObjectRef>, b: seq<ObjectRef>)
    ensures Keys(UnionRefs(a, b)) == Keys(a) + Keys(b)
    ensures forall x :: x in UnionRefs(a, b) ==> x in a || x in b
    ensures DistinctKeys(UnionRefs(a, b))
  {
    assert forall x :: x in a + b <==> x in a || x in b;
    assert Keys(a + b) == Keys(a) + Keys(b);
  }

  /** The last reference with a key wins, so an upgrade that moves `v1beta1` to `v1` is recorded. */
  lemma {:induction false} MergedKeepsLast(all: seq<ObjectRef>, i: nat)
    requires i < |all|
    requires forall j :: i < j < |all| ==> KeyOf(all[j]) != KeyOf(all[i])
    ensures all[i] in Merged(all)
  {
    var n := |all| - 1;
    if i < n {
      MergedKeepsLast(all[..n], i);
      assert all[..n][i] == all[i];
    }
  }

  lemma MergedOneMore(all: seq<ObjectRef>, i: nat)
    requires i < |all|
    ensures Merged(all[..i + 1]) == SetEntry(Merged(all[..i]), all[i])
  {
    assert all[..i + 1][..i] == all[..i];
  }

  /** `unionRefs`: one pass over both lists, setting a Map entry for each reference. */
  method UnionRefsOf(a: seq<ObjectRef>, b: seq<ObjectRef>) returns (out: seq<ObjectRef>)
    ensures out == UnionRefs(a, b)
    ensures Keys(out) == Keys(a) + Keys(b) && DistinctKeys(out)
  {
    var all := a + b;
    out := [];
    for i := 0 to |all|
      invariant out == Merged(all[..i])
    {
      MergedOneMore(all, i);
      out := SetEntry(out, all[i]);
    }
    assert all[..|all|] == all;
    UnionKeys(a, b);
  }
}
