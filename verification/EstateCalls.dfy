/** What the calls of an estate say, read off their positions and their properties one by one
    (buildEstateManifest, packages/coordination-as-code/src/estate-program.ts). */
module EstateCalls {
  import opened Wrappers
  import opened Estate

  /** The kind a text names. */
  function KindNamed(text: string): Option<Kind> {
    if text == "image" then Some(Image) else if text == "rpm" then Some(Rpm) else if text == "deb" then Some(Deb)
    else if text == "npm" then Some(Npm) else if text == "maven" then Some(Maven)
    else if text == "python" then Some(Python) else if text == "go" then Some(Go)
    else if text == "chart" then Some(Chart) else if text == "vm-image" then Some(VmImage)
    else if text == "infrastructure" then Some(Infrastructure)
    else if text == "configuration" then Some(Configuration) else None
  }

  /** A property is there exactly when it is given, and says what is given. */
  predicate Says(m: map<Prop, Value>, p: Prop, v: Option<string>) {
    (p in m <==> v.Some?) && (v.Some? ==> m[p] == VStr(v.value))
  }

  predicate TargetSaid(v: Value, t: WaveTarget) {
    (t.Named? ==> v == VStr(t.name)) && (t.Ref? ==> v == VStr(t.urn))
  }

  predicate TargetsSaid(v: Value, ts: seq<WaveTarget>) {
    v.VList? && |v.items| == |ts| && forall i :: 0 <= i < |ts| ==> TargetSaid(v.items[i], ts[i])
  }

  predicate WaveSaid(v: Value, w: WaveItem) {
    && (w.Single? ==> TargetSaid(v, w.target))
    && (w.Group? ==> TargetsSaid(v, w.targets))
    && (w.Wave? ==> v.VObject? && WavePropsSaid(v.props, w))
  }

  predicate WavePropsSaid(m: map<Prop, Value>, w: WaveItem)
    requires w.Wave?
  {
    && PTargets in m && TargetsSaid(m[PTargets], w.targets)
    && Says(m, PName, w.name) && Says(m, PMode, w.mode)
    && (PRequiresFanIn in m <==> w.requiresFanIn.Some?)
    && (w.requiresFanIn.Some? ==> m[PRequiresFanIn] == VBool(w.requiresFanIn.value))
    && (PRollout in m <==> w.rollout.Some?)
    && (w.rollout.Some? ==> m[PRollout] == VJson(w.rollout.value))
  }

  predicate SourceSaid(m: map<Prop, Value>, s: Option<Source>) {
    && Says(m, PBranch, if s.Some? then s.value.branch else None)
    && Says(m, PPath, if s.Some? then s.value.path else None)
    && Says(m, PSourceKind, if s.Some? then s.value.kind else None)
  }

  /** Only what is built is published. */
  predicate PublishSaid(m: map<Prop, Value>, pl: Pipeline) {
    var published := pl.publishesTo.Some? && pl.kind != Infrastructure && pl.kind != Configuration;
    && (PPublishesTo in m <==> published)
    && (published ==> m[PPublishesTo] == VFromUrn(ExecutionSystemClass, pl.publishesTo.value.destinationUrn))
    && Says(m, PRepository, if published then pl.publishesTo.value.repository else None)
  }

  predicate PipelineSaid(m: map<Prop, Value>, pl: Pipeline) {
    && PRepo in m && (pl.source.Some? ==> m[PRepo] == VStr(pl.source.value.repo))
    && PWaves in m && m[PWaves].VList? && |m[PWaves].items| == |pl.waves|
    && (forall i :: 0 <= i < |pl.waves| ==> WaveSaid(m[PWaves].items[i], pl.waves[i]))
    && Says(m, PAdoptTopologyUrn, pl.topologyUrn) && SourceSaid(m, pl.source) && PublishSaid(m, pl)
  }

  /** The component is created by the p-th call; its placements come next, then its pipelines. */
  predicate ComponentSaid(calls: seq<Call>, p: nat, c: Component, service: Value) {
    var q := p + 1 + |c.placements|;
    && q + |c.pipelines| <= |calls|
    && CreationSaid(calls[p], c, service)
    && (forall j :: 0 <= j < |c.placements| ==> PlacementSaid(calls[p + 1 + j], p, c.placements[j]))
    && (forall k :: 0 <= k < |c.pipelines| ==> PipelineCallSaid(calls[q + k], p, c.pipelines[k]))
  }

  predicate CreationSaid(call: Call, c: Component, service: Value) {
    && call.New? && call.cls == ComponentClass && |call.args| == 3
    && call.args[0] == VNew(0) && call.args[1] == VStr(c.constructId) && call.args[2].VObject?
    && Says(call.args[2].props, PName, Some(c.name)) && Says(call.args[2].props, PUrn, c.urn)
    && PService in call.args[2].props && call.args[2].props[PService] == service
  }

  lemma ComponentCallSays(c: Component, service: Value)
    ensures CreationSaid(ComponentCall(c, service), c, service)
  {
  }

  predicate PlacementSaid(call: Call, p: nat, pt: Placement) {
    && call.PlaceAt? && call.component == VNew(p) && call.target.VFromUrn? && call.target.urn == pt.targetUrn
    && (pt.infraKind.Some? ==> call.target.cls == InfraClass(pt.infraKind.value))
    && (pt.infraKind.None? ==> call.target.cls == DeploymentTargetClass)
  }

  predicate PipelineCallSaid(call: Call, p: nat, pl: Pipeline) {
    && call.New? && call.cls == PipelineClass(pl.kind) && |call.args| == 3 && call.args[0] == VNew(p)
    && call.args[1].VStr?
    && (if pl.id.Some? then call.args[1].s == pl.id.value else KindNamed(call.args[1].s) == Some(pl.kind))
    && call.args[2].VObject? && PipelineSaid(call.args[2].props, pl)
  }

  lemma {:induction false} TargetValuesSay(ts: seq<WaveTarget>)
    ensures TargetsSaid(VList(TargetValues(ts)), ts)
  {
    if ts != [] {
      TargetValuesSay(ts[1..]);
      var rest := TargetValues(ts[1..]);
      forall i | 0 <= i < |ts| ensures TargetSaid(TargetValues(ts)[i], ts[i]) {
        if i > 0 { assert TargetValues(ts)[i] == rest[i - 1] && ts[i] == ts[1..][i - 1]; }
      }
    }
  }

  lemma TargetSays(t: WaveTarget)
    ensures TargetSaid(VStr(TargetUrn(t)), t)
  {
  }

  lemma WaveValueSays(w: WaveItem)
    ensures WaveSaid(WaveValue(w), w)
  {
    hide TargetsSaid, TargetSaid, TargetValues;
    if w.Single? { TargetSays(w.target); }
    if w.Group? || w.Wave? { TargetValuesSay(w.targets); }
  }

  lemma {:induction false} WaveValuesSay(ws: seq<WaveItem>)
    ensures |WaveValues(ws)| == |ws| && forall i :: 0 <= i < |ws| ==> WaveSaid(WaveValues(ws)[i], ws[i])
  {
    hide WaveSaid, WaveValue;
    if ws != [] {
      WaveValueSays(ws[0]);
      WaveValuesSay(ws[1..]);
      forall i | 0 <= i < |ws| ensures WaveSaid(WaveValues(ws)[i], ws[i]) {
        if i > 0 { assert WaveValues(ws)[i] == WaveValues(ws[1..])[i - 1] && ws[i] == ws[1..][i - 1]; }
      }
    }
  }

  lemma PipelinePropsSay(pl: Pipeline, repo: Value)
    requires pl.source.Some? ==> repo == VStr(pl.source.value.repo)
    ensures PipelineSaid(PipelineProps(pl, repo), pl)
  {
    hide WaveSaid, WaveValues, SourceProps, PublishProps, SourceSaid, PublishSaid;
    WaveValuesSay(pl.waves);
    SourcePropsSay(pl.source);
    PublishPropsSay(pl);
    var first := map[PRepo := repo] + map[PWaves := VList(WaveValues(pl.waves))];
    var adopt := Optional(PAdoptTopologyUrn, pl.topologyUrn);
    hide Says;
    AdoptSays(first + SourceProps(pl.source), PublishProps(pl), pl.topologyUrn);
    SourceKept(first, SourceProps(pl.source), adopt + PublishProps(pl), pl.source);
    PublishKept(first + SourceProps(pl.source) + adopt, PublishProps(pl), pl);
    assert PipelineProps(pl, repo) == first + SourceProps(pl.source) + (adopt + PublishProps(pl));
  }

  lemma AdoptSays(a: map<Prop, Value>, b: map<Prop, Value>, urn: Option<string>)
    requires PAdoptTopologyUrn !in a && PAdoptTopologyUrn !in b
    ensures Says(a + Optional(PAdoptTopologyUrn, urn) + b, PAdoptTopologyUrn, urn)
  {
  }

  lemma SourceKept(a: map<Prop, Value>, b: map<Prop, Value>, c: map<Prop, Value>, s: Option<Source>)
    requires SourceSaid(b, s) && a.Keys !! {PBranch, PPath, PSourceKind} && c.Keys !! {PBranch, PPath, PSourceKind}
    ensures SourceSaid(a + b + c, s)
  {
  }

  lemma PublishKept(a: map<Prop, Value>, b: map<Prop, Value>, pl: Pipeline)
    requires PublishSaid(b, pl) && a.Keys !! {PPublishesTo, PRepository}
    ensures PublishSaid(a + b, pl)
  {
  }

  lemma SourcePropsSay(s: Option<Source>)
    ensures SourceProps(s).Keys <= {PBranch, PPath, PSourceKind} && SourceSaid(SourceProps(s), s)
  {
  }

  lemma PublishPropsSay(pl: Pipeline)
    ensures PublishProps(pl).Keys <= {PPublishesTo, PRepository} && PublishSaid(PublishProps(pl), pl)
  {
  }

  lemma PipelineCallSays(pl: Pipeline, name: string, p: nat, written: bool)
    ensures PipelineCallSaid(PipelineCall(pl, name, p, written), p, pl)
  {
    hide PipelineSaid, PipelineProps;
    PipelinePropsSay(pl, Repo(pl, name, written));
    KindTextNames(pl.kind);
  }

  lemma KindTextNames(k: Kind)
    ensures KindNamed(KindText(k)) == Some(k)
  {
  }

  lemma {:induction false} PlacementCallsSay(ps: seq<Placement>, p: nat)
    ensures |PlacementCalls(ps, p)| == |ps|
    ensures forall j :: 0 <= j < |ps| ==> PlacementSaid(PlacementCalls(ps, p)[j], p, ps[j])
  {
    if ps != [] {
      PlacementCallsSay(ps[1..], p);
      forall j | 0 <= j < |ps| ensures PlacementSaid(PlacementCalls(ps, p)[j], p, ps[j]) {
        if j > 0 { assert PlacementCalls(ps, p)[j] == PlacementCalls(ps[1..], p)[j - 1] && ps[j] == ps[1..][j - 1]; }
      }
    }
  }

  lemma {:induction false} PipelineCallsSay(pls: seq<Pipeline>, name: string, p: nat, written: bool)
    ensures var calls := PipelineCalls(pls, name, p, written);
      |calls| == |pls| && forall k :: 0 <= k < |pls| ==> PipelineCallSaid(calls[k], p, pls[k])
  {
    hide PipelineCall, PipelineCallSaid;
    if pls != [] {
      PipelineCallSays(pls[0], name, p, written);
      PipelineCallsSay(pls[1..], name, p, written);
      var calls, rest := PipelineCalls(pls, name, p, written), PipelineCalls(pls[1..], name, p, written);
      forall k | 0 <= k < |pls| ensures PipelineCallSaid(calls[k], p, pls[k]) {
        if k > 0 { assert calls[k] == rest[k - 1] && pls[k] == pls[1..][k - 1]; }
      }
    }
  }

  lemma ComponentCallsSay(before: seq<Call>, c: Component, service: Value, written: bool, others: seq<Call>)
    ensures |ComponentCalls(c, service, |before|, written)| == 1 + |c.placements| + |c.pipelines|
    ensures ComponentSaid(before + ComponentCalls(c, service, |before|, written) + others, |before|, c, service)
  {
    hide CreationSaid, PipelineCallSaid, PlacementSaid, ComponentCall, PlacementCalls, PipelineCalls;
    ComponentCallSays(c, service);
    var p := |before|;
    var a, b := PlacementCalls(c.placements, p), PipelineCalls(c.pipelines, c.name, p, written);
    PlacementCallsSay(c.placements, p);
    PipelineCallsSay(c.pipelines, c.name, p, written);
    hide ComponentSaid;
    Positions(before, ComponentCall(c, service), a, b, others);
    AtPositions(before + ComponentCalls(c, service, p, written) + others, p, c, service, a, b);
  }

  lemma AtPositions(all: seq<Call>, p: nat, c: Component, service: Value, a: seq<Call>, b: seq<Call>)
    requires p + 1 + |a| + |b| <= |all| && |a| == |c.placements| && |b| == |c.pipelines|
    requires CreationSaid(all[p], c, service)
    requires forall j :: 0 <= j < |a| ==> all[p + 1 + j] == a[j] && PlacementSaid(a[j], p, c.placements[j])
    requires forall k :: 0 <= k < |b| ==> all[p + 1 + |a| + k] == b[k] && PipelineCallSaid(b[k], p, c.pipelines[k])
    ensures ComponentSaid(all, p, c, service)
  {
    hide CreationSaid, PlacementSaid, PipelineCallSaid;
  }

  lemma Positions<T>(before: seq<T>, x: T, a: seq<T>, b: seq<T>, others: seq<T>)
    ensures var all, p := before + ([x] + a + b) + others, |before|;
      && all[p] == x && (forall j :: 0 <= j < |a| ==> all[p + 1 + j] == a[j])
      && (forall k :: 0 <= k < |b| ==> all[p + 1 + |a| + k] == b[k])
  {
  }

  /** The number of calls behind which the i-th component's come. */
  function Behind(cs: seq<Component>, i: nat): nat
    requires i <= |cs|
  {
    if i == 0 then 0 else Behind(cs, i - 1) + 1 + |cs[i - 1].placements| + |cs[i - 1].pipelines|
  }

  lemma {:induction false} BehindRest(cs: seq<Component>, i: nat)
    requires 0 < i <= |cs|
    ensures Behind(cs, i) == 1 + |cs[0].placements| + |cs[0].pipelines| + Behind(cs[1..], i - 1)
  {
    if i > 1 { BehindRest(cs, i - 1); }
  }

  lemma {:induction false} AllCallsSay(before: seq<Call>, cs: seq<Component>, service: Value, written: bool,
    others: seq<Call>)
    ensures |AllCalls(cs, service, |before|, written)| == Behind(cs, |cs|)
    ensures var all := before + AllCalls(cs, service, |before|, written) + others;
      forall i :: 0 <= i < |cs| ==> ComponentSaid(all, |before| + Behind(cs, i), cs[i], service)
    decreases |cs|
  {
    hide ComponentSaid, ComponentCalls, Behind;
    BehindNone(cs);
    if cs != [] {
      var first := ComponentCalls(cs[0], service, |before|, written);
      var rest := AllCalls(cs[1..], service, |before| + |first|, written);
      ComponentCallsSay(before, cs[0], service, written, rest + others);
      AllCallsSay(before + first, cs[1..], service, written, others);
      BehindRest(cs, |cs|);
      Regroup(before, first, rest, others);
      var all := before + (first + rest) + others;
      forall i | 0 <= i < |cs| ensures ComponentSaid(all, |before| + Behind(cs, i), cs[i], service) {
        if i > 0 {
          BehindRest(cs, i);
          assert cs[i] == cs[1..][i - 1];
        }
      }
    }
  }

  lemma BehindNone(cs: seq<Component>)
    ensures Behind(cs, 0) == 0
  {
  }

  lemma Regroup<T>(a: seq<T>, b: seq<T>, c: seq<T>, d: seq<T>)
    ensures a + (b + c) + d == a + b + (c + d) == a + b + c + d
  {
  }

  /** What an estate is built by: a stack, a service declared or referred to, and for each component in
      turn its creation, its placements and its pipelines; last the synthesis. */
  lemma CallsSay(spec: Spec, written: bool)
    ensures var calls, n := Calls(spec, written), if spec.serviceUrn.Some? then 1 else 2;
      && |calls| == n + Behind(spec.components, |spec.components|) + 1
      && calls[0] == New(StackClass, [VStr(spec.stackName)]) && calls[|calls| - 1] == Synth(VNew(0))
      && (spec.serviceUrn.None? ==>
            calls[1] == New(ServiceClass, [VNew(0), VStr("service"), VObject(map[PName := VStr(spec.serviceName)])]))
      && forall i :: 0 <= i < |spec.components| ==>
           ComponentSaid(calls, n + Behind(spec.components, i), spec.components[i],
             if spec.serviceUrn.Some? then VFromUrn(ServiceClass, spec.serviceUrn.value) else VNew(1))
  {
    hide ComponentSaid, AllCalls, Behind;
    AllCallsSay(FirstCalls(spec), spec.components, ServiceValue(spec), written, [Synth(VNew(0))]);
  }

  /** Small letters and digits, with single dashes between them. */
  predicate Slug(s: string) {
    forall i :: 0 <= i < |s| ==> SlugAt(s, i)
  }

  predicate SlugAt(s: string, i: nat)
    requires i < |s|
  {
    'a' <= s[i] <= 'z' || '0' <= s[i] <= '9' || (s[i] == '-' && 0 < i < |s| - 1 && s[i + 1] != '-')
  }

  /** What stands for a missing repository: the marker, the component's letters and digits with dashes
      between words, and the kind. */
  lemma PlaceholderSays(name: string, kind: Kind) returns (slug: string)
    ensures PlaceholderRepo(name, kind) == "TODO-SCP-EXPORT-NO-SOURCE-MAPPING/" + slug + "-" + KindText(kind)
    ensures Letters(slug) == if Letters(name) == "" then "component" else Letters(name)
    ensures slug != "" && Slug(slug)
  {
    hide Words, Dashed, Letters, Joined, KindText, Slug;
    WordsAlnum(name, "");
    WordsHold(name, "");
    DashedSays(Words(name, ""));
    LettersNone();
    assert "" + Letters(name) == Letters(name);
    ComponentIsSlug();
    slug := if Dashed(Words(name, "")) == "" then "component" else Dashed(Words(name, ""));
    if Words(name, "") != [] { FirstLetter(name); }
  }

  lemma ComponentIsSlug()
    ensures Letters("component") == "component" && Slug("component")
  {
    SmallLetters("component");
  }

  predicate IsWord(w: string) {
    w != "" && forall i :: 0 <= i < |w| ==> IsAlnum(w[i])
  }

  lemma WordSlug(w: string)
    requires IsWord(w)
    ensures Slug(LowerAll(w)) && LowerAll(w) != "" && LowerAll(w)[0] != '-'
  {
    LowerAlnum(w);
  }

  lemma SlugJoins(a: string, b: string)
    requires Slug(a) && Slug(b) && a != "" && b != "" && a[|a| - 1] != '-' && b[0] != '-'
    ensures Slug(a + "-" + b)
  {
    var s := a + "-" + b;
    forall i | 0 <= i < |s| ensures SlugAt(s, i) {
      if i < |a| {
        assert s[i] == a[i] && SlugAt(a, i) && (i + 1 < |a| ==> s[i + 1] == a[i + 1]);
      } else if i == |a| {
        assert s[i + 1] == b[0];
      } else {
        var j := i - |a| - 1;
        assert s[i] == b[j] && SlugAt(b, j) && (j + 1 < |b| ==> s[i + 1] == b[j + 1]);
      }
    }
  }

  lemma {:induction false} DashedSays(words: seq<string>)
    requires forall w :: w in words ==> IsWord(w)
    ensures var slug := Dashed(words);
      && Letters(slug) == Letters(Joined(words)) && (slug == "" <==> words == [])
      && Slug(slug) && (slug != "" ==> slug[0] != '-')
  {
    hide Slug, IsWord, Letters, Joined, LowerAll;
    LettersNone();
    if words != [] {
      var word, rest := LowerAll(words[0]), Dashed(words[1..]);
      assert words[0] in words && words == [words[0]] + words[1..];
      WordSlug(words[0]);
      LettersLower(words[0]);
      JoinedFirst(words[0], words[1..]);
      if |words| > 1 {
        DashedSays(words[1..]);
        LowerEnds(words[0]);
        SlugJoins(word, rest);
        LettersConcat(word + "-", rest);
        LettersConcat(word, "-");
        LettersDash();
        assert Letters(word) + "" == Letters(word);
      } else {
        assert Letters(words[0]) + "" == Letters(words[0]) && words[1..] == [];
      }
    } else {
      NoSlug();
    }
  }

  lemma LowerEnds(w: string)
    requires IsWord(w)
    ensures LowerAll(w) != "" && LowerAll(w)[|LowerAll(w)| - 1] != '-'
  {
    LowerAlnum(w);
  }

  lemma LettersDash()
    ensures Letters("-") == ""
  {
  }

  lemma NoSlug()
    ensures Slug("")
  {
  }
}
