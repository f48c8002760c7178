/** The estate emitter (packages/coordination-as-code/src/estate-program.ts): an interpreter that makes
    the constructor calls of an estate, and a generator that writes a program making them. Here the
    program is its statements, an evaluator runs it, and both are compared as the calls they make. */
module Estate {
  import opened Wrappers

  // ---- what is described ---------------------------------------------------------------------------------

  datatype Kind =
    | Image | Rpm | Deb | Npm | Maven | Python | Go | Chart | VmImage | Infrastructure | Configuration

  datatype InfraKind = Cluster | InstanceGroup | Database | Bucket | Queue

  datatype Source = Source(kind: Option<string>, repo: string, path: Option<string>, branch: Option<string>)

  datatype Publish = Publish(destinationUrn: string, repository: Option<string>)

  datatype Placement = Placement(targetUrn: string, infraKind: Option<InfraKind>)

  /** A target by name, or an object of which only the URN is written out. */
  datatype WaveTarget = Named(name: string) | Ref(urn: string)

  datatype WaveItem =
    | Single(target: WaveTarget)
    | Group(targets: seq<WaveTarget>)
    | Wave(name: Option<string>, mode: Option<string>, targets: seq<WaveTarget>, requiresFanIn: Option<bool>,
      rollout: Option<string>)

  datatype Pipeline = Pipeline(
    kind: Kind, id: Option<string>, source: Option<Source>, waves: seq<WaveItem>,
    publishesTo: Option<Publish>, topologyUrn: Option<string>)

  datatype Component = Component(
    constructId: string, name: string, urn: Option<string>, placements: seq<Placement>, pipelines: seq<Pipeline>)

  datatype Spec = Spec(stackName: string, serviceName: string, serviceUrn: Option<string>, components: seq<Component>)

  function KindText(k: Kind): string {
    match k
    case Image => "image" case Rpm => "rpm" case Deb => "deb" case Npm => "npm" case Maven => "maven"
    case Python => "python" case Go => "go" case Chart => "chart" case VmImage => "vm-image"
    case Infrastructure => "infrastructure" case Configuration => "configuration"
  }

  predicate IsBuildKind(k: Kind) { !k.Infrastructure? && !k.Configuration? }

  // ---- identifiers ---------------------------------------------------------------------------------------

  predicate IsAlnum(c: char) {
    'a' <= c <= 'z' || 'A' <= c <= 'Z' || '0' <= c <= '9'
  }

  function Lower(c: char): char {
    if 'A' <= c <= 'Z' then (c as int + 32) as char else c
  }

  function Upper(c: char): char {
    if 'a' <= c <= 'z' then (c as int - 32) as char else c
  }

  function LowerAll(s: string): string {
    if s == "" then "" else [Lower(s[0])] + LowerAll(s[1..])
  }

  /** The runs of letters and digits; `current` is the run being read. */
  function Words(s: string, current: string): seq<string> {
    if s == "" then (if current == "" then [] else [current])
    else if IsAlnum(s[0]) then Words(s[1..], current + [s[0]])
    else (if current == "" then [] else [current]) + Words(s[1..], "")
  }

  function Capitals(words: seq<string>): string {
    if words == [] then ""
    else
      var lower := LowerAll(words[0]);
      (if lower == "" then "" else [Upper(lower[0])] + lower[1..]) + Capitals(words[1..])
  }

  function CamelIdentifier(input: string): string {
    var words := Words(input, "");
    if words == [] then "product" else LowerAll(words[0]) + Capitals(words[1..])
  }

  function Dashed(words: seq<string>): string {
    if words == [] then "" else if |words| == 1 then LowerAll(words[0])
      else LowerAll(words[0]) + "-" + Dashed(words[1..])
  }

  function PlaceholderRepo(componentName: string, kind: Kind): string {
    var slug := Dashed(Words(componentName, ""));
    "TODO-SCP-EXPORT-NO-SOURCE-MAPPING/" + (if slug == "" then "component" else slug) + "-" + KindText(kind)
  }

  lemma {:induction false} LowerAlnum(s: string)
    requires forall i :: 0 <= i < |s| ==> IsAlnum(s[i])
    ensures |LowerAll(s)| == |s|
    ensures forall i :: 0 <= i < |s| ==> IsAlnum(LowerAll(s)[i]) && !('A' <= LowerAll(s)[i] <= 'Z')
  {
    if s != "" {
      LowerAlnum(s[1..]);
    }
  }

  lemma {:induction false} WordsAlnum(s: string, current: string)
    requires forall i :: 0 <= i < |current| ==> IsAlnum(current[i])
    ensures forall w :: w in Words(s, current) ==> w != "" && forall i :: 0 <= i < |w| ==> IsAlnum(w[i])
  {
    if s != "" {
      WordsAlnum(s[1..], if IsAlnum(s[0]) then current + [s[0]] else "");
    }
  }

  lemma {:induction false} CapitalsAlnum(words: seq<string>)
    requires forall w :: w in words ==> forall i :: 0 <= i < |w| ==> IsAlnum(w[i])
    ensures forall i :: 0 <= i < |Capitals(words)| ==> IsAlnum(Capitals(words)[i])
  {
    if words != [] {
      assert words[0] in words;
      LowerAlnum(words[0]);
      CapitalsAlnum(words[1..]);
    }
  }

  /** A generated name is letters and digits and begins with no capital: it is never a class name, and
      never a placeholder's, which hold underscores. */
  lemma CamelShape(input: string)
    ensures var s := CamelIdentifier(input);
            s != "" && !('A' <= s[0] <= 'Z') && forall i :: 0 <= i < |s| ==> IsAlnum(s[i])
  {
    var words := Words(input, "");
    WordsAlnum(input, "");
    if words != [] {
      assert words[0] in words;
      LowerAlnum(words[0]);
      CapitalsAlnum(words[1..]);
    }
  }

  lemma Assoc<T>(a: seq<T>, b: seq<T>, c: seq<T>)
    ensures (a + b) + c == a + (b + c)
  {
  }

  /** The letters and digits of a text, in lower case. */
  function Letters(s: string): string {
    if s == "" then ""
    else if IsAlnum(s[0]) then [Lower(s[0])] + Letters(s[1..])
    else Letters(s[1..])
  }

  /** The two cases pair the letters in alphabetical order and leave all else; letters and digits are
      what the two alphabets and the ten figures are. */
  lemma CasesPair(c: char)
    ensures 'a' <= c <= 'z' ==> 'A' <= Upper(c) <= 'Z' && Upper(c) - 'A' == c - 'a' && Lower(Upper(c)) == c
    ensures 'A' <= c <= 'Z' ==> 'a' <= Lower(c) <= 'z' && Lower(c) - 'a' == c - 'A' && Upper(Lower(c)) == c
    ensures Upper(c) != c ==> 'a' <= c <= 'z'
    ensures Lower(c) != c ==> 'A' <= c <= 'Z'
    ensures IsAlnum(c) <==> '0' <= c <= '9' || 'a' <= Lower(c) <= 'z'
  {
  }

  lemma {:induction false} LettersConcat(a: string, b: string)
    ensures Letters(a + b) == Letters(a) + Letters(b)
  {
    if a == "" {
      assert a + b == b && Letters(a) + Letters(b) == Letters(b);
    } else {
      LettersConcat(a[1..], b);
      assert (a + b)[1..] == a[1..] + b && (a + b)[0] == a[0];
      Assoc([Lower(a[0])], Letters(a[1..]), Letters(b));
    }
  }

  lemma {:induction false} LettersLower(s: string)
    ensures Letters(LowerAll(s)) == Letters(s)
  {
    if s != "" {
      LettersLower(s[1..]);
      assert LowerAll(s)[1..] == LowerAll(s[1..]);
    }
  }

  /** The words one after the other. */
  function Joined(words: seq<string>): string {
    if words == [] then "" else words[0] + Joined(words[1..])
  }

  lemma JoinedFirst(word: string, rest: seq<string>)
    ensures Letters(Joined([word] + rest)) == Letters(word) + Letters(Joined(rest))
  {
    assert ([word] + rest)[1..] == rest;
    LettersConcat(word, Joined(rest));
  }

  lemma LettersSnoc(s: string, c: char)
    requires IsAlnum(c)
    ensures Letters(s + [c]) == Letters(s) + [Lower(c)]
  {
    LettersConcat(s, [c]);
    assert Letters([c]) == [Lower(c)] + Letters([c][1..]);
  }

  lemma {:induction false} WordsHold(s: string, current: string)
    ensures Letters(Joined(Words(s, current))) == Letters(current) + Letters(s)
  {
    hide Letters, Joined;
    LettersNone();
    if s == "" {
      if current != "" {
        JoinedFirst(current, []);
        assert [current] + [] == [current];
      }
    } else if IsAlnum(s[0]) {
      WordsHold(s[1..], current + [s[0]]);
      LettersSnoc(current, s[0]);
      LettersFirst(s);
      Assoc(Letters(current), [Lower(s[0])], Letters(s[1..]));
    } else {
      WordsHold(s[1..], "");
      LettersFirst(s);
      assert "" + Letters(s) == Letters(s);
      assert [] + Words(s[1..], "") == Words(s[1..], "");
      if current != "" { JoinedFirst(current, Words(s[1..], "")); }
    }
  }

  lemma LettersNone()
    ensures Letters("") == "" && Joined([]) == ""
  {
  }

  lemma LettersFirst(s: string)
    requires s != ""
    ensures Letters(s) == if IsAlnum(s[0]) then [Lower(s[0])] + Letters(s[1..]) else Letters(s[1..])
  {
  }

  lemma {:induction false} CapitalsHold(words: seq<string>)
    ensures Letters(Capitals(words)) == Letters(Joined(words))
  {
    if words != [] {
      var lower := LowerAll(words[0]);
      LettersLower(words[0]);
      CapitalsHold(words[1..]);
      LettersConcat(words[0], Joined(words[1..]));
      if lower != "" {
        var first := [Upper(lower[0])] + lower[1..];
        assert Letters(first) == Letters(lower);
        LettersConcat(first, Capitals(words[1..]));
      } else {
        assert "" + Capitals(words[1..]) == Capitals(words[1..]);
        assert words[0] == "" && "" + Joined(words[1..]) == Joined(words[1..]);
      }
    }
  }

  /** The name has exactly the input's letters and digits, in order; only an input without any is called
      something else. So names of inputs whose letters and digits differ never clash. */
  lemma CamelLetters(input: string)
    ensures Letters(CamelIdentifier(input)) == if Letters(input) == "" then "product" else Letters(input)
  {
    hide Letters, Joined, Capitals, LowerAll;
    var words := Words(input, "");
    WordsHold(input, "");
    LettersNone();
    assert "" + Letters(input) == Letters(input);
    if words == [] {
      SmallLetters("product");
    } else {
      assert words == [words[0]] + words[1..];
      JoinedFirst(words[0], words[1..]);
      LettersConcat(LowerAll(words[0]), Capitals(words[1..]));
      LettersLower(words[0]);
      CapitalsHold(words[1..]);
      FirstLetter(input);
    }
  }

  lemma {:induction false} SmallLetters(s: string)
    requires forall i :: 0 <= i < |s| ==> 'a' <= s[i] <= 'z'
    ensures Letters(s) == s
  {
    if s != "" {
      SmallLetters(s[1..]);
      assert s == [s[0]] + s[1..];
    }
  }

  lemma FirstLetter(input: string)
    requires Words(input, "") != []
    ensures Letters(input) != ""
  {
    hide Words, Joined;
    var words := Words(input, "");
    WordsHold(input, "");
    WordsAlnum(input, "");
    assert words[0] in words && words[0] != "" && IsAlnum(words[0][0]);
    assert words == [words[0]] + words[1..];
    JoinedFirst(words[0], words[1..]);
    assert Letters("") + Letters(input) == Letters(input);
  }

  /** The input read left to right: a letter or digit behind anything else opens a word, and is written
      as a capital unless it is the first of all; every other is written small. */
  function Scanned(s: string, opens: bool, first: bool): string {
    if s == "" then ""
    else if !IsAlnum(s[0]) then Scanned(s[1..], true, first)
    else [if opens && !first then Upper(Lower(s[0])) else Lower(s[0])] + Scanned(s[1..], false, false)
  }

  /** A word of which `current` is read. */
  function Begun(current: string, first: bool): string {
    if current == "" then ""
    else if first then LowerAll(current)
    else Capitals([current])
  }

  /** What the words come to, the first of them small if it is the first of all. */
  function Cased(words: seq<string>, first: bool): string {
    if words == [] then ""
    else if first then LowerAll(words[0]) + Capitals(words[1..])
    else Capitals(words)
  }

  lemma {:induction false} LowerConcat(a: string, b: string)
    ensures LowerAll(a + b) == LowerAll(a) + LowerAll(b)
  {
    if a == "" {
      assert a + b == b && LowerAll(a) + LowerAll(b) == LowerAll(b);
    } else {
      LowerConcat(a[1..], b);
      assert (a + b)[1..] == a[1..] + b && (a + b)[0] == a[0];
      Assoc([Lower(a[0])], LowerAll(a[1..]), LowerAll(b));
    }
  }

  lemma BegunMore(current: string, c: char, first: bool)
    ensures Begun(current + [c], first) ==
            Begun(current, first) + [if current == "" && !first then Upper(Lower(c)) else Lower(c)]
  {
    LowerConcat(current, [c]);
    assert LowerAll([c]) == [Lower(c)];
    assert forall w: string ::
        Capitals([w]) == if LowerAll(w) == "" then "" else [Upper(LowerAll(w)[0])] + LowerAll(w)[1..];
    if current != "" {
      assert LowerAll(current) != "";
      assert LowerAll(current + [c])[1..] == LowerAll(current)[1..] + [Lower(c)];
    }
  }

  lemma CasedFirst(word: string, rest: seq<string>, first: bool)
    requires word != ""
    ensures Cased([word] + rest, first) == Begun(word, first) + Cased(rest, false)
  {
    assert ([word] + rest)[1..] == rest && [word][1..] == [];
    assert Capitals([word]) + Capitals(rest) == Capitals([word] + rest);
  }

  lemma ScanFirst(s: string, opens: bool, first: bool)
    requires s != ""
    ensures Scanned(s, opens, first) ==
      if IsAlnum(s[0])
      then [if opens && !first then Upper(Lower(s[0])) else Lower(s[0])] + Scanned(s[1..], false, false)
      else Scanned(s[1..], true, first)
  {
  }

  /** Reading on, inside a word or between two. */
  lemma {:induction false} WordsScan(s: string, current: string, first: bool)
    ensures Cased(Words(s, current), first) ==
            Begun(current, first) + Scanned(s, current == "", first && current == "")
  {
    hide Scanned, Cased, Begun;
    NothingRead(first);
    if s == "" {
      if current != "" {
        CasedFirst(current, [], first);
        assert [current] + [] == [current];
      }
    } else if IsAlnum(s[0]) {
      WordsScan(s[1..], current + [s[0]], first);
      BegunMore(current, s[0], first);
      ScanFirst(s, current == "", first && current == "");
      Assoc(Begun(current, first), [if current == "" && !first then Upper(Lower(s[0])) else Lower(s[0])],
            Scanned(s[1..], false, false));
    } else {
      var on := first && current == "";
      WordsScan(s[1..], "", on);
      NothingRead(on);
      ScanFirst(s, current == "", on);
      assert "" + Scanned(s[1..], true, on) == Scanned(s[1..], true, on);
      assert [] + Words(s[1..], "") == Words(s[1..], "");
      if current != "" { CasedFirst(current, Words(s[1..], ""), first); }
    }
  }

  lemma NothingRead(first: bool)
    ensures Begun("", first) == "" && Cased([], first) == ""
    ensures Scanned("", true, first) == "" && Scanned("", false, false) == ""
    ensures Cased([], false) == ""
  {
  }

  /** Camel case, as read off the input. */
  lemma CamelScans(input: string)
    ensures CamelIdentifier(input) == if Letters(input) == "" then "product" else Scanned(input, true, true)
  {
    hide Letters, Scanned, Joined;
    var words := Words(input, "");
    WordsScan(input, "", true);
    WordsHold(input, "");
    LettersNone();
    assert "" + Letters(input) == Letters(input) && "" + Scanned(input, true, true) == Scanned(input, true, true);
    if words != [] { FirstLetter(input); }
  }

  // ---- values and calls ------------------------------------------------------------------------------------

  datatype Class = StackClass | ServiceClass | ComponentClass | DeploymentTargetClass | ExecutionSystemClass
                 | PipelineClass(pipeline: Kind) | InfraClass(infra: InfraKind)

  datatype Prop = PName | PService | PUrn | PRepo | PWaves | PBranch | PPath | PSourceKind | PAdoptTopologyUrn
                | PPublishesTo | PRepository | PMode | PTargets | PRequiresFanIn | PRollout

  /** `VNew(n)` is what the n-th call returned. Objects are their properties, in no order. */
  datatype Value =
    | VUndefined
    | VStr(s: string)
    | VBool(b: bool)
    | VJson(text: string)
    | VNew(call: nat)
    | VFromUrn(cls: Class, urn: string)
    | VList(items: seq<Value>)
    | VObject(props: map<Prop, Value>)

  datatype Call = New(cls: Class, args: seq<Value>) | PlaceAt(component: Value, target: Value) | Synth(stack: Value)

  // ---- the interpreter ---------------------------------------------------------------------------------------

  function Optional(p: Prop, v: Option<string>): map<Prop, Value> {
    if v.Some? then map[p := VStr(v.value)] else map[]
  }

  function OptionalFlag(p: Prop, v: Option<bool>): map<Prop, Value> {
    if v.Some? then map[p := VBool(v.value)] else map[]
  }

  function OptionalJson(p: Prop, v: Option<string>): map<Prop, Value> {
    if v.Some? then map[p := VJson(v.value)] else map[]
  }

  function TargetUrn(t: WaveTarget): string {
    match t
    case Named(name) => name
    case Ref(urn) => urn
  }

  function TargetValues(ts: seq<WaveTarget>): seq<Value> {
    if ts == [] then [] else [VStr(TargetUrn(ts[0]))] + TargetValues(ts[1..])
  }

  /** A wave as the pipelines read it: its targets by URN. */
  function WaveValue(w: WaveItem): Value {
    match w
    case Single(t) => VStr(TargetUrn(t))
    case Group(ts) => VList(TargetValues(ts))
    case Wave(name, mode, ts, fanIn, rollout) =>
      VObject(map[PTargets := VList(TargetValues(ts))]
              + Optional(PName, name) + Optional(PMode, mode)
              + OptionalFlag(PRequiresFanIn, fanIn) + OptionalJson(PRollout, rollout))
  }

  function WaveValues(ws: seq<WaveItem>): seq<Value> {
    if ws == [] then [] else [WaveValue(ws[0])] + WaveValues(ws[1..])
  }

  function PlacementClass(p: Placement): Class {
    if p.infraKind.Some? then InfraClass(p.infraKind.value) else DeploymentTargetClass
  }

  function PlacementRef(p: Placement): Value {
    VFromUrn(PlacementClass(p), p.targetUrn)
  }

  /** What stands for a missing repository: the placeholder text for the interpreter; `written` is for
      the generated program, whose placeholder constant is undefined. */
  function Repo(pl: Pipeline, componentName: string, written: bool): Value {
    if pl.source.Some? then VStr(pl.source.value.repo)
    else if written then VUndefined
    else VStr(PlaceholderRepo(componentName, pl.kind))
  }

  function SourceProps(s: Option<Source>): map<Prop, Value> {
    if s.None? then map[]
    else Optional(PBranch, s.value.branch) + Optional(PPath, s.value.path) + Optional(PSourceKind, s.value.kind)
  }

  predicate Publishes(pl: Pipeline) { IsBuildKind(pl.kind) && pl.publishesTo.Some? }

  function PublishProps(pl: Pipeline): map<Prop, Value> {
    if Publishes(pl)
    then map[PPublishesTo := VFromUrn(ExecutionSystemClass, pl.publishesTo.value.destinationUrn)]
         + Optional(PRepository, pl.publishesTo.value.repository)
    else map[]
  }

  function PipelineProps(pl: Pipeline, repo: Value): map<Prop, Value> {
    map[PRepo := repo] + map[PWaves := VList(WaveValues(pl.waves))] + SourceProps(pl.source)
    + Optional(PAdoptTopologyUrn, pl.topologyUrn) + PublishProps(pl)
  }

  function PipelineId(pl: Pipeline): string {
    if pl.id.Some? then pl.id.value else KindText(pl.kind)
  }

  function PlacementCalls(ps: seq<Placement>, n: nat): seq<Call> {
    if ps == [] then [] else [PlaceAt(VNew(n), PlacementRef(ps[0]))] + PlacementCalls(ps[1..], n)
  }

  function PipelineCall(pl: Pipeline, name: string, n: nat, written: bool): Call {
    New(PipelineClass(pl.kind), [VNew(n), VStr(PipelineId(pl)), VObject(PipelineProps(pl, Repo(pl, name, written)))])
  }

  function PipelineCalls(pls: seq<Pipeline>, name: string, n: nat, written: bool): seq<Call> {
    if pls == [] then [] else [PipelineCall(pls[0], name, n, written)] + PipelineCalls(pls[1..], name, n, written)
  }

  function ComponentCall(c: Component, service: Value): Call {
    New(ComponentClass, [VNew(0), VStr(c.constructId),
      VObject(map[PName := VStr(c.name), PService := service] + Optional(PUrn, c.urn))])
  }

  /** The component is the n-th call; placements come before pipelines. */
  function ComponentCalls(c: Component, service: Value, n: nat, written: bool): seq<Call> {
    [ComponentCall(c, service)] + PlacementCalls(c.placements, n) + PipelineCalls(c.pipelines, c.name, n, written)
  }

  function AllCalls(cs: seq<Component>, service: Value, n: nat, written: bool): seq<Call> {
    if cs == [] then []
    else
      var first := ComponentCalls(cs[0], service, n, written);
      first + AllCalls(cs[1..], service, n + |first|, written)
  }

  function FirstCalls(spec: Spec): seq<Call> {
    [New(StackClass, [VStr(spec.stackName)])]
    + if spec.serviceUrn.Some? then []
      else [New(ServiceClass, [VNew(0), VStr("service"), VObject(map[PName := VStr(spec.serviceName)])])]
  }

  function ServiceValue(spec: Spec): Value {
    if spec.serviceUrn.Some? then VFromUrn(ServiceClass, spec.serviceUrn.value) else VNew(1)
  }

  function Calls(spec: Spec, written: bool): seq<Call> {
    FirstCalls(spec) + AllCalls(spec.components, ServiceValue(spec), |FirstCalls(spec)|, written) + [Synth(VNew(0))]
  }

  function Missing(pls: seq<Pipeline>): nat {
    if pls == [] then 0 else (if pls[0].source.None? then 1 else 0) + Missing(pls[1..])
  }

  function AllMissing(cs: seq<Component>): nat {
    if cs == [] then 0 else Missing(cs[0].pipelines) + AllMissing(cs[1..])
  }

  method BuildPlacements(ps: seq<Placement>, n: nat) returns (calls: seq<Call>)
    ensures calls == PlacementCalls(ps, n)
  {
    calls := [];
    for i := 0 to |ps|
      invariant calls + PlacementCalls(ps[i..], n) == PlacementCalls(ps, n)
    {
      Assoc(calls, [PlaceAt(VNew(n), PlacementRef(ps[i]))], PlacementCalls(ps[i + 1..], n));
      calls := calls + [PlaceAt(VNew(n), PlacementRef(ps[i]))];
    }
    assert calls + [] == calls;
  }

  method BuildPipelines(pls: seq<Pipeline>, name: string, n: nat) returns (calls: seq<Call>, placeholders: nat)
    ensures calls == PipelineCalls(pls, name, n, false)
    ensures placeholders == Missing(pls)
  {
    calls, placeholders := [], 0;
    for i := 0 to |pls|
      invariant calls + PipelineCalls(pls[i..], name, n, false) == PipelineCalls(pls, name, n, false)
      invariant placeholders + Missing(pls[i..]) == Missing(pls)
    {
      if pls[i].source.None? {
        placeholders := placeholders + 1;
      }
      Assoc(calls, [PipelineCall(pls[i], name, n, false)], PipelineCalls(pls[i + 1..], name, n, false));
      calls := calls + [PipelineCall(pls[i], name, n, false)];
    }
    assert calls + [] == calls;
  }

  method BuildEstateManifest(spec: Spec) returns (calls: seq<Call>, placeholders: nat)
    ensures calls == Calls(spec, false)
    ensures placeholders == AllMissing(spec.components)
  {
    hide PlacementCalls, PipelineCalls, ComponentCall, FirstCalls, ServiceValue, Missing;
    calls := FirstCalls(spec);
    var service, cs := ServiceValue(spec), spec.components;
    placeholders := 0;
    ghost var all := calls + AllCalls(cs, service, |calls|, false);
    for i := 0 to |cs|
      invariant calls + AllCalls(cs[i..], service, |calls|, false) == all
      invariant placeholders + AllMissing(cs[i..]) == AllMissing(cs)
    {
      var n := |calls|;
      var placed := BuildPlacements(cs[i].placements, n);
      var piped, missing := BuildPipelines(cs[i].pipelines, cs[i].name, n);
      ghost var made := ComponentCalls(cs[i], service, n, false);
      assert cs[i..][1..] == cs[i + 1..];
      Assoc(calls, made, AllCalls(cs[i + 1..], service, n + |made|, false));
      calls := calls + ([ComponentCall(cs[i], service)] + placed + piped);
      placeholders := placeholders + missing;
    }
    assert calls + [] == calls;
    calls := calls + [Synth(VNew(0))];
  }
}
