/** The program the estate emitter writes (renderEstateProgram, packages/coordination-as-code/src/
    estate-program.ts), as statements and imports, and an evaluator for it: running the program makes
    the interpreter's calls. Text layout, comments and indentation are not part of it. */
module EstateProgram {
  import opened Wrappers
  import opened Estate

  // `TODO_MISSING_REPO_<k>` is Placeholder(k).
  datatype Name = Text(s: string) | Placeholder(k: nat)

  const STACK := Text("stack")
  const SERVICE := Text("service")
  const MANIFEST := Text("manifest")

  datatype Expr =
    | Undefined
    | Lit(s: string)
    | Flag(b: bool)
    | Json(text: string)
    | Var(x: Name)
    | FromUrn(cls: Class, urn: string)
    | List(items: seq<Expr>)
    | Object(fields: seq<Field>)
  datatype Field = Field(prop: Prop, value: Expr)

  datatype Rhs = Pure(e: Expr) | Construct(cls: Class, args: seq<Expr>) | SynthOf(x: Name)

  datatype Stmt = Declare(x: Name, rhs: Rhs) | Do(rhs: Rhs) | Place(x: Name, target: Expr)

  datatype Program = Program(imports: set<Class>, stmts: seq<Stmt>)

  // ---- running a program ---------------------------------------------------------------------------------

  type Env = map<Name, Value>

  function Eval(e: Expr, env: Env, imports: set<Class>): Option<Value> {
    match e
    case Undefined => Some(VUndefined)
    case Lit(s) => Some(VStr(s))
    case Flag(b) => Some(VBool(b))
    case Json(text) => Some(VJson(text))
    case Var(x) => if x in env then Some(env[x]) else None
    case FromUrn(cls, urn) => if cls in imports then Some(VFromUrn(cls, urn)) else None
    case List(items) =>
      (match EvalList(items, env, imports)
       case None => None
       case Some(vs) => Some(VList(vs)))
    case Object(fields) =>
      (match EvalFields(fields, env, imports)
       case None => None
       case Some(m) => Some(VObject(m)))
  }

  function EvalList(es: seq<Expr>, env: Env, imports: set<Class>): Option<seq<Value>> {
    if es == [] then Some([])
    else
      match (Eval(es[0], env, imports), EvalList(es[1..], env, imports))
      case (Some(v), Some(vs)) => Some([v] + vs)
      case _ => None
  }

  function EvalField(f: Field, env: Env, imports: set<Class>): Option<Value> {
    Eval(f.value, env, imports)
  }

  /** A later field of the same name wins. */
  function EvalFields(fs: seq<Field>, env: Env, imports: set<Class>): Option<map<Prop, Value>> {
    if fs == [] then Some(map[])
    else
      match (EvalField(fs[0], env, imports), EvalFields(fs[1..], env, imports))
      case (Some(v), Some(m)) => Some(map[fs[0].prop := v] + m)
      case _ => None
  }

  datatype State = State(env: Env, calls: seq<Call>)

  /** The value of a right-hand side and the calls made so far. */
  function EvalRhs(rhs: Rhs, st: State, imports: set<Class>): Option<(Value, seq<Call>)> {
    match rhs
    case Pure(e) =>
      (match Eval(e, st.env, imports)
       case None => None
       case Some(v) => Some((v, st.calls)))
    case Construct(cls, args) =>
      if cls !in imports then None
      else
        (match EvalList(args, st.env, imports)
         case None => None
         case Some(vs) => Some((VNew(|st.calls|), st.calls + [New(cls, vs)])))
    case SynthOf(x) =>
      if x !in st.env then None else Some((VNew(|st.calls|), st.calls + [Synth(st.env[x])]))
  }

  /** None is a program that does not run: a name declared twice or that the language does not take
      (`legal`), or one used but not declared or not imported. */
  function Run(s: Stmt, st: State, imports: set<Class>, legal: string -> bool): Option<State> {
    match s
    case Declare(x, rhs) =>
      if x in st.env || (x.Text? && !legal(x.s)) then None
      else
        (match EvalRhs(rhs, st, imports)
         case None => None
         case Some((v, calls)) => Some(State(st.env[x := v], calls)))
    case Do(rhs) =>
      (match EvalRhs(rhs, st, imports)
       case None => None
       case Some((_, calls)) => Some(st.(calls := calls)))
    case Place(x, target) =>
      if x !in st.env then None
      else
        (match Eval(target, st.env, imports)
         case None => None
         case Some(v) => Some(st.(calls := st.calls + [PlaceAt(st.env[x], v)])))
  }

  function RunAll(ss: seq<Stmt>, st: State, imports: set<Class>, legal: string -> bool): Option<State> {
    if ss == [] then Some(st)
    else
      match Run(ss[0], st, imports, legal)
      case None => None
      case Some(next) => RunAll(ss[1..], next, imports, legal)
  }

  lemma {:induction false} RunConcat(a: seq<Stmt>, b: seq<Stmt>, st: State, imports: set<Class>, legal: string -> bool)
    ensures RunAll(a + b, st, imports, legal) ==
            match RunAll(a, st, imports, legal)
            case None => None
            case Some(mid) => RunAll(b, mid, imports, legal)
  {
    if a == [] {
      assert a + b == b;
    } else {
      assert (a + b)[1..] == a[1..] + b;
      match Run(a[0], st, imports, legal)
      case None =>
      case Some(next) => RunConcat(a[1..], b, next, imports, legal);
    }
  }

  // ---- the generator -------------------------------------------------------------------------------------

  function OptField(p: Prop, v: Option<string>): seq<Field> {
    if v.Some? then [Field(p, Lit(v.value))] else []
  }

  function OptFlag(p: Prop, v: Option<bool>): seq<Field> {
    if v.Some? then [Field(p, Flag(v.value))] else []
  }

  function OptJson(p: Prop, v: Option<string>): seq<Field> {
    if v.Some? then [Field(p, Json(v.value))] else []
  }

  function RenderTargets(ts: seq<WaveTarget>): seq<Expr> {
    if ts == [] then [] else [Lit(TargetUrn(ts[0]))] + RenderTargets(ts[1..])
  }

  function RenderWave(w: WaveItem): Expr {
    match w
    case Single(t) => Lit(TargetUrn(t))
    case Group(ts) => List(RenderTargets(ts))
    case Wave(name, mode, ts, fanIn, rollout) =>
      Object(OptField(PName, name) + OptField(PMode, mode) + [Field(PTargets, List(RenderTargets(ts)))]
             + OptFlag(PRequiresFanIn, fanIn) + OptJson(PRollout, rollout))
  }

  function RenderWaves(ws: seq<WaveItem>): seq<Expr> {
    if ws == [] then [] else [RenderWave(ws[0])] + RenderWaves(ws[1..])
  }

  function SourceFields(s: Option<Source>): seq<Field> {
    if s.None? then []
    else OptField(PBranch, s.value.branch) + OptField(PPath, s.value.path) + OptField(PSourceKind, s.value.kind)
  }

  function PublishFields(pl: Pipeline): seq<Field> {
    if Publishes(pl)
    then [Field(PPublishesTo, FromUrn(ExecutionSystemClass, pl.publishesTo.value.destinationUrn))] +
      OptField(PRepository, pl.publishesTo.value.repository)
    else []
  }

  function PipelineFields(pl: Pipeline, repo: Expr): seq<Field> {
    [Field(PRepo, repo)] + SourceFields(pl.source) + [Field(PWaves, List(RenderWaves(pl.waves)))]
    + OptField(PAdoptTopologyUrn, pl.topologyUrn) + PublishFields(pl)
  }

  /** `k` placeholders were written before this pipeline. */
  function RepoExpr(pl: Pipeline, k: nat): Expr {
    if pl.source.Some? then Lit(pl.source.value.repo) else Var(Placeholder(k + 1))
  }

  function PipelineStmt(pl: Pipeline, x: Name, k: nat): Stmt {
    Do(Construct(PipelineClass(pl.kind), [Var(x), Lit(PipelineId(pl)), Object(PipelineFields(pl, RepoExpr(pl, k)))]))
  }

  function PipelineStmts(pls: seq<Pipeline>, x: Name, k: nat): seq<Stmt> {
    if pls == [] then []
    else [PipelineStmt(pls[0], x, k)] + PipelineStmts(pls[1..], x, if pls[0].source.None? then k + 1 else k)
  }

  function PlacementStmts(ps: seq<Placement>, x: Name): seq<Stmt> {
    if ps == [] then [] else [Place(x, FromUrn(PlacementClass(ps[0]), ps[0].targetUrn))] + PlacementStmts(ps[1..], x)
  }

  function VarName(c: Component): Name { Text(CamelIdentifier(c.constructId)) }

  function ComponentStmt(c: Component): Stmt {
    Declare(VarName(c), Construct(ComponentClass,
      [Var(STACK), Lit(c.constructId),
        Object([Field(PName, Lit(c.name)), Field(PService, Var(SERVICE))] + OptField(PUrn, c.urn))]))
  }

  function ComponentStmts(c: Component, k: nat): seq<Stmt> {
    [ComponentStmt(c)] + PlacementStmts(c.placements, VarName(c)) + PipelineStmts(c.pipelines, VarName(c), k)
  }

  function AllStmts(cs: seq<Component>, k: nat): seq<Stmt> {
    if cs == [] then [] else ComponentStmts(cs[0], k) + AllStmts(cs[1..], k + Missing(cs[0].pipelines))
  }

  function ServiceRhs(spec: Spec): Rhs {
    if spec.serviceUrn.Some? then Pure(FromUrn(ServiceClass, spec.serviceUrn.value))
    else Construct(ServiceClass, [Var(STACK), Lit("service"), Object([Field(PName, Lit(spec.serviceName))])])
  }

  function FirstStmts(spec: Spec): seq<Stmt> {
    [Declare(STACK, Construct(StackClass, [Lit(spec.stackName)])),
     Declare(SERVICE, ServiceRhs(spec))]
  }

  /** Placeholders `k + 1` to `n`. */
  function PlaceholderStmts(k: nat, n: nat): seq<Stmt>
    decreases n - k
  {
    if k >= n then [] else [Declare(Placeholder(k + 1), Pure(Undefined))] + PlaceholderStmts(k + 1, n)
  }

  function PlacementClasses(ps: seq<Placement>): set<Class> {
    set p | p in ps :: PlacementClass(p)
  }

  function PipelineClasses(pls: seq<Pipeline>): set<Class> {
    (set pl | pl in pls :: PipelineClass(pl.kind)) +
      (if exists pl :: pl in pls && Publishes(pl) then {ExecutionSystemClass} else {})
  }

  function AllClasses(cs: seq<Component>): set<Class> {
    if cs == [] then {} else PlacementClasses(cs[0].placements) + PipelineClasses(cs[0].pipelines) + AllClasses(cs[1..])
  }

  const ALWAYS_IMPORTED: set<Class> := {StackClass, ServiceClass, ComponentClass}

  function Rendered(spec: Spec): Program {
    Program(
      ALWAYS_IMPORTED + AllClasses(spec.components),
      PlaceholderStmts(0, AllMissing(spec.components)) + FirstStmts(spec) + AllStmts(spec.components, 0)
      + [Declare(MANIFEST, SynthOf(STACK))])
  }

  function Execute(p: Program, legal: string -> bool): Option<seq<Call>> {
    match RunAll(p.stmts, State(map[], []), p.imports, legal)
    case None => None
    case Some(st) => Some(st.calls)
  }

  // ---- the generator's loops -------------------------------------------------------------------------------

  method RenderPlacements(ps: seq<Placement>, x: Name) returns (lines: seq<Stmt>, used: set<Class>)
    ensures lines == PlacementStmts(ps, x) && used == PlacementClasses(ps)
  {
    lines, used := [], {};
    for i := 0 to |ps|
      invariant lines + PlacementStmts(ps[i..], x) == PlacementStmts(ps, x)
      invariant used == PlacementClasses(ps[..i])
    {
      var line := Place(x, FromUrn(PlacementClass(ps[i]), ps[i].targetUrn));
      assert ps[..i + 1] == ps[..i] + [ps[i]];
      Assoc(lines, [line], PlacementStmts(ps[i + 1..], x));
      lines := lines + [line];
      used := used + {PlacementClass(ps[i])};
    }
    assert ps[..|ps|] == ps && lines + [] == lines;
  }

  method RenderPipelines(pls: seq<Pipeline>, x: Name, k: nat)
    returns (lines: seq<Stmt>, used: set<Class>, placeholders: nat)
    ensures lines == PipelineStmts(pls, x, k) && used == PipelineClasses(pls) && placeholders == k + Missing(pls)
  {
    lines, used, placeholders := [], {}, k;
    for i := 0 to |pls|
      invariant lines + PipelineStmts(pls[i..], x, placeholders) == PipelineStmts(pls, x, k)
      invariant used == PipelineClasses(pls[..i])
      invariant placeholders + Missing(pls[i..]) == k + Missing(pls)
    {
      var pl, line := pls[i], PipelineStmt(pls[i], x, placeholders);
      ghost var next := if pl.source.None? then placeholders + 1 else placeholders;
      assert pls[i..][1..] == pls[i + 1..];
      Assoc(lines, [line], PipelineStmts(pls[i + 1..], x, next));
      MoreClasses(pls, i);
      lines := lines + [line];
      used := used + {PipelineClass(pl.kind)} + (if Publishes(pl) then {ExecutionSystemClass} else {});
      if pl.source.None? {
        placeholders := placeholders + 1;
      }
    }
    assert pls[..|pls|] == pls && lines + [] == lines;
  }

  lemma MoreClasses(pls: seq<Pipeline>, i: nat)
    requires i < |pls|
    ensures PipelineClasses(pls[..i + 1]) ==
            PipelineClasses(pls[..i]) + {PipelineClass(pls[i].kind)} +
              (if Publishes(pls[i]) then {ExecutionSystemClass} else {})
  {
    assert pls[..i + 1] == pls[..i] + [pls[i]];
    assert pls[i] in pls[..i + 1];
    assert forall pl :: pl in pls[..i + 1] <==> pl in pls[..i] || pl == pls[i];
  }

  /** Statements are pushed component by component; the imports are what was used on the way, the
      placeholder constants as many as were counted. */
  method RenderEstateProgram(spec: Spec) returns (p: Program, placeholders: nat)
    ensures p == Rendered(spec) && placeholders == AllMissing(spec.components)
  {
    var body, used;
    body, used, placeholders := RenderComponents(spec.components);
    p := Program(ALWAYS_IMPORTED + used,
      PlaceholderStmts(0, placeholders) + FirstStmts(spec) + body + [Declare(MANIFEST, SynthOf(STACK))]);
  }

  method RenderComponent(c: Component, k: nat) returns (lines: seq<Stmt>, used: set<Class>, placeholders: nat)
    ensures lines == ComponentStmts(c, k) && used == PlacementClasses(c.placements) + PipelineClasses(c.pipelines)
    ensures placeholders == k + Missing(c.pipelines)
  {
    var places, targets := RenderPlacements(c.placements, VarName(c));
    var pipes, kinds, count := RenderPipelines(c.pipelines, VarName(c), k);
    lines, used, placeholders := [ComponentStmt(c)] + places + pipes, targets + kinds, count;
  }

  /** What is left to render after the first components: the loop's invariant. */
  ghost predicate Pushed(cs: seq<Component>, i: nat, body: seq<Stmt>, used: set<Class>, placeholders: nat) {
    && i <= |cs|
    && body + AllStmts(cs[i..], placeholders) == AllStmts(cs, 0)
    && used + AllClasses(cs[i..]) == AllClasses(cs)
    && placeholders + AllMissing(cs[i..]) == AllMissing(cs)
  }

  lemma PushedOneMore(cs: seq<Component>, i: nat, body: seq<Stmt>, used: set<Class>, k: nat, lines: seq<Stmt>,
    classes: set<Class>,
      count: nat)
    requires Pushed(cs, i, body, used, k) && i < |cs|
    requires lines == ComponentStmts(cs[i], k)
    requires classes == PlacementClasses(cs[i].placements) + PipelineClasses(cs[i].pipelines)
    requires count == k + Missing(cs[i].pipelines)
    ensures Pushed(cs, i + 1, body + lines, used + classes, count)
  {
    hide ComponentStmts, PlacementClasses, PipelineClasses, Missing;
    assert cs[i..][1..] == cs[i + 1..];
    Assoc(body, lines, AllStmts(cs[i + 1..], count));
  }

  method RenderComponents(cs: seq<Component>) returns (body: seq<Stmt>, used: set<Class>, placeholders: nat)
    ensures body == AllStmts(cs, 0) && used == AllClasses(cs) && placeholders == AllMissing(cs)
  {
    body, used, placeholders := [], {}, 0;
    var i := 0;
    assert cs[0..] == cs;
    while i < |cs|
      invariant Pushed(cs, i, body, used, placeholders)
    {
      var lines, classes, count := RenderComponent(cs[i], placeholders);
      PushedOneMore(cs, i, body, used, placeholders, lines, classes, count);
      body, used, placeholders := body + lines, used + classes, count;
      i := i + 1;
    }
    assert cs[i..] == [] && body + [] == body;
  }

  // ---- running what was generated ------------------------------------------------------------------------

  lemma {:induction false} FieldsConcat(a: seq<Field>, b: seq<Field>, env: Env, imports: set<Class>)
    requires EvalFields(a, env, imports).Some? && EvalFields(b, env, imports).Some?
    ensures EvalFields(a + b, env, imports) ==
      Some(EvalFields(a, env, imports).value + EvalFields(b, env, imports).value)
  {
    if a == [] {
      assert a + b == b;
      assert map[] + EvalFields(b, env, imports).value == EvalFields(b, env, imports).value;
    } else {
      assert (a + b)[1..] == a[1..] + b;
      FieldsConcat(a[1..], b, env, imports);
      MapAssoc(map[a[0].prop := EvalField(a[0], env, imports).value], EvalFields(a[1..], env, imports).value,
        EvalFields(b, env, imports).value);
    }
  }

  lemma MapAssoc(a: map<Prop, Value>, b: map<Prop, Value>, c: map<Prop, Value>)
    ensures (a + b) + c == a + (b + c)
  {
  }

  lemma FiveConcat(a: seq<Field>, b: seq<Field>, c: seq<Field>, d: seq<Field>, e: seq<Field>, env: Env,
    imports: set<Class>)
    requires EvalFields(a, env, imports).Some? && EvalFields(b, env, imports).Some? && EvalFields(c, env, imports).Some?
    requires EvalFields(d, env, imports).Some? && EvalFields(e, env, imports).Some?
    ensures EvalFields(a + b + c + d + e, env, imports) ==
            Some(EvalFields(a, env, imports).value + EvalFields(b, env, imports).value +
              EvalFields(c, env, imports).value
                 + EvalFields(d, env, imports).value + EvalFields(e, env, imports).value)
  {
    FieldsConcat(a, b, env, imports);
    FieldsConcat(a + b, c, env, imports);
    FieldsConcat(a + b + c, d, env, imports);
    FieldsConcat(a + b + c + d, e, env, imports);
  }

  lemma OneField(p: Prop, e: Expr, env: Env, imports: set<Class>)
    requires Eval(e, env, imports).Some?
    ensures EvalFields([Field(p, e)], env, imports) == Some(map[p := Eval(e, env, imports).value])
  {
    assert EvalFields([Field(p, e)][1..], env, imports) == Some(map[]);
    assert map[p := Eval(e, env, imports).value] + map[] == map[p := Eval(e, env, imports).value];
  }

  lemma OptFieldEval(p: Prop, v: Option<string>, env: Env, imports: set<Class>)
    ensures EvalFields(OptField(p, v), env, imports) == Some(Optional(p, v))
  {
    if v.Some? {
      OneField(p, Lit(v.value), env, imports);
    }
  }

  lemma {:induction false} TargetsEval(ts: seq<WaveTarget>, env: Env, imports: set<Class>)
    ensures EvalList(RenderTargets(ts), env, imports) == Some(TargetValues(ts))
  {
    if ts != [] {
      TargetsEval(ts[1..], env, imports);
    }
  }

  lemma FlagEval(p: Prop, v: Option<bool>, env: Env, imports: set<Class>)
    ensures EvalFields(OptFlag(p, v), env, imports) == Some(OptionalFlag(p, v))
  {
    if v.Some? {
      OneField(p, Flag(v.value), env, imports);
    }
  }

  lemma JsonEval(p: Prop, v: Option<string>, env: Env, imports: set<Class>)
    ensures EvalFields(OptJson(p, v), env, imports) == Some(OptionalJson(p, v))
  {
    if v.Some? {
      OneField(p, Json(v.value), env, imports);
    }
  }

  lemma WaveEval(w: WaveItem, env: Env, imports: set<Class>)
    ensures Eval(RenderWave(w), env, imports) == Some(WaveValue(w))
  {
    match w
    case Single(_) =>
    case Group(ts) => TargetsEval(ts, env, imports);
    case Wave(name, mode, ts, fanIn, rollout) =>
      TargetsEval(ts, env, imports);
      OptFieldEval(PName, name, env, imports);
      OptFieldEval(PMode, mode, env, imports);
      OneField(PTargets, List(RenderTargets(ts)), env, imports);
      FlagEval(PRequiresFanIn, fanIn, env, imports);
      JsonEval(PRollout, rollout, env, imports);
      FiveConcat(OptField(PName, name), OptField(PMode, mode), [Field(PTargets, List(RenderTargets(ts)))],
                 OptFlag(PRequiresFanIn, fanIn), OptJson(PRollout, rollout), env, imports);
      ToFront(Optional(PName, name), Optional(PMode, mode), map[PTargets := VList(TargetValues(ts))]);
  }

  lemma ToFront(a: map<Prop, Value>, b: map<Prop, Value>, c: map<Prop, Value>)
    requires a.Keys !! c.Keys && b.Keys !! c.Keys
    ensures a + b + c == c + a + b
  {
  }

  lemma {:induction false} WavesEval(ws: seq<WaveItem>, env: Env, imports: set<Class>)
    ensures EvalList(RenderWaves(ws), env, imports) == Some(WaveValues(ws))
  {
    if ws != [] {
      WaveEval(ws[0], env, imports);
      WavesEval(ws[1..], env, imports);
    }
  }

  lemma SourceEval(s: Option<Source>, env: Env, imports: set<Class>)
    ensures EvalFields(SourceFields(s), env, imports) == Some(SourceProps(s))
  {
    if s.Some? {
      OptFieldEval(PBranch, s.value.branch, env, imports);
      OptFieldEval(PPath, s.value.path, env, imports);
      OptFieldEval(PSourceKind, s.value.kind, env, imports);
      FieldsConcat(OptField(PBranch, s.value.branch), OptField(PPath, s.value.path), env, imports);
      FieldsConcat(OptField(PBranch, s.value.branch) + OptField(PPath, s.value.path),
        OptField(PSourceKind, s.value.kind), env, imports);
    }
  }

  lemma PublishEval(pl: Pipeline, env: Env, imports: set<Class>)
    requires Publishes(pl) ==> ExecutionSystemClass in imports
    ensures EvalFields(PublishFields(pl), env, imports) == Some(PublishProps(pl))
  {
    if Publishes(pl) {
      var e := FromUrn(ExecutionSystemClass, pl.publishesTo.value.destinationUrn);
      OneField(PPublishesTo, e, env, imports);
      OptFieldEval(PRepository, pl.publishesTo.value.repository, env, imports);
      FieldsConcat([Field(PPublishesTo, e)], OptField(PRepository, pl.publishesTo.value.repository), env, imports);
    }
  }

  /** The program writes the properties in another order than the interpreter sets them. */
  lemma PipelineEval(pl: Pipeline, repo: Expr, env: Env, imports: set<Class>)
    requires Publishes(pl) ==> ExecutionSystemClass in imports
    requires Eval(repo, env, imports).Some?
    ensures EvalFields(PipelineFields(pl, repo), env, imports) ==
      Some(PipelineProps(pl, Eval(repo, env, imports).value))
  {
    var a, b := [Field(PRepo, repo)], SourceFields(pl.source);
    var c, d, e := [Field(PWaves, List(RenderWaves(pl.waves)))], OptField(PAdoptTopologyUrn, pl.topologyUrn),
      PublishFields(pl);
    OneField(PRepo, repo, env, imports);
    SourceEval(pl.source, env, imports);
    WavesEval(pl.waves, env, imports);
    OneField(PWaves, List(RenderWaves(pl.waves)), env, imports);
    OptFieldEval(PAdoptTopologyUrn, pl.topologyUrn, env, imports);
    PublishEval(pl, env, imports);
    FiveConcat(a, b, c, d, e, env, imports);
    Reorder(map[PRepo := Eval(repo, env, imports).value], SourceProps(pl.source),
      map[PWaves := VList(WaveValues(pl.waves))]);
  }

  lemma Reorder(a: map<Prop, Value>, b: map<Prop, Value>, c: map<Prop, Value>)
    requires b.Keys !! c.Keys
    ensures (a + b) + c == (a + c) + b
  {
  }

  /** What the statements after the first ones find: the stack, the service and the placeholders. */
  ghost predicate Ready(env: Env, service: Value, placeholders: nat) {
    && STACK in env && env[STACK] == VNew(0)
    && SERVICE in env && env[SERVICE] == service
    && (forall k :: 1 <= k <= placeholders ==> Placeholder(k) in env && env[Placeholder(k)] == VUndefined)
  }

  lemma {:induction false} PlacementsRun(ps: seq<Placement>, x: Name, n: nat, st: State, imports: set<Class>,
    legal: string -> bool)
    requires PlacementClasses(ps) <= imports && x in st.env && st.env[x] == VNew(n)
    ensures RunAll(PlacementStmts(ps, x), st, imports, legal) == Some(st.(calls := st.calls + PlacementCalls(ps, n)))
  {
    if ps == [] {
      assert st.calls + [] == st.calls;
    } else {
      var call := PlaceAt(VNew(n), PlacementRef(ps[0]));
      var next := st.(calls := st.calls + [call]);
      assert PlacementClass(ps[0]) in PlacementClasses(ps);
      assert Run(PlacementStmts(ps, x)[0], st, imports, legal) == Some(next);
      PlacementsRun(ps[1..], x, n, next, imports, legal);
      Assoc(st.calls, [call], PlacementCalls(ps[1..], n));
    }
  }

  lemma PipelineRuns(pl: Pipeline, name: string, x: Name, n: nat, k: nat, st: State, imports: set<Class>,
    legal: string -> bool)
    requires PipelineClass(pl.kind) in imports && (Publishes(pl) ==> ExecutionSystemClass in imports)
    requires x in st.env && st.env[x] == VNew(n)
    requires pl.source.None? ==> Placeholder(k + 1) in st.env && st.env[Placeholder(k + 1)] == VUndefined
    ensures Run(PipelineStmt(pl, x, k), st, imports, legal) ==
      Some(st.(calls := st.calls + [PipelineCall(pl, name, n, true)]))
  {
    var repo := RepoExpr(pl, k);
    assert Eval(repo, st.env, imports) == Some(Repo(pl, name, true));
    PipelineEval(pl, repo, st.env, imports);
    var props := Object(PipelineFields(pl, repo));
    ThreeEval(Var(x), Lit(PipelineId(pl)), props, st.env, imports);
  }

  lemma ConsEval(e: Expr, es: seq<Expr>, env: Env, imports: set<Class>)
    requires Eval(e, env, imports).Some? && EvalList(es, env, imports).Some?
    ensures EvalList([e] + es, env, imports) == Some([Eval(e, env, imports).value] + EvalList(es, env, imports).value)
  {
    assert ([e] + es)[1..] == es;
  }

  lemma ThreeEval(a: Expr, b: Expr, c: Expr, env: Env, imports: set<Class>)
    requires Eval(a, env, imports).Some? && Eval(b, env, imports).Some? && Eval(c, env, imports).Some?
    ensures EvalList([a, b, c], env, imports) ==
      Some([Eval(a, env, imports).value, Eval(b, env, imports).value, Eval(c, env, imports).value])
  {
    assert [c] + [] == [c] && [b] + [c] == [b, c] && [a] + [b, c] == [a, b, c];
    ConsEval(c, [], env, imports);
    ConsEval(b, [c], env, imports);
    ConsEval(a, [b, c], env, imports);
    var u, v, w := Eval(a, env, imports).value, Eval(b, env, imports).value, Eval(c, env, imports).value;
    assert [w] + [] == [w] && [v] + [w] == [v, w] && [u] + [v, w] == [u, v, w];
  }

  lemma {:induction false} PipelinesRun(pls: seq<Pipeline>, name: string, x: Name, n: nat, k: nat, st: State,
    service: Value,
      imports: set<Class>, legal: string -> bool)
    requires PipelineClasses(pls) <= imports && x in st.env && st.env[x] == VNew(n)
    requires Ready(st.env, service, k + Missing(pls))
    ensures RunAll(PipelineStmts(pls, x, k), st, imports, legal) ==
      Some(st.(calls := st.calls + PipelineCalls(pls, name, n, true)))
  {
    if pls == [] {
      assert st.calls + [] == st.calls;
    } else {
      var call := PipelineCall(pls[0], name, n, true);
      var next := st.(calls := st.calls + [call]);
      RestImported(pls);
      PipelineRuns(pls[0], name, x, n, k, st, imports, legal);
      PipelinesRun(pls[1..], name, x, n, if pls[0].source.None? then k + 1 else k, next, service, imports, legal);
      Assoc(st.calls, [call], PipelineCalls(pls[1..], name, n, true));
    }
  }

  lemma RestImported(pls: seq<Pipeline>)
    requires pls != []
    ensures PipelineClass(pls[0].kind) in PipelineClasses(pls) && PipelineClasses(pls[1..]) <= PipelineClasses(pls)
    ensures Publishes(pls[0]) ==> ExecutionSystemClass in PipelineClasses(pls)
  {
    assert pls[0] in pls;
    assert forall pl :: pl in pls[1..] ==> pl in pls;
  }

  lemma ComponentEval(c: Component, env: Env, service: Value, imports: set<Class>)
    requires Ready(env, service, 0)
    ensures EvalList([Var(STACK), Lit(c.constructId),
      Object([Field(PName, Lit(c.name)), Field(PService, Var(SERVICE))] + OptField(PUrn, c.urn))], env, imports)
            == Some(ComponentCall(c, service).args)
  {
    var a, b, d := [Field(PName, Lit(c.name))], [Field(PService, Var(SERVICE))], OptField(PUrn, c.urn);
    OneField(PName, Lit(c.name), env, imports);
    OneField(PService, Var(SERVICE), env, imports);
    OptFieldEval(PUrn, c.urn, env, imports);
    FieldsConcat(a, b, env, imports);
    FieldsConcat(a + b, d, env, imports);
    assert a + b == [Field(PName, Lit(c.name)), Field(PService, Var(SERVICE))];
    assert map[PName := VStr(c.name)] + map[PService := service] == map[PName := VStr(c.name), PService := service];
    ThreeEval(Var(STACK), Lit(c.constructId), Object([Field(PName, Lit(c.name)), Field(PService, Var(SERVICE))] + d),
      env, imports);
  }

  /** A component fails through its name or not at all. */
  lemma ComponentRuns(c: Component, k: nat, st: State, service: Value, imports: set<Class>, legal: string -> bool)
    requires ALWAYS_IMPORTED <= imports && PlacementClasses(c.placements) <= imports
      && PipelineClasses(c.pipelines) <= imports
    requires Ready(st.env, service, k + Missing(c.pipelines))
    ensures RunAll(ComponentStmts(c, k), st, imports, legal) ==
            if VarName(c) in st.env || !legal(CamelIdentifier(c.constructId)) then None
            else Some(State(st.env[VarName(c) := VNew(|st.calls|)],
              st.calls + ComponentCalls(c, service, |st.calls|, true)))
  {
    var x, n := VarName(c), |st.calls|;
    var places, pipes := PlacementStmts(c.placements, x), PipelineStmts(c.pipelines, x, k);
    ComponentEval(c, st.env, service, imports);
    RunConcat([ComponentStmt(c)] + places, pipes, st, imports, legal);
    RunConcat([ComponentStmt(c)], places, st, imports, legal);
    RunOne(ComponentStmt(c), st, imports, legal);
    if x !in st.env && legal(CamelIdentifier(c.constructId)) {
      var made := State(st.env[x := VNew(n)], st.calls + [ComponentCall(c, service)]);
      assert Run(ComponentStmt(c), st, imports, legal) == Some(made);
      PlacementsRun(c.placements, x, n, made, imports, legal);
      var placed := made.(calls := made.calls + PlacementCalls(c.placements, n));
      PipelinesRun(c.pipelines, c.name, x, n, k, placed, service, imports, legal);
      Assoc(st.calls, [ComponentCall(c, service)], PlacementCalls(c.placements, n));
      Assoc(st.calls, [ComponentCall(c, service)] + PlacementCalls(c.placements, n),
        PipelineCalls(c.pipelines, c.name, n, true));
    }
  }

  lemma RunOne(s: Stmt, st: State, imports: set<Class>, legal: string -> bool)
    ensures RunAll([s], st, imports, legal) == Run(s, st, imports, legal)
  {
    match Run(s, st, imports, legal)
    case None =>
    case Some(next) => assert RunAll([s][1..], next, imports, legal) == Some(next);
  }

  function Names(cs: seq<Component>): set<Name> {
    if cs == [] then {} else {VarName(cs[0])} + Names(cs[1..])
  }

  predicate NamesFree(cs: seq<Component>, taken: set<Name>, legal: string -> bool) {
    cs == []
    || (VarName(cs[0]) !in taken && legal(CamelIdentifier(cs[0].constructId))
      && NamesFree(cs[1..], taken + {VarName(cs[0])}, legal))
  }

  /** What running the components' statements comes to. */
  ghost predicate RunsAs(cs: seq<Component>, st: State, service: Value, legal: string -> bool, r: Option<State>) {
    && (r.Some? <==> NamesFree(cs, st.env.Keys, legal))
    && (r.Some? ==>
          && r.value.calls == st.calls + AllCalls(cs, service, |st.calls|, true)
          && r.value.env.Keys == st.env.Keys + Names(cs) && Ready(r.value.env, service, 0))
  }

  lemma RunsAsFirst(cs: seq<Component>, st: State, next: State, service: Value, legal: string -> bool, r: Option<State>)
    requires cs != [] && VarName(cs[0]) !in st.env && legal(CamelIdentifier(cs[0].constructId))
    requires next.env.Keys == st.env.Keys + {VarName(cs[0])}
    requires next.calls == st.calls + ComponentCalls(cs[0], service, |st.calls|, true)
    requires RunsAs(cs[1..], next, service, legal, r)
    ensures RunsAs(cs, st, service, legal, r)
  {
    var first := ComponentCalls(cs[0], service, |st.calls|, true);
    var more := AllCalls(cs[1..], service, |st.calls| + |first|, true);
    assert |next.calls| == |st.calls| + |first|;
    assert AllCalls(cs, service, |st.calls|, true) == first + more;
    Assoc(st.calls, first, more);
  }

  lemma ReadyKept(env: Env, x: Name, v: Value, service: Value, m: nat)
    requires Ready(env, service, m) && x !in env
    ensures Ready(env[x := v], service, m) && env[x := v].Keys == env.Keys + {x}
  {
  }

  lemma {:induction false} AllRun(cs: seq<Component>, k: nat, st: State, service: Value, imports: set<Class>,
    legal: string -> bool)
    requires ALWAYS_IMPORTED + AllClasses(cs) <= imports && Ready(st.env, service, k + AllMissing(cs))
    ensures RunsAs(cs, st, service, legal, RunAll(AllStmts(cs, k), st, imports, legal))
  {
    if cs == [] {
      assert st.calls + [] == st.calls;
    } else {
      var c, rest := cs[0], AllStmts(cs[1..], k + Missing(cs[0].pipelines));
      ComponentRuns(c, k, st, service, imports, legal);
      RunConcat(ComponentStmts(c, k), rest, st, imports, legal);
      if VarName(c) !in st.env && legal(CamelIdentifier(c.constructId)) {
        var next := State(st.env[VarName(c) := VNew(|st.calls|)],
          st.calls + ComponentCalls(c, service, |st.calls|, true));
        ReadyKept(st.env, VarName(c), VNew(|st.calls|), service, k + AllMissing(cs));
        AllRun(cs[1..], k + Missing(c.pipelines), next, service, imports, legal);
        RunsAsFirst(cs, st, next, service, legal, RunAll(rest, next, imports, legal));
      }
    }
  }

  // ---- the results -----------------------------------------------------------------------------------------

  lemma {:induction false} PlaceholdersRun(k: nat, n: nat, st: State, imports: set<Class>, legal: string -> bool)
    requires k <= n && forall x :: x in st.env ==> x.Placeholder? && 1 <= x.k <= k && st.env[x] == VUndefined
    requires forall j :: 1 <= j <= k ==> Placeholder(j) in st.env
    ensures var r := RunAll(PlaceholderStmts(k, n), st, imports, legal);
            && r.Some? && r.value.calls == st.calls
            && (forall x :: x in r.value.env ==> x.Placeholder? && r.value.env[x] == VUndefined)
            && (forall j :: 1 <= j <= n ==> Placeholder(j) in r.value.env)
    decreases n - k
  {
    if k < n {
      PlaceholdersRun(k + 1, n, st.(env := st.env[Placeholder(k + 1) := VUndefined]), imports, legal);
    }
  }

  /** The names the program needs for itself. */
  predicate NamesAreLegal(legal: string -> bool) {
    legal("stack") && legal("service") && legal("manifest")
  }

  lemma ServiceEval(spec: Spec, st: State, imports: set<Class>)
    requires ServiceClass in imports && STACK in st.env && st.env[STACK] == VNew(0)
    requires st.calls == [New(StackClass, [VStr(spec.stackName)])]
    ensures EvalRhs(ServiceRhs(spec), st, imports) == Some((ServiceValue(spec), FirstCalls(spec)))
  {
    if spec.serviceUrn.None? {
      OneField(PName, Lit(spec.serviceName), st.env, imports);
      ThreeEval(Var(STACK), Lit("service"), Object([Field(PName, Lit(spec.serviceName))]), st.env, imports);
    } else {
      assert st.calls + [] == st.calls;
    }
  }

  lemma FirstRun(spec: Spec, st: State, imports: set<Class>, legal: string -> bool)
    requires ALWAYS_IMPORTED <= imports && NamesAreLegal(legal)
    requires STACK !in st.env && SERVICE !in st.env && st.calls == []
    ensures RunAll(FirstStmts(spec), st, imports, legal) ==
            Some(State(st.env[STACK := VNew(0)][SERVICE := ServiceValue(spec)], FirstCalls(spec)))
  {
    var a, b := FirstStmts(spec)[0], FirstStmts(spec)[1];
    assert FirstStmts(spec) == [a] + [b];
    RunConcat([a], [b], st, imports, legal);
    RunOne(a, st, imports, legal);
    ConsEval(Lit(spec.stackName), [], st.env, imports);
    assert [Lit(spec.stackName)] + [] == [Lit(spec.stackName)] && [VStr(spec.stackName)] + [] == [VStr(spec.stackName)];
    var made := State(st.env[STACK := VNew(0)], [New(StackClass, [VStr(spec.stackName)])]);
    assert st.calls + [New(StackClass, [VStr(spec.stackName)])] == made.calls;
    assert Run(a, st, imports, legal) == Some(made);
    RunOne(b, made, imports, legal);
    ServiceEval(spec, made, imports);
  }

  predicate GoodNames(cs: seq<Component>, legal: string -> bool) {
    && (forall i :: 0 <= i < |cs| ==>
      legal(CamelIdentifier(cs[i].constructId))
      && CamelIdentifier(cs[i].constructId) !in ["stack", "service", "manifest"])
    && (forall i, j :: 0 <= i < j < |cs| ==> CamelIdentifier(cs[i].constructId) != CamelIdentifier(cs[j].constructId))
  }

  lemma {:induction false} NamesFreeMeans(cs: seq<Component>, taken: set<Name>, legal: string -> bool)
    ensures NamesFree(cs, taken, legal) <==>
            && (forall i :: 0 <= i < |cs| ==> VarName(cs[i]) !in taken && legal(CamelIdentifier(cs[i].constructId)))
            && (forall i, j :: 0 <= i < j < |cs| ==> VarName(cs[i]) != VarName(cs[j]))
  {
    if cs != [] {
      NamesFreeMeans(cs[1..], taken + {VarName(cs[0])}, legal);
      assert forall i :: 0 < i < |cs| ==> cs[i] == cs[1..][i - 1];
    }
  }

  lemma {:induction false} NamesMean(cs: seq<Component>, x: Name)
    ensures x in Names(cs) <==> exists i :: 0 <= i < |cs| && VarName(cs[i]) == x
  {
    if cs != [] {
      NamesMean(cs[1..], x);
      assert forall i :: 0 < i < |cs| ==> cs[i] == cs[1..][i - 1];
    }
  }

  lemma GoodNamesMean(cs: seq<Component>, taken: set<Name>, legal: string -> bool)
    requires STACK in taken && SERVICE in taken && MANIFEST !in taken
    requires forall x :: x in taken ==> x.Placeholder? || x == STACK || x == SERVICE
    ensures GoodNames(cs, legal) <==> NamesFree(cs, taken, legal) && MANIFEST !in taken + Names(cs)
  {
    NamesFreeMeans(cs, taken, legal);
    NamesMean(cs, MANIFEST);
    forall i | 0 <= i < |cs|
      ensures CamelIdentifier(cs[i].constructId) in ["stack", "service", "manifest"] <==>
        VarName(cs[i]) in taken || VarName(cs[i]) == MANIFEST
    {
    }
  }

  /** The placeholders, the stack and the service, before any component. */
  lemma OpeningRuns(spec: Spec, m: nat, imports: set<Class>, legal: string -> bool) returns (begun: State)
    requires ALWAYS_IMPORTED <= imports && NamesAreLegal(legal)
    ensures RunAll(PlaceholderStmts(0, m) + FirstStmts(spec), State(map[], []), imports, legal) == Some(begun)
    ensures begun.calls == FirstCalls(spec) && Ready(begun.env, ServiceValue(spec), m)
    ensures forall x :: x in begun.env ==> x.Placeholder? || x == STACK || x == SERVICE
  {
    var init := State(map[], []);
    RunConcat(PlaceholderStmts(0, m), FirstStmts(spec), init, imports, legal);
    PlaceholdersRun(0, m, init, imports, legal);
    var placed := RunAll(PlaceholderStmts(0, m), init, imports, legal).value;
    FirstRun(spec, placed, imports, legal);
    begun := State(placed.env[STACK := VNew(0)][SERVICE := ServiceValue(spec)], FirstCalls(spec));
  }

  /** The generated program runs exactly when the component names, as identifiers, are distinct, legal
      and none of its own three; everything it uses is then imported, and the calls it makes are the
      interpreter's, with `undefined` where the interpreter has a placeholder repository. */
  lemma RenderedRuns(spec: Spec, legal: string -> bool)
    requires NamesAreLegal(legal)
    ensures Execute(Rendered(spec), legal) ==
      if GoodNames(spec.components, legal) then Some(Calls(spec, true)) else None
  {
    hide AllStmts, FirstStmts, PlaceholderStmts, GoodNames, NamesFree, AllCalls, FirstCalls, ServiceValue, AllMissing;
    var cs, p := spec.components, Rendered(spec);
    var opening := PlaceholderStmts(0, AllMissing(cs)) + FirstStmts(spec);
    var rest, last := AllStmts(cs, 0), Declare(MANIFEST, SynthOf(STACK));
    var begun := OpeningRuns(spec, AllMissing(cs), p.imports, legal);
    RunConcat(opening + rest, [last], State(map[], []), p.imports, legal);
    RunConcat(opening, rest, State(map[], []), p.imports, legal);
    AllRun(cs, 0, begun, ServiceValue(spec), p.imports, legal);
    GoodNamesMean(cs, begun.env.Keys, legal);
    var r := RunAll(rest, begun, p.imports, legal);
    if r.Some? {
      RunOne(last, r.value, p.imports, legal);
    }
  }

  lemma PropsRepo(pl: Pipeline, repo: Value)
    ensures PRepo in PipelineProps(pl, repo) && PipelineProps(pl, repo)[PRepo] == repo
  {
  }

  lemma {:induction false} PipelineCallsDiffer(pls: seq<Pipeline>, name: string, n: nat)
    ensures |PipelineCalls(pls, name, n, true)| == |PipelineCalls(pls, name, n, false)|
    ensures PipelineCalls(pls, name, n, true) == PipelineCalls(pls, name, n, false) <==> Missing(pls) == 0
  {
    if pls != [] {
      var a, b := PipelineCall(pls[0], name, n, true), PipelineCall(pls[0], name, n, false);
      PipelineCallsDiffer(pls[1..], name, n);
      PropsRepo(pls[0], Repo(pls[0], name, true));
      PropsRepo(pls[0], Repo(pls[0], name, false));
      assert pls[0].source.None? ==> a.args[2] != b.args[2];
      SameParts([a], PipelineCalls(pls[1..], name, n, true), [b], PipelineCalls(pls[1..], name, n, false));
    }
  }

  lemma SameParts<T>(a: seq<T>, b: seq<T>, c: seq<T>, d: seq<T>)
    requires |a| == |c|
    ensures a + b == c + d <==> a == c && b == d
  {
    if a + b == c + d {
      assert a == (a + b)[..|a|] && c == (c + d)[..|a|];
      assert b == (a + b)[|a|..] && d == (c + d)[|a|..];
    }
  }

  lemma ComponentCallsDiffer(c: Component, service: Value, n: nat)
    ensures |ComponentCalls(c, service, n, true)| == |ComponentCalls(c, service, n, false)|
    ensures ComponentCalls(c, service, n, true) == ComponentCalls(c, service, n, false) <==> Missing(c.pipelines) == 0
  {
    var head := [ComponentCall(c, service)] + PlacementCalls(c.placements, n);
    PipelineCallsDiffer(c.pipelines, c.name, n);
    SameParts(head, PipelineCalls(c.pipelines, c.name, n, true), head, PipelineCalls(c.pipelines, c.name, n, false));
  }

  /** Either list grows by one more component on both sides. */
  lemma DifferStep<T>(a: seq<T>, b: seq<T>, x: seq<T>, y: seq<T>, p: bool, q: bool)
    requires |a| == |b| && |x| == |y| && (a == b <==> p) && (x == y <==> q)
    ensures |a + x| == |b + y| && (a + x == b + y <==> p && q)
  {
    SameParts(a, x, b, y);
  }

  lemma {:induction false} AllCallsDiffer(cs: seq<Component>, service: Value, n: nat)
    ensures |AllCalls(cs, service, n, true)| == |AllCalls(cs, service, n, false)|
    ensures AllCalls(cs, service, n, true) == AllCalls(cs, service, n, false) <==> AllMissing(cs) == 0
  {
    hide ComponentCalls, Missing;
    if cs != [] {
      var a, b := ComponentCalls(cs[0], service, n, true), ComponentCalls(cs[0], service, n, false);
      ComponentCallsDiffer(cs[0], service, n);
      AllCallsDiffer(cs[1..], service, n + |a|);
      DifferStep(a, b, AllCalls(cs[1..], service, n + |a|, true), AllCalls(cs[1..], service, n + |a|, false),
                 Missing(cs[0].pipelines) == 0, AllMissing(cs[1..]) == 0);
    }
  }

  /** The two agree exactly: running the generated program makes the interpreter's calls, in order and
      with equal arguments, if and only if the names are good and every pipeline has a source. */
  lemma ProgramAgrees(spec: Spec, legal: string -> bool)
    requires NamesAreLegal(legal)
    ensures Execute(Rendered(spec), legal) == Some(Calls(spec, false)) <==>
            GoodNames(spec.components, legal) && AllMissing(spec.components) == 0
  {
    RenderedRuns(spec, legal);
    var n := |FirstCalls(spec)|;
    var a, b := AllCalls(spec.components, ServiceValue(spec), n, true),
      AllCalls(spec.components, ServiceValue(spec), n, false);
    AllCallsDiffer(spec.components, ServiceValue(spec), n);
    SameParts(FirstCalls(spec), a, FirstCalls(spec), b);
    SameParts(FirstCalls(spec) + a, [Synth(VNew(0))], FirstCalls(spec) + b, [Synth(VNew(0))]);
  }

  /** What a construct id is written with: its letters and digits, or "product" for want of any. */
  function Spelled(id: string): string {
    if Letters(id) == "" then "product" else Letters(id)
  }

  /** For whoever writes the spec: when the construct ids differ in their letters and digits, none spells
      one of the three names the program has itself, and the language takes their camel case as names,
      the program runs and makes the calls described. */
  lemma DistinctIdsRun(spec: Spec, legal: string -> bool)
    requires NamesAreLegal(legal)
    requires var cs := spec.components;
      && (forall i :: 0 <= i < |cs| ==>
            && Spelled(cs[i].constructId) !in ["stack", "service", "manifest"]
            && legal(if Letters(cs[i].constructId) == "" then "product" else Scanned(cs[i].constructId, true, true)))
      && (forall i, j :: 0 <= i < j < |cs| ==> Spelled(cs[i].constructId) != Spelled(cs[j].constructId))
    ensures Execute(Rendered(spec), legal) == Some(Calls(spec, true))
    ensures AllMissing(spec.components) == 0 ==> Execute(Rendered(spec), legal) == Some(Calls(spec, false))
  {
    hide Rendered, Execute, Calls, AllMissing, CamelIdentifier, Letters, Scanned;
    var cs := spec.components;
    OwnNames();
    forall i | 0 <= i < |cs| ensures Letters(CamelIdentifier(cs[i].constructId)) == Spelled(cs[i].constructId) {
      CamelLetters(cs[i].constructId);
      CamelScans(cs[i].constructId);
    }
    forall i | 0 <= i < |cs|
      ensures legal(CamelIdentifier(cs[i].constructId))
      ensures CamelIdentifier(cs[i].constructId) !in ["stack", "service", "manifest"]
    {
      CamelScans(cs[i].constructId);
      assert Letters(CamelIdentifier(cs[i].constructId)) == Spelled(cs[i].constructId);
    }
    assert GoodNames(cs, legal);
    RenderedRuns(spec, legal);
    ProgramAgrees(spec, legal);
  }

  lemma OwnNames()
    ensures Letters("stack") == "stack" && Letters("service") == "service" && Letters("manifest") == "manifest"
  {
    SmallLetters("stack");
    SmallLetters("service");
    SmallLetters("manifest");
  }
}
