/**
 Runs of whole passes. Safety of passes of any number of gateways, each with its own
 spec and failures, interleaved with edits of objects, grants and installed kinds;
 convergence of a pass; and quiescence, when further passes change nothing.
 */
module OperatorRuns {
  import opened Wrappers
  import opened Names
  import opened Cluster
  import opened Workloads
  import opened Secrets
  import opened Spec
  import opened Reports
  import opened Validation
  import opened Readiness
  import Status
  import opened StatusPatching
  import opened Operator
  import opened PassEffects

  datatype State = State(world: World, watched: set<string>)

  datatype Step =
    | ReconcileStep(gateway: Gateway, spec: GatewaySpec, env: Env)
    | EditObject(key: Key, edited: Object)
    | DeleteObject(key: Key)
    | EditGrants(grants: map<NsName, Grant>)
    | InstallKinds(installed: set<GroupKind>)

  function Next(s: State, step: Step): State {
    var w := s.world;
    match step
    case ReconcileStep(g, spec, env) => State(w.(objects := PassObjects(w, g, spec, env)), s.watched + Tracks(w, g, spec, env))
    case EditObject(k, o) => s.(world := w.(objects := w.objects[k := o]))
    case DeleteObject(k) => s.(world := w.(objects := w.objects - {k}))
    case EditGrants(grants) => s.(world := w.(grants := grants))
    case InstallKinds(installed) => s.(world := w.(installed := installed))
  }

  function Run(s: State, steps: seq<Step>): State
    decreases |steps|
  {
    if steps == [] then s else Run(Next(s, steps[0]), steps[1..])
  }

  // The chart renders managed kinds only.
  ghost predicate RendersManagedKinds(env: Env) {
    forall spec, name :: match Render(env, spec, name)
                   case Rendered(ms) => forall m :: m in ms ==> m.gk in MANAGED
                   case _ => true
  }

  // Edits by others leave k alone.
  predicate SparesKey(step: Step, k: Key) {
    match step
    case EditObject(x, _) => x != k
    case DeleteObject(x) => x != k
    case _ => true
  }

  // The API server keeps at most one controller in edited objects.
  ghost predicate KeepsSingleController(step: Step) {
    step.EditObject? ==> SingleController(step.edited)
  }

  // One pass

  lemma ResolveWellFormed(w: World, g: Gateway, ref: NsName, f: SecretFaults)
    requires WellFormed(w.objects)
    ensures var s' := Resolve(w, g, ref, f).0;
            && WellFormed(s')
            && (forall k :: k in w.objects ==> k in s')
            && (forall k :: k in s' && k !in w.objects ==> k == CopyKey(g))
            && (forall k :: k in w.objects && k != CopyKey(g) ==> s'[k] == w.objects[k])
            && (forall k, h: Gateway :: k in w.objects && h.uid != g.uid && ControlledBy(w.objects[k], h) ==>
                  s'[k] == w.objects[k])
  {
    var src := Source(g, ref);
    LicensedCopying(w, g, ref, f);
    var k := CopyKey(g);
    if k in w.objects {
      forall h: Gateway | h.uid != g.uid && ControlledBy(w.objects[k], h)
        ensures ForeignController(w.objects[k], g)
      {
        ForeignWhenControlledByOther(w.objects[k], g, h);
      }
    }
    if SecretKey(src) in w.objects && !(k in w.objects && ForeignController(w.objects[k], g)) {
      StampWellFormed(w.objects, k, CopyManifest(g, src, w.objects[SecretKey(src)]).fields, g);
    }
  }

  // The store the workloads of a pass start from.
  function Resolved(w: World, g: Gateway, spec: GatewaySpec, env: Env): Store {
    if Admissible(spec) then Resolve(w, g, spec.secretRef, env.secret).0 else w.objects
  }

  /** The workloads of a pass leave every Secret as the resolution left it. */
  lemma WorkloadsSpareSecrets(w: World, g: Gateway, spec: GatewaySpec, env: Env, k: Key)
    requires WellFormed(w.objects) && RendersManagedKinds(env) && k.gk == SECRET
    ensures var s1, s' := Resolved(w, g, spec, env), PassObjects(w, g, spec, env);
            (k in s' <==> k in s1) && (k in s' ==> s'[k] == s1[k])
  {
    ResolveWellFormed(w, g, spec.secretRef, env.secret);
    SecretIsNotManaged();
    if Admissible(spec) {
      var (s1, r) := Resolve(w, g, spec.secretRef, env.secret);
      if r.Ok? && Render(env, spec, r.value).Rendered? {
        var ms := Render(env, spec, r.value).manifests;
        PassSafety(s1, w.installed, g, ms, env.workloads);
        DesiredKeys(w.installed, g, ms, 0);
      }
    }
  }

  /**
   Sweep safety of a whole pass, successful or not. Whatever is deleted is an
   unrendered object of a managed kind in the gateway's namespace that the gateway
   controls, and by then every rendered object of an installed kind is in place.
   Objects that another gateway controls are not touched.
   */
  lemma PassIsSafe(w: World, g: Gateway, spec: GatewaySpec, env: Env)
    requires WellFormed(w.objects)
    ensures WellFormed(PassObjects(w, g, spec, env))
    ensures var s' := PassObjects(w, g, spec, env);
            forall k :: k in w.objects && k !in s' ==>
              var (s1, r) := Resolve(w, g, spec.secretRef, env.secret);
              && r.Ok? && Render(env, spec, r.value).Rendered?
              && var ms := Render(env, spec, r.value).manifests;
                 var d := Desired(w.installed, g, ms);
                 && IsOrphan(w.objects, w.installed, g, RenderedKeys(ms), k)
                 && forall x :: x in d ==> x in s' && s'[x].fields == d[x] && ControlledBy(s'[x], g)
    ensures var s' := PassObjects(w, g, spec, env);
            forall k, h: Gateway :: k in w.objects && h.uid != g.uid && ControlledBy(w.objects[k], h) ==>
              k in s' && s'[k] == w.objects[k]
  {
    ResolveWellFormed(w, g, spec.secretRef, env.secret);
    SecretIsNotManaged();
    if Admissible(spec) {
      var (s1, r) := Resolve(w, g, spec.secretRef, env.secret);
      if r.Ok? && Render(env, spec, r.value).Rendered? {
        var ms := Render(env, spec, r.value).manifests;
        var d := Desired(w.installed, g, ms);
        PassSafety(s1, w.installed, g, ms, env.workloads);
        forall x | x in d
          ensures ControlledBy(Stamp(s1, x, d[x], g), g)
        {
          StampOwnership(s1, x, d[x], g);
        }
        var s' := PassObjects(w, g, spec, env);
        forall k | k in w.objects && k !in s'
          ensures IsOrphan(w.objects, w.installed, g, RenderedKeys(ms), k)
        {
          assert IsOrphan(s1, w.installed, g, RenderedKeys(ms), k);
          assert k != CopyKey(g);
        }
      }
    }
  }

  // Runs

  lemma StepKeepsWellFormed(s: State, step: Step)
    requires WellFormed(s.world.objects) && KeepsSingleController(step)
    ensures WellFormed(Next(s, step).world.objects)
  {
    if step.ReconcileStep? {
      PassIsSafe(s.world, step.gateway, step.spec, step.env);
    }
  }

  lemma {:induction false} RunKeepsWellFormed(s: State, steps: seq<Step>)
    requires WellFormed(s.world.objects)
    requires forall step :: step in steps ==> KeepsSingleController(step)
    ensures WellFormed(Run(s, steps).world.objects)
    decreases |steps|
  {
    if steps != [] {
      StepKeepsWellFormed(s, steps[0]);
      RunKeepsWellFormed(Next(s, steps[0]), steps[1..]);
    }
  }

  /** Sweep safety over runs: after any run, the next pass deletes nothing but orphans of its own gateway. */
  lemma RunsDeleteOnlyOrphans(s: State, steps: seq<Step>, g: Gateway, spec: GatewaySpec, env: Env, k: Key)
    requires WellFormed(s.world.objects)
    requires forall step :: step in steps ==> KeepsSingleController(step)
    ensures var w := Run(s, steps).world;
            k in w.objects && k !in PassObjects(w, g, spec, env) ==>
              var r := Resolve(w, g, spec.secretRef, env.secret).1;
              && r.Ok? && Render(env, spec, r.value).Rendered?
              && IsOrphan(w.objects, w.installed, g, RenderedKeys(Render(env, spec, r.value).manifests), k)
              && k.ns == g.ns && k.gk in MANAGED
              && exists o :: o in w.objects[k].owners && o.uid == g.uid && o.kind == "LLMBatchGateway" &&
                             o.apiVersion == "batch.llm-d.ai/v1alpha1" && o.controller == Some(true)
  {
    RunKeepsWellFormed(s, steps);
    PassIsSafe(Run(s, steps).world, g, spec, env);
    var w := Run(s, steps).world;
    if k in w.objects && k !in PassObjects(w, g, spec, env) {
      PassDeletesOnFields(w, g, spec, env, k);
    }
  }

  /**
   Isolation over runs. An object that one gateway controls stays exactly as it is
   through any sequence of passes of other gateways, whatever fails, as long as
   nobody else edits it.
   */
  lemma {:induction false} OthersObjectsSurvive(s: State, steps: seq<Step>, k: Key, h: Gateway)
    requires WellFormed(s.world.objects) && k in s.world.objects && ControlledBy(s.world.objects[k], h)
    requires forall step :: step in steps ==>
               KeepsSingleController(step) && SparesKey(step, k) && (step.ReconcileStep? ==> step.gateway.uid != h.uid)
    ensures k in Run(s, steps).world.objects && Run(s, steps).world.objects[k] == s.world.objects[k]
    decreases |steps|
  {
    if steps != [] {
      var step := steps[0];
      StepKeepsWellFormed(s, step);
      if step.ReconcileStep? {
        PassIsSafe(s.world, step.gateway, step.spec, step.env);
      }
      OthersObjectsSurvive(Next(s, step), steps[1..], k, h);
    }
  }

  // No step edits k, names it in a chart, or takes it for a managed copy.
  ghost predicate LeavesAlone(step: Step, k: Key) {
    && SparesKey(step, k)
    && (step.ReconcileStep? ==>
          && ChartsSpare(step.gateway, step.spec, step.env, k)
          && k != Key(step.gateway.ns, GroupKind("", "Secret"), step.gateway.name + "-credentials"))
  }

  /**
   Nobody's objects survive: an object without any controller reference, that no
   chart names and that is no gateway's managed copy, is unchanged by any sequence of
   passes of any gateways, whatever fails.
   */
  lemma {:induction false} UncontrolledSurvives(s: State, steps: seq<Step>, k: Key)
    requires k in s.world.objects && forall r :: r in s.world.objects[k].owners ==> r.controller != Some(true)
    requires forall step :: step in steps ==> LeavesAlone(step, k)
    ensures k in Run(s, steps).world.objects && Run(s, steps).world.objects[k] == s.world.objects[k]
    decreases |steps|
  {
    if steps != [] {
      var step := steps[0];
      assert step in steps;
      if step.ReconcileStep? {
        PassSparesUncontrolled(s.world, step.gateway, step.spec, step.env, k);
      }
      UncontrolledSurvives(Next(s, step), steps[1..], k);
    }
  }

  /** No pass of any gateway ever deletes a Secret, a managed copy in particular. */
  lemma {:induction false} SecretsSurvive(s: State, steps: seq<Step>, k: Key)
    requires WellFormed(s.world.objects) && k in s.world.objects && k.gk == SECRET
    requires forall step :: step in steps ==> KeepsSingleController(step) && SparesKey(step, k)
    ensures k in Run(s, steps).world.objects
    decreases |steps|
  {
    if steps != [] {
      var step := steps[0];
      StepKeepsWellFormed(s, step);
      if step.ReconcileStep? {
        SecretIsNotManaged();
        PassIsSafe(s.world, step.gateway, step.spec, step.env);
      }
      SecretsSurvive(Next(s, step), steps[1..], k);
    }
  }

  // Secret reference immutability

  // Reads of the managed copy are accurate and the charts render no Secrets.
  ghost predicate AccurateFor(step: Step) {
    && KeepsSingleController(step)
    && (step.ReconcileStep? ==> !step.env.secret.readCopy && RendersManagedKinds(step.env))
  }

  // What one pass does to the copy that belongs to a namespace and a gateway name.
  lemma PassKeepsCopy(w: World, g: Gateway, spec: GatewaySpec, env: Env, copy: Key)
    requires WellFormed(w.objects) && RendersManagedKinds(env) && !env.secret.readCopy
    requires copy.gk == SECRET && copy in w.objects
    ensures var s' := PassObjects(w, g, spec, env);
            && copy in s'
            && Annotation(s'[copy]) == Annotation(w.objects[copy])
            && (s'[copy] != w.objects[copy] ==>
                  copy == CopyKey(g) && Annotation(w.objects[copy]) == Encode(Source(g, spec.secretRef)))
  {
    WorkloadsSpareSecrets(w, g, spec, env, copy);
    ResolveWellFormed(w, g, spec.secretRef, env.secret);
    LicensedCopying(w, g, spec.secretRef, env.secret);
    if Admissible(spec) && copy == CopyKey(g) {
      RecordedSourceChangesIff(w, g, spec.secretRef, env.secret);
    }
  }

  /**
   Secret reference immutability over runs. Whatever references gateways are given
   meanwhile, local ones included, an existing copy keeps its recorded source; and
   a Secret whose annotation matches no reference in the run is not changed at all.
   */
  lemma {:induction false} RecordedSourceIsImmutable(s: State, steps: seq<Step>, copy: Key)
    requires WellFormed(s.world.objects) && copy.gk == SECRET && copy in s.world.objects
    requires forall step :: step in steps ==> AccurateFor(step) && SparesKey(step, copy)
    ensures var end := Run(s, steps).world.objects;
            && WellFormed(end)
            && copy in end
            && Annotation(end[copy]) == Annotation(s.world.objects[copy])
            && ((forall step :: step in steps && step.ReconcileStep? ==>
                   Annotation(s.world.objects[copy]) != Encode(Source(step.gateway, step.spec.secretRef))) ==>
                end[copy] == s.world.objects[copy])
    decreases |steps|
  {
    if steps != [] {
      var step := steps[0];
      assert step in steps;
      StepKeepsWellFormed(s, step);
      if step.ReconcileStep? {
        PassKeepsCopy(s.world, step.gateway, step.spec, step.env, copy);
      }
      RecordedSourceIsImmutable(Next(s, step), steps[1..], copy);
    }
  }

  // A pass that resolves a reference into another namespace.
  ghost predicate Copies(w: World, step: Step, ref: NsName) {
    && step.ReconcileStep? && step.spec.secretRef == ref
    && Admissible(step.spec) && CrossNamespace(step.gateway, ref)
    && Resolve(w, step.gateway, ref, step.env.secret).1.Ok?
  }

  lemma CopyRecordsSource(s: State, step: Step, ref: NsName)
    requires WellFormed(s.world.objects) && Copies(s.world, step, ref) && AccurateFor(step)
    ensures var copy := CopyKey(step.gateway);
            var s' := Next(s, step);
            copy in s'.world.objects && Annotation(s'.world.objects[copy]) == Encode(ref)
  {
    LicensedCopying(s.world, step.gateway, ref, step.env.secret);
    WorkloadsSpareSecrets(s.world, step.gateway, step.spec, step.env, CopyKey(step.gateway));
  }

  /**
   Two passes of the same gateway that both resolve a reference into another
   namespace resolve the same reference, however long the run between them, unless
   somebody else touches the copy.
   */
  lemma ResolvedReferencesAgree(s: State, first: Step, between: seq<Step>, last: Step, a: NsName, b: NsName)
    requires WellFormed(s.world.objects)
    requires SlashFree(a.ns) && SlashFree(b.ns)
    requires Copies(s.world, first, a) && AccurateFor(first)
    requires last.ReconcileStep? && CopyKey(last.gateway) == CopyKey(first.gateway) && AccurateFor(last)
    requires Copies(Run(Next(s, first), between).world, last, b)
    requires forall step :: step in between ==> AccurateFor(step) && SparesKey(step, CopyKey(first.gateway))
    ensures a == b
  {
    var copy := CopyKey(first.gateway);
    StepKeepsWellFormed(s, first);
    CopyRecordsSource(s, first, a);
    RecordedSourceIsImmutable(Next(s, first), between, copy);
    var w := Run(Next(s, first), between).world;
    LicensedCopying(w, last.gateway, b, last.env.secret);
    EncodeInjective(a, b);
  }

  // Tracking

  /** Once a pass has resolved a reference into another namespace, the filter passes events of that Secret for good. */
  lemma {:induction false} ResolvedSourceStaysTracked(s: State, steps: seq<Step>, ref: NsName)
    requires Encode(ref) in s.watched || (steps != [] && Copies(s.world, steps[0], ref))
    ensures Encode(ref) in Run(s, steps).watched
    decreases |steps|
  {
    if steps != [] {
      ResolvedSourceStaysTracked(Next(s, steps[0]), steps[1..], ref);
    }
  }

  /**
   Watch completeness over runs. After a pass has resolved a reference into another
   namespace, and any run after it, a change of one Secret that alters the
   gateway's resolution enqueues the gateway, unless the Secret is its own copy.
   */
  lemma ChangedSourceIsEnqueued(s: State, first: Step, steps: seq<Step>, x: Listed, gateways: seq<Listed>,
                                objects': Store, secret: NsName, f: SecretFaults)
    requires Copies(s.world, first, x.secretRef) && first.gateway == x.gateway
    requires x in gateways && forall y :: y in gateways && Request(y.gateway) == Request(x.gateway) ==> y == x
    requires SameExcept(Run(s, [first] + steps).world.objects, objects', SecretKey(secret))
    ensures var end := Run(s, [first] + steps);
            var w, w' := end.world, end.world.(objects := objects');
            ResolutionOf(w, x.gateway, x.secretRef, f) != ResolutionOf(w', x.gateway, x.secretRef, f) &&
            SecretKey(secret) != CopyKey(x.gateway) ==>
              Request(x.gateway) in SecretRequests(end.watched, gateways, secret)
  {
    ResolvedSourceStaysTracked(s, [first] + steps, x.secretRef);
    var end := Run(s, [first] + steps);
    SecretWatchCompleteIff(end.world, objects', secret, end.watched, gateways, x, f);
  }

  // Convergence of whole passes

  /**
   A reconciled pass leaves exactly the rendered objects among what the gateway
   controls in its namespace, for installed managed kinds.
   */
  lemma PassConverges(w: World, g: Gateway, spec: GatewaySpec, env: Env)
    requires Reconciled(w, g, spec, env)
    ensures var name := Resolve(w, g, spec.secretRef, env.secret).1.value;
            var d := Desired(w.installed, g, Render(env, spec, name).manifests);
            var s' := PassObjects(w, g, spec, env);
            && (forall k: Key :: k.ns == g.ns && k.gk in MANAGED && k.gk in w.installed ==>
                  (k in s' && ControlledBy(s'[k], g) <==> k in d))
            && (forall k :: k in d ==> k in s' && s'[k].fields == d[k])
  {
    var (s1, r) := Resolve(w, g, spec.secretRef, env.secret);
    Convergence(s1, w.installed, g, Render(env, spec, r.value).manifests, env.workloads);
  }

  lemma ResolveAgain(w: World, objects': Store, g: Gateway, ref: NsName, f: SecretFaults, f': SecretFaults)
    requires Resolve(w, g, ref, f).1.Ok?
    requires f' == SecretFaults(false, false, false, false)
    requires forall k: Key :: k.gk == SECRET ==>
               var s1 := Resolve(w, g, ref, f).0;
               (k in objects' <==> k in s1) && (k in objects' ==> objects'[k] == s1[k])
    ensures Resolve(w.(objects := objects'), g, ref, f') == (objects', Resolve(w, g, ref, f).1)
  {
    LicensedCopying(w, g, ref, f);
    if CrossNamespace(g, ref) {
      var src, k := Source(g, ref), CopyKey(g);
      var m := CopyManifest(g, src, w.objects[SecretKey(src)]);
      assert SecretKey(src) != k;
      assert objects'[SecretKey(src)] == w.objects[SecretKey(src)];
      assert objects'[k] == Stamp(w.objects, k, m.fields, g);
      StampOwnership(w.objects, k, m.fields, g);
      UpsertOwnerKeepsOthers(OwnersAt(w.objects, k), ControllerRef(g));
      assert Licensed(w.(objects := objects'), g, src);
      assert Stamp(objects', k, m.fields, g) == objects'[k];
      assert objects'[k := objects'[k]] == objects';
    }
  }

  // A second pass renders the same objects as the first, in any order.
  ghost predicate RendersAlike(w: World, g: Gateway, spec: GatewaySpec, env: Env, again: Env)
    requires Reconciled(w, g, spec, env)
  {
    var name := Resolve(w, g, spec.secretRef, env.secret).1.value;
    && Render(again, spec, name).Rendered?
    && KeysDetermine(Render(env, spec, name).manifests)
    && SameManifests(Render(env, spec, name).manifests, Render(again, spec, name).manifests)
  }

  /**
   A second, undisturbed pass over the same spec, rendering the same objects in any
   order, reconciles again and changes no object.
   */
  lemma PassIsIdempotent(w: World, g: Gateway, spec: GatewaySpec, env: Env, again: Env)
    requires WellFormed(w.objects) && Reconciled(w, g, spec, env) && RendersManagedKinds(env)
    requires again.secret == SecretFaults(false, false, false, false) && NoFaults(again.workloads)
    requires RendersAlike(w, g, spec, env, again)
    ensures var w' := w.(objects := PassObjects(w, g, spec, env));
            Reconciled(w', g, spec, again) && PassObjects(w', g, spec, again) == w'.objects
  {
    var (s1, r) := Resolve(w, g, spec.secretRef, env.secret);
    var w' := w.(objects := PassObjects(w, g, spec, env));
    forall k: Key | k.gk == SECRET
      ensures (k in w'.objects <==> k in s1) && (k in w'.objects ==> w'.objects[k] == s1[k])
    {
      WorkloadsSpareSecrets(w, g, spec, env, k);
    }
    ResolveAgain(w, w'.objects, g, spec.secretRef, env.secret, again.secret);
    Idempotence(s1, w.installed, g, Render(env, spec, r.value).manifests, env.workloads,
                Render(again, spec, r.value).manifests, again.workloads);
  }

  // Quiescence

  // A pass that has just read the resource.
  ghost function FreshPass(x: Managed, g: Gateway, spec: GatewaySpec, env: Env): (Managed, Outcome) {
    AfterPass(x, x.stored, g, spec, env)
  }

  // A write that landed on the version just read lands again without effect.
  lemma WriteSettles(v: Version, write: StatusWrite, fault: bool)
    requires Written(v, v, write, fault).1 == Some(Landed)
    ensures var v1 := Written(v, v, write, fault).0;
            Written(v1, v1, write, false) == (v1, Some(Landed))
  {
    LandedWritesSettle(v, if write.FailureOf? then write.failure else Status.Failure("", "", []),
                       if write.Observation? then write.comp else NO_COMPONENTS);
  }

  // The second pass lists the same workloads as the first, in any order.
  ghost predicate ListsAlike(env: Env, again: Env) {
    && env.deployments.Some? && again.deployments.Some? && Reordered(env.deployments.value, again.deployments.value)
    && env.statefulSets.Some? && again.statefulSets.Some? && Reordered(env.statefulSets.value, again.statefulSets.value)
  }

  ghost predicate OneStatusEach(g: Gateway, env: Env)
    requires env.deployments.Some? && env.statefulSets.Some?
  {
    forall c :: OneStatus(env.deployments.value, env.statefulSets.value, g.uid, c)
  }

  // A pass that reconciles what is there already writes its observation and nothing else.
  lemma ReconciledWritesStatusOnly(x: Managed, g: Gateway, spec: GatewaySpec, env: Env)
    requires Reconciled(x.world, g, spec, env) && Undisturbed(env)
    requires PassObjects(x.world, g, spec, env) == x.world.objects
    requires x.watched + Tracks(x.world, g, spec, env) == x.watched
    ensures var comp := ComponentsOf(env.deployments.value, env.statefulSets.value, g.uid);
            FreshPass(x, g, spec, env) == (x.(stored := ObservedWrite(x.stored, x.stored, comp, false).0), Done)
  {
    ObservesIff(x.world, g, spec, env);
    ObservationLands(x.stored, ComponentsOf(env.deployments.value, env.statefulSets.value, g.uid));
    assert x.world.(objects := x.world.objects) == x.world;
  }

  lemma ObservationLands(v: Version, comp: ComponentStatus)
    ensures var (v1, o) := Written(v, v, Observation(comp), false);
            && v1 == ObservedWrite(v, v, comp, false).0
            && OutcomeOf(Observation(comp), o).Done?
  {
    ObservationShows(v, comp);
  }

  // The objects and the filter do not change, whatever the lists say.
  lemma DonePassKeepsWorld(x: Managed, g: Gateway, spec: GatewaySpec, env: Env, again: Env)
    requires WellFormed(x.world.objects) && RendersManagedKinds(env)
    requires Reconciled(x.world, g, spec, env) && RendersAlike(x.world, g, spec, env, again)
    requires Undisturbed(again)
    ensures var y := FreshPass(x, g, spec, env).0;
            var comp := ComponentsOf(again.deployments.value, again.statefulSets.value, g.uid);
            FreshPass(y, g, spec, again) == (y.(stored := ObservedWrite(y.stored, y.stored, comp, false).0), Done)
  {
    PassIsIdempotent(x.world, g, spec, env, again);
    assert Tracks(x.world, g, spec, env) == Tracks(FreshPass(x, g, spec, env).0.world, g, spec, again);
    ReconciledWritesStatusOnly(FreshPass(x, g, spec, env).0, g, spec, again);
  }

  /**
   Quiescence after success. A pass over what a successful pass left, with the same
   rendered objects and the same workload statuses, each listed in any order,
   succeeds and changes nothing: no object, no watched key, no version of the
   resource. The workloads that can decide one component must report the same,
   which is so when there is at most one of them.
   */
  lemma DonePassIsQuiet(x: Managed, g: Gateway, spec: GatewaySpec, env: Env, again: Env)
    requires WellFormed(x.world.objects) && RendersManagedKinds(env)
    requires FreshPass(x, g, spec, env).1.Done?
    requires Undisturbed(again) && ListsAlike(env, again) && OneStatusEach(g, env)
    requires Reconciled(x.world, g, spec, env) ==> RendersAlike(x.world, g, spec, env, again)
    ensures var y := FreshPass(x, g, spec, env).0;
            FreshPass(y, g, spec, again) == (y, Done)
  {
    FirstObservation(x, g, spec, env);
    DonePassKeepsWorld(x, g, spec, env, again);
    ReorderedComponents(env.deployments.value, env.statefulSets.value,
                        again.deployments.value, again.statefulSets.value, g.uid);
    LandedWritesSettle(x.stored, Status.Failure("", "", []),
                       ComponentsOf(env.deployments.value, env.statefulSets.value, g.uid));
  }

  /**
   Where two workloads of one component report different counts, a successful pass
   is not quiet: listing them in another order makes a further version.
   */
  lemma ReorderedListWritesAgain(x: Managed, g: Gateway, spec: GatewaySpec, env: Env, base: Env, c: Component)
    returns (again: Env)
    requires WellFormed(x.world.objects) && RendersManagedKinds(env)
    requires FreshPass(x, g, spec, env).1.Done?
    requires Undisturbed(base) && ListsAlike(env, base)
    requires !OneStatus(env.deployments.value, env.statefulSets.value, g.uid, c)
    requires Reconciled(x.world, g, spec, env) ==> RendersAlike(x.world, g, spec, env, base)
    ensures again == base.(deployments := again.deployments, statefulSets := again.statefulSets) && ListsAlike(env, again)
    ensures var y := FreshPass(x, g, spec, env).0;
            var (z, outcome) := FreshPass(y, g, spec, again);
            outcome.Done? && z == y.(stored := z.stored) && z.stored.resourceVersion == y.stored.resourceVersion + 1
  {
    FirstObservation(x, g, spec, env);
    var ds', ss' := OrderWrites(x.stored, env.deployments.value, env.statefulSets.value, g.uid, c);
    again := base.(deployments := Some(ds'), statefulSets := Some(ss'));
    assert RendersAlike(x.world, g, spec, env, again) by {
      SameRendering(base, again, spec, Resolve(x.world, g, spec.secretRef, env.secret).1.value);
    }
    DonePassKeepsWorld(x, g, spec, env, again);
  }

  lemma SameRendering(env: Env, env': Env, spec: GatewaySpec, name: string)
    requires env' == env.(deployments := env'.deployments, statefulSets := env'.statefulSets)
    ensures Render(env', spec, name) == Render(env, spec, name)
  {
  }

  lemma OrderWrites(v: Version, ds: seq<Deployment>, ss: seq<StatefulSet>, uid: string, c: Component)
    returns (ds': seq<Deployment>, ss': seq<StatefulSet>)
    requires !OneStatus(ds, ss, uid, c)
    ensures Reordered(ds, ds') && Reordered(ss, ss')
    ensures var v1 := ObservedWrite(v, v, ComponentsOf(ds, ss, uid), false).0;
            ObservedWrite(v1, v1, ComponentsOf(ds', ss', uid), false).0.resourceVersion == v1.resourceVersion + 1
  {
    OwnedCandidates(ds, ss, uid, c);
    ds', ss' := OrderShown(ds, ss, uid, c);
    OtherObservationShows(v, ComponentsOf(ds, ss, uid), ComponentsOf(ds', ss', uid), c);
  }

  lemma FirstObservation(x: Managed, g: Gateway, spec: GatewaySpec, env: Env)
    requires FreshPass(x, g, spec, env).1.Done?
    ensures Reconciled(x.world, g, spec, env) && env.deployments.Some? && env.statefulSets.Some?
    ensures var comp := ComponentsOf(env.deployments.value, env.statefulSets.value, g.uid);
            FreshPass(x, g, spec, env).0.stored == ObservedWrite(x.stored, x.stored, comp, false).0
  {
    ObservesIff(x.world, g, spec, env);
  }

  // An accurately read refusal is the same in every later pass and leaves everything as it is.
  lemma RefusalRepeats(w: World, g: Gateway, spec: GatewaySpec, env: Env, again: Env)
    requires !env.secret.readCopy && again.secret == SecretFaults(false, false, false, false)
    requires Admissible(spec)
    requires var r := Resolve(w, g, spec.secretRef, env.secret).1;
             r.Err? && (r.error.SecretRefImmutable? || r.error.ReferenceNotPermitted?)
    ensures Resolve(w, g, spec.secretRef, again.secret) == Resolve(w, g, spec.secretRef, env.secret)
    ensures Resolve(w, g, spec.secretRef, env.secret).0 == w.objects
  {
  }

  // A pass that gives up writes the status only.
  lemma SettledWritesStatusOnly(x: Managed, g: Gateway, spec: GatewaySpec, env: Env)
    requires !Admissible(spec) || Resolve(x.world, g, spec.secretRef, env.secret).1.Err?
    ensures FreshPass(x, g, spec, env).0 == x.(stored := FreshPass(x, g, spec, env).0.stored)
  {
    if Admissible(spec) {
      LicensedCopying(x.world, g, spec.secretRef, env.secret);
    }
  }

  /**
   Quiescence after a permanent failure. A pass that could record why it gave up, and
   had read the managed copy accurately, changed no object; a pass over what it left
   gives up for the same reason and changes nothing at all. A failed validation
   does so for every visiting order only if its report cannot depend on the order.
   */
  lemma SettledPassIsQuiet(x: Managed, g: Gateway, spec: GatewaySpec, env: Env, again: Env)
    requires FreshPass(x, g, spec, env).1.Settled? && !env.secret.readCopy
    requires Undisturbed(again)
    requires Admissible(spec) || Steady(spec)
    requires Visits(env.order, spec.modelGateways) && Visits(again.order, spec.modelGateways)
    ensures var y := FreshPass(x, g, spec, env).0;
            && y == x.(stored := y.stored)
            && FreshPass(y, g, spec, again) == (y, Settled)
  {
    SettledWriteRepeats(x.world, g, spec, env, again);
    SettledWritesStatusOnly(x, g, spec, env);
    var y := FreshPass(x, g, spec, env).0;
    SettledWritesStatusOnly(y, g, spec, again);
    SettledWriteSettles(x.stored, WriteOf(x.world, g, spec, env), env.statusFault);
  }

  lemma SettledWriteSettles(v: Version, write: StatusWrite, fault: bool)
    requires OutcomeOf(write, Written(v, v, write, fault).1).Settled?
    ensures var v1 := Written(v, v, write, fault).0;
            && Written(v1, v1, write, false) == (v1, Some(Landed))
            && OutcomeOf(write, Some(Landed)).Settled?
  {
    WriteSettles(v, write, fault);
  }

  // Whoever gives up for good once gives up with the same write again.
  lemma SettledWriteRepeats(w: World, g: Gateway, spec: GatewaySpec, env: Env, again: Env)
    requires var write := WriteOf(w, g, spec, env);
             write.FailureOf? && write.failure.reason != "RenderFailed"
    requires !env.secret.readCopy && again.secret == SecretFaults(false, false, false, false)
    requires Admissible(spec) || Steady(spec)
    requires Visits(env.order, spec.modelGateways) && Visits(again.order, spec.modelGateways)
    ensures !Admissible(spec) ||
            (Resolve(w, g, spec.secretRef, env.secret).1.Err? && Resolve(w, g, spec.secretRef, again.secret).1.Err?)
    ensures WriteOf(w, g, spec, again) == WriteOf(w, g, spec, env)
  {
    SettlesIff(w, g, spec, env);
    if Admissible(spec) {
      RefusalRepeats(w, g, spec, env, again);
    } else {
      SteadyReport(spec, env.order, again.order);
    }
  }

  lemma UnsteadyIsInadmissible(spec: GatewaySpec)
    requires !Steady(spec)
    ensures !Admissible(spec)
  {
  }

  /**
   Otherwise every state, however it came about, has a visiting order in which the
   next pass writes a further version.
   */
  lemma UnsteadyWritesAgain(x: Managed, g: Gateway, spec: GatewaySpec, env: Env) returns (order: seq<string>)
    requires !Steady(spec) && !env.statusFault
    ensures Visits(order, spec.modelGateways)
    ensures var (y, outcome) := FreshPass(x, g, spec, env.(order := order));
            outcome.Settled? && VersionsAhead(x, y, 1)
  {
    UnsteadyIsInadmissible(spec);
    var a, b := TwoMessages(spec);
    var ready := Status.Find(x.stored.status.conditions, Status.READY);
    order := if ready.Some? && ready.value.message == ValidationMessage(spec, a) then b else a;
    ValidationWrites(x, g, spec, env.(order := order));
    FailureShows(x.stored, ValidationFailure(spec, order));
  }

  ghost function ValidationFailure(spec: GatewaySpec, order: seq<string>): Status.Failure {
    Status.Failure("ValidationFailed", ValidationMessage(spec, order), Status.ALL_CONDITION_TYPES)
  }

  lemma ValidationWrites(x: Managed, g: Gateway, spec: GatewaySpec, env: Env)
    requires !Admissible(spec) && !env.statusFault
    ensures var v := FailureWrite(x.stored, x.stored, ValidationFailure(spec, env.order), false).0;
            FreshPass(x, g, spec, env) == (x.(stored := v), Settled)
  {
    SettledWritesStatusOnly(x, g, spec, env);
    ReasonsDiffer();
  }

  /**
   When a failed validation is quiet, exactly: for every two visiting orders the second
   pass changes nothing if and only if an earlier check fails or at most one model
   gateway is incomplete.
   */
  lemma ValidationFailureIsQuietIff(x: Managed, g: Gateway, spec: GatewaySpec, env: Env)
    requires !Admissible(spec) && Undisturbed(env)
    ensures (forall a, b :: Visits(a, spec.modelGateways) && Visits(b, spec.modelGateways) ==>
               QuietBetween(x, g, spec, env, a, b)) <==> Steady(spec)
  {
    if Steady(spec) {
      forall a, b | Visits(a, spec.modelGateways) && Visits(b, spec.modelGateways)
        ensures QuietBetween(x, g, spec, env, a, b)
      {
        SettlesIff(x.world, g, spec, env.(order := a));
        SettledIff(x.stored, WriteOf(x.world, g, spec, env.(order := a)));
        SettledPassIsQuiet(x, g, spec, env.(order := a), env.(order := b));
      }
    } else {
      var a := UnsteadyWritesAgain(x, g, spec, env);
      var b := UnsteadyWritesAgain(FreshPass(x, g, spec, env.(order := a)).0, g, spec, env);
      assert !QuietBetween(x, g, spec, env, a, b);
    }
  }

  ghost predicate QuietBetween(x: Managed, g: Gateway, spec: GatewaySpec, env: Env, a: seq<string>, b: seq<string>) {
    var y := FreshPass(x, g, spec, env.(order := a)).0;
    FreshPass(y, g, spec, env.(order := b)).0 == y
  }

  /** A spec with two empty model gateways, admitted by every earlier check, whose report follows the map order. */
  lemma TwoEmptyGateways() returns (spec: GatewaySpec)
    ensures spec.modelGateways == map["m1" := ModelGateway("", "", "", ""), "m2" := ModelGateway("", "", "", "")]
    ensures EarlyReport(spec).None? && !Steady(spec)
  {
    var ac := AsyncConfig("30s", Some("http://gateway:8000"), Some(RedisSpec("", "", map[], [])), None, [], "");
    var mg := map["m1" := ModelGateway("", "", "", ""), "m2" := ModelGateway("", "", "", "")];
    spec := GatewaySpec(NsName("", "creds"), "", "", mg, Some(ac));
    assert "m1"[1] != "m2"[1];
    assert "m1" in mg && Incomplete(mg, "m1") && Incomplete(mg, "m2");
  }

  // The passes that status events and the sync period cause while nobody else acts.
  ghost function FreshPasses(x: Managed, g: Gateway, spec: GatewaySpec, envs: seq<Env>): Managed
    decreases |envs|
  {
    if envs == [] then x else FreshPasses(FreshPass(x, g, spec, envs[0]).0, g, spec, envs[1..])
  }

  /**
   However many passes follow a pass that ended without an error, in whatever order
   they visit maps and list workloads, they leave everything as that pass left it,
   provided that neither order can show: the report of a refused spec is steady, and
   the candidates of a component report the same.
   */
  lemma {:induction false} OperatorSettles(x: Managed, g: Gateway, spec: GatewaySpec, env: Env, agains: seq<Env>)
    requires WellFormed(x.world.objects) && RendersManagedKinds(env) && !env.secret.readCopy
    requires !FreshPass(x, g, spec, env).1.Failed?
    requires (Admissible(spec) || Steady(spec)) && Visits(env.order, spec.modelGateways)
    requires FreshPass(x, g, spec, env).1.Done? ==>
               env.deployments.Some? && env.statefulSets.Some? && OneStatusEach(g, env)
    requires forall again :: again in agains ==>
               && Undisturbed(again) && Visits(again.order, spec.modelGateways)
               && (FreshPass(x, g, spec, env).1.Done? ==> ListsAlike(env, again))
               && (Reconciled(x.world, g, spec, env) ==> RendersAlike(x.world, g, spec, env, again))
    ensures var y := FreshPass(x, g, spec, env).0;
            FreshPasses(y, g, spec, agains) == y
  {
    if agains != [] {
      if FreshPass(x, g, spec, env).1.Done? {
        DonePassIsQuiet(x, g, spec, env, agains[0]);
      } else {
        SettledPassIsQuiet(x, g, spec, env, agains[0]);
      }
      OperatorSettles(x, g, spec, env, agains[1..]);
    }
  }

  /**
   Without a steady report the operator need not settle: for every number there are
   that many passes, differing in the visiting order alone, of which each writes a
   further version.
   */
  lemma {:induction false} UnsteadyNeedNotSettle(x: Managed, g: Gateway, spec: GatewaySpec, env: Env, n: nat)
    returns (orders: seq<seq<string>>)
    requires !Steady(spec) && !env.statusFault
    ensures |orders| == n && AllVisit(orders, spec.modelGateways)
    ensures VersionsAhead(x, FreshPasses(x, g, spec, Visiting(env, orders)), n)
    decreases n
  {
    if n == 0 {
      orders := [];
      assert Visiting(env, orders) == [];
    } else {
      var order := UnsteadyWritesAgain(x, g, spec, env);
      var y := FreshPass(x, g, spec, env.(order := order)).0;
      var rest := UnsteadyNeedNotSettle(y, g, spec, env, n - 1);
      orders := [order] + rest;
      VisitingStep(x, g, spec, env, order, rest);
    }
  }

  // y differs from x in the stored resource only, which is n versions ahead.
  ghost predicate VersionsAhead(x: Managed, y: Managed, n: nat) {
    y == x.(stored := y.stored) && y.stored.resourceVersion == x.stored.resourceVersion + n
  }

  ghost predicate AllVisit(orders: seq<seq<string>>, mg: map<string, ModelGateway>) {
    forall order :: order in orders ==> Visits(order, mg)
  }

  lemma VisitingStep(x: Managed, g: Gateway, spec: GatewaySpec, env: Env, order: seq<string>, rest: seq<seq<string>>)
    ensures FreshPasses(x, g, spec, Visiting(env, [order] + rest)) ==
            FreshPasses(FreshPass(x, g, spec, env.(order := order)).0, g, spec, Visiting(env, rest))
  {
    var envs := Visiting(env, [order] + rest);
    assert envs[0] == env.(order := order) && envs[1..] == Visiting(env, rest);
  }

  function Visiting(env: Env, orders: seq<seq<string>>): seq<Env> {
    seq(|orders|, i requires 0 <= i < |orders| => env.(order := orders[i]))
  }
}
