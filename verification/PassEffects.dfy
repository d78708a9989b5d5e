/**
 What one reconcile pass does, on the fields of the objects, the spec and the status
 and on the two charts: what it deploys, what it can delete, what it spares, and what
 it records when it stops early.
 */
module PassEffects {
  import opened Wrappers
  import opened Names
  import opened Cluster
  import opened Workloads
  import opened Secrets
  import opened Spec
  import opened Reports
  import opened Validation
  import Status
  import opened StatusPatching
  import opened Operator

  // The name that the charts are rendered with, on the fields.
  lemma NameOnFields(g: Gateway, ref: NsName)
    ensures LocalName(g, ref) == if ref.ns == "" || ref.ns == g.ns then ref.name else g.name + "-credentials"
  {
    CopyOnFields(World(map[], {}, map[]), g, ref);
  }

  // Both charts render, and their manifests are the ones that are applied.
  lemma RenderingOnCharts(env: Env, spec: GatewaySpec, name: string)
    ensures Render(env, spec, name).Rendered? <==>
            env.hasAsyncRenderer && env.renderBatch(spec, name).Ok? && env.renderAsync(spec, name).Ok?
    ensures Render(env, spec, name).Rendered? ==>
              forall m :: m in Render(env, spec, name).manifests <==>
                            m in env.renderBatch(spec, name).value || m in env.renderAsync(spec, name).value
    ensures Render(env, spec, name).RenderFailed? <==>
            env.renderBatch(spec, name).Err? || (env.hasAsyncRenderer && env.renderAsync(spec, name).Err?)
  {
  }

  /**
   Convergence of a whole pass on its two charts. A pass that reconciles has rendered
   both; every manifest of either whose kind is installed has its object, controlled
   by the gateway, with the fields of a manifest of that kind and name; and whatever
   of an installed managed kind the gateway controls in its namespace stems from one
   of the two charts.
   */
  lemma ChartsAreDeployed(w: World, g: Gateway, spec: GatewaySpec, env: Env)
    requires Reconciled(w, g, spec, env)
    ensures var name := if spec.secretRef.ns == "" || spec.secretRef.ns == g.ns then spec.secretRef.name
                        else g.name + "-credentials";
            var batch, async := env.renderBatch(spec, name), env.renderAsync(spec, name);
            var s' := PassObjects(w, g, spec, env);
            && env.hasAsyncRenderer && batch.Ok? && async.Ok?
            && (forall m :: (m in batch.value || m in async.value) && m.gk in w.installed ==>
                  var k := Key(g.ns, m.gk, m.name);
                  && k in s'
                  && OwnerRef(g.uid, "LLMBatchGateway", "batch.llm-d.ai/v1alpha1", Some(true)) in s'[k].owners
                  && exists n :: (n in batch.value || n in async.value) && n.gk == m.gk && n.name == m.name &&
                                 s'[k].fields == n.fields)
            && (forall k, r :: k in s' && k.ns == g.ns && k.gk in MANAGED && k.gk in w.installed && r in s'[k].owners &&
                               r.uid == g.uid && r.kind == "LLMBatchGateway" &&
                               r.apiVersion == "batch.llm-d.ai/v1alpha1" && r.controller == Some(true) ==>
                  exists m :: (m in batch.value || m in async.value) && m.gk == k.gk && m.name == k.name)
  {
    var (s1, r) := Resolve(w, g, spec.secretRef, env.secret);
    ResolvedName(w, g, spec.secretRef, env.secret);
    NameOnFields(g, spec.secretRef);
    RenderingOnCharts(env, spec, r.value);
    PassDeploysManifests(s1, w.installed, g, Render(env, spec, r.value).manifests, env.workloads);
  }

  lemma ResolvedName(w: World, g: Gateway, ref: NsName, f: SecretFaults)
    ensures Resolve(w, g, ref, f).1.Ok? ==> Resolve(w, g, ref, f).1.value == LocalName(g, ref)
  {
    LicensedCopying(w, g, ref, f);
  }

  /**
   What a pass can delete at all, on the fields: an object in the gateway's namespace,
   of an installed managed kind, with a controller reference of the gateway, that
   neither chart names, in a pass that rendered both.
   */
  lemma PassDeletesOnFields(w: World, g: Gateway, spec: GatewaySpec, env: Env, k: Key)
    requires k in w.objects && k !in PassObjects(w, g, spec, env)
    ensures var name := if spec.secretRef.ns == "" || spec.secretRef.ns == g.ns then spec.secretRef.name
                        else g.name + "-credentials";
            var batch, async := env.renderBatch(spec, name), env.renderAsync(spec, name);
            && Admissible(spec) && env.hasAsyncRenderer && batch.Ok? && async.Ok?
            && k.ns == g.ns && k.gk in MANAGED && k.gk in w.installed
            && (exists r :: r in w.objects[k].owners && r.uid == g.uid && r.kind == "LLMBatchGateway" &&
                            r.apiVersion == "batch.llm-d.ai/v1alpha1" && r.controller == Some(true))
            && (forall m :: m in batch.value || m in async.value ==> m.gk != k.gk || m.name != k.name)
            && !env.workloads.list(k.gk) && !env.workloads.delete(k).DeleteFailed?
  {
    var (s1, r) := Resolve(w, g, spec.secretRef, env.secret);
    LicensedCopying(w, g, spec.secretRef, env.secret);
    ResolvedName(w, g, spec.secretRef, env.secret);
    NameOnFields(g, spec.secretRef);
    assert r.Ok? && Render(env, spec, r.value).Rendered?;
    RenderingOnCharts(env, spec, r.value);
    PassDeletesExactly(s1, w.installed, g, Render(env, spec, r.value).manifests, env.workloads, k);
    SecretIsNotManaged();
    assert k != CopyKey(g);
  }

  lemma SecretIsNotManaged()
    ensures SECRET !in MANAGED
  {
    assert |SECRET.kind| == 6;
    assert forall i :: 0 <= i < |MANAGED| ==> MANAGED[i] != SECRET;
  }

  // Neither chart names k, for any Secret name.
  ghost predicate ChartsSpare(g: Gateway, spec: GatewaySpec, env: Env, k: Key) {
    k.ns == g.ns ==>
      forall name, m: Manifest ::
        || (env.renderBatch(spec, name).Ok? && m in env.renderBatch(spec, name).value)
        || (env.renderAsync(spec, name).Ok? && m in env.renderAsync(spec, name).value) ==>
          m.gk != k.gk || m.name != k.name
  }

  /** An object that nobody controls, that no chart names and that is not the managed copy, is not touched by a pass. */
  lemma PassSparesUncontrolled(w: World, g: Gateway, spec: GatewaySpec, env: Env, k: Key)
    requires k in w.objects && forall r :: r in w.objects[k].owners ==> r.controller != Some(true)
    requires ChartsSpare(g, spec, env, k)
    requires k != Key(g.ns, GroupKind("", "Secret"), g.name + "-credentials")
    ensures k in PassObjects(w, g, spec, env) && PassObjects(w, g, spec, env)[k] == w.objects[k]
  {
    var (s1, r) := Resolve(w, g, spec.secretRef, env.secret);
    LicensedCopying(w, g, spec.secretRef, env.secret);
    CopyOnFields(w, g, spec.secretRef);
    if r.Ok? && Render(env, spec, r.value).Rendered? {
      RenderingOnCharts(env, spec, r.value);
      UncontrolledIsSpared(s1, w.installed, g, Render(env, spec, r.value).manifests, env.workloads, k);
    }
  }

  /** A pass whose status call fails, or that holds another version than the stored one, fails and leaves the stored one. */
  lemma StaleOrFaultyPassFails(x: Managed, held: Version, g: Gateway, spec: GatewaySpec, env: Env)
    requires env.statusFault || held.resourceVersion != x.stored.resourceVersion
    ensures var (y, outcome) := AfterPass(x, held, g, spec, env);
            outcome.Failed? && y.stored == x.stored
  {
  }

  /** A pass is done only if it reconciled, both workload lists were read and its observation landed. */
  lemma DoneOnCharts(x: Managed, held: Version, g: Gateway, spec: GatewaySpec, env: Env)
    ensures AfterPass(x, held, g, spec, env).1.Done? <==>
            && Reconciled(x.world, g, spec, env)
            && env.deployments.Some? && env.statefulSets.Some?
            && !env.statusFault && held.resourceVersion == x.stored.resourceVersion
    ensures AfterPass(x, held, g, spec, env).1.Done? ==>
              var name := if spec.secretRef.ns == "" || spec.secretRef.ns == g.ns then spec.secretRef.name
                          else g.name + "-credentials";
              env.hasAsyncRenderer && env.renderBatch(spec, name).Ok? && env.renderAsync(spec, name).Ok?
  {
    var write := WriteOf(x.world, g, spec, env);
    ObservesIff(x.world, g, spec, env);
    DoneIff(x.stored, held, write, env.statusFault);
    if Reconciled(x.world, g, spec, env) {
      ChartsAreDeployed(x.world, g, spec, env);
    }
  }

  // The failure that one step of a pass records, when the status call works.
  ghost predicate Records(x: Managed, y: Managed, types: set<string>, reason: string) {
    && y.stored.status.observedGeneration == x.stored.generation
    && y.stored.status.componentStatus == x.stored.status.componentStatus
    && (forall t :: t in types ==>
          var c := Status.Find(y.stored.status.conditions, t);
          && c.Some? && c.value.status == "False" && c.value.reason == reason
          && c.value.observedGeneration == x.stored.generation)
    && (forall t :: t !in types ==>
          Status.Find(y.stored.status.conditions, t) == Status.Find(x.stored.status.conditions, t))
  }

  lemma FailureIsRecorded(v: Version, f: Status.Failure)
    ensures var v1 := FailureWrite(v, v, f, false).0;
            && v1.status.observedGeneration == v.generation
            && v1.status.componentStatus == v.status.componentStatus
            && (forall t :: t in f.conditions ==>
                  Status.Find(v1.status.conditions, t) ==
                  Some(Status.Condition(t, "False", f.reason, f.message, v.generation)))
            && (forall t :: t !in f.conditions ==>
                  Status.Find(v1.status.conditions, t) == Status.Find(v.status.conditions, t))
  {
    LandedFailureIsExact(v.status, v, f);
    PatchLandsIff(v, v.resourceVersion, FailureFields(Status.FailureStatus(v.status, v.generation, f)), false);
  }

  /**
   A spec that is not admitted: the five maintained conditions become False with
   reason ValidationFailed, the pass ends without an error, and no object and no
   watched key changes.
   */
  lemma InvalidSpecIsRecorded(x: Managed, g: Gateway, spec: GatewaySpec, env: Env)
    requires !Admissible(spec) && !env.statusFault
    ensures var (y, outcome) := AfterPass(x, x.stored, g, spec, env);
            && outcome.Settled? && y == x.(stored := y.stored)
            && Records(x, y, {"Ready", "APIServerAvailable", "ProcessorAvailable", "GCAvailable", "AsyncProcessorAvailable"},
                       "ValidationFailed")
  {
    FailureIsRecorded(x.stored, Status.Failure("ValidationFailed", ValidationMessage(spec, env.order), Status.ALL_CONDITION_TYPES));
    Status.TypesByName();
    ReasonsDiffer();
    assert x.watched + {} == x.watched;
  }

  /**
   A refused reference: Ready becomes False with the reason of the refusal, the pass
   ends without an error and changes no object. Another failed resolution is an error
   and writes nothing at all.
   */
  lemma FailedResolutionIsRecorded(x: Managed, g: Gateway, spec: GatewaySpec, env: Env)
    requires Admissible(spec) && Resolve(x.world, g, spec.secretRef, env.secret).1.Err? && !env.statusFault
    ensures var (y, outcome) := AfterPass(x, x.stored, g, spec, env);
            && y == x.(stored := y.stored)
            && match Resolve(x.world, g, spec.secretRef, env.secret).1.error
               case ReferenceNotPermitted(_) => outcome.Settled? && Records(x, y, {"Ready"}, "ReferenceNotPermitted")
               case SecretRefImmutable(_, _) => outcome.Settled? && Records(x, y, {"Ready"}, "SecretRefImmutable")
               case _ => outcome.Failed? && y == x
  {
    var e := Resolve(x.world, g, spec.secretRef, env.secret).1.error;
    RefusalWrites(x, g, spec, env, e);
    if e.ReferenceNotPermitted? {
      RecordedIn(x, Status.Failure("ReferenceNotPermitted", ResolveMessage(g, spec.secretRef, e), ["Ready"]));
    } else if e.SecretRefImmutable? {
      RecordedIn(x, Status.Failure("SecretRefImmutable", ResolveMessage(g, spec.secretRef, e), ["Ready"]));
    }
  }

  lemma RefusalWrites(x: Managed, g: Gateway, spec: GatewaySpec, env: Env, e: ResolveError)
    requires Admissible(spec) && Resolve(x.world, g, spec.secretRef, env.secret).1 == Err(e) && !env.statusFault
    ensures var (v, o) := Written(x.stored, x.stored, WriteOfResolveError(g, spec.secretRef, e), false);
            AfterPass(x, x.stored, g, spec, env) ==
            (x.(stored := v), OutcomeOf(WriteOfResolveError(g, spec.secretRef, e), o))
  {
    LicensedCopying(x.world, g, spec.secretRef, env.secret);
    assert x.watched + {} == x.watched;
  }

  lemma RecordedIn(x: Managed, f: Status.Failure)
    requires f.conditions == ["Ready"] && f.reason in {"ReferenceNotPermitted", "SecretRefImmutable"}
    ensures var (v, o) := Written(x.stored, x.stored, FailureOf(f), false);
            Records(x, x.(stored := v), {"Ready"}, f.reason) && OutcomeOf(FailureOf(f), o).Settled?
  {
    FailureIsRecorded(x.stored, f);
    ReasonsDiffer();
  }

  /** After a resolution a reference into another namespace is tracked, whatever comes next, and nothing else is. */
  lemma ResolvedSourceIsTracked(x: Managed, held: Version, g: Gateway, spec: GatewaySpec, env: Env)
    ensures var ref := spec.secretRef;
            AfterPass(x, held, g, spec, env).0.watched ==
            if Admissible(spec) && Resolve(x.world, g, ref, env.secret).1.Ok? && ref.ns != "" && ref.ns != g.ns
            then x.watched + {ref.ns + "/" + ref.name} else x.watched
  {
    CopyOnFields(x.world, g, spec.secretRef);
  }

  /**
   A chart that does not render makes Ready False with reason RenderFailed, and
   without a renderer for the second chart nothing is written; both are errors and
   touch no object beyond the copy.
   */
  lemma FailedRenderIsRecorded(x: Managed, g: Gateway, spec: GatewaySpec, env: Env)
    requires Admissible(spec) && Resolve(x.world, g, spec.secretRef, env.secret).1.Ok? && !env.statusFault
    ensures var ref := spec.secretRef;
            var name := if ref.ns == "" || ref.ns == g.ns then ref.name else g.name + "-credentials";
            var (y, outcome) := AfterPass(x, x.stored, g, spec, env);
            && (env.renderBatch(spec, name).Err? || (env.hasAsyncRenderer && env.renderAsync(spec, name).Err?) ==>
                  && outcome.Failed? && Records(x, y, {"Ready"}, "RenderFailed")
                  && y.world.objects == Resolve(x.world, g, ref, env.secret).0)
            && (env.renderBatch(spec, name).Ok? && !env.hasAsyncRenderer ==>
                  && outcome.Failed? && y.stored == x.stored
                  && y.world.objects == Resolve(x.world, g, ref, env.secret).0)
  {
    var r := Resolve(x.world, g, spec.secretRef, env.secret).1;
    ResolvedName(x.world, g, spec.secretRef, env.secret);
    NameOnFields(g, spec.secretRef);
    RenderingOnCharts(env, spec, r.value);
    UnrenderedWrites(x, g, spec, env);
    var rendering := Render(env, spec, r.value);
    if rendering.RenderFailed? {
      FailureIsRecorded(x.stored, Status.Failure("RenderFailed", rendering.message, ["Ready"]));
    }
  }

  lemma UnrenderedWrites(x: Managed, g: Gateway, spec: GatewaySpec, env: Env)
    requires Admissible(spec) && Resolve(x.world, g, spec.secretRef, env.secret).1.Ok? && !env.statusFault
    ensures var (s1, r) := Resolve(x.world, g, spec.secretRef, env.secret);
            var rendering := Render(env, spec, r.value);
            var (y, outcome) := AfterPass(x, x.stored, g, spec, env);
            && (rendering.RenderFailed? ==>
                  && outcome.Failed? && y.world.objects == s1
                  && y.stored == FailureWrite(x.stored, x.stored,
                                              Status.Failure("RenderFailed", rendering.message, ["Ready"]), false).0)
            && (rendering.NoAsyncRenderer? ==> outcome.Failed? && y.world.objects == s1 && y.stored == x.stored)
  {
  }
}
