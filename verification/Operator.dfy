/**
 The whole reconcile pass: what it does to the objects, the watch filter and the
 stored resource for every world and failure pattern, and how it ends when nothing
 disturbs it.
 */
module Operator {
  import opened Wrappers
  import opened Names
  import opened Cluster
  import opened Workloads
  import opened Secrets
  import opened Spec
  import opened Reports
  import opened Validation
  import AsyncQueues
  import Readiness
  import Status
  import opened StatusPatching

  // Everything outside the operator that one pass depends on, the order in which it
  // visits the model gateways included. Rendering is an arbitrary function of the
  // spec and the local secret name that can fail with an arbitrary text.
  datatype Env = Env(
    order: seq<string>, secret: SecretFaults,
    renderBatch: (GatewaySpec, string) -> Result<seq<Manifest>, string>, hasAsyncRenderer: bool,
    renderAsync: (GatewaySpec, string) -> Result<seq<Manifest>, string>,
    workloads: Faults,
    deployments: Option<seq<Readiness.Deployment>>, statefulSets: Option<seq<Readiness.StatefulSet>>, statusFault: bool)

  datatype Rendering = RenderFailed(message: string) | NoAsyncRenderer | Rendered(manifests: seq<Manifest>)

  function Render(env: Env, spec: GatewaySpec, secretName: string): Rendering {
    match env.renderBatch(spec, secretName)
    case Err(text) => RenderFailed("batch-gateway chart render failed: " + text)
    case Ok(batch) =>
      if !env.hasAsyncRenderer then NoAsyncRenderer
      else match env.renderAsync(spec, secretName)
           case Err(text) => RenderFailed("async chart render failed: " + text)
           case Ok(async) => Rendered(batch + async)
  }

  // The part of a pass that follows the resolution of the Secret.
  function WorkloadObjects(s: Store, installed: set<GroupKind>, g: Gateway, env: Env, spec: GatewaySpec, secretName: string): Store {
    match Render(env, spec, secretName)
    case Rendered(ms) => Pass(s, installed, g, ms, env.workloads)
    case _ => s
  }

  ghost predicate WorkloadsOk(s: Store, installed: set<GroupKind>, g: Gateway, env: Env, spec: GatewaySpec, secretName: string) {
    match Render(env, spec, secretName)
    case Rendered(ms) => PassOk(s, installed, g, ms, env.workloads)
    case _ => false
  }

  // The objects after the part of a pass that follows validation.
  function AdmittedObjects(w: World, g: Gateway, spec: GatewaySpec, env: Env): Store {
    var (s1, r) := Resolve(w, g, spec.secretRef, env.secret);
    if r.Err? then s1 else WorkloadObjects(s1, w.installed, g, env, spec, r.value)
  }

  // The objects after a pass.
  function PassObjects(w: World, g: Gateway, spec: GatewaySpec, env: Env): Store {
    if Admissible(spec) then AdmittedObjects(w, g, spec, env) else w.objects
  }

  // Whether a pass gets as far as the status update.
  ghost predicate Reconciled(w: World, g: Gateway, spec: GatewaySpec, env: Env) {
    && Admissible(spec)
    && var (s1, r) := Resolve(w, g, spec.secretRef, env.secret);
       r.Ok? && WorkloadsOk(s1, w.installed, g, env, spec, r.value)
  }

  // The Secret that a pass starts to track.
  function AdmittedTracks(w: World, g: Gateway, spec: GatewaySpec, env: Env): set<string> {
    if Resolve(w, g, spec.secretRef, env.secret).1.Ok? && spec.secretRef.ns != "" && spec.secretRef.ns != g.ns
    then {Encode(spec.secretRef)} else {}
  }

  function Tracks(w: World, g: Gateway, spec: GatewaySpec, env: Env): set<string> {
    if Admissible(spec) then AdmittedTracks(w, g, spec, env) else {}
  }

  // The status write of a pass

  datatype StatusWrite = NoWrite | FailureOf(failure: Status.Failure) | Observation(comp: Readiness.ComponentStatus)

  function FailureFor(reason: string, message: string, conditions: seq<string>): StatusWrite {
    FailureOf(Status.Failure(reason, message, conditions))
  }

  function ResolveMessage(g: Gateway, ref: NsName, e: ResolveError): string {
    match e
    case ReferenceNotPermitted(crdInstalled) =>
      "reference not permitted: " +
      if crdInstalled then
        "no ReferenceGrant in namespace " + Quoted(Source(g, ref).ns) + " permits LLMBatchGateway " + Quoted(g.name) +
        " (namespace " + Quoted(g.ns) + ") to reference Secret " + Quoted(ref.name)
      else "ReferenceGrant CRD is not installed in the cluster"
    case SecretRefImmutable(was, wanted) =>
      "spec.secretRef is immutable: managed copy was created from " + Quoted(was) + ", cannot change to " + Quoted(wanted) +
      "; delete and recreate the LLMBatchGateway to use a different Secret"
    case _ => ""
  }

  function WriteOfResolveError(g: Gateway, ref: NsName, e: ResolveError): StatusWrite {
    match e
    case ReferenceNotPermitted(_) => FailureFor("ReferenceNotPermitted", ResolveMessage(g, ref, e), [Status.READY])
    case SecretRefImmutable(_, _) => FailureFor("SecretRefImmutable", ResolveMessage(g, ref, e), [Status.READY])
    case _ => NoWrite
  }

  ghost function WriteOfWorkloads(
    s: Store, installed: set<GroupKind>, g: Gateway, env: Env, spec: GatewaySpec, secretName: string): StatusWrite
  {
    var rendering := Render(env, spec, secretName);
    if rendering.RenderFailed? then FailureFor("RenderFailed", rendering.message, [Status.READY])
    else if !WorkloadsOk(s, installed, g, env, spec, secretName) || env.deployments.None? || env.statefulSets.None? then NoWrite
    else Observation(ComponentsOf(env.deployments.value, env.statefulSets.value, g.uid))
  }

  ghost function AdmittedWrite(w: World, g: Gateway, spec: GatewaySpec, env: Env): StatusWrite {
    var (s1, r) := Resolve(w, g, spec.secretRef, env.secret);
    match r
    case Err(e) => WriteOfResolveError(g, spec.secretRef, e)
    case Ok(name) => WriteOfWorkloads(s1, w.installed, g, env, spec, name)
  }

  ghost function WriteOf(w: World, g: Gateway, spec: GatewaySpec, env: Env): StatusWrite {
    if Admissible(spec) then AdmittedWrite(w, g, spec, env)
    else FailureFor("ValidationFailed", ValidationMessage(spec, env.order), Status.ALL_CONDITION_TYPES)
  }

  function Written(stored: Version, held: Version, write: StatusWrite, fault: bool): (Version, Option<PatchOutcome>) {
    match write
    case NoWrite => (stored, None)
    case FailureOf(f) => var (v, o) := FailureWrite(stored, held, f, fault); (v, Some(o))
    case Observation(comp) => var (v, o) := ObservedWrite(stored, held, comp, fault); (v, Some(o))
  }

  // Settled: no error and no requeue. Done: no error, requeue after the sync period.
  datatype Outcome = Settled | Done | Failed

  // A render failure is an error even when it could be recorded.
  function OutcomeOf(write: StatusWrite, patch: Option<PatchOutcome>): Outcome {
    match write
    case NoWrite => Failed
    case Observation(_) => if patch == Some(Landed) then Done else Failed
    case FailureOf(f) => if patch == Some(Landed) && f.reason != "RenderFailed" then Settled else Failed
  }

  // What the initial read of the gateway returns.
  datatype Fetched = Missing | Unreadable | Found(gateway: Gateway, spec: GatewaySpec)

  method Fail(server: StatusServer, gw: GatewayObject, reason: string, message: string, conditions: seq<string>, fault: bool)
    returns (outcome: Outcome)
    modifies server, gw
    ensures var write := FailureFor(reason, message, conditions);
            var written := Written(old(server.stored), old(gw.Held()), write, fault);
            server.stored == written.0 && outcome == OutcomeOf(write, written.1)
  {
    var o := RecordFailure(server, gw, Status.Failure(reason, message, conditions), fault);
    return if o.Landed? && reason != "RenderFailed" then Settled else Failed;
  }

  // Permanent errors are recorded and end the pass without an error.
  method FailResolve(server: StatusServer, gw: GatewayObject, g: Gateway, ref: NsName, e: ResolveError, fault: bool)
    returns (outcome: Outcome)
    modifies server, gw
    ensures var write := WriteOfResolveError(g, ref, e);
            var written := Written(old(server.stored), old(gw.Held()), write, fault);
            server.stored == written.0 && outcome == OutcomeOf(write, written.1)
  {
    if e.ReferenceNotPermitted? {
      outcome := Fail(server, gw, "ReferenceNotPermitted", ResolveMessage(g, ref, e), [Status.READY], fault);
    } else if e.SecretRefImmutable? {
      outcome := Fail(server, gw, "SecretRefImmutable", ResolveMessage(g, ref, e), [Status.READY], fault);
    } else {
      outcome := Failed;
    }
  }

  method RenderCharts(env: Env, spec: GatewaySpec, secretName: string) returns (r: Rendering)
    ensures r == Render(env, spec, secretName)
  {
    var batch := env.renderBatch(spec, secretName);
    if batch.Err? {
      return RenderFailed("batch-gateway chart render failed: " + batch.error);
    }
    if !env.hasAsyncRenderer {
      return NoAsyncRenderer;
    }
    var async := env.renderAsync(spec, secretName);
    if async.Err? {
      return RenderFailed("async chart render failed: " + async.error);
    }
    return Rendered(batch.value + async.value);
  }

  method ReconcileRendered(api: KubeApi, server: StatusServer, gw: GatewayObject, g: Gateway, env: Env, spec: GatewaySpec, secretName: string)
    returns (outcome: Outcome)
    modifies api`objects, server, gw
    ensures api.objects == WorkloadObjects(old(api.objects), api.installed, g, env, spec, secretName)
    ensures var write := WriteOfWorkloads(old(api.objects), api.installed, g, env, spec, secretName);
            var written := Written(old(server.stored), old(gw.Held()), write, env.statusFault);
            server.stored == written.0 && outcome == OutcomeOf(write, written.1)
  {
    var rendering := RenderCharts(env, spec, secretName);
    if rendering.RenderFailed? {
      outcome := Fail(server, gw, "RenderFailed", rendering.message, [Status.READY], env.statusFault);
      return;
    }
    if rendering.NoAsyncRenderer? {
      return Failed;
    }
    var ok := ReconcileWorkloads(api, g, rendering.manifests, env.workloads);
    if !ok {
      return Failed;
    }
    var patched, _ := UpdateStatus(server, gw, g.uid, env.deployments, env.statefulSets, env.statusFault);
    return if patched.Landed? then Done else Failed;
  }

  // Everything a pass can change, the stored resource included.
  datatype Managed = Managed(world: World, watched: set<string>, stored: Version)

  function ManagedBy(api: KubeApi, filter: SecretWatchFilter, server: StatusServer): Managed
    reads api, filter, server
  {
    Managed(WorldOf(api), filter.watched, server.stored)
  }

  // What one pass over a gateway does that was found and is held as one version.
  ghost function AfterPass(x: Managed, held: Version, g: Gateway, spec: GatewaySpec, env: Env): (Managed, Outcome) {
    var write := WriteOf(x.world, g, spec, env);
    var (v, o) := Written(x.stored, held, write, env.statusFault);
    (Managed(x.world.(objects := PassObjects(x.world, g, spec, env)), x.watched + Tracks(x.world, g, spec, env), v),
     OutcomeOf(write, o))
  }

  method ReconcileFound(api: KubeApi, filter: SecretWatchFilter, server: StatusServer, gw: GatewayObject,
                        g: Gateway, spec: GatewaySpec, configured: array<Queue>, env: Env) returns (outcome: Outcome)
    requires spec.asyncConfig.Some? ==> configured[..] == AsyncQueues.ConfiguredQueues(spec.asyncConfig.value)
    requires Visits(env.order, spec.modelGateways)
    modifies api`objects, filter, server, gw
    ensures (ManagedBy(api, filter, server), outcome) ==
            AfterPass(old(ManagedBy(api, filter, server)), old(gw.Held()), g, spec, env)
  {
    var invalid := ValidateSpec(spec, configured, env.order);
    if invalid.Some? {
      var message := "Spec validation failed: " + ErrorText(spec, invalid.value);
      assert message == ValidationMessage(spec, env.order);
      outcome := Fail(server, gw, "ValidationFailed", message, Status.ALL_CONDITION_TYPES, env.statusFault);
      assert filter.watched == filter.watched + {};
    } else {
      outcome := ReconcileAdmitted(api, filter, server, gw, g, spec, env);
    }
  }

  method ReconcileAdmitted(api: KubeApi, filter: SecretWatchFilter, server: StatusServer, gw: GatewayObject,
                           g: Gateway, spec: GatewaySpec, env: Env) returns (outcome: Outcome)
    modifies api`objects, filter, server, gw
    ensures api.objects == AdmittedObjects(old(WorldOf(api)), g, spec, env)
    ensures filter.watched == old(filter.watched) + AdmittedTracks(old(WorldOf(api)), g, spec, env)
    ensures var write := AdmittedWrite(old(WorldOf(api)), g, spec, env);
            var written := Written(old(server.stored), old(gw.Held()), write, env.statusFault);
            server.stored == written.0 && outcome == OutcomeOf(write, written.1)
  {
    var resolved := ResolveSecret(api, g, spec.secretRef, env.secret);
    if resolved.Err? {
      outcome := FailResolve(server, gw, g, spec.secretRef, resolved.error, env.statusFault);
      return;
    }
    if spec.secretRef.ns != "" && spec.secretRef.ns != g.ns {
      filter.Add(spec.secretRef);
    }
    outcome := ReconcileRendered(api, server, gw, g, env, spec, resolved.value);
  }

  method Reconcile(api: KubeApi, filter: SecretWatchFilter, server: StatusServer, gw: GatewayObject,
                   fetched: Fetched, configured: array<Queue>, env: Env) returns (outcome: Outcome)
    requires fetched.Found? && fetched.spec.asyncConfig.Some? ==>
               configured[..] == AsyncQueues.ConfiguredQueues(fetched.spec.asyncConfig.value)
    requires fetched.Found? ==> Visits(env.order, fetched.spec.modelGateways)
    modifies api`objects, filter, server, gw
    ensures !fetched.Found? ==>
              && ManagedBy(api, filter, server) == old(ManagedBy(api, filter, server))
              && outcome == if fetched.Missing? then Settled else Failed
    ensures fetched.Found? ==>
              (ManagedBy(api, filter, server), outcome) ==
              AfterPass(old(ManagedBy(api, filter, server)), old(gw.Held()), fetched.gateway, fetched.spec, env)
  {
    match fetched
    case Missing => return Settled;
    case Unreadable => return Failed;
    case Found(g, spec) =>
      outcome := ReconcileFound(api, filter, server, gw, g, spec, configured, env);
  }

  lemma ObservesIff(w: World, g: Gateway, spec: GatewaySpec, env: Env)
    ensures WriteOf(w, g, spec, env).Observation? <==>
            Reconciled(w, g, spec, env) && env.deployments.Some? && env.statefulSets.Some?
    ensures WriteOf(w, g, spec, env).Observation? ==>
              WriteOf(w, g, spec, env).comp == ComponentsOf(env.deployments.value, env.statefulSets.value, g.uid)
  {
    if Admissible(spec) {
      var (s1, r) := Resolve(w, g, spec.secretRef, env.secret);
      if r.Ok? {
        assert WriteOf(w, g, spec, env) == WriteOfWorkloads(s1, w.installed, g, env, spec, r.value);
      } else {
        assert WriteOf(w, g, spec, env) == WriteOfResolveError(g, spec.secretRef, r.error);
      }
    }
  }

  lemma DoneIff(stored: Version, held: Version, write: StatusWrite, fault: bool)
    ensures OutcomeOf(write, Written(stored, held, write, fault).1).Done? <==>
            write.Observation? && ObservedWrite(stored, held, write.comp, fault).1.Landed?
  {
  }

  // What an undisturbed pass depends on

  ghost predicate Undisturbed(env: Env) {
    && env.secret == SecretFaults(false, false, false, false)
    && NoFaults(env.workloads)
    && env.deployments.Some? && env.statefulSets.Some? && !env.statusFault
  }

  // The name the charts are rendered with.
  function LocalName(g: Gateway, ref: NsName): string {
    if CrossNamespace(g, ref) then CopyName(g) else ref.name
  }

  // The reference is refused for good: another source is recorded, or no grant licenses it.
  ghost predicate Refused(w: World, g: Gateway, ref: NsName) {
    && CrossNamespace(g, ref)
    && (|| (CopyKey(g) in w.objects && Annotation(w.objects[CopyKey(g)]) != Encode(Source(g, ref)))
        || !Licensed(w, g, Source(g, ref)))
  }

  // The source is there and its copy can be written.
  ghost predicate Copyable(w: World, g: Gateway, ref: NsName) {
    CrossNamespace(g, ref) ==>
      && SecretKey(Source(g, ref)) in w.objects
      && SECRET in w.installed
      && (CopyKey(g) in w.objects ==> !ForeignController(w.objects[CopyKey(g)], g))
  }

  lemma ResolutionObstructsNothing(w: World, g: Gateway, ref: NsName, f: SecretFaults, d: map<Key, Fields>)
    ensures Obstructed(Resolve(w, g, ref, f).0, d, g) <==> Obstructed(w.objects, d, g)
  {
    var s1 := Resolve(w, g, ref, f).0;
    if s1 != w.objects {
      var src, k := Source(g, ref), CopyKey(g);
      var fields := CopyManifest(g, src, w.objects[SecretKey(src)]).fields;
      StampOwnership(w.objects, k, fields, g);
      assert s1 == w.objects[k := Stamp(w.objects, k, fields, g)];
      assert !ForeignController(s1[k], g) && (k in w.objects ==> !ForeignController(w.objects[k], g));
      forall x | x in d
        ensures x in s1 && ForeignController(s1[x], g) <==> x in w.objects && ForeignController(w.objects[x], g)
      {
      }
    }
  }

  lemma UndisturbedResolution(w: World, g: Gateway, ref: NsName, f: SecretFaults)
    requires f == SecretFaults(false, false, false, false)
    ensures var r := Resolve(w, g, ref, f).1;
            && (r.Ok? <==> !Refused(w, g, ref) && Copyable(w, g, ref))
            && (r.Ok? ==> r.value == LocalName(g, ref))
            && (Refused(w, g, ref) <==> r.Err? && (r.error.SecretRefImmutable? || r.error.ReferenceNotPermitted?))
  {
  }

  lemma UndisturbedWorkloads(w: World, g: Gateway, ref: NsName, env: Env, spec: GatewaySpec, secretName: string)
    requires Undisturbed(env)
    ensures WorkloadsOk(Resolve(w, g, ref, env.secret).0, w.installed, g, env, spec, secretName) <==>
            var rendering := Render(env, spec, secretName);
            rendering.Rendered? && !Obstructed(w.objects, Desired(w.installed, g, rendering.manifests), g)
  {
    var rendering := Render(env, spec, secretName);
    if rendering.Rendered? {
      var s1 := Resolve(w, g, ref, env.secret).0;
      UndisturbedPassSucceedsIff(s1, w.installed, g, rendering.manifests, env.workloads);
      ResolutionObstructsNothing(w, g, ref, env.secret, Desired(w.installed, g, rendering.manifests));
    }
  }

  // A write that names the stored version lands unless the call fails.
  lemma SettledIff(stored: Version, write: StatusWrite)
    ensures OutcomeOf(write, Written(stored, stored, write, false).1).Settled? <==>
            write.FailureOf? && write.failure.reason != "RenderFailed"
    ensures write.Observation? ==> OutcomeOf(write, Written(stored, stored, write, false).1).Done?
  {
  }

  lemma SettlesIff(w: World, g: Gateway, spec: GatewaySpec, env: Env)
    ensures var write := WriteOf(w, g, spec, env);
            var r := Resolve(w, g, spec.secretRef, env.secret).1;
            write.FailureOf? && write.failure.reason != "RenderFailed" <==>
            !Admissible(spec) || (r.Err? && (r.error.SecretRefImmutable? || r.error.ReferenceNotPermitted?))
  {
    ReasonsDiffer();
    if Admissible(spec) {
      var (s1, r) := Resolve(w, g, spec.secretRef, env.secret);
      if r.Ok? {
        assert WriteOf(w, g, spec, env) == WriteOfWorkloads(s1, w.installed, g, env, spec, r.value);
      } else {
        assert WriteOf(w, g, spec, env) == WriteOfResolveError(g, spec.secretRef, r.error);
      }
    }
  }

  /**
   How an undisturbed pass ends, in terms of the spec, the cluster it finds and the
   charts. It is done iff the spec is admissible, the reference can be resolved,
   the charts render and no rendered object has a foreign controller; it gives up
   until somebody acts iff the spec is inadmissible or the reference is refused; in
   all other cases it fails and is tried again.
   */
  lemma UndisturbedOutcome(w: World, stored: Version, g: Gateway, spec: GatewaySpec, env: Env)
    requires Undisturbed(env)
    ensures var write := WriteOf(w, g, spec, env);
            var outcome := OutcomeOf(write, Written(stored, stored, write, false).1);
            var rendering := Render(env, spec, LocalName(g, spec.secretRef));
            && (outcome.Done? <==>
                && Admissible(spec)
                && !Refused(w, g, spec.secretRef) && Copyable(w, g, spec.secretRef)
                && rendering.Rendered?
                && !Obstructed(w.objects, Desired(w.installed, g, rendering.manifests), g))
            && (outcome.Settled? <==> !Admissible(spec) || Refused(w, g, spec.secretRef))
  {
    var write := WriteOf(w, g, spec, env);
    DoneIff(stored, stored, write, false);
    SettledIff(stored, write);
    ObservesIff(w, g, spec, env);
    SettlesIff(w, g, spec, env);
    UndisturbedResolution(w, g, spec.secretRef, env.secret);
    UndisturbedWorkloads(w, g, spec.secretRef, env, spec, LocalName(g, spec.secretRef));
  }

  lemma ReasonsDiffer()
    ensures "RenderFailed" != "ValidationFailed"
    ensures "RenderFailed" != "ReferenceNotPermitted"
    ensures "RenderFailed" != "SecretRefImmutable"
  {
    assert |"RenderFailed"| == 12 && |"ValidationFailed"| == 16;
    assert |"ReferenceNotPermitted"| == 21 && |"SecretRefImmutable"| == 18;
  }
}
