/**
 The status patch under optimistic concurrency: the server side, the patch
 builder, and the two writers. A patch lands only on the version it names, and
 then changes exactly the fields that were added to it.
 */
module StatusPatching {
  import opened Wrappers
  import opened MergePatch
  import opened Readiness
  import opened Status

  const CONDITIONS := "conditions"
  const COMPONENT_STATUS := "componentStatus"
  const OBSERVED_GENERATION := "observedGeneration"

  // The stored resource, as far as status writes can see it.
  datatype Version = Version(generation: int, resourceVersion: nat, status: GatewayStatus)

  datatype PatchOutcome = Landed | Conflict | PatchFailed

  // The status after a merge patch with the given status members.
  function Patched(s: GatewayStatus, fields: map<string, Json>): GatewayStatus {
    DecodeStatus(Merge(EncodeStatus(s), JObj(fields)))
  }

  // A write that changes nothing does not create a new version.
  function PatchVersion(v: Version, rv: nat, fields: map<string, Json>, fault: bool): (Version, PatchOutcome) {
    if fault then (v, PatchFailed)
    else if rv != v.resourceVersion then (v, Conflict)
    else if Patched(v.status, fields) == v.status then (v, Landed)
    else (Version(v.generation, v.resourceVersion + 1, Patched(v.status, fields)), Landed)
  }

  // Frame

  function MergeReplicas(stored: Option<ReplicaStatus>, seen: Option<ReplicaStatus>): Option<ReplicaStatus> {
    if seen.Some? then seen else stored
  }

  // Observed components win; unobserved ones keep the stored entry.
  function MergeComponents(stored: Option<ComponentStatus>, seen: ComponentStatus): ComponentStatus {
    var s := if stored.Some? then stored.value else NO_COMPONENTS;
    ComponentStatus(MergeReplicas(s.apiServer, seen.apiServer), MergeReplicas(s.processor, seen.processor),
                    MergeReplicas(s.gc, seen.gc), MergeReplicas(s.asyncProcessor, seen.asyncProcessor))
  }

  /** Status members that are not in the patch keep their stored value. */
  lemma PatchKeepsOtherFields(s: GatewayStatus, fields: map<string, Json>)
    ensures OBSERVED_GENERATION !in fields ==> Patched(s, fields).observedGeneration == s.observedGeneration
    ensures CONDITIONS !in fields ==> Patched(s, fields).conditions == s.conditions
    ensures COMPONENT_STATUS !in fields ==> Patched(s, fields).componentStatus == s.componentStatus
  {
    StatusRoundTrip(s);
    MergeFrame(EncodeStatus(s), fields, OBSERVED_GENERATION);
    MergeFrame(EncodeStatus(s), fields, CONDITIONS);
    MergeFrame(EncodeStatus(s), fields, COMPONENT_STATUS);
  }

  lemma PatchReplacesConditions(s: GatewayStatus, fields: map<string, Json>, cs: seq<Condition>)
    requires CONDITIONS in fields && fields[CONDITIONS] == EncodeConditions(cs)
    ensures Patched(s, fields).conditions == cs
  {
    ConditionsRoundTrip(cs);
    MergeFrame(EncodeStatus(s), fields, CONDITIONS);
  }

  lemma PatchReplacesGeneration(s: GatewayStatus, fields: map<string, Json>, generation: int)
    requires OBSERVED_GENERATION in fields && fields[OBSERVED_GENERATION] == JNum(generation)
    ensures Patched(s, fields).observedGeneration == generation
  {
    MergeFrame(EncodeStatus(s), fields, OBSERVED_GENERATION);
  }

  lemma MergedReplicas(stored: Json, seen: ReplicaStatus)
    ensures DecodeReplicas(Merge(stored, EncodeReplicas(seen))) == Some(seen)
  {
  }

  // One member of the componentStatus object.
  lemma MergedMember(stored: Json, seen: Json, name: string, st: Option<ReplicaStatus>)
    requires seen.JObj?
    requires name in seen.fields <==> st.Some?
    requires st.Some? ==> seen.fields[name] == EncodeReplicas(st.value)
    ensures DecodeReplicas(FieldOf(Merge(stored, seen), name)) ==
            MergeReplicas(DecodeReplicas(FieldOf(stored, name)), st)
  {
    MergeFrame(stored, seen.fields, name);
    if st.Some? {
      MergedReplicas(FieldOf(stored, name), st.value);
    }
  }

  lemma PatchMergesComponents(s: GatewayStatus, fields: map<string, Json>, seen: ComponentStatus)
    requires COMPONENT_STATUS in fields && fields[COMPONENT_STATUS] == EncodeComponents(seen)
    ensures Patched(s, fields).componentStatus == Some(MergeComponents(s.componentStatus, seen))
  {
    StatusRoundTrip(s);
    var stored := FieldOf(EncodeStatus(s), COMPONENT_STATUS);
    var patch := EncodeComponents(seen);
    MergeFrame(EncodeStatus(s), fields, COMPONENT_STATUS);
    MergedMember(stored, patch, "apiServer", seen.apiServer);
    MergedMember(stored, patch, "processor", seen.processor);
    MergedMember(stored, patch, "gc", seen.gc);
    MergedMember(stored, patch, "asyncProcessor", seen.asyncProcessor);
    assert DecodeComponents(stored) == s.componentStatus;
  }

  // Repeated patches

  // What a merge makes of one member depends only on what the member decoded to.
  lemma MergedNum(a: Json, b: Json, p: map<string, Json>, name: string)
    requires DecodeNum(FieldOf(a, name)) == DecodeNum(FieldOf(b, name))
    ensures DecodeNum(FieldOf(Merge(a, JObj(p)), name)) == DecodeNum(FieldOf(Merge(b, JObj(p)), name))
  {
    MergeFrame(a, p, name);
    MergeFrame(b, p, name);
  }

  lemma MergedReplicasAlike(a: Json, b: Json, p: map<string, Json>, name: string)
    requires DecodeReplicas(FieldOf(a, name)) == DecodeReplicas(FieldOf(b, name))
    ensures DecodeReplicas(FieldOf(Merge(a, JObj(p)), name)) == DecodeReplicas(FieldOf(Merge(b, JObj(p)), name))
  {
    MergeFrame(a, p, name);
    MergeFrame(b, p, name);
    if name in p && p[name].JObj? {
      MergedNum(FieldOf(a, name), FieldOf(b, name), p[name].fields, "replicas");
      MergedNum(FieldOf(a, name), FieldOf(b, name), p[name].fields, "readyReplicas");
    }
  }

  lemma MergedComponentsAlike(a: Json, b: Json, p: map<string, Json>)
    requires DecodeComponents(FieldOf(a, COMPONENT_STATUS)) == DecodeComponents(FieldOf(b, COMPONENT_STATUS))
    ensures DecodeComponents(FieldOf(Merge(a, JObj(p)), COMPONENT_STATUS)) ==
            DecodeComponents(FieldOf(Merge(b, JObj(p)), COMPONENT_STATUS))
  {
    MergeFrame(a, p, COMPONENT_STATUS);
    MergeFrame(b, p, COMPONENT_STATUS);
    if COMPONENT_STATUS in p && p[COMPONENT_STATUS].JObj? {
      var x, y, q := FieldOf(a, COMPONENT_STATUS), FieldOf(b, COMPONENT_STATUS), p[COMPONENT_STATUS].fields;
      MergedReplicasAlike(x, y, q, "apiServer");
      MergedReplicasAlike(x, y, q, "processor");
      MergedReplicasAlike(x, y, q, "gc");
      MergedReplicasAlike(x, y, q, "asyncProcessor");
    }
  }

  lemma MergedStatusAlike(a: Json, b: Json, p: map<string, Json>)
    requires DecodeStatus(a) == DecodeStatus(b)
    ensures DecodeStatus(Merge(a, JObj(p))) == DecodeStatus(Merge(b, JObj(p)))
  {
    MergedNum(a, b, p, OBSERVED_GENERATION);
    MergedComponentsAlike(a, b, p);
    MergeFrame(a, p, CONDITIONS);
    MergeFrame(b, p, CONDITIONS);
  }

  /** Any patch that is sent again to the status it produced changes nothing, whatever its members are. */
  lemma PatchIsIdempotent(s: GatewayStatus, fields: map<string, Json>)
    ensures Patched(Patched(s, fields), fields) == Patched(s, fields)
  {
    var j := Merge(EncodeStatus(s), JObj(fields));
    StatusRoundTrip(Patched(s, fields));
    MergedStatusAlike(EncodeStatus(Patched(s, fields)), j, fields);
    MergeIdempotent(EncodeStatus(s), JObj(fields));
  }

  // The two payloads

  function FailureFields(s: GatewayStatus): map<string, Json> {
    map[CONDITIONS := EncodeConditions(s.conditions)][OBSERVED_GENERATION := JNum(s.observedGeneration)]
  }

  function ObservedFields(s: GatewayStatus, comp: ComponentStatus): map<string, Json> {
    map[CONDITIONS := EncodeConditions(s.conditions)][COMPONENT_STATUS := EncodeComponents(comp)]
    [OBSERVED_GENERATION := JNum(s.observedGeneration)]
  }

  /** A landed failure patch replaces conditions and observedGeneration and keeps componentStatus. */
  lemma FailurePatchFrame(stored: GatewayStatus, written: GatewayStatus)
    ensures Patched(stored, FailureFields(written)) ==
            stored.(observedGeneration := written.observedGeneration, conditions := written.conditions)
  {
    var fields := FailureFields(written);
    PatchKeepsOtherFields(stored, fields);
    PatchReplacesConditions(stored, fields, written.conditions);
    PatchReplacesGeneration(stored, fields, written.observedGeneration);
  }

  /** A landed observation replaces conditions and observedGeneration whole and merges componentStatus per component. */
  lemma ObservedPatchFrame(stored: GatewayStatus, written: GatewayStatus, comp: ComponentStatus)
    ensures Patched(stored, ObservedFields(written, comp)) ==
            GatewayStatus(written.observedGeneration, written.conditions, Some(MergeComponents(stored.componentStatus, comp)))
  {
    var fields := ObservedFields(written, comp);
    PatchReplacesConditions(stored, fields, written.conditions);
    PatchReplacesGeneration(stored, fields, written.observedGeneration);
    PatchMergesComponents(stored, fields, comp);
  }

  // Server, builder and writers

  class StatusServer {
    var stored: Version

    constructor (v: Version)
      ensures stored == v
    {
      stored := v;
    }

    method Patch(rv: nat, fields: map<string, Json>, fault: bool) returns (outcome: PatchOutcome)
      modifies this
      ensures (stored, outcome) == PatchVersion(old(stored), rv, fields, fault)
    {
      var (v, o) := PatchVersion(stored, rv, fields, fault);
      stored := v;
      outcome := o;
    }
  }

  class StatusPatch {
    const resourceVersion: nat
    var fields: map<string, Json>

    constructor (rv: nat)
      ensures resourceVersion == rv && fields == map[]
    {
      resourceVersion := rv;
      fields := map[];
    }

    method Add(name: string, value: Json)
      modifies this
      ensures fields == old(fields)[name := value]
    {
      fields := fields[name := value];
    }

    method Apply(server: StatusServer, fault: bool) returns (outcome: PatchOutcome)
      modifies server
      ensures (server.stored, outcome) == PatchVersion(old(server.stored), resourceVersion, fields, fault)
    {
      outcome := server.Patch(resourceVersion, fields, fault);
    }
  }

  // The resource as one reconcile pass holds it in memory.
  class GatewayObject {
    var generation: int
    var resourceVersion: nat
    var status: GatewayStatus

    constructor (v: Version)
      ensures Held() == v
    {
      generation := v.generation;
      resourceVersion := v.resourceVersion;
      status := v.status;
    }

    function Held(): Version
      reads this
    {
      Version(generation, resourceVersion, status)
    }
  }

  function FailureWrite(stored: Version, held: Version, f: Failure, fault: bool): (Version, PatchOutcome) {
    PatchVersion(stored, held.resourceVersion, FailureFields(FailureStatus(held.status, held.generation, f)), fault)
  }

  function ObservedWrite(stored: Version, held: Version, comp: ComponentStatus, fault: bool): (Version, PatchOutcome) {
    var written := ObservedStatus(held.status, held.generation, comp);
    PatchVersion(stored, held.resourceVersion, ObservedFields(written, comp), fault)
  }

  /**
   Quiescence of the status writers. A write that has landed on the version its
   writer had read creates no further version when it is repeated from the version
   it left, so the event it causes does not lead to another one.
   */
  lemma LandedWritesSettle(v: Version, f: Failure, comp: ComponentStatus)
    ensures var v1 := FailureWrite(v, v, f, false).0;
            FailureWrite(v1, v1, f, false) == (v1, Landed)
    ensures var v1 := ObservedWrite(v, v, comp, false).0;
            ObservedWrite(v1, v1, comp, false) == (v1, Landed)
  {
    var failed, observed := FailureStatus(v.status, v.generation, f), ObservedStatus(v.status, v.generation, comp);
    ConditionsSettle(v.status.conditions, v.generation, f, comp);
    FailurePatchFrame(v.status, failed);
    ObservedPatchFrame(v.status, observed, comp);
    PatchIsIdempotent(v.status, FailureFields(failed));
    PatchIsIdempotent(v.status, ObservedFields(observed, comp));
  }

  // A failure that the stored Ready condition does not say yet is a new version that says it.
  lemma FailureShows(v: Version, f: Failure)
    requires READY in f.conditions
    ensures var (v1, o) := FailureWrite(v, v, f, false);
            var said := Some(Condition(READY, ConditionStatus(false), f.reason, f.message, v.generation));
            && o.Landed?
            && Find(v1.status.conditions, READY) == said
            && v1.generation == v.generation
            && (Find(v.status.conditions, READY) != said ==> v1.resourceVersion == v.resourceVersion + 1)
  {
    FailurePatchFrame(v.status, FailureStatus(v.status, v.generation, f));
    SetAllEffect(v.status.conditions, f.conditions, f.reason, f.message, v.generation);
  }

  // What an observation leaves: its Ready condition, and each component it saw.
  lemma ObservationShows(v: Version, comp: ComponentStatus)
    ensures var (v1, o) := ObservedWrite(v, v, comp, false);
            && o.Landed?
            && v1.generation == v.generation
            && v1.status == GatewayStatus(v.generation, ObservedConditions(v.status.conditions, v.generation, comp),
                                          Some(MergeComponents(v.status.componentStatus, comp)))
            && (v1.status == v.status || v1.resourceVersion == v.resourceVersion + 1)
  {
    ObservedPatchFrame(v.status, ObservedStatus(v.status, v.generation, comp), comp);
  }

  // An observation that sees another count of some component than the one before makes a version.
  lemma OtherObservationShows(v: Version, was: ComponentStatus, comp: ComponentStatus, c: Component)
    requires Get(was, c).Some? && Get(comp, c).Some? && Get(was, c) != Get(comp, c)
    ensures var v1 := ObservedWrite(v, v, was, false).0;
            ObservedWrite(v1, v1, comp, false).0.resourceVersion == v1.resourceVersion + 1
  {
    var v1 := ObservedWrite(v, v, was, false).0;
    ObservationShows(v, was);
    ObservationShows(v1, comp);
    MergedGet(v.status.componentStatus, was, c);
    MergedGet(v1.status.componentStatus, comp, c);
  }

  lemma MergedGet(stored: Option<ComponentStatus>, seen: ComponentStatus, c: Component)
    requires Get(seen, c).Some?
    ensures Get(MergeComponents(stored, seen), c) == Get(seen, c)
  {
  }

  method RecordFailure(server: StatusServer, gw: GatewayObject, f: Failure, fault: bool) returns (outcome: PatchOutcome)
    modifies server, gw
    ensures (server.stored, outcome) == FailureWrite(old(server.stored), old(gw.Held()), f, fault)
  {
    ghost var held := gw.Held();
    gw.status := gw.status.(observedGeneration := gw.generation);
    for i := 0 to |f.conditions|
      invariant server.stored == old(server.stored)
      invariant gw.Held() == held.(status := FailureStatus(held.status, held.generation, f.(conditions := f.conditions[..i])))
    {
      assert f.conditions[..i + 1][..i] == f.conditions[..i];
      gw.status := gw.status.(conditions := SetCondition(gw.status.conditions,
                              Condition(f.conditions[i], "False", f.reason, f.message, gw.generation)));
    }
    assert f.conditions[..|f.conditions|] == f.conditions;
    assert gw.status == FailureStatus(held.status, held.generation, f);
    var p := new StatusPatch(gw.resourceVersion);
    p.Add(CONDITIONS, EncodeConditions(gw.status.conditions));
    p.Add(OBSERVED_GENERATION, JNum(gw.status.observedGeneration));
    assert p.fields == FailureFields(gw.status);
    outcome := p.Apply(server, fault);
  }

  function ComponentsOf(ds: seq<Deployment>, ss: seq<StatefulSet>, uid: string): ComponentStatus {
    ComponentStatus(Latest(ds, ss, uid, ApiServer), Latest(ds, ss, uid, Processor),
                    Latest(ds, ss, uid, Gc), Latest(ds, ss, uid, AsyncProcessor))
  }

  method SetComponentAvailable(gw: GatewayObject, c: Component, st: Option<ReplicaStatus>) returns (available: bool)
    modifies gw`status
    ensures available == Available(st)
    ensures gw.status == old(gw.status).(
              conditions := SetCondition(old(gw.status.conditions), AvailableCondition(c, st, gw.generation)))
  {
    available := Available(st);
    gw.status := gw.status.(conditions := SetCondition(gw.status.conditions, AvailableCondition(c, st, gw.generation)));
  }

  // Sets the four component conditions and Ready; the event is the reason of a Ready transition.
  method SetObservedConditions(gw: GatewayObject, comp: ComponentStatus) returns (event: Option<string>)
    modifies gw`status
    ensures gw.status == old(gw.status).(conditions := ObservedConditions(old(gw.status.conditions), gw.generation, comp))
    ensures event == ReadyEvent(old(gw.status.conditions), gw.generation, comp)
  {
    ghost var cs, list := gw.status.conditions, Observed(gw.generation, comp);
    ObservedSteps(cs, gw.generation, comp);
    var apiAvailable := SetComponentAvailable(gw, ApiServer, comp.apiServer);
    assert gw.status.conditions == SetEach(cs, list[..1]);
    var procAvailable := SetComponentAvailable(gw, Processor, comp.processor);
    assert gw.status.conditions == SetEach(cs, list[..2]);
    var gcAvailable := SetComponentAvailable(gw, Gc, comp.gc);
    assert gw.status.conditions == SetEach(cs, list[..3]);
    var asyncAvailable := SetComponentAvailable(gw, AsyncProcessor, comp.asyncProcessor);
    assert gw.status.conditions == SetEach(cs, list[..4]);
    var ready := apiAvailable && procAvailable && gcAvailable && asyncAvailable;
    var prevReady := Find(gw.status.conditions, READY);
    var newReady := ReadyCondition(ready, gw.generation);
    gw.status := gw.status.(conditions := SetCondition(gw.status.conditions, newReady));
    if prevReady.None? || prevReady.value.status != newReady.status {
      event := Some(newReady.reason);
    } else {
      event := None;
    }
  }

  // An event marks a change of the Ready status; a missing condition counts as a change.
  function ReadyEvent(was: seq<Condition>, generation: int, comp: ComponentStatus): Option<string> {
    var now := ReadyCondition(AllAvailable(comp), generation);
    if Find(was, READY).Some? && Find(was, READY).value.status == now.status then None else Some(now.reason)
  }

  // Absent lists could not be read.
  method UpdateStatus(server: StatusServer, gw: GatewayObject, uid: string,
                      ds: Option<seq<Deployment>>, ss: Option<seq<StatefulSet>>, fault: bool)
    returns (outcome: PatchOutcome, event: Option<string>)
    modifies server, gw
    ensures ds.None? || ss.None? ==> outcome == PatchFailed && server.stored == old(server.stored) && event.None?
    ensures ds.Some? && ss.Some? ==>
              (server.stored, outcome) ==
              ObservedWrite(old(server.stored), old(gw.Held()), ComponentsOf(ds.value, ss.value, uid), fault)
    ensures ds.Some? && ss.Some? ==>
              event == ReadyEvent(old(gw.status.conditions), old(gw.generation), ComponentsOf(ds.value, ss.value, uid))
  {
    if ds.None? || ss.None? {
      return PatchFailed, None;
    }
    ghost var held := gw.Held();
    var comp := ObserveComponents(ds.value, ss.value, uid);
    assert comp == ComponentsOf(ds.value, ss.value, uid) by {
      assert comp.apiServer == Get(comp, ApiServer) && comp.processor == Get(comp, Processor);
      assert comp.gc == Get(comp, Gc) && comp.asyncProcessor == Get(comp, AsyncProcessor);
    }
    gw.status := gw.status.(componentStatus := Some(comp));
    gw.status := gw.status.(observedGeneration := gw.generation);
    event := SetObservedConditions(gw, comp);
    assert gw.status == ObservedStatus(held.status, held.generation, comp);
    var p := new StatusPatch(gw.resourceVersion);
    p.Add(CONDITIONS, EncodeConditions(gw.status.conditions));
    p.Add(COMPONENT_STATUS, EncodeComponents(comp));
    p.Add(OBSERVED_GENERATION, JNum(gw.status.observedGeneration));
    assert p.fields == ObservedFields(gw.status, comp);
    outcome := p.Apply(server, fault);
  }

  // The five conditions one after the other; Ready is untouched before the last.
  lemma ObservedSteps(cs: seq<Condition>, generation: int, comp: ComponentStatus)
    ensures var list := Observed(generation, comp);
            && SetEach(cs, list[..0]) == cs
            && SetEach(cs, list[..1]) == SetCondition(cs, list[0])
            && SetEach(cs, list[..2]) == SetCondition(SetEach(cs, list[..1]), list[1])
            && SetEach(cs, list[..3]) == SetCondition(SetEach(cs, list[..2]), list[2])
            && SetEach(cs, list[..4]) == SetCondition(SetEach(cs, list[..3]), list[3])
            && ObservedConditions(cs, generation, comp) == SetCondition(SetEach(cs, list[..4]), list[4])
            && Find(SetEach(cs, list[..4]), READY) == Find(cs, READY)
  {
    var list := Observed(generation, comp);
    ObservedTypes(generation, comp);
    AllSteps(cs, list);
    assert list[..5] == list && list[..0] == [];
    FirstFourKeepReady(cs, list);
  }

  lemma AllSteps(cs: seq<Condition>, list: seq<Condition>)
    ensures forall i {:trigger list[i]} :: 0 <= i < |list| ==>
              SetEach(cs, list[..i + 1]) == SetCondition(SetEach(cs, list[..i]), list[i])
  {
    forall i | 0 <= i < |list|
      ensures SetEach(cs, list[..i + 1]) == SetCondition(SetEach(cs, list[..i]), list[i])
    {
      assert list[..i + 1][..i] == list[..i];
    }
  }

  lemma FirstFourKeepReady(cs: seq<Condition>, list: seq<Condition>)
    requires |list| == 5 && OnePerType(list) && list[4].ctype == READY
    ensures Find(SetEach(cs, list[..4]), READY) == Find(cs, READY)
  {
    var init := list[..4];
    forall i | 0 <= i < 4
      ensures init[i].ctype != READY
    {
      assert init[i] == list[i];
    }
    SetEachEffect(cs, init);
  }

  /**
   Readiness is exact. When an observation reports Ready as True, all four
   components are rolled out with at least one desired replica, whatever workloads
   there are. The converse holds unless they are all rolled out and one of them is
   hidden by its deciding workload.
   */
  lemma ReadyIsExact(s: GatewayStatus, generation: int, ds: seq<Deployment>, ss: seq<StatefulSet>, uid: string)
    ensures var ready := Find(ObservedStatus(s, generation, ComponentsOf(ds, ss, uid)).conditions, READY);
            ready.Some? && ReadyMeans(ready.value.status == "True", ds, ss, uid)
  {
    var comp := ComponentsOf(ds, ss, uid);
    ObservedConditionsEffect(s.conditions, generation, comp);
    ReadyTrueIff(AllAvailable(comp), generation);
    AllAvailableIffRolledOut(ds, ss, uid);
  }

  // What the value of Ready says about the workloads.
  ghost predicate ReadyMeans(ready: bool, ds: seq<Deployment>, ss: seq<StatefulSet>, uid: string) {
    && (ready ==> AllRolledOut(ds, ss, uid))
    && ((ready <==> AllRolledOut(ds, ss, uid)) <==>
        !(AllRolledOut(ds, ss, uid) && exists c :: Hidden(ds, ss, uid, c)))
  }

  ghost predicate AllRolledOut(ds: seq<Deployment>, ss: seq<StatefulSet>, uid: string) {
    forall c :: RolledOut(ds, ss, uid, c)
  }

  /**
   What a landed observation stores of every component, on the words and the
   workloads: its condition is True, with reason Available, exactly when the
   component is rolled out and not hidden, and otherwise False and Unavailable; and
   Ready is True exactly when the four are. Conditions of other types are kept.
   */
  lemma LandedConditionsAreExact(stored: GatewayStatus, held: Version, ds: seq<Deployment>, ss: seq<StatefulSet>, uid: string)
    ensures var comp := ComponentsOf(ds, ss, uid);
            var now := Patched(stored, ObservedFields(ObservedStatus(held.status, held.generation, comp), comp));
            && (forall c ::
                  var cond := Find(now.conditions, AvailableType(c));
                  cond.Some? && AvailabilitySays(cond.value, held.generation,
                                                 RolledOut(ds, ss, uid, c) && !Hidden(ds, ss, uid, c)))
            && Find(now.conditions, "Ready").Some?
            && (Find(now.conditions, "Ready").value.status == "True" <==>
                forall c :: Find(now.conditions, AvailableType(c)).value.status == "True")
            && (forall t :: t !in ALL_CONDITION_TYPES ==> Find(now.conditions, t) == Find(held.status.conditions, t))
  {
    var comp := ComponentsOf(ds, ss, uid);
    ReadinessInWords(AllAvailable(comp), held.generation);
    LandedConditions(stored, held, comp);
    forall c: Component
      ensures AvailabilitySays(AvailableCondition(c, Get(comp, c), held.generation), held.generation,
                               RolledOut(ds, ss, uid, c) && !Hidden(ds, ss, uid, c))
      ensures AvailableCondition(c, Get(comp, c), held.generation).status == "True" <==> Available(Get(comp, c))
    {
      ComponentInWords(ds, ss, uid, c, held.generation);
    }
    AllAvailableEach(comp);
  }

  predicate AvailabilitySays(cond: Condition, generation: int, ok: bool) {
    && cond.observedGeneration == generation
    && (cond.status == "True" <==> ok) && (cond.status == "False" <==> !ok)
    && (cond.reason == "Available" <==> ok) && (cond.reason == "Unavailable" <==> !ok)
  }

  // The conditions that a landed observation stores, before they are put in words.
  lemma LandedConditions(stored: GatewayStatus, held: Version, comp: ComponentStatus)
    ensures var now := Patched(stored, ObservedFields(ObservedStatus(held.status, held.generation, comp), comp));
            && (forall c :: Find(now.conditions, AvailableType(c)) ==
                            Some(AvailableCondition(c, Get(comp, c), held.generation)))
            && Find(now.conditions, "Ready") == Some(ReadyCondition(AllAvailable(comp), held.generation))
            && (forall t :: t !in ALL_CONDITION_TYPES ==> Find(now.conditions, t) == Find(held.status.conditions, t))
  {
    ObservedPatchFrame(stored, ObservedStatus(held.status, held.generation, comp), comp);
    ObservedConditionsEffect(held.status.conditions, held.generation, comp);
    forall c
      ensures AvailableType(c) in ALL_CONDITION_TYPES
    {
      TypesByName();
    }
  }

  lemma ComponentInWords(ds: seq<Deployment>, ss: seq<StatefulSet>, uid: string, c: Component, generation: int)
    ensures var st := Get(ComponentsOf(ds, ss, uid), c);
            var cond := AvailableCondition(c, st, generation);
            && AvailabilitySays(cond, generation, RolledOut(ds, ss, uid, c) && !Hidden(ds, ss, uid, c))
            && (cond.status == "True" <==> Available(st))
  {
    AvailableMeans(ds, ss, uid, c);
    AvailabilityInWords(c, Latest(ds, ss, uid, c), generation);
  }

  lemma AllAvailableEach(comp: ComponentStatus)
    ensures AllAvailable(comp) <==> forall c :: Available(Get(comp, c))
  {
    if AllAvailable(comp) {
      forall c: Component
        ensures Available(Get(comp, c))
      {
        match c
        case ApiServer =>
        case Processor =>
        case Gc =>
        case AsyncProcessor =>
      }
    } else {
      assert !Available(Get(comp, ApiServer)) || !Available(Get(comp, Processor)) ||
             !Available(Get(comp, Gc)) || !Available(Get(comp, AsyncProcessor));
    }
  }

  /** What a landed failure stores: the named conditions False with its reason and message, and nothing else but the generation. */
  lemma LandedFailureIsExact(stored: GatewayStatus, held: Version, f: Failure)
    ensures var now := Patched(stored, FailureFields(FailureStatus(held.status, held.generation, f)));
            && (forall t :: t in f.conditions ==>
                  Find(now.conditions, t) == Some(Condition(t, "False", f.reason, f.message, held.generation)))
            && (forall t :: t !in f.conditions ==> Find(now.conditions, t) == Find(held.status.conditions, t))
            && now.observedGeneration == held.generation
            && now.componentStatus == stored.componentStatus
  {
    FailurePatchFrame(stored, FailureStatus(held.status, held.generation, f));
    SetAllEffect(held.status.conditions, f.conditions, f.reason, f.message, held.generation);
  }

  /** When a patch lands, exactly, and what it leaves when it does not. */
  lemma PatchLandsIff(v: Version, rv: nat, fields: map<string, Json>, fault: bool)
    ensures var (v1, o) := PatchVersion(v, rv, fields, fault);
            && (o == Landed <==> !fault && rv == v.resourceVersion)
            && (o != Landed ==> v1 == v && o == if fault then PatchFailed else Conflict)
            && (o == Landed ==> v1.generation == v.generation && v1.status == Patched(v.status, fields))
            && (v1.resourceVersion == v.resourceVersion <==> v1 == v)
  {
  }

  /** An event goes out exactly when the Ready condition was missing or its status changes, with the new reason. */
  lemma EventOnTransition(was: seq<Condition>, generation: int, comp: ComponentStatus)
    ensures var before := Find(was, "Ready");
            var ready := AllAvailable(comp);
            ReadyEvent(was, generation, comp) ==
            if before.Some? && before.value.status == (if ready then "True" else "False") then None
            else Some(if ready then "AllComponentsReady" else "ComponentsNotReady")
  {
  }

  lemma ReadyTrueIff(ready: bool, generation: int)
    ensures ReadyCondition(ready, generation).status == "True" <==> ready
  {
    assert |"True"| != |"False"|;
  }

  lemma AllAvailableIffRolledOut(ds: seq<Deployment>, ss: seq<StatefulSet>, uid: string)
    ensures ReadyMeans(AllAvailable(ComponentsOf(ds, ss, uid)), ds, ss, uid)
  {
    forall c
      ensures Available(Latest(ds, ss, uid, c)) <==> RolledOut(ds, ss, uid, c) && !Hidden(ds, ss, uid, c)
    {
      AvailableIffRolledOut(ds, ss, uid, c);
    }
    assert AllAvailable(ComponentsOf(ds, ss, uid)) <==> forall c :: Available(Latest(ds, ss, uid, c)) by {
      if AllAvailable(ComponentsOf(ds, ss, uid)) {
        forall c: Component
          ensures Available(Latest(ds, ss, uid, c))
        {
          match c
          case ApiServer =>
          case Processor =>
          case Gc =>
          case AsyncProcessor =>
        }
      }
    }
  }

  /** The same holds of the stored status once the observation has landed on it. */
  lemma LandedReadyIsExact(stored: GatewayStatus, held: Version, ds: seq<Deployment>, ss: seq<StatefulSet>, uid: string)
    ensures var comp := ComponentsOf(ds, ss, uid);
            var now := Patched(stored, ObservedFields(ObservedStatus(held.status, held.generation, comp), comp));
            && now.observedGeneration == held.generation
            && Find(now.conditions, READY).Some?
            && ReadyMeans(Find(now.conditions, READY).value.status == "True", ds, ss, uid)
  {
    var comp := ComponentsOf(ds, ss, uid);
    ObservedPatchFrame(stored, ObservedStatus(held.status, held.generation, comp), comp);
    ReadyIsExact(held.status, held.generation, ds, ss, uid);
  }

  // Lists in another order give the same component status when no component shows the order.
  lemma ReorderedComponents(ds: seq<Deployment>, ss: seq<StatefulSet>, ds': seq<Deployment>, ss': seq<StatefulSet>,
                            uid: string)
    requires Reordered(ds, ds') && Reordered(ss, ss') && forall c :: OneStatus(ds, ss, uid, c)
    ensures ComponentsOf(ds', ss', uid) == ComponentsOf(ds, ss, uid)
  {
    OrderHidden(ds, ss, ds', ss', uid, ApiServer);
    OrderHidden(ds, ss, ds', ss', uid, Processor);
    OrderHidden(ds, ss, ds', ss', uid, Gc);
    OrderHidden(ds, ss, ds', ss', uid, AsyncProcessor);
  }

  /** When each component label is carried by at most one owned workload, Ready is True iff all four are rolled out. */
  lemma ReadyIffRolledOut(s: GatewayStatus, generation: int, ds: seq<Deployment>, ss: seq<StatefulSet>, uid: string)
    requires forall c :: OneWorkload(ds, ss, uid, c)
    ensures var ready := Find(ObservedStatus(s, generation, ComponentsOf(ds, ss, uid)).conditions, READY);
            ready.Some? && (ready.value.status == "True" <==> forall c :: RolledOut(ds, ss, uid, c))
  {
    ReadyIsExact(s, generation, ds, ss, uid);
    forall c
      ensures !(RolledOut(ds, ss, uid, c) && Hidden(ds, ss, uid, c))
    {
      OneWorkloadHidesNothing(ds, ss, uid, c);
    }
  }
}
