/**
 Replica counts and conditions. Readiness of a workload is reported only after a
 finished rollout, and the Ready condition is exact about that.
 */
module Readiness {
  import opened Wrappers

  datatype ReplicaStatus = ReplicaStatus(replicas: int, readyReplicas: int)

  datatype Meta = Meta(ownerUids: seq<string>, labels: map<string, string>)

  datatype Rollout = Rollout(
    generation: int, specReplicas: Option<int>,
    observedGeneration: int, replicas: int, updatedReplicas: int, readyReplicas: int)

  datatype Deployment = Deployment(meta: Meta, rollout: Rollout)

  datatype StatefulSet = StatefulSet(meta: Meta, rollout: Rollout, currentRevision: string, updateRevision: string)

  const COMPONENT_LABEL := "app.kubernetes.io/component"

  datatype Component = ApiServer | Processor | Gc | AsyncProcessor

  function ComponentOf(name: string): Option<Component> {
    if name == "apiserver" then Some(ApiServer)
    else if name == "processor" then Some(Processor)
    else if name == "gc" then Some(Gc)
    else if name == "async-processor" then Some(AsyncProcessor)
    else None
  }

  // Replica counts

  function DesiredReplicas(r: Rollout): int {
    if r.specReplicas.Some? then r.specReplicas.value else 1
  }

  // The declared meaning of a finished rollout.
  predicate Finished(r: Rollout) {
    && r.observedGeneration >= r.generation
    && r.updatedReplicas == r.replicas == DesiredReplicas(r)
    && r.readyReplicas >= DesiredReplicas(r)
  }

  predicate StatefulSetFinished(s: StatefulSet) {
    Finished(s.rollout) && s.currentRevision == s.updateRevision
  }

  function ReportedReadyReplicas(ready: int, desired: int, rolledOut: bool): int {
    if !rolledOut then 0 else if ready > desired then desired else ready
  }

  function DeploymentReplicaStatus(d: Deployment): ReplicaStatus {
    var r := d.rollout;
    var desired := if r.specReplicas.Some? then r.specReplicas.value else 1;
    var rolledOut :=
      r.observedGeneration >= r.generation && r.updatedReplicas == desired &&
      r.replicas == desired && r.readyReplicas >= desired;
    ReplicaStatus(desired, ReportedReadyReplicas(r.readyReplicas, desired, rolledOut))
  }

  function StatefulSetReplicaStatus(s: StatefulSet): ReplicaStatus {
    var r := s.rollout;
    var desired := if r.specReplicas.Some? then r.specReplicas.value else 1;
    var rolledOut :=
      r.observedGeneration >= r.generation && r.updatedReplicas == desired &&
      r.replicas == desired && r.readyReplicas >= desired &&
      s.currentRevision == s.updateRevision;
    ReplicaStatus(desired, ReportedReadyReplicas(r.readyReplicas, desired, rolledOut))
  }

  /**
   Reported readiness is all or nothing, and all exactly when the rollout is finished:
   the latest spec was observed, every replica there is and every one desired is on
   the current template, none is left over, all are ready, and for a StatefulSet the
   revisions agree.
   */
  lemma ReadinessIsAllOrNothing(d: Deployment, s: StatefulSet)
    ensures var st, r := DeploymentReplicaStatus(d), d.rollout;
            var desired := if r.specReplicas.Some? then r.specReplicas.value else 1;
            var finished := r.observedGeneration >= r.generation && r.updatedReplicas == desired &&
                            r.replicas == desired && r.readyReplicas >= desired;
            && st.replicas == desired
            && (finished <==> Finished(r))
            && st.readyReplicas == if finished then desired else 0
    ensures var st, r := StatefulSetReplicaStatus(s), s.rollout;
            var desired := if r.specReplicas.Some? then r.specReplicas.value else 1;
            var finished := r.observedGeneration >= r.generation && r.updatedReplicas == desired &&
                            r.replicas == desired && r.readyReplicas >= desired &&
                            s.currentRevision == s.updateRevision;
            && st.replicas == desired
            && (finished <==> StatefulSetFinished(s))
            && st.readyReplicas == if finished then desired else 0
  {
  }

  // Component status

  datatype ComponentStatus = ComponentStatus(
    apiServer: Option<ReplicaStatus>, processor: Option<ReplicaStatus>,
    gc: Option<ReplicaStatus>, asyncProcessor: Option<ReplicaStatus>)

  const NO_COMPONENTS := ComponentStatus(None, None, None, None)

  function Get(cs: ComponentStatus, c: Component): Option<ReplicaStatus> {
    match c
    case ApiServer => cs.apiServer
    case Processor => cs.processor
    case Gc => cs.gc
    case AsyncProcessor => cs.asyncProcessor
  }

  function SetComponentStatus(cs: ComponentStatus, name: string, st: ReplicaStatus): ComponentStatus {
    if name == "apiserver" then cs.(apiServer := Some(st))
    else if name == "processor" then cs.(processor := Some(st))
    else if name == "gc" then cs.(gc := Some(st))
    else if name == "async-processor" then cs.(asyncProcessor := Some(st))
    else cs
  }

  // The component an owned workload stands for.
  function Stands(m: Meta, uid: string): Option<Component> {
    if uid in m.ownerUids && COMPONENT_LABEL in m.labels then ComponentOf(m.labels[COMPONENT_LABEL]) else None
  }

  // Which workload stands for a component, on the fields of its metadata.
  lemma StandsOnFields(m: Meta, uid: string, c: Component)
    ensures Stands(m, uid) == Some(c) <==>
            && uid in m.ownerUids
            && "app.kubernetes.io/component" in m.labels
            && m.labels["app.kubernetes.io/component"] ==
               match c
               case ApiServer => "apiserver"
               case Processor => "processor"
               case Gc => "gc"
               case AsyncProcessor => "async-processor"
  {
    assert |"apiserver"| == 9 && |"gc"| == 2 && |"async-processor"| == 15;
    assert "apiserver"[0] == 'a' && "processor"[0] == 'p';
  }

  // The last owned workload of a component decides; StatefulSets come after Deployments.
  function LatestDeployment(ds: seq<Deployment>, uid: string, c: Component): Option<ReplicaStatus> {
    if ds == [] then None
    else
      var d := ds[|ds| - 1];
      if Stands(d.meta, uid) == Some(c) then Some(DeploymentReplicaStatus(d))
      else LatestDeployment(ds[..|ds| - 1], uid, c)
  }

  function LatestStatefulSet(ss: seq<StatefulSet>, uid: string, c: Component): Option<ReplicaStatus> {
    if ss == [] then None
    else
      var s := ss[|ss| - 1];
      if Stands(s.meta, uid) == Some(c) then Some(StatefulSetReplicaStatus(s))
      else LatestStatefulSet(ss[..|ss| - 1], uid, c)
  }

  function Latest(ds: seq<Deployment>, ss: seq<StatefulSet>, uid: string, c: Component): Option<ReplicaStatus> {
    var s := LatestStatefulSet(ss, uid, c);
    if s.Some? then s else LatestDeployment(ds, uid, c)
  }

  lemma LatestStep(ds: seq<Deployment>, ss: seq<StatefulSet>, uid: string, i: nat)
    requires i < |ss|
    ensures forall c :: Latest(ds, ss[..i + 1], uid, c) ==
                        if Stands(ss[i].meta, uid) == Some(c) then Some(StatefulSetReplicaStatus(ss[i]))
                        else Latest(ds, ss[..i], uid, c)
  {
    assert ss[..i + 1][..i] == ss[..i];
  }

  method ObserveComponents(ds: seq<Deployment>, ss: seq<StatefulSet>, uid: string) returns (cs: ComponentStatus)
    ensures forall c :: Get(cs, c) == Latest(ds, ss, uid, c)
  {
    cs := NO_COMPONENTS;
    for i := 0 to |ds|
      invariant forall c :: Get(cs, c) == LatestDeployment(ds[..i], uid, c)
    {
      var d := ds[i];
      assert ds[..i + 1][..i] == ds[..i];
      if uid !in d.meta.ownerUids {
        continue;
      }
      if COMPONENT_LABEL !in d.meta.labels {
        continue;
      }
      cs := SetComponentStatus(cs, d.meta.labels[COMPONENT_LABEL], DeploymentReplicaStatus(d));
    }
    assert ds[..|ds|] == ds;
    for i := 0 to |ss|
      invariant forall c :: Get(cs, c) == Latest(ds, ss[..i], uid, c)
    {
      var s := ss[i];
      LatestStep(ds, ss, uid, i);
      if uid !in s.meta.ownerUids {
        continue;
      }
      if COMPONENT_LABEL !in s.meta.labels {
        continue;
      }
      cs := SetComponentStatus(cs, s.meta.labels[COMPONENT_LABEL], StatefulSetReplicaStatus(s));
    }
    assert ss[..|ss|] == ss;
  }

  // Availability

  predicate Available(st: Option<ReplicaStatus>) {
    st.Some? && st.value.replicas > 0 && st.value.readyReplicas >= st.value.replicas
  }

  predicate AllAvailable(cs: ComponentStatus) {
    Available(cs.apiServer) && Available(cs.processor) && Available(cs.gc) && Available(cs.asyncProcessor)
  }

  // A workload that is rolled out with at least one desired replica.
  predicate DeploymentServes(d: Deployment) {
    DesiredReplicas(d.rollout) > 0 && Finished(d.rollout)
  }

  predicate StatefulSetServes(s: StatefulSet) {
    DesiredReplicas(s.rollout) > 0 && StatefulSetFinished(s)
  }

  // The declared meaning of a rolled-out component.
  ghost predicate RolledOut(ds: seq<Deployment>, ss: seq<StatefulSet>, uid: string, c: Component) {
    || (exists d :: d in ds && Stands(d.meta, uid) == Some(c) && DeploymentServes(d))
    || (exists s :: s in ss && Stands(s.meta, uid) == Some(c) && StatefulSetServes(s))
  }

  // A serving workload, on the fields of its rollout.
  lemma ServesOnFields(d: Deployment, s: StatefulSet)
    ensures var r := d.rollout;
            var desired := if r.specReplicas.Some? then r.specReplicas.value else 1;
            DeploymentServes(d) <==>
            && desired > 0 && r.observedGeneration >= r.generation
            && r.updatedReplicas == desired && r.replicas == desired && r.readyReplicas >= desired
    ensures var r := s.rollout;
            var desired := if r.specReplicas.Some? then r.specReplicas.value else 1;
            StatefulSetServes(s) <==>
            && desired > 0 && r.observedGeneration >= r.generation
            && r.updatedReplicas == desired && r.replicas == desired && r.readyReplicas >= desired
            && s.currentRevision == s.updateRevision
  {
  }

  // At most one owned workload carries the label of a component.
  ghost predicate OneWorkload(ds: seq<Deployment>, ss: seq<StatefulSet>, uid: string, c: Component) {
    && (forall d, e :: d in ds && e in ds && Stands(d.meta, uid) == Some(c) == Stands(e.meta, uid) ==> d == e)
    && (forall s, t :: s in ss && t in ss && Stands(s.meta, uid) == Some(c) == Stands(t.meta, uid) ==> s == t)
    && (forall d, s :: d in ds && s in ss ==> !(Stands(d.meta, uid) == Some(c) == Stands(s.meta, uid)))
  }

  // The last owned workload of a component in each list.
  ghost predicate LastDeployment(ds: seq<Deployment>, uid: string, c: Component, i: int) {
    && 0 <= i < |ds|
    && Stands(ds[i].meta, uid) == Some(c)
    && forall j :: i < j < |ds| ==> Stands(ds[j].meta, uid) != Some(c)
  }

  ghost predicate LastStatefulSet(ss: seq<StatefulSet>, uid: string, c: Component, i: int) {
    && 0 <= i < |ss|
    && Stands(ss[i].meta, uid) == Some(c)
    && forall j :: i < j < |ss| ==> Stands(ss[j].meta, uid) != Some(c)
  }

  // The last owned StatefulSet, or without one the last owned Deployment, does not serve.
  ghost predicate Hidden(ds: seq<Deployment>, ss: seq<StatefulSet>, uid: string, c: Component) {
    || (exists i :: LastStatefulSet(ss, uid, c, i) && !StatefulSetServes(ss[i]))
    || (&& (forall s :: s in ss ==> Stands(s.meta, uid) != Some(c))
        && exists i :: LastDeployment(ds, uid, c, i) && !DeploymentServes(ds[i]))
  }

  lemma {:induction false} LatestDeploymentIsLast(ds: seq<Deployment>, uid: string, c: Component) returns (i: int)
    ensures match LatestDeployment(ds, uid, c)
            case None => forall d :: d in ds ==> Stands(d.meta, uid) != Some(c)
            case Some(st) => LastDeployment(ds, uid, c, i) && st == DeploymentReplicaStatus(ds[i])
  {
    i := |ds| - 1;
    if ds != [] && Stands(ds[i].meta, uid) != Some(c) {
      var init, last := ds[..i], ds[i];
      assert ds == init + [last];
      i := LatestDeploymentIsLast(init, uid, c);
    }
  }

  lemma {:induction false} LatestStatefulSetIsLast(ss: seq<StatefulSet>, uid: string, c: Component) returns (i: int)
    ensures match LatestStatefulSet(ss, uid, c)
            case None => forall s :: s in ss ==> Stands(s.meta, uid) != Some(c)
            case Some(st) => LastStatefulSet(ss, uid, c, i) && st == StatefulSetReplicaStatus(ss[i])
  {
    i := |ss| - 1;
    if ss != [] && Stands(ss[i].meta, uid) != Some(c) {
      var init, last := ss[..i], ss[i];
      assert ss == init + [last];
      i := LatestStatefulSetIsLast(init, uid, c);
    }
  }

  lemma AvailableMeans(ds: seq<Deployment>, ss: seq<StatefulSet>, uid: string, c: Component)
    ensures Available(Latest(ds, ss, uid, c)) <==> RolledOut(ds, ss, uid, c) && !Hidden(ds, ss, uid, c)
  {
    var j := LatestStatefulSetIsLast(ss, uid, c);
    if LatestStatefulSet(ss, uid, c).Some? {
      assert ss[j] in ss;
    } else {
      var i := LatestDeploymentIsLast(ds, uid, c);
      if LatestDeployment(ds, uid, c).Some? {
        assert ds[i] in ds;
      }
    }
  }

  /**
   Readiness of one component, exactly. An available component is rolled out,
   whatever workloads there are; the converse holds unless the last listed owned
   workload hides the one that is rolled out.
   */
  lemma AvailableIffRolledOut(ds: seq<Deployment>, ss: seq<StatefulSet>, uid: string, c: Component)
    ensures Available(Latest(ds, ss, uid, c)) ==> RolledOut(ds, ss, uid, c)
    ensures (Available(Latest(ds, ss, uid, c)) <==> RolledOut(ds, ss, uid, c)) <==>
            !(RolledOut(ds, ss, uid, c) && Hidden(ds, ss, uid, c))
  {
    AvailableMeans(ds, ss, uid, c);
  }

  /** With at most one owned workload for a component nothing is hidden. */
  lemma OneWorkloadHidesNothing(ds: seq<Deployment>, ss: seq<StatefulSet>, uid: string, c: Component)
    requires OneWorkload(ds, ss, uid, c)
    ensures !(RolledOut(ds, ss, uid, c) && Hidden(ds, ss, uid, c))
    ensures Available(Latest(ds, ss, uid, c)) <==> RolledOut(ds, ss, uid, c)
  {
    AvailableIffRolledOut(ds, ss, uid, c);
    if Hidden(ds, ss, uid, c) {
      if i :| LastStatefulSet(ss, uid, c, i) && !StatefulSetServes(ss[i]) {
        assert ss[i] in ss;
      } else {
        var i :| LastDeployment(ds, uid, c, i) && !DeploymentServes(ds[i]);
        assert ds[i] in ds;
      }
    }
  }

  // List order

  // The cache lists workloads in no particular order.
  ghost predicate Reordered<T>(a: seq<T>, b: seq<T>) {
    multiset(a) == multiset(b)
  }

  // The owned workloads that can decide a component all report the same.
  ghost predicate OneStatus(ds: seq<Deployment>, ss: seq<StatefulSet>, uid: string, c: Component) {
    if exists s :: s in ss && Stands(s.meta, uid) == Some(c) then
      forall s, t :: s in ss && t in ss && Stands(s.meta, uid) == Some(c) == Stands(t.meta, uid) ==>
                       StatefulSetReplicaStatus(s) == StatefulSetReplicaStatus(t)
    else
      forall d, e :: d in ds && e in ds && Stands(d.meta, uid) == Some(c) == Stands(e.meta, uid) ==>
                       DeploymentReplicaStatus(d) == DeploymentReplicaStatus(e)
  }

  lemma SameElements<T>(a: seq<T>, b: seq<T>)
    requires Reordered(a, b)
    ensures forall x :: x in a <==> x in b
  {
    assert forall x :: x in a <==> x in multiset(a);
    assert forall x :: x in b <==> x in multiset(b);
  }

  lemma MovedLast<T>(s: seq<T>, x: T) returns (s': seq<T>)
    requires x in s
    ensures Reordered(s, s') && s' != [] && s'[|s'| - 1] == x
  {
    var i :| 0 <= i < |s| && s[i] == x;
    s' := s[..i] + s[i + 1..] + [x];
    assert s == s[..i] + [x] + s[i + 1..];
  }

  lemma LatestStands(ss: seq<StatefulSet>, uid: string, c: Component)
    ensures LatestStatefulSet(ss, uid, c).Some? ==> exists s :: s in ss && Stands(s.meta, uid) == Some(c)
  {
    var j := LatestStatefulSetIsLast(ss, uid, c);
    if LatestStatefulSet(ss, uid, c).Some? {
      assert ss[j] in ss;
    }
  }

  lemma OrderHidden(ds: seq<Deployment>, ss: seq<StatefulSet>, ds': seq<Deployment>, ss': seq<StatefulSet>,
                    uid: string, c: Component)
    requires Reordered(ds, ds') && Reordered(ss, ss') && OneStatus(ds, ss, uid, c)
    ensures Latest(ds', ss', uid, c) == Latest(ds, ss, uid, c)
  {
    SameElements(ds, ds');
    SameElements(ss, ss');
    var i := LatestDeploymentIsLast(ds, uid, c);
    var i' := LatestDeploymentIsLast(ds', uid, c);
    var j := LatestStatefulSetIsLast(ss, uid, c);
    var j' := LatestStatefulSetIsLast(ss', uid, c);
    if LatestStatefulSet(ss, uid, c).Some? {
      assert ss[j] in ss;
      assert LatestStatefulSet(ss', uid, c).Some?;
      assert ss'[j'] in ss';
    } else if LatestDeployment(ds, uid, c).Some? {
      assert ds[i] in ds;
      assert LatestDeployment(ds', uid, c).Some?;
      assert ds'[i'] in ds';
    }
  }

  lemma OrderShown(ds: seq<Deployment>, ss: seq<StatefulSet>, uid: string, c: Component)
    returns (ds': seq<Deployment>, ss': seq<StatefulSet>)
    requires !OneStatus(ds, ss, uid, c)
    ensures Reordered(ds, ds') && Reordered(ss, ss')
    ensures Latest(ds', ss', uid, c).Some? && Latest(ds', ss', uid, c) != Latest(ds, ss, uid, c)
  {
    ds', ss' := ds, ss;
    if exists s :: s in ss && Stands(s.meta, uid) == Some(c) {
      var s, t :| s in ss && t in ss && Stands(s.meta, uid) == Some(c) == Stands(t.meta, uid) &&
                  StatefulSetReplicaStatus(s) != StatefulSetReplicaStatus(t);
      var last := if Latest(ds, ss, uid, c) == Some(StatefulSetReplicaStatus(s)) then t else s;
      ss' := MovedLast(ss, last);
    } else {
      var d, e :| d in ds && e in ds && Stands(d.meta, uid) == Some(c) == Stands(e.meta, uid) &&
                  DeploymentReplicaStatus(d) != DeploymentReplicaStatus(e);
      var last := if Latest(ds, ss, uid, c) == Some(DeploymentReplicaStatus(d)) then e else d;
      ds' := MovedLast(ds, last);
      LatestStands(ss, uid, c);
    }
  }

  // Candidates that differ are there, so the component is reported.
  lemma OwnedCandidates(ds: seq<Deployment>, ss: seq<StatefulSet>, uid: string, c: Component)
    requires !OneStatus(ds, ss, uid, c)
    ensures Latest(ds, ss, uid, c).Some?
  {
    var i := LatestDeploymentIsLast(ds, uid, c);
    var j := LatestStatefulSetIsLast(ss, uid, c);
  }

  /**
   What is reported of a component is the same for every list order exactly when its
   deciding candidates report the same.
   */
  lemma OrderNeverShowsIff(ds: seq<Deployment>, ss: seq<StatefulSet>, uid: string, c: Component)
    ensures (forall ds', ss' :: Reordered(ds, ds') && Reordered(ss, ss') ==>
               Latest(ds', ss', uid, c) == Latest(ds, ss, uid, c)) <==> OneStatus(ds, ss, uid, c)
  {
    if OneStatus(ds, ss, uid, c) {
      forall ds', ss' | Reordered(ds, ds') && Reordered(ss, ss')
        ensures Latest(ds', ss', uid, c) == Latest(ds, ss, uid, c)
      {
        OrderHidden(ds, ss, ds', ss', uid, c);
      }
    } else {
      var ds', ss' := OrderShown(ds, ss, uid, c);
    }
  }

  /** With at most one owned workload for a component the list order never shows. */
  lemma OneWorkloadHasOneStatus(ds: seq<Deployment>, ss: seq<StatefulSet>, uid: string, c: Component)
    requires OneWorkload(ds, ss, uid, c)
    ensures OneStatus(ds, ss, uid, c)
  {
  }

  /** The hidden case exists: an unfinished later workload hides a finished one. */
  lemma LaterWorkloadHides() returns (ds: seq<Deployment>, uid: string)
    ensures RolledOut(ds, [], uid, Gc) && !Available(Latest(ds, [], uid, Gc))
  {
    uid := "u";
    var meta := Meta([uid], map[COMPONENT_LABEL := "gc"]);
    var done := Deployment(meta, Rollout(1, None, 1, 1, 1, 1));
    var stale := Deployment(meta, Rollout(2, None, 1, 1, 1, 1));
    ds := [done, stale];
    assert done in ds && Finished(done.rollout);
    assert Latest(ds, [], uid, Gc) == Some(DeploymentReplicaStatus(stale));
  }
}
