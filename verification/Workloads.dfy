/**
 The apply loop and the orphan sweep of one reconcile pass. Both run against an
 oracle that decides which API calls fail. The loops are proved against
 declarative descriptions of the store they leave, and the pass is shown to
 converge, to be independent of render order, to be idempotent, to respect
 ownership and to make progress under partial failure.
 */
module Workloads {
  import opened Wrappers
  import opened Cluster

  const MANAGED: seq<GroupKind> := [
    GroupKind("apps", "Deployment"),
    GroupKind("apps", "StatefulSet"),
    GroupKind("", "Service"),
    GroupKind("", "ConfigMap"),
    GroupKind("", "ServiceAccount"),
    GroupKind("rbac.authorization.k8s.io", "Role"),
    GroupKind("rbac.authorization.k8s.io", "RoleBinding"),
    GroupKind("cert-manager.io", "Certificate"),
    GroupKind("gateway.networking.k8s.io", "HTTPRoute"),
    GroupKind("monitoring.coreos.com", "ServiceMonitor"),
    GroupKind("monitoring.coreos.com", "PodMonitor"),
    GroupKind("monitoring.coreos.com", "PrometheusRule")
  ]

  // The failure oracle: the i-th apply, the list of a kind, the delete of a key.
  datatype Faults = Faults(apply: nat -> bool, list: GroupKind -> bool, delete: Key -> DeleteReply)

  ghost predicate NoFaults(f: Faults) {
    && (forall i: nat :: !f.apply(i))
    && (forall gk :: !f.list(gk))
    && (forall k :: !f.delete(k).DeleteFailed?)
  }

  // Applying

  function ApplyFrom(s: Store, installed: set<GroupKind>, g: Gateway, ms: seq<Manifest>, f: Faults, i: nat): (Store, bool)
    requires i <= |ms|
    decreases |ms| - i
  {
    if i == |ms| then (s, true)
    else if ApplyOutcomeOf(s, installed, g, ms[i], f.apply(i)).ApplyFailed? then (s, false)
    else ApplyFrom(ApplyStore(s, installed, g, ms[i], f.apply(i)), installed, g, ms, f, i + 1)
  }

  method ApplyAll(api: KubeApi, g: Gateway, ms: seq<Manifest>, f: Faults) returns (ok: bool)
    modifies api`objects
    ensures (api.objects, ok) == ApplyFrom(old(api.objects), api.installed, g, ms, f, 0)
  {
    ghost var start := api.objects;
    for i := 0 to |ms|
      invariant ApplyFrom(api.objects, api.installed, g, ms, f, i) == ApplyFrom(start, api.installed, g, ms, f, 0)
    {
      var outcome := api.Apply(g, ms[i], f.apply(i));
      if outcome.ApplyFailed? {
        return false;
      }
    }
    return true;
  }

  // The rendered objects of installed kinds by key; a later manifest overrides an earlier one.
  function DesiredFrom(installed: set<GroupKind>, g: Gateway, ms: seq<Manifest>, i: nat): map<Key, Fields>
    requires i <= |ms|
    decreases |ms| - i
  {
    if i == |ms| then map[]
    else if ms[i].gk in installed then map[KeyOf(g.ns, ms[i]) := ms[i].fields] + DesiredFrom(installed, g, ms, i + 1)
    else DesiredFrom(installed, g, ms, i + 1)
  }

  function Desired(installed: set<GroupKind>, g: Gateway, ms: seq<Manifest>): map<Key, Fields> {
    DesiredFrom(installed, g, ms, 0)
  }

  lemma {:induction false} DesiredKeys(installed: set<GroupKind>, g: Gateway, ms: seq<Manifest>, i: nat)
    requires i <= |ms|
    ensures forall k :: k in DesiredFrom(installed, g, ms, i) <==>
                        exists j :: i <= j < |ms| && ms[j].gk in installed && KeyOf(g.ns, ms[j]) == k
    decreases |ms| - i
  {
    if i < |ms| {
      DesiredKeys(installed, g, ms, i + 1);
    }
  }

  // The store s with every object of d stamped by g.
  function Overlay(s: Store, d: map<Key, Fields>, g: Gateway): Store {
    map k | k in s.Keys + d.Keys :: if k in d then Stamp(s, k, d[k], g) else s[k]
  }

  ghost predicate Obstructed(s: Store, d: map<Key, Fields>, g: Gateway) {
    exists k :: k in d && k in s && ForeignController(s[k], g)
  }

  /** A loop that finishes leaves exactly the overlay of the rendered objects, and met no foreign controller. */
  lemma {:induction false} ApplyIsOverlay(
    s: Store, installed: set<GroupKind>, g: Gateway, ms: seq<Manifest>, f: Faults, i: nat)
    requires i <= |ms|
    requires ApplyFrom(s, installed, g, ms, f, i).1
    ensures ApplyFrom(s, installed, g, ms, f, i).0 == Overlay(s, DesiredFrom(installed, g, ms, i), g)
    ensures !Obstructed(s, DesiredFrom(installed, g, ms, i), g)
    decreases |ms| - i
  {
    var d := DesiredFrom(installed, g, ms, i);
    if i == |ms| {
      assert Overlay(s, d, g) == s;
    } else {
      var s1 := ApplyStore(s, installed, g, ms[i], f.apply(i));
      ApplyIsOverlay(s1, installed, g, ms, f, i + 1);
      var k := KeyOf(g.ns, ms[i]);
      var d1 := DesiredFrom(installed, g, ms, i + 1);
      if ms[i].gk in installed {
        OverlayStep(s, k, ms[i].fields, d1, g);
      }
    }
  }

  // Stamping k first and overlaying the rest is overlaying everything.
  lemma OverlayStep(s: Store, k: Key, f: Fields, d: map<Key, Fields>, g: Gateway)
    requires k in s ==> !ForeignController(s[k], g)
    ensures var s1, all := s[k := Stamp(s, k, f, g)], map[k := f] + d;
            && Overlay(s1, d, g) == Overlay(s, all, g)
            && (!Obstructed(s1, d, g) ==> !Obstructed(s, all, g))
  {
    var s1, all := s[k := Stamp(s, k, f, g)], map[k := f] + d;
    if k in d {
      StampOwnership(s, k, d[k], g);
    }
    forall x | x in s1.Keys + d.Keys
      ensures Overlay(s1, d, g)[x] == Overlay(s, all, g)[x]
    {
      if x == k && k in d {
        assert Stamp(s1, k, d[k], g) == Stamp(s, k, d[k], g) by {
          UpsertOwnerKeepsOthers(OwnersAt(s, k), ControllerRef(g));
        }
      }
    }
    assert Overlay(s1, d, g).Keys == Overlay(s, all, g).Keys;
    if Obstructed(s, all, g) {
      var x :| x in all && x in s && ForeignController(s[x], g);
      assert x in d && x in s1 && s1[x] == s[x];
    }
  }

  /** Without faults the loop finishes exactly when no rendered object has a foreign controller. */
  lemma {:induction false} ApplySucceedsIff(
    s: Store, installed: set<GroupKind>, g: Gateway, ms: seq<Manifest>, f: Faults, i: nat)
    requires i <= |ms|
    requires forall j: nat :: !f.apply(j)
    ensures ApplyFrom(s, installed, g, ms, f, i).1 <==> !Obstructed(s, DesiredFrom(installed, g, ms, i), g)
    decreases |ms| - i
  {
    if ApplyFrom(s, installed, g, ms, f, i).1 {
      ApplyIsOverlay(s, installed, g, ms, f, i);
    } else {
      var k := KeyOf(g.ns, ms[i]);
      if ApplyOutcomeOf(s, installed, g, ms[i], f.apply(i)).ApplyFailed? {
        assert k in DesiredFrom(installed, g, ms, i);
      } else {
        var s1 := ApplyStore(s, installed, g, ms[i], f.apply(i));
        StampOwnership(s, k, ms[i].fields, g);
        ApplySucceedsIff(s1, installed, g, ms, f, i + 1);
        var d1 := DesiredFrom(installed, g, ms, i + 1);
        var x :| x in d1 && x in s1 && ForeignController(s1[x], g);
        assert x in DesiredFrom(installed, g, ms, i) && x in s;
      }
    }
  }

  /** Even an aborted loop removes nothing, touches rendered keys only, and never changes another controller's object. */
  lemma {:induction false} ApplyFrame(
    s: Store, installed: set<GroupKind>, g: Gateway, ms: seq<Manifest>, f: Faults, i: nat)
    requires i <= |ms|
    ensures var s' := ApplyFrom(s, installed, g, ms, f, i).0;
            var d := DesiredFrom(installed, g, ms, i);
            && (forall k :: k in s ==> k in s')
            && (forall k :: k in s' && k !in s ==> k in d)
            && (forall k :: k in s && k !in d ==> s'[k] == s[k])
            && (forall k :: k in s && ForeignController(s[k], g) ==> s'[k] == s[k])
            && (forall k, h: Gateway :: k in s' && h.uid != g.uid ==>
                  (ControlledBy(s'[k], h) <==> k in s && ControlledBy(s[k], h)))
    decreases |ms| - i
  {
    if i < |ms| && !ApplyOutcomeOf(s, installed, g, ms[i], f.apply(i)).ApplyFailed? {
      var k := KeyOf(g.ns, ms[i]);
      StampOwnership(s, k, ms[i].fields, g);
      ApplyFrame(ApplyStore(s, installed, g, ms[i], f.apply(i)), installed, g, ms, f, i + 1);
    }
  }

  // Sweeping

  datatype ResourceKey = ResourceKey(gk: GroupKind, name: string)

  function RenderedKeys(ms: seq<Manifest>): set<ResourceKey> {
    set m | m in ms :: ResourceKey(m.gk, m.name)
  }

  predicate IsOrphan(s: Store, installed: set<GroupKind>, g: Gateway, rendered: set<ResourceKey>, k: Key) {
    && k in s
    && k.ns == g.ns
    && k.gk in MANAGED
    && k.gk in installed
    && ControlledBy(s[k], g)
    && ResourceKey(k.gk, k.name) !in rendered
  }

  function Orphans(s: Store, installed: set<GroupKind>, g: Gateway, rendered: set<ResourceKey>): set<Key> {
    set k | k in s && IsOrphan(s, installed, g, rendered, k)
  }

  function Deleted(s: Store, installed: set<GroupKind>, g: Gateway, rendered: set<ResourceKey>, f: Faults): set<Key> {
    set k | k in Orphans(s, installed, g, rendered) && !f.list(k.gk) && !f.delete(k).DeleteFailed?
  }

  datatype SweepError = ListFailed(gk: GroupKind) | OrphanKept(key: Key)

  // The declared meaning of the error list of a sweep.
  predicate Reported(
    s: Store, installed: set<GroupKind>, g: Gateway, rendered: set<ResourceKey>, f: Faults, e: SweepError)
  {
    match e
    case ListFailed(gk) => gk in MANAGED && f.list(gk)
    case OrphanKept(k) => IsOrphan(s, installed, g, rendered, k) && !f.list(k.gk) && f.delete(k).DeleteFailed?
  }

  // One kind of the sweep.
  method SweepKind(api: KubeApi, g: Gateway, gk: GroupKind, desired: set<ResourceKey>, f: Faults)
    returns (errs: seq<SweepError>)
    requires gk in MANAGED
    modifies api`objects
    ensures api.objects == old(api.objects) - KindPart(Deleted(old(api.objects), api.installed, g, desired, f), gk)
    ensures forall e :: e in errs <==> KindOf(e) == gk && Reported(old(api.objects), api.installed, g, desired, f, e)
  {
    ghost var s := api.objects;
    ghost var part := KindPart(Deleted(s, api.installed, g, desired, f), gk);
    errs := [];
    var list := api.List(g.ns, gk, f.list(gk));
    if list == Err(NoMatch) {
      assert part == {};
      return;
    }
    if list.Err? {
      assert part == {};
      errs := [ListFailed(gk)];
      return;
    }
    var items := list.value;
    for j := 0 to |items|
      invariant api.objects == s - (set k | k in part && k in items[..j])
      invariant forall e :: e in errs <==>
                            e.OrphanKept? && e.key in items[..j] && Reported(s, api.installed, g, desired, f, e)
    {
      var item := items[j];
      assert items[..j + 1] == items[..j] + [item];
      assert item in KeysOfKind(s, g.ns, gk) && item !in items[..j];
      var owned := IsControllerOwnedBy(api.objects[item], g);
      if !owned {
        continue;
      }
      if ResourceKey(gk, item.name) in desired {
        continue;
      }
      var reply := api.Delete(item, f.delete(item));
      if reply.DeleteFailed? {
        errs := errs + [OrphanKept(item)];
      }
    }
    assert items[..|items|] == items;
    assert forall k :: k in items <==> k in KeysOfKind(s, g.ns, gk);
    assert part == set k | k in part && k in items;
  }

  method DeleteOrphanedResources(api: KubeApi, g: Gateway, ms: seq<Manifest>, f: Faults)
    returns (errs: seq<SweepError>)
    modifies api`objects
    ensures api.objects == old(api.objects) - Deleted(old(api.objects), api.installed, g, RenderedKeys(ms), f)
    ensures forall e :: e in errs <==> Reported(old(api.objects), api.installed, g, RenderedKeys(ms), f, e)
  {
    var desired: set<ResourceKey> := {};
    for i := 0 to |ms|
      invariant desired == RenderedKeys(ms[..i])
    {
      assert ms[..i + 1] == ms[..i] + [ms[i]];
      desired := desired + {ResourceKey(ms[i].gk, ms[i].name)};
    }
    assert ms[..|ms|] == ms;
    errs := SweepKinds(api, g, MANAGED, desired, f);
    assert forall k :: k in Deleted(old(api.objects), api.installed, g, desired, f) ==> k.gk in MANAGED;
  }

  method SweepKinds(api: KubeApi, g: Gateway, kinds: seq<GroupKind>, desired: set<ResourceKey>, f: Faults)
    returns (errs: seq<SweepError>)
    requires forall gk :: gk in kinds ==> gk in MANAGED
    modifies api`objects
    ensures var del := Deleted(old(api.objects), api.installed, g, desired, f);
            api.objects == old(api.objects) - (set k | k in del && k.gk in kinds)
    ensures forall e :: e in errs <==>
                          KindOf(e) in kinds && Reported(old(api.objects), api.installed, g, desired, f, e)
  {
    ghost var s := api.objects;
    ghost var del := Deleted(s, api.installed, g, desired, f);
    errs := [];
    for i := 0 to |kinds|
      invariant api.objects == s - (set k | k in del && k.gk in kinds[..i])
      invariant forall e :: e in errs ==> KindOf(e) in kinds[..i] && Reported(s, api.installed, g, desired, f, e)
      invariant forall e :: KindOf(e) in kinds[..i] && Reported(s, api.installed, g, desired, f, e) ==> e in errs
    {
      assert kinds[..i + 1] == kinds[..i] + [kinds[i]];
      var more := SweepKind(api, g, kinds[i], desired, f);
      errs := errs + more;
    }
    assert kinds[..|kinds|] == kinds;
  }

  function KindPart(ks: set<Key>, gk: GroupKind): set<Key> {
    set k | k in ks && k.gk == gk
  }

  function KindOf(e: SweepError): GroupKind {
    match e
    case ListFailed(gk) => gk
    case OrphanKept(k) => k.gk
  }

  // One pass over the workloads: apply everything, then sweep. A failed apply ends the pass.

  function Pass(s: Store, installed: set<GroupKind>, g: Gateway, ms: seq<Manifest>, f: Faults): Store {
    var (s1, ok) := ApplyFrom(s, installed, g, ms, f, 0);
    if ok then s1 - Deleted(s1, installed, g, RenderedKeys(ms), f) else s1
  }

  ghost predicate SweepClean(s: Store, installed: set<GroupKind>, g: Gateway, rendered: set<ResourceKey>, f: Faults) {
    forall e :: !Reported(s, installed, g, rendered, f, e)
  }

  ghost predicate PassOk(s: Store, installed: set<GroupKind>, g: Gateway, ms: seq<Manifest>, f: Faults) {
    var (s1, ok) := ApplyFrom(s, installed, g, ms, f, 0);
    ok && SweepClean(s1, installed, g, RenderedKeys(ms), f)
  }

  method ReconcileWorkloads(api: KubeApi, g: Gateway, ms: seq<Manifest>, f: Faults) returns (ok: bool)
    modifies api`objects
    ensures api.objects == Pass(old(api.objects), api.installed, g, ms, f)
    ensures ok <==> PassOk(old(api.objects), api.installed, g, ms, f)
  {
    ok := ApplyAll(api, g, ms, f);
    if ok {
      ghost var s1 := api.objects;
      var errs := DeleteOrphanedResources(api, g, ms, f);
      ok := errs == [];
      if !ok {
        assert Reported(s1, api.installed, g, RenderedKeys(ms), f, errs[0]);
      }
    }
  }

  lemma DesiredMatchesRendered(installed: set<GroupKind>, g: Gateway, ms: seq<Manifest>, k: Key)
    requires k.gk in installed
    ensures k in Desired(installed, g, ms) <==> k.ns == g.ns && ResourceKey(k.gk, k.name) in RenderedKeys(ms)
  {
    DesiredKeys(installed, g, ms, 0);
    if k.ns == g.ns && ResourceKey(k.gk, k.name) in RenderedKeys(ms) {
      var m :| m in ms && ResourceKey(m.gk, m.name) == ResourceKey(k.gk, k.name);
      var j :| 0 <= j < |ms| && ms[j] == m;
      assert KeyOf(g.ns, ms[j]) == k;
    }
  }

  /**
   Convergence. After a successful pass the objects of installed managed kinds
   that the gateway controls in its namespace are exactly the rendered ones,
   with the rendered fields; everything else is as before.
   */
  lemma Convergence(s: Store, installed: set<GroupKind>, g: Gateway, ms: seq<Manifest>, f: Faults)
    requires PassOk(s, installed, g, ms, f)
    ensures var s' := Pass(s, installed, g, ms, f);
            var d := Desired(installed, g, ms);
            && (forall k: Key :: k.ns == g.ns && k.gk in MANAGED && k.gk in installed ==>
                  (k in s' && ControlledBy(s'[k], g) <==> k in d))
            && (forall k :: k in d ==> k in s' && s'[k] == Stamp(s, k, d[k], g) && ControlledBy(s'[k], g))
            && (forall k :: k !in d ==>
                  (k in s' <==> k in s && !IsOrphan(s, installed, g, RenderedKeys(ms), k)))
            && (forall k :: k !in d && k in s' ==> s'[k] == s[k])
  {
    var (s1, _) := ApplyFrom(s, installed, g, ms, f, 0);
    var d := Desired(installed, g, ms);
    ApplyIsOverlay(s, installed, g, ms, f, 0);
    DesiredKeys(installed, g, ms, 0);
    var s' := Pass(s, installed, g, ms, f);
    forall k | k in d
      ensures k in s' && s'[k] == Stamp(s, k, d[k], g) && ControlledBy(s'[k], g)
    {
      StampOwnership(s, k, d[k], g);
      DesiredMatchesRendered(installed, g, ms, k);
    }
    forall k | k !in d
      ensures k in s' <==> k in s && !IsOrphan(s, installed, g, RenderedKeys(ms), k)
      ensures k in s' ==> s'[k] == s[k]
    {
      if k in s && IsOrphan(s, installed, g, RenderedKeys(ms), k) {
        assert !Reported(s1, installed, g, RenderedKeys(ms), f, ListFailed(k.gk));
        assert !Reported(s1, installed, g, RenderedKeys(ms), f, OrphanKept(k));
      }
    }
    forall k: Key | k.ns == g.ns && k.gk in MANAGED && k.gk in installed
      ensures k in s' && ControlledBy(s'[k], g) <==> k in d
    {
      DesiredMatchesRendered(installed, g, ms, k);
    }
  }

  // The loop finishes exactly when no apply fails and no rendered object has another controller.
  lemma {:induction false} ApplyFinishesIff(
    s: Store, installed: set<GroupKind>, g: Gateway, ms: seq<Manifest>, f: Faults, i: nat)
    requires i <= |ms|
    ensures ApplyFrom(s, installed, g, ms, f, i).1 <==>
            (forall j :: i <= j < |ms| ==> !f.apply(j)) && !Obstructed(s, DesiredFrom(installed, g, ms, i), g)
    decreases |ms| - i
  {
    if ApplyFrom(s, installed, g, ms, f, i).1 {
      ApplyIsOverlay(s, installed, g, ms, f, i);
      ApplyMeetsNoFault(s, installed, g, ms, f, i);
    } else if forall j :: i <= j < |ms| ==> !f.apply(j) {
      var quiet := f.(apply := n => i <= n < |ms| && f.apply(n));
      SameApply(s, installed, g, ms, f, quiet, i);
      ApplySucceedsIff(s, installed, g, ms, quiet, i);
    }
  }

  lemma {:induction false} ApplyMeetsNoFault(
    s: Store, installed: set<GroupKind>, g: Gateway, ms: seq<Manifest>, f: Faults, i: nat)
    requires i <= |ms| && ApplyFrom(s, installed, g, ms, f, i).1
    ensures forall j :: i <= j < |ms| ==> !f.apply(j)
    decreases |ms| - i
  {
    if i < |ms| {
      ApplyMeetsNoFault(ApplyStore(s, installed, g, ms[i], f.apply(i)), installed, g, ms, f, i + 1);
    }
  }

  lemma {:induction false} SameApply(
    s: Store, installed: set<GroupKind>, g: Gateway, ms: seq<Manifest>, f: Faults, f': Faults, i: nat)
    requires i <= |ms|
    requires forall j :: i <= j < |ms| ==> f.apply(j) == f'.apply(j)
    ensures ApplyFrom(s, installed, g, ms, f, i) == ApplyFrom(s, installed, g, ms, f', i)
    decreases |ms| - i
  {
    if i < |ms| {
      SameApply(ApplyStore(s, installed, g, ms[i], f.apply(i)), installed, g, ms, f, f', i + 1);
    }
  }

  // An orphan in terms of the fields of the object and of the manifests.
  lemma OrphanOnFields(s: Store, installed: set<GroupKind>, g: Gateway, ms: seq<Manifest>, k: Key)
    requires k in s
    ensures IsOrphan(s, installed, g, RenderedKeys(ms), k) <==>
            && k.ns == g.ns && k.gk in MANAGED && k.gk in installed
            && (exists r :: r in s[k].owners && r.uid == g.uid && r.kind == "LLMBatchGateway" &&
                            r.apiVersion == "batch.llm-d.ai/v1alpha1" && r.controller == Some(true))
            && (forall m :: m in ms ==> m.gk != k.gk || m.name != k.name)
  {
    ControlOnFields(s[k], g);
    if m :| m in ms && m.gk == k.gk && m.name == k.name {
      assert ResourceKey(k.gk, k.name) in RenderedKeys(ms);
    }
  }

  /**
   What a pass deletes, exactly, on the fields themselves: after every apply has
   gone through, the objects in the gateway's namespace of installed managed kinds
   that have a controller reference of the gateway and that no manifest names,
   unless their kind could not be listed or their delete failed.
   */
  lemma PassDeletesExactly(s: Store, installed: set<GroupKind>, g: Gateway, ms: seq<Manifest>, f: Faults, k: Key)
    requires k in s
    ensures k !in Pass(s, installed, g, ms, f) <==>
            && ApplyFrom(s, installed, g, ms, f, 0).1
            && k.ns == g.ns && k.gk in MANAGED && k.gk in installed
            && (exists r :: r in s[k].owners && r.uid == g.uid && r.kind == "LLMBatchGateway" &&
                            r.apiVersion == "batch.llm-d.ai/v1alpha1" && r.controller == Some(true))
            && (forall m :: m in ms ==> m.gk != k.gk || m.name != k.name)
            && !f.list(k.gk) && !f.delete(k).DeleteFailed?
  {
    var (s1, ok) := ApplyFrom(s, installed, g, ms, f, 0);
    ApplyFrame(s, installed, g, ms, f, 0);
    ApplyKeepsOrphans(s, installed, g, ms, f);
    OrphanOnFields(s, installed, g, ms, k);
    assert IsOrphan(s1, installed, g, RenderedKeys(ms), k) <==> k in Orphans(s1, installed, g, RenderedKeys(ms));
    assert IsOrphan(s, installed, g, RenderedKeys(ms), k) <==> k in Orphans(s, installed, g, RenderedKeys(ms));
  }

  /** An object that nobody controls and that no manifest names is as it was, whatever happens in the pass. */
  lemma UncontrolledIsSpared(s: Store, installed: set<GroupKind>, g: Gateway, ms: seq<Manifest>, f: Faults, k: Key)
    requires k in s && forall r :: r in s[k].owners ==> r.controller != Some(true)
    requires k.ns == g.ns ==> forall m :: m in ms ==> m.gk != k.gk || m.name != k.name
    ensures k in Pass(s, installed, g, ms, f) && Pass(s, installed, g, ms, f)[k] == s[k]
  {
    PassDeletesExactly(s, installed, g, ms, f, k);
    ApplyFrame(s, installed, g, ms, f, 0);
    DesiredKeys(installed, g, ms, 0);
    assert forall j :: 0 <= j < |ms| ==> ms[j] in ms;
  }

  /**
   When a pass succeeds, exactly, for every pattern of failures: no apply fails, no
   rendered object of an installed kind has a controller reference of somebody else,
   every managed kind can be listed, and every orphan can be deleted.
   */
  lemma PassSucceedsIff(s: Store, installed: set<GroupKind>, g: Gateway, ms: seq<Manifest>, f: Faults)
    ensures PassOk(s, installed, g, ms, f) <==>
            && (forall i :: 0 <= i < |ms| ==> !f.apply(i))
            && (forall m, r :: m in ms && m.gk in installed && Key(g.ns, m.gk, m.name) in s &&
                               r in s[Key(g.ns, m.gk, m.name)].owners ==>
                                 r.uid == g.uid || r.controller != Some(true))
            && (forall gk :: gk in MANAGED ==> !f.list(gk))
            && (forall k :: k in s && IsOrphan(s, installed, g, RenderedKeys(ms), k) ==> !f.delete(k).DeleteFailed?)
  {
    ApplyFinishesIff(s, installed, g, ms, f, 0);
    ObstructedOnFields(s, installed, g, ms);
    CleanSweepIff(ApplyFrom(s, installed, g, ms, f, 0).0, installed, g, RenderedKeys(ms), f);
    ApplyKeepsOrphans(s, installed, g, ms, f);
    var s1 := ApplyFrom(s, installed, g, ms, f, 0).0;
    assert forall k :: k in Orphans(s1, installed, g, RenderedKeys(ms)) <==> k in Orphans(s, installed, g, RenderedKeys(ms));
  }

  lemma CleanSweepIff(s: Store, installed: set<GroupKind>, g: Gateway, rendered: set<ResourceKey>, f: Faults)
    ensures SweepClean(s, installed, g, rendered, f) <==>
            && (forall gk :: gk in MANAGED ==> !f.list(gk))
            && (forall k :: k in Orphans(s, installed, g, rendered) ==> !f.delete(k).DeleteFailed?)
  {
    if gk :| gk in MANAGED && f.list(gk) {
      assert Reported(s, installed, g, rendered, f, ListFailed(gk));
    } else if k :| k in Orphans(s, installed, g, rendered) && f.delete(k).DeleteFailed? {
      assert Reported(s, installed, g, rendered, f, OrphanKept(k));
    }
  }

  lemma ObstructedOnFields(s: Store, installed: set<GroupKind>, g: Gateway, ms: seq<Manifest>)
    ensures Obstructed(s, Desired(installed, g, ms), g) <==>
            exists m, r :: m in ms && m.gk in installed && Key(g.ns, m.gk, m.name) in s &&
                           r in s[Key(g.ns, m.gk, m.name)].owners && r.uid != g.uid && r.controller == Some(true)
  {
    var d := Desired(installed, g, ms);
    DesiredKeys(installed, g, ms, 0);
    if k :| k in d && k in s && ForeignController(s[k], g) {
      var j :| 0 <= j < |ms| && ms[j].gk in installed && KeyOf(g.ns, ms[j]) == k;
      var r :| r in s[k].owners && ForeignRef(r, g);
      assert ms[j] in ms && r in s[Key(g.ns, ms[j].gk, ms[j].name)].owners;
    }
    if m, r :| m in ms && m.gk in installed && Key(g.ns, m.gk, m.name) in s &&
               r in s[Key(g.ns, m.gk, m.name)].owners && r.uid != g.uid && r.controller == Some(true) {
      var j :| 0 <= j < |ms| && ms[j] == m;
      var k := Key(g.ns, m.gk, m.name);
      assert KeyOf(g.ns, ms[j]) == k && k in d && ForeignRef(r, g);
    }
  }

  // Where the fields of a rendered object come from.
  lemma {:induction false} DesiredComesFrom(installed: set<GroupKind>, g: Gateway, ms: seq<Manifest>, i: nat)
    requires i <= |ms|
    ensures forall k :: k in DesiredFrom(installed, g, ms, i) ==>
                          exists m :: m in ms && m.gk == k.gk && m.name == k.name && k.ns == g.ns &&
                                      m.fields == DesiredFrom(installed, g, ms, i)[k]
    decreases |ms| - i
  {
    if i < |ms| {
      DesiredComesFrom(installed, g, ms, i + 1);
      assert ms[i] in ms;
    }
  }

  /**
   Convergence on the fields: after a successful pass every manifest of an installed
   kind has its object, controlled by the gateway and with the fields of a manifest
   of that kind and name; and whatever of an installed managed kind the gateway
   controls in its namespace is named by a manifest.
   */
  lemma PassDeploysManifests(s: Store, installed: set<GroupKind>, g: Gateway, ms: seq<Manifest>, f: Faults)
    requires PassOk(s, installed, g, ms, f)
    ensures var s' := Pass(s, installed, g, ms, f);
            forall m :: m in ms && m.gk in installed ==>
              var k := Key(g.ns, m.gk, m.name);
              && k in s'
              && OwnerRef(g.uid, "LLMBatchGateway", "batch.llm-d.ai/v1alpha1", Some(true)) in s'[k].owners
              && exists n :: n in ms && n.gk == m.gk && n.name == m.name && s'[k].fields == n.fields
    ensures var s' := Pass(s, installed, g, ms, f);
            forall k, r :: k in s' && k.ns == g.ns && k.gk in MANAGED && k.gk in installed && r in s'[k].owners &&
                           r.uid == g.uid && r.kind == "LLMBatchGateway" &&
                           r.apiVersion == "batch.llm-d.ai/v1alpha1" && r.controller == Some(true) ==>
                             exists m :: m in ms && m.gk == k.gk && m.name == k.name
  {
    var d, s' := Desired(installed, g, ms), Pass(s, installed, g, ms, f);
    Convergence(s, installed, g, ms, f);
    DesiredKeys(installed, g, ms, 0);
    DesiredComesFrom(installed, g, ms, 0);
    forall m | m in ms && m.gk in installed
      ensures var k := Key(g.ns, m.gk, m.name); k in d && s'[k] == Stamp(s, k, d[k], g)
    {
      var j :| 0 <= j < |ms| && ms[j] == m;
      assert KeyOf(g.ns, ms[j]) == Key(g.ns, m.gk, m.name);
    }
    forall k | k in d
      ensures OwnerRef(g.uid, "LLMBatchGateway", "batch.llm-d.ai/v1alpha1", Some(true)) in Stamp(s, k, d[k], g).owners
      ensures Stamp(s, k, d[k], g).fields == d[k]
    {
      StampOwnership(s, k, d[k], g);
    }
    forall k, r | k in s' && k.ns == g.ns && k.gk in MANAGED && k.gk in installed && r in s'[k].owners &&
                  r.uid == g.uid && r.kind == "LLMBatchGateway" &&
                  r.apiVersion == "batch.llm-d.ai/v1alpha1" && r.controller == Some(true)
      ensures exists m :: m in ms && m.gk == k.gk && m.name == k.name
    {
      ControlOnFields(s'[k], g);
      assert k in d;
    }
  }

  // Equal keys mean equal manifests; distinct keys are the usual way to meet it.
  ghost predicate KeysDetermine(ms: seq<Manifest>) {
    forall m, n :: m in ms && n in ms && m.gk == n.gk && m.name == n.name ==> m == n
  }

  ghost predicate SameManifests(a: seq<Manifest>, b: seq<Manifest>) {
    forall m :: m in a <==> m in b
  }

  lemma {:induction false} DesiredFields(installed: set<GroupKind>, g: Gateway, ms: seq<Manifest>, i: nat)
    requires i <= |ms|
    requires KeysDetermine(ms)
    ensures forall j :: i <= j < |ms| && ms[j].gk in installed ==>
                          KeyOf(g.ns, ms[j]) in DesiredFrom(installed, g, ms, i) &&
                          DesiredFrom(installed, g, ms, i)[KeyOf(g.ns, ms[j])] == ms[j].fields
    decreases |ms| - i
  {
    if i < |ms| {
      DesiredFields(installed, g, ms, i + 1);
      DesiredKeys(installed, g, ms, i + 1);
      if ms[i].gk in installed && KeyOf(g.ns, ms[i]) in DesiredFrom(installed, g, ms, i + 1) {
        var j :| i + 1 <= j < |ms| && ms[j].gk in installed && KeyOf(g.ns, ms[j]) == KeyOf(g.ns, ms[i]);
        assert ms[j] in ms && ms[i] in ms;
      }
    }
  }

  lemma DesiredIgnoresOrder(installed: set<GroupKind>, g: Gateway, a: seq<Manifest>, b: seq<Manifest>)
    requires KeysDetermine(a) && SameManifests(a, b)
    ensures KeysDetermine(b)
    ensures Desired(installed, g, a) == Desired(installed, g, b)
    ensures RenderedKeys(a) == RenderedKeys(b)
  {
    DesiredIncluded(installed, g, a, b);
    DesiredIncluded(installed, g, b, a);
  }

  lemma DesiredIncluded(installed: set<GroupKind>, g: Gateway, a: seq<Manifest>, b: seq<Manifest>)
    requires KeysDetermine(a) && KeysDetermine(b) && SameManifests(a, b)
    ensures forall k :: k in Desired(installed, g, a) ==>
                          k in Desired(installed, g, b) && Desired(installed, g, b)[k] == Desired(installed, g, a)[k]
  {
    DesiredKeys(installed, g, a, 0);
    DesiredFields(installed, g, a, 0);
    DesiredFields(installed, g, b, 0);
    forall k | k in Desired(installed, g, a)
      ensures k in Desired(installed, g, b) && Desired(installed, g, b)[k] == Desired(installed, g, a)[k]
    {
      var j :| 0 <= j < |a| && a[j].gk in installed && KeyOf(g.ns, a[j]) == k;
      assert a[j] in b;
      var l :| 0 <= l < |b| && b[l] == a[j];
    }
  }

  /** Confluence. The store after a successful pass does not depend on the order of the rendered objects. */
  lemma Confluence(
    s: Store, installed: set<GroupKind>, g: Gateway, a: seq<Manifest>, fa: Faults, b: seq<Manifest>, fb: Faults)
    requires KeysDetermine(a) && SameManifests(a, b)
    requires PassOk(s, installed, g, a, fa)
    ensures PassOk(s, installed, g, b, fb) ==> Pass(s, installed, g, b, fb) == Pass(s, installed, g, a, fa)
    ensures NoFaults(fb) ==> PassOk(s, installed, g, b, fb)
  {
    DesiredIgnoresOrder(installed, g, a, b);
    Convergence(s, installed, g, a, fa);
    if PassOk(s, installed, g, b, fb) {
      Convergence(s, installed, g, b, fb);
      var sa, sb := Pass(s, installed, g, a, fa), Pass(s, installed, g, b, fb);
      assert forall k :: k in sa <==> k in sb;
      assert forall k :: k in sa ==> sa[k] == sb[k];
    }
    if NoFaults(fb) {
      ApplyIsOverlay(s, installed, g, a, fa, 0);
      ApplySucceedsIff(s, installed, g, b, fb, 0);
    }
  }

  /** Idempotence. A second, undisturbed pass over the same objects, in any order, succeeds and changes nothing. */
  lemma Idempotence(
    s: Store, installed: set<GroupKind>, g: Gateway, a: seq<Manifest>, fa: Faults, b: seq<Manifest>, fb: Faults)
    requires KeysDetermine(a) && SameManifests(a, b)
    requires PassOk(s, installed, g, a, fa) && NoFaults(fb)
    ensures var s' := Pass(s, installed, g, a, fa);
            PassOk(s', installed, g, b, fb) && Pass(s', installed, g, b, fb) == s'
  {
    var s' := Pass(s, installed, g, a, fa);
    var d := Desired(installed, g, a);
    DesiredIgnoresOrder(installed, g, a, b);
    Convergence(s, installed, g, a, fa);
    ApplyIsOverlay(s, installed, g, a, fa, 0);
    forall k | k in d
      ensures !ForeignController(s'[k], g) && Stamp(s', k, d[k], g) == s'[k]
    {
      StampOwnership(s, k, d[k], g);
      UpsertOwnerKeepsOthers(OwnersAt(s, k), ControllerRef(g));
    }
    ApplySucceedsIff(s', installed, g, b, fb, 0);
    assert PassOk(s', installed, g, b, fb);
    Convergence(s', installed, g, b, fb);
    var s'' := Pass(s', installed, g, b, fb);
    forall k | k !in d
      ensures k in s'' <==> k in s'
    {
      if k in s' && IsOrphan(s', installed, g, RenderedKeys(b), k) {
        assert false;
      }
    }
    assert forall k :: k in s'' <==> k in s';
    assert forall k :: k in s'' ==> s''[k] == s'[k];
  }

  /**
   Progress under partial failure. The orphans left are exactly those whose kind
   could not be listed or whose delete failed, a clean report leaves none, and
   each removed orphan lowers the count by one.
   */
  lemma SweepProgress(s: Store, installed: set<GroupKind>, g: Gateway, rendered: set<ResourceKey>, f: Faults)
    ensures var s' := s - Deleted(s, installed, g, rendered, f);
            && (forall k :: k in Orphans(s', installed, g, rendered) <==>
                  k in Orphans(s, installed, g, rendered) && (f.list(k.gk) || f.delete(k).DeleteFailed?))
            && |Orphans(s', installed, g, rendered)| ==
               |Orphans(s, installed, g, rendered)| - |Deleted(s, installed, g, rendered, f)|
            && (SweepClean(s, installed, g, rendered, f) ==> Orphans(s', installed, g, rendered) == {})
  {
    var del := Deleted(s, installed, g, rendered, f);
    var s' := s - del;
    var before, after := Orphans(s, installed, g, rendered), Orphans(s', installed, g, rendered);
    assert after == before - del;
    assert del <= before;
    if SweepClean(s, installed, g, rendered, f) {
      CleanSweepDeletesAll(s, installed, g, rendered, f);
    }
  }

  lemma CleanSweepDeletesAll(s: Store, installed: set<GroupKind>, g: Gateway, rendered: set<ResourceKey>, f: Faults)
    requires SweepClean(s, installed, g, rendered, f)
    ensures Deleted(s, installed, g, rendered, f) == Orphans(s, installed, g, rendered)
  {
    forall k | k in Orphans(s, installed, g, rendered)
      ensures k in Deleted(s, installed, g, rendered, f)
    {
      assert !Reported(s, installed, g, rendered, f, ListFailed(k.gk));
      assert !Reported(s, installed, g, rendered, f, OrphanKept(k));
    }
  }

  /** An undisturbed pass succeeds exactly when no rendered object has a foreign controller. */
  lemma UndisturbedPassSucceedsIff(s: Store, installed: set<GroupKind>, g: Gateway, ms: seq<Manifest>, f: Faults)
    requires NoFaults(f)
    ensures PassOk(s, installed, g, ms, f) <==> !Obstructed(s, Desired(installed, g, ms), g)
  {
    ApplySucceedsIff(s, installed, g, ms, f, 0);
  }

  // Consecutive sweeps with the same rendered set.
  function Sweeps(s: Store, installed: set<GroupKind>, g: Gateway, rendered: set<ResourceKey>, fs: seq<Faults>): Store {
    if fs == [] then s
    else Sweeps(s - Deleted(s, installed, g, rendered, fs[0]), installed, g, rendered, fs[1..])
  }

  // Every sweep that still sees an orphan manages to delete one.
  ghost predicate AlwaysSomeDelete(
    s: Store, installed: set<GroupKind>, g: Gateway, rendered: set<ResourceKey>, fs: seq<Faults>)
  {
    fs == [] ||
    (&& (Orphans(s, installed, g, rendered) != {} ==> Deleted(s, installed, g, rendered, fs[0]) != {})
     && AlwaysSomeDelete(s - Deleted(s, installed, g, rendered, fs[0]), installed, g, rendered, fs[1..]))
  }

  /** As many sweeps as there are orphans suffice, however many calls fail, as long as each sweep deletes one. */
  lemma {:induction false} SweepsTerminate(
    s: Store, installed: set<GroupKind>, g: Gateway, rendered: set<ResourceKey>, fs: seq<Faults>)
    requires AlwaysSomeDelete(s, installed, g, rendered, fs)
    requires |fs| >= |Orphans(s, installed, g, rendered)|
    ensures Orphans(Sweeps(s, installed, g, rendered, fs), installed, g, rendered) == {}
    decreases |fs|
  {
    if fs != [] {
      var del := Deleted(s, installed, g, rendered, fs[0]);
      SweepProgress(s, installed, g, rendered, fs[0]);
      assert Orphans(s, installed, g, rendered) != {} ==> |del| > 0;
      SweepsTerminate(s - del, installed, g, rendered, fs[1..]);
    }
  }

  // Applying makes and removes no orphan.
  lemma ApplyKeepsOrphans(s: Store, installed: set<GroupKind>, g: Gateway, ms: seq<Manifest>, f: Faults)
    ensures Orphans(ApplyFrom(s, installed, g, ms, f, 0).0, installed, g, RenderedKeys(ms)) ==
            Orphans(s, installed, g, RenderedKeys(ms))
  {
    var s1, rendered := ApplyFrom(s, installed, g, ms, f, 0).0, RenderedKeys(ms);
    ApplyFrame(s, installed, g, ms, f, 0);
    forall k | k in s1 && k.gk in installed
      ensures IsOrphan(s1, installed, g, rendered, k) <==> k in s && IsOrphan(s, installed, g, rendered, k)
    {
      DesiredMatchesRendered(installed, g, ms, k);
    }
  }

  /**
   Progress of a whole pass. Its orphans are those that the sweep has still to
   remove, and their count falls by the number of deletes, none after a failed apply.
   */
  lemma PassProgress(s: Store, installed: set<GroupKind>, g: Gateway, ms: seq<Manifest>, f: Faults)
    ensures var (s1, ok) := ApplyFrom(s, installed, g, ms, f, 0);
            var rendered := RenderedKeys(ms);
            && Orphans(Pass(s, installed, g, ms, f), installed, g, rendered) <= Orphans(s, installed, g, rendered)
            && |Orphans(Pass(s, installed, g, ms, f), installed, g, rendered)| ==
               |Orphans(s, installed, g, rendered)| - (if ok then |Deleted(s1, installed, g, rendered, f)| else 0)
            && (PassOk(s, installed, g, ms, f) ==> Orphans(Pass(s, installed, g, ms, f), installed, g, rendered) == {})
  {
    var (s1, ok) := ApplyFrom(s, installed, g, ms, f, 0);
    ApplyKeepsOrphans(s, installed, g, ms, f);
    if ok {
      SweepProgress(s1, installed, g, RenderedKeys(ms), f);
    }
  }

  // Consecutive passes, each with its own manifests and failures.
  function Passes(s: Store, installed: set<GroupKind>, g: Gateway, runs: seq<(seq<Manifest>, Faults)>): Store
    decreases |runs|
  {
    if runs == [] then s
    else Passes(Pass(s, installed, g, runs[0].0, runs[0].1), installed, g, runs[1..])
  }

  // Every pass that still finds an orphan gets as far as the sweep and manages to delete one.
  ghost predicate PassesDelete(s: Store, installed: set<GroupKind>, g: Gateway, runs: seq<(seq<Manifest>, Faults)>)
    decreases |runs|
  {
    runs == [] ||
    var (ms, f) := runs[0];
    var (s1, ok) := ApplyFrom(s, installed, g, ms, f, 0);
    && (Orphans(s, installed, g, RenderedKeys(ms)) != {} ==> ok && Deleted(s1, installed, g, RenderedKeys(ms), f) != {})
    && PassesDelete(Pass(s, installed, g, ms, f), installed, g, runs[1..])
  }

  /**
   As many whole passes over one rendered set as there are orphans leave none, in
   whatever order each renders and however many calls fail, as long as each deletes one.
   */
  lemma {:induction false} PassesTerminate(
    s: Store, installed: set<GroupKind>, g: Gateway, rendered: set<ResourceKey>, runs: seq<(seq<Manifest>, Faults)>)
    requires forall r :: r in runs ==> RenderedKeys(r.0) == rendered
    requires PassesDelete(s, installed, g, runs)
    requires |runs| >= |Orphans(s, installed, g, rendered)|
    ensures Orphans(Passes(s, installed, g, runs), installed, g, rendered) == {}
    decreases |runs|
  {
    if runs != [] {
      var (ms, f) := runs[0];
      assert runs[0] in runs;
      PassProgress(s, installed, g, ms, f);
      PassesTerminate(Pass(s, installed, g, ms, f), installed, g, rendered, runs[1..]);
    }
  }

  // Ownership

  // The API server admits at most one controller reference.
  ghost predicate SingleController(o: Object) {
    forall r, q :: r in o.owners && q in o.owners && r.controller == Some(true) && q.controller == Some(true) ==>
                     r.uid == q.uid
  }

  ghost predicate WellFormed(s: Store) {
    forall k :: k in s ==> SingleController(s[k])
  }

  lemma ForeignWhenControlledByOther(o: Object, g: Gateway, h: Gateway)
    requires g.uid != h.uid && ControlledBy(o, h)
    ensures ForeignController(o, g)
    ensures SingleController(o) ==> !ControlledBy(o, g)
  {
    var r :| r in o.owners && Controls(r, h);
    assert ForeignRef(r, g);
  }

  lemma StampWellFormed(s: Store, k: Key, f: Fields, g: Gateway)
    requires k in s ==> SingleController(s[k]) && !ForeignController(s[k], g)
    ensures SingleController(Stamp(s, k, f, g))
  {
    var o := Stamp(s, k, f, g);
    UpsertOwnerKeepsOthers(OwnersAt(s, k), ControllerRef(g));
    forall r | r in o.owners && r.controller == Some(true)
      ensures r.uid == g.uid
    {
      if r.uid != g.uid {
        assert r in s[k].owners && ForeignRef(r, g);
        assert false;
      }
    }
  }

  lemma {:induction false} ApplyWellFormed(
    s: Store, installed: set<GroupKind>, g: Gateway, ms: seq<Manifest>, f: Faults, i: nat)
    requires i <= |ms|
    requires WellFormed(s)
    ensures WellFormed(ApplyFrom(s, installed, g, ms, f, i).0)
    decreases |ms| - i
  {
    if i < |ms| && !ApplyOutcomeOf(s, installed, g, ms[i], f.apply(i)).ApplyFailed? {
      var k := KeyOf(g.ns, ms[i]);
      if ms[i].gk in installed {
        StampWellFormed(s, k, ms[i].fields, g);
      }
      ApplyWellFormed(ApplyStore(s, installed, g, ms[i], f.apply(i)), installed, g, ms, f, i + 1);
    }
  }

  /**
   Sweep safety of one pass, successful or not. Only the gateway's own unrendered
   objects of managed kinds in its namespace are deleted, and only after every
   rendered object was applied or skipped; objects of another controller are not
   touched at all.
   */
  lemma PassSafety(s: Store, installed: set<GroupKind>, g: Gateway, ms: seq<Manifest>, f: Faults)
    requires WellFormed(s)
    ensures WellFormed(Pass(s, installed, g, ms, f))
    ensures var s' := Pass(s, installed, g, ms, f);
            forall k :: k in s && k !in s' ==>
              && IsOrphan(s, installed, g, RenderedKeys(ms), k)
              && var d := Desired(installed, g, ms);
                 forall x :: x in d ==> x in s' && s'[x] == Stamp(s, x, d[x], g)
    ensures var s' := Pass(s, installed, g, ms, f);
            forall k, h: Gateway :: k in s && h.uid != g.uid && ControlledBy(s[k], h) ==> k in s' && s'[k] == s[k]
    ensures var s' := Pass(s, installed, g, ms, f);
            forall k :: k in s' && k !in s ==> k in Desired(installed, g, ms)
    ensures var s' := Pass(s, installed, g, ms, f);
            forall k :: k in s && k in s' && k !in Desired(installed, g, ms) ==> s'[k] == s[k]
  {
    var (s1, ok) := ApplyFrom(s, installed, g, ms, f, 0);
    var s' := Pass(s, installed, g, ms, f);
    var d := Desired(installed, g, ms);
    ApplyFrame(s, installed, g, ms, f, 0);
    ApplyWellFormed(s, installed, g, ms, f, 0);
    DesiredKeys(installed, g, ms, 0);
    forall k, h: Gateway | k in s && h.uid != g.uid && ControlledBy(s[k], h)
      ensures k in s' && s'[k] == s[k]
    {
      ForeignWhenControlledByOther(s[k], g, h);
    }
    if ok {
      ApplyIsOverlay(s, installed, g, ms, f, 0);
      forall k | k in d
        ensures k in s' && s'[k] == Stamp(s, k, d[k], g)
      {
        StampOwnership(s, k, d[k], g);
        DesiredMatchesRendered(installed, g, ms, k);
      }
      forall k | k in s && k !in s'
        ensures IsOrphan(s, installed, g, RenderedKeys(ms), k)
      {
        DesiredMatchesRendered(installed, g, ms, k);
      }
    }
  }
}
