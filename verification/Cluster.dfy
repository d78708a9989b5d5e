/**
 The part of the API server that the operator relies on: a map of objects with
 owner references, server-side apply with a controller reference, list and
 delete, and the set of kinds that are installed.
 */
module Cluster {
  import opened Wrappers
  import opened Names

  datatype GroupKind = GroupKind(group: string, kind: string)

  datatype Key = Key(ns: string, gk: GroupKind, name: string)

  datatype OwnerRef = OwnerRef(uid: string, kind: string, apiVersion: string, controller: Option<bool>)

  // The fields that the operator's field manager writes.
  datatype Fields = Fields(objectType: string, annotations: map<string, string>, data: map<string, string>)

  datatype Object = Object(owners: seq<OwnerRef>, fields: Fields)

  type Store = map<Key, Object>

  // The identity of one LLMBatchGateway resource.
  datatype Gateway = Gateway(ns: string, name: string, uid: string)

  // A rendered object before its namespace and owner are set.
  datatype Manifest = Manifest(gk: GroupKind, name: string, fields: Fields)

  const GATEWAY_GROUP := "batch.llm-d.ai"
  const GATEWAY_KIND := "LLMBatchGateway"
  const GATEWAY_API_VERSION := "batch.llm-d.ai/v1alpha1"

  const SECRET := GroupKind("", "Secret")
  const REFERENCE_GRANT := GroupKind("gateway.networking.k8s.io", "ReferenceGrant")

  // Ownership

  predicate Controls(r: OwnerRef, g: Gateway) {
    && r.uid == g.uid
    && r.kind == GATEWAY_KIND
    && r.apiVersion == GATEWAY_API_VERSION
    && r.controller == Some(true)
  }

  predicate ControlledBy(o: Object, g: Gateway) {
    exists r :: r in o.owners && Controls(r, g)
  }

  predicate ForeignRef(r: OwnerRef, g: Gateway) {
    r.uid != g.uid && r.controller == Some(true)
  }

  // The API server refuses a second controller reference.
  predicate ForeignController(o: Object, g: Gateway) {
    exists r :: r in o.owners && ForeignRef(r, g)
  }

  method IsControllerOwnedBy(o: Object, g: Gateway) returns (owned: bool)
    ensures owned <==> ControlledBy(o, g)
    ensures owned <==> exists r :: r in o.owners && r.uid == g.uid && r.kind == "LLMBatchGateway" &&
                                   r.apiVersion == "batch.llm-d.ai/v1alpha1" && r.controller == Some(true)
  {
    for i := 0 to |o.owners|
      invariant forall r :: r in o.owners[..i] ==> !Controls(r, g)
    {
      if Controls(o.owners[i], g) {
        return true;
      }
    }
    assert o.owners == o.owners[..|o.owners|];
    return false;
  }

  function ControllerRef(g: Gateway): OwnerRef {
    OwnerRef(g.uid, GATEWAY_KIND, GATEWAY_API_VERSION, Some(true))
  }

  // Owner references form a list keyed by uid.
  function UpsertOwner(owners: seq<OwnerRef>, r: OwnerRef): seq<OwnerRef> {
    if owners == [] then [r]
    else if owners[0].uid == r.uid then [r] + owners[1..]
    else [owners[0]] + UpsertOwner(owners[1..], r)
  }

  lemma {:induction false} UpsertOwnerKeepsOthers(owners: seq<OwnerRef>, r: OwnerRef)
    ensures r in UpsertOwner(owners, r)
    ensures forall x: OwnerRef :: x.uid != r.uid ==> (x in UpsertOwner(owners, r) <==> x in owners)
    ensures UpsertOwner(UpsertOwner(owners, r), r) == UpsertOwner(owners, r)
  {
    if owners != [] && owners[0].uid != r.uid {
      UpsertOwnerKeepsOthers(owners[1..], r);
      assert owners == [owners[0]] + owners[1..];
      assert UpsertOwner(owners, r)[1..] == UpsertOwner(owners[1..], r);
    } else if owners != [] {
      assert owners == [owners[0]] + owners[1..];
    }
  }

  // Apply

  function KeyOf(ns: string, m: Manifest): Key {
    Key(ns, m.gk, m.name)
  }

  function OwnersAt(s: Store, k: Key): seq<OwnerRef> {
    if k in s then s[k].owners else []
  }

  // What a landed apply stores: the manager's fields are replaced, owner
  // references of others are kept.
  function Stamp(s: Store, k: Key, f: Fields, g: Gateway): Object {
    Object(UpsertOwner(OwnersAt(s, k), ControllerRef(g)), f)
  }

  // Control in terms of the fields of an owner reference.
  lemma ControlOnFields(o: Object, g: Gateway)
    ensures ControlledBy(o, g) <==>
            exists r :: r in o.owners && r.uid == g.uid && r.kind == "LLMBatchGateway" &&
                        r.apiVersion == "batch.llm-d.ai/v1alpha1" && r.controller == Some(true)
    ensures ForeignController(o, g) <==> exists r :: r in o.owners && r.uid != g.uid && r.controller == Some(true)
  {
    if r :| r in o.owners && r.uid == g.uid && r.kind == "LLMBatchGateway" &&
            r.apiVersion == "batch.llm-d.ai/v1alpha1" && r.controller == Some(true) {
      assert Controls(r, g);
    }
    if r :| r in o.owners && r.uid != g.uid && r.controller == Some(true) {
      assert ForeignRef(r, g);
    }
  }

  /** Stamping makes the gateway a controller and adds no other one; it absorbs an earlier stamp. */
  lemma StampOwnership(s: Store, k: Key, f: Fields, g: Gateway)
    ensures ControlledBy(Stamp(s, k, f, g), g) && Stamp(s, k, f, g).fields == f
    ensures OwnerRef(g.uid, "LLMBatchGateway", "batch.llm-d.ai/v1alpha1", Some(true)) in Stamp(s, k, f, g).owners
    ensures forall h: Gateway :: h.uid != g.uid ==> (ControlledBy(Stamp(s, k, f, g), h) <==> k in s && ControlledBy(s[k], h))
    ensures ForeignController(Stamp(s, k, f, g), g) <==> k in s && ForeignController(s[k], g)
    ensures forall f0 :: Stamp(s[k := Stamp(s, k, f0, g)], k, f, g) == Stamp(s, k, f, g)
  {
    var o := Stamp(s, k, f, g);
    UpsertOwnerKeepsOthers(OwnersAt(s, k), ControllerRef(g));
    assert Controls(ControllerRef(g), g) && ControllerRef(g) in o.owners;
    forall h: Gateway | h.uid != g.uid
      ensures ControlledBy(o, h) <==> k in s && ControlledBy(s[k], h)
    {
      if ControlledBy(o, h) {
        var r :| r in o.owners && Controls(r, h);
        assert r in OwnersAt(s, k);
      }
      if k in s && ControlledBy(s[k], h) {
        var r :| r in s[k].owners && Controls(r, h);
        assert r in o.owners;
      }
    }
    if ForeignController(o, g) {
      var r :| r in o.owners && ForeignRef(r, g);
      assert r in OwnersAt(s, k);
    }
    if k in s && ForeignController(s[k], g) {
      var r :| r in s[k].owners && ForeignRef(r, g);
      assert r in o.owners;
    }
  }

  datatype ApplyOutcome = Applied | NotInstalled | ApplyFailed

  function ApplyOutcomeOf(s: Store, installed: set<GroupKind>, g: Gateway, m: Manifest, fault: bool): ApplyOutcome {
    var k := KeyOf(g.ns, m);
    if fault then ApplyFailed
    else if m.gk !in installed then NotInstalled
    else if k in s && ForeignController(s[k], g) then ApplyFailed
    else Applied
  }

  function ApplyStore(s: Store, installed: set<GroupKind>, g: Gateway, m: Manifest, fault: bool): Store {
    var k := KeyOf(g.ns, m);
    if ApplyOutcomeOf(s, installed, g, m, fault).Applied? then s[k := Stamp(s, k, m.fields, g)] else s
  }

  // Delete: the call removed the object, another client had removed it, or the call failed.
  datatype DeleteReply = Removed | AlreadyGone | DeleteFailed

  /** The mutable cluster. `fault` arguments say whether a call fails for reasons outside the store. */
  class KubeApi {
    var objects: Store
    var installed: set<GroupKind>
    var grants: map<NsName, Grant>

    method Apply(g: Gateway, m: Manifest, fault: bool) returns (outcome: ApplyOutcome)
      modifies this`objects
      ensures objects == ApplyStore(old(objects), installed, g, m, fault)
      ensures outcome == ApplyOutcomeOf(old(objects), installed, g, m, fault)
    {
      outcome := ApplyOutcomeOf(objects, installed, g, m, fault);
      if outcome.Applied? {
        var k := KeyOf(g.ns, m);
        objects := objects[k := Stamp(objects, k, m.fields, g)];
      }
    }

    method Delete(k: Key, reply: DeleteReply) returns (r: DeleteReply)
      modifies this`objects
      ensures r == reply
      ensures objects == if reply.DeleteFailed? then old(objects) else old(objects) - {k}
    {
      r := reply;
      if !reply.DeleteFailed? {
        objects := objects - {k};
      }
    }

    // Keys of one kind in one namespace, each once, in no particular order.
    method List(ns: string, gk: GroupKind, fault: bool) returns (r: Result<seq<Key>, ListError>)
      ensures fault ==> r == Err(Unavailable)
      ensures !fault && gk !in installed ==> r == Err(NoMatch)
      ensures !fault && gk in installed ==> r.Ok? && Enumerates(r.value, KeysOfKind(objects, ns, gk))
    {
      if fault {
        return Err(Unavailable);
      }
      if gk !in installed {
        return Err(NoMatch);
      }
      var todo := KeysOfKind(objects, ns, gk);
      var items: seq<Key> := [];
      while todo != {}
        invariant todo <= KeysOfKind(objects, ns, gk)
        invariant Enumerates(items, KeysOfKind(objects, ns, gk) - todo)
        decreases |todo|
      {
        var k :| k in todo;
        todo := todo - {k};
        items := items + [k];
      }
      return Ok(items);
    }

    // ReferenceGrants of one namespace, in no particular order.
    method ListGrants(ns: string, fault: bool) returns (r: Result<seq<Grant>, ListError>)
      ensures fault ==> r == Err(Unavailable)
      ensures !fault && REFERENCE_GRANT !in installed ==> r == Err(NoMatch)
      ensures !fault && REFERENCE_GRANT in installed ==>
                r.Ok? && forall x :: x in r.value <==> x in GrantsIn(grants, ns)
    {
      if fault {
        return Err(Unavailable);
      }
      if REFERENCE_GRANT !in installed {
        return Err(NoMatch);
      }
      var todo := GrantsIn(grants, ns);
      var items: seq<Grant> := [];
      while todo != {}
        invariant todo <= GrantsIn(grants, ns)
        invariant forall x :: x in items <==> x in GrantsIn(grants, ns) - todo
        decreases |todo|
      {
        var x :| x in todo;
        todo := todo - {x};
        items := items + [x];
      }
      return Ok(items);
    }
  }

  datatype ListError = NoMatch | Unavailable

  ghost predicate Enumerates<T(!new)>(items: seq<T>, elements: set<T>) {
    && (forall x :: x in elements <==> x in items)
    && (forall i, j :: 0 <= i < j < |items| ==> items[i] != items[j])
  }

  function KeysOfKind(s: Store, ns: string, gk: GroupKind): set<Key> {
    set k | k in s && k.ns == ns && k.gk == gk
  }

  // ReferenceGrants

  datatype GrantFrom = GrantFrom(group: string, kind: string, ns: string)
  datatype GrantTo = GrantTo(group: string, kind: string, name: Option<string>)
  datatype Grant = Grant(from: seq<GrantFrom>, to: seq<GrantTo>)

  function GrantsIn(grants: map<NsName, Grant>, ns: string): set<Grant> {
    set n | n in grants && n.ns == ns :: grants[n]
  }
}
