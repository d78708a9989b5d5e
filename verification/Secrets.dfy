/**
 Resolution of the credentials Secret: the ReferenceGrant check, the managed
 copy and its immutable source, and the two watch maps together with the filter
 in front of the Secret watch.
 */
module Secrets {
  import opened Wrappers
  import opened Names
  import opened Cluster

  const MANAGED_SECRET_SUFFIX := "-credentials"
  const COPIED_FROM := "batch.llm-d.ai/copied-from"

  datatype ResolveError =
    | ReferenceNotPermitted(crdInstalled: bool)
    | SecretRefImmutable(oldRef: string, newRef: string)
    | GrantsUnavailable
    | SourceUnreadable
    | CopyNotWritten

  // Which API calls fail for reasons outside the store. A failed read of the
  // copy is indistinguishable from an absent copy for the operator.
  datatype SecretFaults = SecretFaults(readCopy: bool, listGrants: bool, readSource: bool, apply: bool)

  // What the resolution reads and writes.
  datatype World = World(objects: Store, installed: set<GroupKind>, grants: map<NsName, Grant>)

  function CopyName(g: Gateway): string {
    g.name + MANAGED_SECRET_SUFFIX
  }

  function CopyKey(g: Gateway): Key {
    Key(g.ns, SECRET, CopyName(g))
  }

  function SecretKey(n: NsName): Key {
    Key(n.ns, SECRET, n.name)
  }

  // An omitted namespace means the gateway's own.
  function Source(g: Gateway, ref: NsName): NsName {
    if ref.ns == "" then NsName(g.ns, ref.name) else ref
  }

  predicate CrossNamespace(g: Gateway, ref: NsName) {
    Source(g, ref).ns != g.ns
  }

  function Annotation(o: Object): string {
    if COPIED_FROM in o.fields.annotations then o.fields.annotations[COPIED_FROM] else ""
  }

  function Recorded(s: Store, g: Gateway): Option<string> {
    if CopyKey(g) in s then Some(Annotation(s[CopyKey(g)])) else None
  }

  // Grants

  predicate FromMatches(f: GrantFrom, ns: string) {
    f.group == GATEWAY_GROUP && f.kind == GATEWAY_KIND && f.ns == ns
  }

  predicate ToMatches(t: GrantTo, name: string) {
    t.group == "" && t.kind == "Secret" && (t.name.None? || t.name.value == name)
  }

  predicate Permits(grant: Grant, fromNs: string, name: string) {
    && (exists f :: f in grant.from && FromMatches(f, fromNs))
    && (exists t :: t in grant.to && ToMatches(t, name))
  }

  // One single grant in the source namespace has both halves.
  predicate Licensed(w: World, g: Gateway, src: NsName) {
    REFERENCE_GRANT in w.installed && exists n :: n in w.grants && n.ns == src.ns && Permits(w.grants[n], g.ns, src.name)
  }

  // A permitting grant in terms of the fields of its entries.
  lemma PermitsOnFields(grant: Grant, fromNs: string, name: string)
    ensures Permits(grant, fromNs, name) <==>
            && (exists f :: f in grant.from && f.group == "batch.llm-d.ai" && f.kind == "LLMBatchGateway" && f.ns == fromNs)
            && (exists t :: t in grant.to && t.group == "" && t.kind == "Secret" &&
                            (t.name.None? || t.name.value == name))
  {
    if f :| f in grant.from && f.group == "batch.llm-d.ai" && f.kind == "LLMBatchGateway" && f.ns == fromNs {
      assert FromMatches(f, fromNs);
    }
    if t :| t in grant.to && t.group == "" && t.kind == "Secret" && (t.name.None? || t.name.value == name) {
      assert ToMatches(t, name);
    }
  }

  method ReferenceGrantPermits(grant: Grant, fromNs: string, name: string) returns (permits: bool)
    ensures permits <==> Permits(grant, fromNs, name)
    ensures permits <==>
            && (exists f :: f in grant.from && f.group == "batch.llm-d.ai" && f.kind == "LLMBatchGateway" && f.ns == fromNs)
            && (exists t :: t in grant.to && t.group == "" && t.kind == "Secret" &&
                            (t.name.None? || t.name.value == name))
  {
    PermitsOnFields(grant, fromNs, name);
    var hasMatchingFrom := false;
    for i := 0 to |grant.from|
      invariant !hasMatchingFrom
      invariant forall f :: f in grant.from[..i] ==> !FromMatches(f, fromNs)
    {
      if FromMatches(grant.from[i], fromNs) {
        hasMatchingFrom := true;
        break;
      }
    }
    if !hasMatchingFrom {
      assert grant.from == grant.from[..|grant.from|];
      return false;
    }
    for i := 0 to |grant.to|
      invariant forall t :: t in grant.to[..i] ==> !ToMatches(t, name)
    {
      var to := grant.to[i];
      if to.group != "" {
        continue;
      }
      if to.kind != "Secret" {
        continue;
      }
      if to.name.None? || to.name.value == name {
        assert ToMatches(to, name);
        return true;
      }
    }
    assert grant.to == grant.to[..|grant.to|];
    return false;
  }

  method CheckReferenceGrant(api: KubeApi, g: Gateway, src: NsName, fault: bool) returns (err: Option<ResolveError>)
    ensures err.None? <==> !fault && Licensed(WorldOf(api), g, src)
    ensures err.Some? ==>
              err.value == if fault then GrantsUnavailable
                           else ReferenceNotPermitted(REFERENCE_GRANT in api.installed)
  {
    var list := api.ListGrants(src.ns, fault);
    if list.Err? {
      if list.error == NoMatch {
        return Some(ReferenceNotPermitted(false));
      }
      return Some(GrantsUnavailable);
    }
    var items := list.value;
    for i := 0 to |items|
      invariant forall x :: x in items[..i] ==> !Permits(x, g.ns, src.name)
    {
      var permits := ReferenceGrantPermits(items[i], g.ns, src.name);
      if permits {
        assert items[i] in GrantsIn(api.grants, src.ns);
        return None;
      }
    }
    assert items == items[..|items|];
    forall n | n in api.grants && n.ns == src.ns
      ensures !Permits(api.grants[n], g.ns, src.name)
    {
      assert api.grants[n] in GrantsIn(api.grants, src.ns);
    }
    return Some(ReferenceNotPermitted(true));
  }

  // Resolution

  function WorldOf(api: KubeApi): World
    reads api
  {
    World(api.objects, api.installed, api.grants)
  }

  function CopyManifest(g: Gateway, src: NsName, source: Object): Manifest {
    Manifest(SECRET, CopyName(g),
             Fields(source.fields.objectType, map[COPIED_FROM := Encode(src)], source.fields.data))
  }

  // The copy that the operator sees and that stops it.
  predicate Mismatch(w: World, g: Gateway, src: NsName, f: SecretFaults) {
    !f.readCopy && CopyKey(g) in w.objects && Annotation(w.objects[CopyKey(g)]) != Encode(src)
  }

  // Every later call of a cross-namespace resolution succeeds.
  predicate Writable(w: World, g: Gateway, src: NsName, f: SecretFaults) {
    && !f.listGrants && Licensed(w, g, src)
    && !f.readSource && SecretKey(src) in w.objects
    && ApplyOutcomeOf(w.objects, w.installed, g, CopyManifest(g, src, w.objects[SecretKey(src)]), f.apply).Applied?
  }

  method SyncSecretCopy(api: KubeApi, g: Gateway, src: NsName, source: Object, fault: bool) returns (ok: bool)
    modifies api`objects
    ensures api.objects == ApplyStore(old(api.objects), api.installed, g, CopyManifest(g, src, source), fault)
    ensures ok <==> ApplyOutcomeOf(old(api.objects), api.installed, g, CopyManifest(g, src, source), fault).Applied?
  {
    var desired := CopyManifest(g, src, source);
    var outcome := api.Apply(g, desired, fault);
    return outcome.Applied?;
  }

  function Resolve(w: World, g: Gateway, ref: NsName, f: SecretFaults): (Store, Result<string, ResolveError>) {
    var src := Source(g, ref);
    if !CrossNamespace(g, ref) then (w.objects, Ok(ref.name))
    else if Mismatch(w, g, src, f) then
      (w.objects, Err(SecretRefImmutable(Annotation(w.objects[CopyKey(g)]), Encode(src))))
    else if f.listGrants then (w.objects, Err(GrantsUnavailable))
    else if !Licensed(w, g, src) then (w.objects, Err(ReferenceNotPermitted(REFERENCE_GRANT in w.installed)))
    else if f.readSource || SecretKey(src) !in w.objects then (w.objects, Err(SourceUnreadable))
    else
      var m := CopyManifest(g, src, w.objects[SecretKey(src)]);
      (ApplyStore(w.objects, w.installed, g, m, f.apply),
       if ApplyOutcomeOf(w.objects, w.installed, g, m, f.apply).Applied? then Ok(CopyName(g)) else Err(CopyNotWritten))
  }

  method ResolveSecret(api: KubeApi, g: Gateway, ref: NsName, f: SecretFaults) returns (r: Result<string, ResolveError>)
    modifies api`objects
    ensures (api.objects, r) == Resolve(old(WorldOf(api)), g, ref, f)
  {
    var secretNs := ref.ns;
    if secretNs == "" {
      secretNs := g.ns;
    }
    if secretNs == g.ns {
      return Ok(ref.name);
    }
    var src := NsName(secretNs, ref.name);
    var localName := g.name + MANAGED_SECRET_SUFFIX;
    var copy := Key(g.ns, SECRET, localName);
    if !f.readCopy && copy in api.objects {
      var want := Encode(src);
      var got := Annotation(api.objects[copy]);
      if got != want {
        return Err(SecretRefImmutable(got, want));
      }
    }
    var denied := CheckReferenceGrant(api, g, src, f.listGrants);
    if denied.Some? {
      return Err(denied.value);
    }
    if f.readSource || SecretKey(src) !in api.objects {
      return Err(SourceUnreadable);
    }
    var written := SyncSecretCopy(api, g, src, api.objects[SecretKey(src)], f.apply);
    if !written {
      return Err(CopyNotWritten);
    }
    return Ok(localName);
  }

  /**
   Licensed copying. A resolution touches nothing but the managed copy; the copy
   is written exactly when the resolution of a cross-namespace reference
   succeeds, and then one single grant licenses it and its type and data are
   those of the source that was read. A local reference resolves to its name in
   every world, and a copy of another source that could be read stops the resolution.
   */
  lemma LicensedCopying(w: World, g: Gateway, ref: NsName, f: SecretFaults)
    ensures var (s', r) := Resolve(w, g, ref, f);
            var src := Source(g, ref);
            && (CrossNamespace(g, ref) && r.Ok? <==>
                CrossNamespace(g, ref) && !Mismatch(w, g, src, f) && Writable(w, g, src, f))
            && (CrossNamespace(g, ref) && r.Ok? ==>
                && Licensed(w, g, src)
                && SecretKey(src) in w.objects
                && r == Ok(CopyName(g))
                && CopyKey(g) in s'
                && s' == w.objects[CopyKey(g) := s'[CopyKey(g)]]
                && ControlledBy(s'[CopyKey(g)], g)
                && s'[CopyKey(g)].fields.objectType == w.objects[SecretKey(src)].fields.objectType
                && s'[CopyKey(g)].fields.data == w.objects[SecretKey(src)].fields.data
                && Annotation(s'[CopyKey(g)]) == Encode(src))
            && (!(CrossNamespace(g, ref) && r.Ok?) ==> s' == w.objects)
            && (!CrossNamespace(g, ref) ==> r == Ok(ref.name))
            && (CrossNamespace(g, ref) && Mismatch(w, g, src, f) ==>
                r == Err(SecretRefImmutable(Annotation(w.objects[CopyKey(g)]), Encode(src))))
  {
    var src := Source(g, ref);
    if CrossNamespace(g, ref) && SecretKey(src) in w.objects {
      StampOwnership(w.objects, CopyKey(g), CopyManifest(g, src, w.objects[SecretKey(src)]).fields, g);
    }
  }

  // One single grant of a namespace names the gateway's namespace and the Secret, on the fields.
  lemma LicensedOnFields(w: World, g: Gateway, src: NsName)
    ensures Licensed(w, g, src) <==>
            GroupKind("gateway.networking.k8s.io", "ReferenceGrant") in w.installed &&
            exists n, f, t :: n in w.grants && n.ns == src.ns && f in w.grants[n].from && t in w.grants[n].to &&
                              f.group == "batch.llm-d.ai" && f.kind == "LLMBatchGateway" && f.ns == g.ns &&
                              t.group == "" && t.kind == "Secret" && (t.name.None? || t.name.value == src.name)
  {
    if Licensed(w, g, src) {
      var n :| n in w.grants && n.ns == src.ns && Permits(w.grants[n], g.ns, src.name);
      PermitsOnFields(w.grants[n], g.ns, src.name);
    }
    if n, f, t :| n in w.grants && n.ns == src.ns && f in w.grants[n].from && t in w.grants[n].to &&
                  f.group == "batch.llm-d.ai" && f.kind == "LLMBatchGateway" && f.ns == g.ns &&
                  t.group == "" && t.kind == "Secret" && (t.name.None? || t.name.value == src.name) {
      PermitsOnFields(w.grants[n], g.ns, src.name);
      assert Permits(w.grants[n], g.ns, src.name);
    }
  }

  // The managed copy and the reference into another namespace, on the fields.
  lemma CopyOnFields(w: World, g: Gateway, ref: NsName)
    ensures CrossNamespace(g, ref) <==> ref.ns != "" && ref.ns != g.ns
    ensures CrossNamespace(g, ref) ==> Source(g, ref) == ref && SecretKey(ref) == Key(ref.ns, GroupKind("", "Secret"), ref.name)
    ensures CopyKey(g) == Key(g.ns, GroupKind("", "Secret"), g.name + "-credentials")
    ensures Encode(ref) == ref.ns + "/" + ref.name
    ensures forall o :: Annotation(o) == if "batch.llm-d.ai/copied-from" in o.fields.annotations
                                         then o.fields.annotations["batch.llm-d.ai/copied-from"] else ""
  {
  }

  /**
   Licensed copying on the fields. A resolution into another namespace that
   succeeds found one grant there with a From of the gateway's group, kind and
   namespace and a To of the Secret; it leaves the copy `<name>-credentials` with
   type and data of the source, the annotation `namespace/name`, and the gateway as
   controller, and no other object differs.
   */
  lemma ResolvedCopyOnFields(w: World, g: Gateway, ref: NsName, f: SecretFaults)
    requires ref.ns != "" && ref.ns != g.ns
    requires Resolve(w, g, ref, f).1.Ok?
    ensures exists n, x, t :: n in w.grants && n.ns == ref.ns && x in w.grants[n].from && t in w.grants[n].to &&
                              x.group == "batch.llm-d.ai" && x.kind == "LLMBatchGateway" && x.ns == g.ns &&
                              t.group == "" && t.kind == "Secret" && (t.name.None? || t.name.value == ref.name)
    ensures var (s', r) := Resolve(w, g, ref, f);
            var source := Key(ref.ns, GroupKind("", "Secret"), ref.name);
            var copy := Key(g.ns, GroupKind("", "Secret"), g.name + "-credentials");
            && r == Ok(g.name + "-credentials")
            && source in w.objects && copy in s' && s' == w.objects[copy := s'[copy]]
            && s'[copy].fields == Fields(w.objects[source].fields.objectType,
                                         map["batch.llm-d.ai/copied-from" := ref.ns + "/" + ref.name],
                                         w.objects[source].fields.data)
            && OwnerRef(g.uid, "LLMBatchGateway", "batch.llm-d.ai/v1alpha1", Some(true)) in s'[copy].owners
  {
    LicensedCopying(w, g, ref, f);
    CopyOnFields(w, g, ref);
    LicensedOnFields(w, g, ref);
    StampOwnership(w.objects, CopyKey(g), CopyManifest(g, ref, w.objects[SecretKey(ref)]).fields, g);
  }

  /**
   When a resolution into another namespace succeeds, exactly, on the fields: no
   readable copy records another source, the grants could be listed and one of them
   names both sides, the source could be read, and the copy could be applied.
   */
  lemma ResolutionSucceedsIff(w: World, g: Gateway, ref: NsName, f: SecretFaults)
    requires ref.ns != "" && ref.ns != g.ns
    ensures var copy := Key(g.ns, GroupKind("", "Secret"), g.name + "-credentials");
            Resolve(w, g, ref, f).1.Ok? <==>
            && (f.readCopy || copy !in w.objects ||
                ("batch.llm-d.ai/copied-from" in w.objects[copy].fields.annotations &&
                 w.objects[copy].fields.annotations["batch.llm-d.ai/copied-from"] == ref.ns + "/" + ref.name))
            && !f.listGrants && !f.readSource && !f.apply
            && GroupKind("gateway.networking.k8s.io", "ReferenceGrant") in w.installed
            && (exists n, x, t :: n in w.grants && n.ns == ref.ns && x in w.grants[n].from && t in w.grants[n].to &&
                                  x.group == "batch.llm-d.ai" && x.kind == "LLMBatchGateway" && x.ns == g.ns &&
                                  t.group == "" && t.kind == "Secret" && (t.name.None? || t.name.value == ref.name))
            && Key(ref.ns, GroupKind("", "Secret"), ref.name) in w.objects
            && GroupKind("", "Secret") in w.installed
            && (copy in w.objects ==> forall r :: r in w.objects[copy].owners ==> r.uid == g.uid || r.controller != Some(true))
  {
    LicensedCopying(w, g, ref, f);
    CopyOnFields(w, g, ref);
    LicensedOnFields(w, g, ref);
    if CopyKey(g) in w.objects {
      ControlOnFields(w.objects[CopyKey(g)], g);
    }
  }

  /**
   When a reference is refused for want of a grant, exactly, on the fields: no readable
   copy records another source, the grants could be listed or their kind is not
   installed, and no single grant names both sides. A list that fails is not a refusal.
   */
  lemma RefusedIff(w: World, g: Gateway, ref: NsName, f: SecretFaults)
    requires ref.ns != "" && ref.ns != g.ns
    ensures var copy := Key(g.ns, GroupKind("", "Secret"), g.name + "-credentials");
            var r := Resolve(w, g, ref, f).1;
            r.Err? && r.error.ReferenceNotPermitted? <==>
            && (f.readCopy || copy !in w.objects ||
                ("batch.llm-d.ai/copied-from" in w.objects[copy].fields.annotations &&
                 w.objects[copy].fields.annotations["batch.llm-d.ai/copied-from"] == ref.ns + "/" + ref.name))
            && !f.listGrants
            && (GroupKind("gateway.networking.k8s.io", "ReferenceGrant") !in w.installed ||
                !exists n, x, t :: n in w.grants && n.ns == ref.ns && x in w.grants[n].from && t in w.grants[n].to &&
                                   x.group == "batch.llm-d.ai" && x.kind == "LLMBatchGateway" && x.ns == g.ns &&
                                   t.group == "" && t.kind == "Secret" && (t.name.None? || t.name.value == ref.name))
  {
    CopyOnFields(w, g, ref);
    LicensedOnFields(w, g, ref);
  }

  /**
   Refusal on the fields: when no grant of the source namespace has a From with the
   gateway's namespace, or none has a To of that Secret, the store is unchanged, and
   the error is that refusal or one met before the grants were judged.
   */
  lemma UngrantedIsRefused(w: World, g: Gateway, ref: NsName, f: SecretFaults)
    requires ref.ns != "" && ref.ns != g.ns
    requires || (forall n, x :: n in w.grants && n.ns == ref.ns && x in w.grants[n].from ==> x.ns != g.ns)
             || (forall n, t :: n in w.grants && n.ns == ref.ns && t in w.grants[n].to ==>
                   t.group != "" || t.kind != "Secret" || (t.name.Some? && t.name.value != ref.name))
    ensures var (s', r) := Resolve(w, g, ref, f);
            && s' == w.objects
            && r.Err? && (r.error.ReferenceNotPermitted? || r.error.SecretRefImmutable? || r.error.GrantsUnavailable?)
            && (!f.listGrants && Key(g.ns, GroupKind("", "Secret"), g.name + "-credentials") !in w.objects ==>
                r.error.ReferenceNotPermitted?)
  {
    CopyOnFields(w, g, ref);
    LicensedOnFields(w, g, ref);
  }

  /**
   A From of one grant never combines with a To of another: when each grant in the
   source namespace lacks one half, nothing is copied, whatever the grants have
   between them.
   */
  lemma HalvesOfTwoGrantsDoNotPermit(w: World, g: Gateway, ref: NsName, f: SecretFaults)
    requires ref.ns != "" && ref.ns != g.ns
    requires forall n :: n in w.grants && n.ns == ref.ns ==>
               || (forall x :: x in w.grants[n].from ==>
                     x.group != "batch.llm-d.ai" || x.kind != "LLMBatchGateway" || x.ns != g.ns)
               || (forall t :: t in w.grants[n].to ==>
                     t.group != "" || t.kind != "Secret" || (t.name.Some? && t.name.value != ref.name))
    ensures Resolve(w, g, ref, f).0 == w.objects
    ensures Resolve(w, g, ref, f).1.Err?
  {
    CopyOnFields(w, g, ref);
    LicensedOnFields(w, g, ref);
    LicensedCopying(w, g, ref, f);
  }

  /**
   Immutability and local references on the fields: a readable copy with another
   annotation stops the resolution, which tells both; a reference without a
   namespace, or into the gateway's own, is its name and touches nothing.
   */
  lemma UncopiedOnFields(w: World, g: Gateway, ref: NsName, f: SecretFaults)
    ensures ref.ns == "" || ref.ns == g.ns ==> Resolve(w, g, ref, f) == (w.objects, Ok(ref.name))
    ensures var copy := Key(g.ns, GroupKind("", "Secret"), g.name + "-credentials");
            ref.ns != "" && ref.ns != g.ns && !f.readCopy && copy in w.objects ==>
              var notes := w.objects[copy].fields.annotations;
              var was := if "batch.llm-d.ai/copied-from" in notes then notes["batch.llm-d.ai/copied-from"] else "";
              was != ref.ns + "/" + ref.name ==>
                Resolve(w, g, ref, f) == (w.objects, Err(SecretRefImmutable(was, ref.ns + "/" + ref.name)))
  {
    CopyOnFields(w, g, ref);
    LicensedCopying(w, g, ref, f);
  }

  /**
   Immutability of one resolution, exactly. The recorded source of an existing
   copy changes if and only if the copy records another source, the read of the
   copy failed all the same, and every later call succeeds.
   */
  lemma RecordedSourceChangesIff(w: World, g: Gateway, ref: NsName, f: SecretFaults)
    requires CopyKey(g) in w.objects
    ensures var s' := Resolve(w, g, ref, f).0;
            var src := Source(g, ref);
            (Recorded(s', g) != Recorded(w.objects, g) <==>
             && CrossNamespace(g, ref)
             && Annotation(w.objects[CopyKey(g)]) != Encode(src)
             && f.readCopy
             && Writable(w, g, src, f))
  {
    LicensedCopying(w, g, ref, f);
  }

  /** One failed read is enough to lose the recorded source. */
  lemma FailedReadLosesSource() returns (w: World, g: Gateway, ref: NsName, f: SecretFaults)
    ensures CopyKey(g) in w.objects && f.readCopy
    ensures Resolve(w, g, ref, f).1.Ok?
    ensures Recorded(Resolve(w, g, ref, f).0, g) != Recorded(w.objects, g)
  {
    g, ref := Gateway("apps", "gw", "u1"), NsName("creds", "new");
    var from, to := GrantFrom(GATEWAY_GROUP, GATEWAY_KIND, "apps"), GrantTo("", "Secret", None);
    var copy := Object([ControllerRef(g)], Fields("Opaque", map[COPIED_FROM := "creds/old"], map[]));
    var source := Object([], Fields("Opaque", map[], map["k" := "v"]));
    var n := NsName("creds", "grant");
    w := World(map[CopyKey(g) := copy, SecretKey(ref) := source], {SECRET, REFERENCE_GRANT}, map[n := Grant([from], [to])]);
    f := SecretFaults(true, false, false, false);
    assert from in w.grants[n].from && FromMatches(from, g.ns);
    assert to in w.grants[n].to && ToMatches(to, ref.name);
    assert Licensed(w, g, ref);
    assert !ForeignController(copy, g);
    assert Annotation(copy) == "creds/old" && Encode(ref) == "creds/new";
    assert "creds/old"[6] != "creds/new"[6];
    RecordedSourceChangesIff(w, g, ref, f);
  }

  // The Secret watch filter

  class SecretWatchFilter {
    var watched: set<string>

    constructor ()
      ensures watched == {}
    {
      watched := {};
    }

    method Add(n: NsName)
      modifies this
      ensures watched == ApplyOp(old(watched), Track(n)) == old(watched) + {n.ns + "/" + n.name}
    {
      watched := watched + {Encode(n)};
    }

    method Remove(n: NsName)
      modifies this
      ensures watched == ApplyOp(old(watched), Untrack(n)) == old(watched) - {n.ns + "/" + n.name}
    {
      watched := watched - {Encode(n)};
    }

    method Matches(n: NsName) returns (ok: bool)
      ensures ok <==> Encode(n) in watched
      ensures ok <==> n.ns + "/" + n.name in watched
    {
      ok := Encode(n) in watched;
    }
  }

  datatype FilterOp = Track(n: NsName) | Untrack(n: NsName)

  function ApplyOp(watched: set<string>, op: FilterOp): set<string> {
    match op
    case Track(n) => watched + {Encode(n)}
    case Untrack(n) => watched - {Encode(n)}
  }

  function Replay(ops: seq<FilterOp>): set<string> {
    if ops == [] then {} else ApplyOp(Replay(ops[..|ops| - 1]), ops[|ops| - 1])
  }

  // The last operation on n is an add.
  ghost predicate Tracked(ops: seq<FilterOp>, n: NsName) {
    exists i :: 0 <= i < |ops| && ops[i] == Track(n) && forall j :: i < j < |ops| ==> ops[j] != Untrack(n)
  }

  /** For slash-free namespaces the string set never confuses two Secrets. */
  lemma {:induction false} FilterIsExact(ops: seq<FilterOp>, n: NsName)
    requires SlashFree(n.ns) && forall op :: op in ops ==> SlashFree(op.n.ns)
    ensures Encode(n) in Replay(ops) <==> Tracked(ops, n)
  {
    if ops != [] {
      var init, last := ops[..|ops| - 1], ops[|ops| - 1];
      FilterIsExact(init, n);
      if last.n == n {
        assert last == Track(n) || last == Untrack(n);
      } else {
        if Encode(last.n) == Encode(n) {
          EncodeInjective(last.n, n);
        }
        if Tracked(init, n) {
          var i :| 0 <= i < |init| && init[i] == Track(n) && forall j :: i < j < |init| ==> init[j] != Untrack(n);
          assert ops[i] == Track(n);
        }
        if Tracked(ops, n) {
          var i :| 0 <= i < |ops| && ops[i] == Track(n) && forall j :: i < j < |ops| ==> ops[j] != Untrack(n);
          assert init[i] == Track(n);
          assert forall j :: i < j < |init| ==> init[j] == ops[j];
        }
      }
    }
  }

  // The watch maps

  datatype Listed = Listed(gateway: Gateway, secretRef: NsName)

  function Request(g: Gateway): NsName {
    NsName(g.ns, g.name)
  }

  // The requests of a Secret event: the filter runs before the map function.
  function SecretRequests(watched: set<string>, gateways: seq<Listed>, secret: NsName): set<NsName> {
    if Encode(secret) in watched then set x | x in gateways && x.secretRef == secret :: Request(x.gateway) else {}
  }

  // The requests of a ReferenceGrant event.
  function GrantRequests(gateways: seq<Listed>, ns: string): set<NsName> {
    set x | x in gateways && x.secretRef.ns == ns :: Request(x.gateway)
  }

  // The requests of both maps, on the fields of the gateways.
  lemma RequestsOnFields(watched: set<string>, gateways: seq<Listed>, n: NsName)
    ensures forall q :: q in SecretRequests(watched, gateways, n) <==>
              && n.ns + "/" + n.name in watched
              && exists x :: x in gateways && x.secretRef.ns == n.ns && x.secretRef.name == n.name &&
                             q.ns == x.gateway.ns && q.name == x.gateway.name
    ensures forall q :: q in GrantRequests(gateways, n.ns) <==>
              exists x :: x in gateways && x.secretRef.ns == n.ns && q.ns == x.gateway.ns && q.name == x.gateway.name
  {
    forall q
      ensures q in SecretRequests(watched, gateways, n) <==>
              && n.ns + "/" + n.name in watched
              && exists x :: x in gateways && x.secretRef.ns == n.ns && x.secretRef.name == n.name &&
                             q.ns == x.gateway.ns && q.name == x.gateway.name
      ensures q in GrantRequests(gateways, n.ns) <==>
              exists x :: x in gateways && x.secretRef.ns == n.ns && q.ns == x.gateway.ns && q.name == x.gateway.name
    {
      if x :| x in gateways && x.secretRef.ns == n.ns && q.ns == x.gateway.ns && q.name == x.gateway.name {
        assert Request(x.gateway) == q;
      }
      if x :| x in gateways && x.secretRef.ns == n.ns && x.secretRef.name == n.name &&
              q.ns == x.gateway.ns && q.name == x.gateway.name {
        assert Request(x.gateway) == q && x.secretRef == n;
      }
    }
  }

  // The list of gateways is absent when it could not be read.
  method OnSecretEvent(filter: SecretWatchFilter, gateways: Option<seq<Listed>>, secret: NsName)
    returns (reqs: seq<NsName>)
    ensures forall q :: q in reqs <==> gateways.Some? && q in SecretRequests(filter.watched, gateways.value, secret)
    ensures forall q :: q in reqs <==>
              && gateways.Some? && secret.ns + "/" + secret.name in filter.watched
              && exists x :: x in gateways.value && x.secretRef.ns == secret.ns && x.secretRef.name == secret.name &&
                             q.ns == x.gateway.ns && q.name == x.gateway.name
  {
    reqs := [];
    var passes := filter.Matches(secret);
    if !passes || gateways.None? {
      return;
    }
    var all := gateways.value;
    for i := 0 to |all|
      invariant forall q :: q in reqs <==> q in SecretRequests(filter.watched, all[..i], secret)
    {
      var x := all[i];
      assert all[..i + 1] == all[..i] + [x];
      if x.secretRef.ns == secret.ns && x.secretRef.name == secret.name {
        reqs := reqs + [Request(x.gateway)];
      }
    }
    assert all == all[..|all|];
    RequestsOnFields(filter.watched, all, secret);
  }

  method OnReferenceGrantEvent(gateways: Option<seq<Listed>>, grant: NsName) returns (reqs: seq<NsName>)
    ensures forall q :: q in reqs <==> gateways.Some? && q in GrantRequests(gateways.value, grant.ns)
    ensures forall q :: q in reqs <==>
              gateways.Some? &&
              exists x :: x in gateways.value && x.secretRef.ns == grant.ns && q.ns == x.gateway.ns && q.name == x.gateway.name
  {
    reqs := [];
    if gateways.None? {
      return;
    }
    var all := gateways.value;
    for i := 0 to |all|
      invariant forall q :: q in reqs <==> q in GrantRequests(all[..i], grant.ns)
    {
      var x := all[i];
      assert all[..i + 1] == all[..i] + [x];
      if x.secretRef.ns == grant.ns {
        reqs := reqs + [Request(x.gateway)];
      }
    }
    assert all == all[..|all|];
    RequestsOnFields({}, all, grant);
  }

  // What a resolution means for the gateway: its result and the copy it leaves.
  datatype Resolution = Resolution(result: Result<string, ResolveError>, copy: Option<Object>)

  function ResolutionOf(w: World, g: Gateway, ref: NsName, f: SecretFaults): Resolution {
    var (s', r) := Resolve(w, g, ref, f);
    Resolution(r, if CopyKey(g) in s' then Some(s'[CopyKey(g)]) else None)
  }

  ghost predicate SameOutside(a: map<NsName, Grant>, b: map<NsName, Grant>, ns: string) {
    forall n: NsName :: n.ns != ns ==> (n in a <==> n in b) && (n in a && n in b ==> a[n] == b[n])
  }

  /** A change of grants in one namespace alters the resolution only of gateways that the event enqueues. */
  lemma GrantWatchComplete(
    w: World, grants': map<NsName, Grant>, ns: string, gateways: seq<Listed>, x: Listed, f: SecretFaults)
    requires SameOutside(w.grants, grants', ns)
    requires x in gateways
    ensures ResolutionOf(w, x.gateway, x.secretRef, f) != ResolutionOf(w.(grants := grants'), x.gateway, x.secretRef, f) ==>
              Request(x.gateway) in GrantRequests(gateways, ns)
  {
    var src := Source(x.gateway, x.secretRef);
    if src.ns != ns {
      assert Licensed(w, x.gateway, src) <==> Licensed(w.(grants := grants'), x.gateway, src);
    }
  }

  // The grant watch is registered when the operator starts, and only if the kind is installed then.
  function GrantEventRequests(installedAtStart: set<GroupKind>, gateways: seq<Listed>, ns: string): set<NsName> {
    if REFERENCE_GRANT in installedAtStart then GrantRequests(gateways, ns) else {}
  }

  /**
   A gateway whose resolution a grant event alters is enqueued exactly when
   ReferenceGrants were installed at the start of the operator.
   */
  lemma GrantWatchCompleteIff(w: World, grants': map<NsName, Grant>, ns: string, gateways: seq<Listed>, x: Listed,
                              f: SecretFaults, installedAtStart: set<GroupKind>)
    requires SameOutside(w.grants, grants', ns) && x in gateways
    requires ResolutionOf(w, x.gateway, x.secretRef, f) !=
             ResolutionOf(w.(grants := grants'), x.gateway, x.secretRef, f)
    ensures Request(x.gateway) in GrantEventRequests(installedAtStart, gateways, ns) <==>
            REFERENCE_GRANT in installedAtStart
  {
    GrantWatchComplete(w, grants', ns, gateways, x, f);
  }

  /**
   The missed case exists: a reference that was refused because the kind was not
   installed stays unattended when the kind is installed and a permitting grant
   created later.
   */
  lemma LateGrantIsMissed()
    returns (start: World, w: World, grants': map<NsName, Grant>, x: Listed, f: SecretFaults)
    ensures Resolve(start, x.gateway, x.secretRef, f).1 == Err(ReferenceNotPermitted(false))
    ensures w == start.(installed := start.installed + {REFERENCE_GRANT}) && SameOutside(w.grants, grants', x.secretRef.ns)
    ensures Resolve(w, x.gateway, x.secretRef, f).1 == Err(ReferenceNotPermitted(true))
    ensures Resolve(w.(grants := grants'), x.gateway, x.secretRef, f).1.Ok?
    ensures GrantEventRequests(start.installed, [x], x.secretRef.ns) == {}
  {
    var g, ref := Gateway("apps", "gw", "u1"), NsName("creds", "s");
    var from, to := GrantFrom(GATEWAY_GROUP, GATEWAY_KIND, "apps"), GrantTo("", "Secret", None);
    var source := Object([], Fields("Opaque", map[], map["k" := "v"]));
    var n := NsName("creds", "grant");
    x, f := Listed(g, ref), SecretFaults(false, false, false, false);
    assert |g.ns| == 4 && |ref.ns| == 5 && CrossNamespace(g, ref);
    start := World(map[SecretKey(ref) := source], {SECRET}, map[]);
    w := start.(installed := start.installed + {REFERENCE_GRANT});
    grants' := map[n := Grant([from], [to])];
    assert SECRET != REFERENCE_GRANT by {
      assert |SECRET.kind| == 6 && |REFERENCE_GRANT.kind| == 14;
    }
    assert from in grants'[n].from && FromMatches(from, g.ns);
    assert to in grants'[n].to && ToMatches(to, ref.name);
    assert Licensed(w.(grants := grants'), g, ref);
    LicensedCopying(w.(grants := grants'), g, ref, f);
  }

  ghost predicate SameExcept(a: Store, b: Store, k: Key) {
    forall x :: x != k ==> (x in a <==> x in b) && (x in a && x in b ==> a[x] == b[x])
  }

  lemma OnlySourceOrCopyMatters(w: World, objects': Store, secret: NsName, g: Gateway, ref: NsName, f: SecretFaults)
    requires SameExcept(w.objects, objects', SecretKey(secret))
    requires CrossNamespace(g, ref)
    ensures ResolutionOf(w, g, ref, f) != ResolutionOf(w.(objects := objects'), g, ref, f) ==>
              (ref == secret <==> SecretKey(secret) != CopyKey(g))
  {
    var w' := w.(objects := objects');
    var src := Source(g, ref);
    assert src == ref;
    if SecretKey(secret) != CopyKey(g) && secret != ref {
      assert Licensed(w, g, src) <==> Licensed(w', g, src);
      assert CopyKey(g) in w.objects <==> CopyKey(g) in w'.objects;
      assert SecretKey(src) in w.objects <==> SecretKey(src) in w'.objects;
    }
  }

  /**
   A change of one Secret that alters the resolution of a gateway whose source is
   tracked enqueues that gateway whenever the Secret is not the gateway's own
   managed copy. A change of the own copy is never enqueued.
   */
  lemma SecretWatchCompleteIff(
    w: World, objects': Store, secret: NsName, watched: set<string>, gateways: seq<Listed>, x: Listed, f: SecretFaults)
    requires SameExcept(w.objects, objects', SecretKey(secret))
    requires CrossNamespace(x.gateway, x.secretRef)
    requires Encode(x.secretRef) in watched && x in gateways
    requires forall y :: y in gateways && Request(y.gateway) == Request(x.gateway) ==> y == x
    ensures ResolutionOf(w, x.gateway, x.secretRef, f) != ResolutionOf(w.(objects := objects'), x.gateway, x.secretRef, f) ==>
              (Request(x.gateway) in SecretRequests(watched, gateways, secret) <==> SecretKey(secret) != CopyKey(x.gateway))
  {
    OnlySourceOrCopyMatters(w, objects', secret, x.gateway, x.secretRef, f);
  }

  /** The missed case exists, even when the copy is a tracked source of another gateway: only that one is enqueued. */
  lemma OwnCopyChangeIsMissed()
    returns (w: World, objects': Store, g: Gateway, ref: NsName, other: Gateway, f: SecretFaults,
             watched: set<string>, gateways: seq<Listed>)
    ensures var secret := NsName(g.ns, CopyName(g));
            && SameExcept(w.objects, objects', SecretKey(secret))
            && CrossNamespace(g, ref) && CrossNamespace(other, secret)
            && Encode(secret) in watched && Encode(ref) in watched
            && Listed(g, ref) in gateways && Listed(other, secret) in gateways
            && ResolutionOf(w, g, ref, f) != ResolutionOf(w.(objects := objects'), g, ref, f)
            && SecretRequests(watched, gateways, secret) == {Request(other)}
            && Request(g) != Request(other)
  {
    g, other, ref := Gateway("apps", "gw", "u1"), Gateway("lab", "gw2", "u2"), NsName("creds", "s");
    var secret := NsName(g.ns, CopyName(g));
    var copy := Object([], Fields("Opaque", map[], map[]));
    w := World(map[], {}, map[]);
    objects' := map[CopyKey(g) := copy];
    f := SecretFaults(false, false, false, false);
    watched := {Encode(secret), Encode(ref)};
    gateways := [Listed(g, ref), Listed(other, secret)];
    assert |Encode(ref)| > 0 && Annotation(copy) == "";
    assert Mismatch(w.(objects := objects'), g, ref, f);
    assert gateways[0] in gateways && gateways[1] in gateways;
    assert |ref.ns| == 5 && |secret.ns| == 4;
    assert forall x :: x in gateways && x.secretRef == secret ==> x == gateways[1];
    assert |g.ns| == 4 && |other.ns| == 3;
  }
}
