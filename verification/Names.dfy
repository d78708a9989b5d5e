/**
 The "namespace/name" encoding that the operator uses both for the copied-from
 annotation of a managed Secret and for the keys of the Secret watch filter.
 */
module Names {

  datatype NsName = NsName(ns: string, name: string)

  function Encode(n: NsName): string {
    n.ns + "/" + n.name
  }

  // Kubernetes namespaces are DNS labels, so they never hold a slash.
  predicate SlashFree(s: string) {
    '/' !in s
  }

  // The first slash of an encoding ends the namespace.
  lemma FirstSlash(n: NsName)
    requires SlashFree(n.ns)
    ensures Encode(n)[|n.ns|] == '/'
    ensures forall i :: 0 <= i < |n.ns| ==> Encode(n)[i] != '/'
  {
    assert forall i :: 0 <= i < |n.ns| ==> Encode(n)[i] == n.ns[i];
  }

  /** For slash-free namespaces the encoding determines both parts. */
  lemma EncodeInjective(a: NsName, b: NsName)
    requires SlashFree(a.ns) && SlashFree(b.ns)
    requires Encode(a) == Encode(b)
    ensures a == b
  {
    FirstSlash(a);
    FirstSlash(b);
    assert |a.ns| == |b.ns|;
    assert a.ns == Encode(a)[..|a.ns|] == b.ns;
    assert a.name == Encode(a)[|a.ns| + 1..] == b.name;
  }

  /** Without the restriction two different references can share an encoding. */
  lemma EncodeCollides()
    ensures exists a: NsName, b: NsName :: a != b && Encode(a) == Encode(b)
  {
    var a, b := NsName("x/y", "z"), NsName("x", "y/z");
    assert Encode(a) == "x/y/z" == Encode(b);
    assert a.ns != b.ns;
  }
}
