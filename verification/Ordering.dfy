/**
 String order, ascending sequences, and the order-preserving removal of
 duplicates. A sorted list of map keys is determined by the keys alone.
 */
module Ordering {

  predicate Less(a: string, b: string) {
    if b == "" then false
    else if a == "" then true
    else a[0] < b[0] || (a[0] == b[0] && Less(a[1..], b[1..]))
  }

  /** The order is lexicographic: a proper prefix, or the smaller character at the first difference. */
  lemma {:induction false} LessIsLexicographic(a: string, b: string)
    ensures Less(a, b) <==>
            exists n :: 0 <= n <= |a| && n < |b| && a[..n] == b[..n] && (n == |a| || a[n] < b[n])
  {
    if b != "" && a == "" {
      assert a[..0] == b[..0];
    } else if a != "" && b != "" {
      var x, y := a[1..], b[1..];
      LessIsLexicographic(x, y);
      assert a == [a[0]] + x && b == [b[0]] + y;
      if Less(a, b) && a[0] == b[0] {
        var n :| 0 <= n <= |x| && n < |y| && x[..n] == y[..n] && (n == |x| || x[n] < y[n]);
        assert a[..n + 1] == [a[0]] + x[..n] && b[..n + 1] == [b[0]] + y[..n];
      } else if Less(a, b) {
        assert a[..0] == b[..0];
      }
      if n :| 0 <= n <= |a| && n < |b| && a[..n] == b[..n] && (n == |a| || a[n] < b[n]) {
        if n > 0 {
          assert a[0] == a[..n][0] == b[..n][0] == b[0];
          assert x[..n - 1] == a[..n][1..] && y[..n - 1] == b[..n][1..];
        }
      }
    }
  }

  lemma {:induction false} LessTotal(a: string, b: string)
    ensures a == b || Less(a, b) || Less(b, a)
    ensures !(Less(a, b) && Less(b, a))
    ensures Less(a, b) ==> a != b
  {
    if a != "" && b != "" {
      LessTotal(a[1..], b[1..]);
      if a[0] == b[0] && a[1..] == b[1..] {
        assert a == [a[0]] + a[1..] == b;
      }
    }
  }

  lemma {:induction false} LessTransitive(a: string, b: string, c: string)
    requires Less(a, b) && Less(b, c)
    ensures Less(a, c)
  {
    if a != "" && a[0] == b[0] && b[0] == c[0] {
      LessTransitive(a[1..], b[1..], c[1..]);
    }
  }

  ghost predicate Ascending(s: seq<string>) {
    forall i, j :: 0 <= i < j < |s| ==> Less(s[i], s[j])
  }

  predicate NoDuplicates(s: seq<string>) {
    forall i, j :: 0 <= i < j < |s| ==> s[i] != s[j]
  }

  ghost predicate Lists(s: seq<string>, keys: set<string>) {
    forall x :: x in s <==> x in keys
  }

  /** The ascending list of a set of names is unique, so no iteration order shows in it. */
  lemma {:induction false} AscendingUnique(s: seq<string>, t: seq<string>)
    requires Ascending(s) && Ascending(t)
    requires forall x :: x in s <==> x in t
    ensures s == t
  {
    assert s != [] ==> s[0] in t;
    assert t != [] ==> t[0] in s;
    if s != [] && t != [] {
      HeadLeast(t, s[0]);
      HeadLeast(s, t[0]);
      LessTotal(s[0], t[0]);
      TailElements(s);
      TailElements(t);
      AscendingUnique(s[1..], t[1..]);
      assert s == [s[0]] + s[1..] && t == [t[0]] + t[1..];
    }
  }

  lemma HeadLeast(s: seq<string>, x: string)
    requires Ascending(s) && x in s
    ensures x == s[0] || Less(s[0], x)
  {
  }

  lemma TailElements(s: seq<string>)
    requires s != [] && Ascending(s)
    ensures Ascending(s[1..])
    ensures forall x :: x in s[1..] <==> x in s && x != s[0]
  {
    forall x | x in s[1..]
      ensures x != s[0]
    {
      var i :| 0 <= i < |s[1..]| && s[1..][i] == x;
      LessTotal(s[0], s[i + 1]);
    }
    assert s == [s[0]] + s[1..];
  }

  function Insert(s: seq<string>, x: string): seq<string> {
    if s == [] then [x]
    else if Less(x, s[0]) then [x] + s
    else [s[0]] + Insert(s[1..], x)
  }

  lemma {:induction false} InsertAscending(s: seq<string>, x: string)
    requires Ascending(s) && x !in s
    ensures Ascending(Insert(s, x))
    ensures forall y :: y in Insert(s, x) <==> y in s || y == x
  {
    if s != [] {
      assert s == [s[0]] + s[1..];
      LessTotal(x, s[0]);
      if Less(x, s[0]) {
        forall i | 0 < i < |s|
          ensures Less(x, s[i])
        {
          LessTransitive(x, s[0], s[i]);
        }
      } else {
        assert s[0] in s;
        InsertAscending(s[1..], x);
        var rest := Insert(s[1..], x);
        forall i | 0 <= i < |rest|
          ensures Less(s[0], rest[i])
        {
          assert rest[i] in rest;
        }
      }
    }
  }

  ghost function SortedOf(keys: set<string>): (s: seq<string>)
    ensures Ascending(s) && Lists(s, keys)
    ensures keys == {} <==> s == []
  {
    if keys == {} then []
    else
      var x :| x in keys;
      InsertAscending(SortedOf(keys - {x}), x);
      Insert(SortedOf(keys - {x}), x)
  }

  /** Keys are taken in any order; the result is the one ascending list. */
  method SortedKeys(keys: set<string>) returns (names: seq<string>)
    ensures names == SortedOf(keys)
  {
    var todo := keys;
    names := [];
    while todo != {}
      invariant todo <= keys
      invariant Ascending(names) && Lists(names, keys - todo)
      decreases |todo|
    {
      var x :| x in todo;
      InsertAscending(names, x);
      names := Insert(names, x);
      todo := todo - {x};
    }
    AscendingUnique(names, SortedOf(keys));
  }

  // First occurrences, in order.
  function FirstOccurrences(s: seq<string>): seq<string> {
    if s == [] then []
    else
      var init := s[..|s| - 1];
      FirstOccurrences(init) + if s[|s| - 1] in init then [] else [s[|s| - 1]]
  }

  lemma FirstOccurrencesStep(s: seq<string>, i: nat)
    requires i < |s|
    ensures s[..i + 1] == s[..i] + [s[i]]
    ensures FirstOccurrences(s[..i + 1]) == FirstOccurrences(s[..i]) + if s[i] in s[..i] then [] else [s[i]]
  {
    assert s[..i + 1][..i] == s[..i];
  }

  // x first occurs in s before y does.
  ghost predicate FirstBefore(s: seq<string>, x: string, y: string) {
    exists i :: 0 <= i < |s| && s[i] == x && y !in s[..i + 1]
  }

  /** Deduplication keeps exactly the elements, each once, ordered by where they first occur. */
  lemma {:induction false} FirstOccurrencesCanonical(s: seq<string>)
    ensures var r := FirstOccurrences(s);
            && NoDuplicates(r)
            && (forall x :: x in r <==> x in s)
            && (forall i, j :: 0 <= i < j < |r| ==> FirstBefore(s, r[i], r[j]))
  {
    if s != [] {
      var init, last := s[..|s| - 1], s[|s| - 1];
      FirstOccurrencesCanonical(init);
      assert s == init + [last];
      var r0, r := FirstOccurrences(init), FirstOccurrences(s);
      forall i, j | 0 <= i < j < |r|
        ensures FirstBefore(s, r[i], r[j])
      {
        assert r[i] == r0[i] && r0[i] in init;
        if j < |r0| {
          var n :| 0 <= n < |init| && init[n] == r0[i] && r0[j] !in init[..n + 1];
          assert init[..n + 1] == s[..n + 1];
          assert s[n] == r[i];
        } else {
          var n :| 0 <= n < |init| && init[n] == r0[i];
          assert s[..n + 1] == init[..n + 1];
          assert forall x :: x in init[..n + 1] ==> x in init;
          assert s[n] == r[i];
        }
      }
    }
  }
}
