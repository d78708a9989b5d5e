/**
 Conversion of a cluster TLS profile. The library returns the codes of the
 ciphers it knows and the names it does not know as two separate lists; a walk
 with two indices aligns them with the profile again.
 */
module TlsProfile {
  import opened Wrappers

  const VERSION_TLS12 := "VersionTLS12"
  const VERSION_TLS13 := "VersionTLS13"
  const DEFAULT_NEXT_PROTOS := "h2,http/1.1"

  datatype Profile = Profile(minTLSVersion: string, ciphers: seq<string>)

  // One cipher suite of the TLS library with the protocol versions it works with.
  datatype Suite = Suite(name: string, versions: seq<int>)

  const TLS12: int := 0x0303

  // The library: the code of a cipher name, if known, the suite name of a code,
  // and the suites that the gateway accepts.
  datatype Library = Library(lookup: string -> Option<int>, suiteName: int -> string, suites: seq<Suite>)

  function Codes(lib: Library, ciphers: seq<string>): seq<int> {
    if ciphers == [] then []
    else
      var c := lib.lookup(ciphers[|ciphers| - 1]);
      Codes(lib, ciphers[..|ciphers| - 1]) + if c.Some? then [c.value] else []
  }

  function Unknown(lib: Library, ciphers: seq<string>): seq<string> {
    if ciphers == [] then []
    else
      var c := ciphers[|ciphers| - 1];
      Unknown(lib, ciphers[..|ciphers| - 1]) + if lib.lookup(c).None? then [c] else []
  }

  // The declared meaning of one cipher: the suite name of its own code, when the gateway accepts it.
  predicate Accepted(lib: Library, cipher: string) {
    lib.lookup(cipher).Some? && exists s :: s in lib.suites && s.name == lib.suiteName(lib.lookup(cipher).value)
  }

  function AcceptedNames(lib: Library, ciphers: seq<string>): seq<string> {
    if ciphers == [] then []
    else
      var c := ciphers[|ciphers| - 1];
      AcceptedNames(lib, ciphers[..|ciphers| - 1]) +
      if Accepted(lib, c) then [lib.suiteName(lib.lookup(c).value)] else []
  }

  function Rejected(lib: Library, ciphers: seq<string>): seq<string> {
    if ciphers == [] then []
    else
      var c := ciphers[|ciphers| - 1];
      Rejected(lib, ciphers[..|ciphers| - 1]) + if Accepted(lib, c) then [] else [c]
  }

  lemma {:induction false} PrefixesOfLists(lib: Library, ciphers: seq<string>, i: nat)
    requires i <= |ciphers|
    ensures Codes(lib, ciphers[..i]) <= Codes(lib, ciphers)
    ensures Unknown(lib, ciphers[..i]) <= Unknown(lib, ciphers)
    decreases |ciphers|
  {
    if i == |ciphers| {
      assert ciphers[..i] == ciphers;
    } else {
      var init := ciphers[..|ciphers| - 1];
      PrefixesOfLists(lib, init, i);
      assert init[..i] == ciphers[..i];
    }
  }

  // What comes next in the two lists after i ciphers.
  lemma NextOfLists(lib: Library, ciphers: seq<string>, i: nat)
    requires i < |ciphers|
    ensures var ci, ui := |Codes(lib, ciphers[..i])|, |Unknown(lib, ciphers[..i])|;
            match lib.lookup(ciphers[i])
            case Some(code) =>
              && ci < |Codes(lib, ciphers)| && Codes(lib, ciphers)[ci] == code
              && |Codes(lib, ciphers[..i + 1])| == ci + 1 && |Unknown(lib, ciphers[..i + 1])| == ui
              && (ui < |Unknown(lib, ciphers)| ==> Unknown(lib, ciphers)[ui] != ciphers[i])
            case None =>
              && ui < |Unknown(lib, ciphers)| && Unknown(lib, ciphers)[ui] == ciphers[i]
              && |Unknown(lib, ciphers[..i + 1])| == ui + 1 && |Codes(lib, ciphers[..i + 1])| == ci
  {
    PrefixesOfLists(lib, ciphers, i + 1);
    assert ciphers[..i + 1][..i] == ciphers[..i];
    UnknownAreUnknown(lib, ciphers);
    var codes, unknown := Codes(lib, ciphers), Unknown(lib, ciphers);
    if lib.lookup(ciphers[i]).Some? {
      var now := Codes(lib, ciphers[..i + 1]);
      assert now[|now| - 1] == codes[|now| - 1];
    } else {
      var now := Unknown(lib, ciphers[..i + 1]);
      assert now[|now| - 1] == unknown[|now| - 1];
    }
  }

  lemma {:induction false} UnknownAreUnknown(lib: Library, ciphers: seq<string>)
    ensures forall c :: c in Unknown(lib, ciphers) ==> lib.lookup(c).None?
  {
    if ciphers != [] {
      UnknownAreUnknown(lib, ciphers[..|ciphers| - 1]);
    }
  }

  method SupportedNames(suites: seq<Suite>) returns (supported: set<string>)
    ensures forall n :: n in supported <==> exists s :: s in suites && s.name == n
  {
    supported := {};
    for i := 0 to |suites|
      invariant forall n :: n in supported <==> exists s :: s in suites[..i] && s.name == n
    {
      assert suites[..i + 1] == suites[..i] + [suites[i]];
      supported := supported + {suites[i].name};
    }
    assert suites[..|suites|] == suites;
  }

  /**
   The walk, for arbitrary lists. When the lists are those of the library, each
   cipher meets its own code, so the accepted names and the rejected ciphers are
   exactly the ones declared, in profile order, and the guard for exhausted
   codes is never taken.
   */
  method BatchGatewayCipherSuiteNames(lib: Library, spec: Profile, codes: seq<int>, unknown: seq<string>)
    returns (names: seq<string>, unsupported: seq<string>, ghost guardTaken: bool)
    ensures spec.minTLSVersion == VERSION_TLS13 ==> names == [] && unsupported == []
    ensures spec.minTLSVersion != VERSION_TLS13 ==> |names| + |unsupported| == |spec.ciphers|
    ensures spec.minTLSVersion != VERSION_TLS13 &&
            codes == Codes(lib, spec.ciphers) && unknown == Unknown(lib, spec.ciphers) ==>
              names == AcceptedNames(lib, spec.ciphers) && unsupported == Rejected(lib, spec.ciphers) && !guardTaken
  {
    names, unsupported, guardTaken := [], [], false;
    if spec.minTLSVersion == VERSION_TLS13 {
      return;
    }
    var supported := SupportedNames(lib.suites);
    var ciphers := spec.ciphers;
    ghost var aligned := codes == Codes(lib, ciphers) && unknown == Unknown(lib, ciphers);
    var codeIndex, unsupportedIndex := 0, 0;
    for i := 0 to |ciphers|
      invariant 0 <= codeIndex <= |codes| && 0 <= unsupportedIndex <= |unknown|
      invariant |names| + |unsupported| == i
      invariant aligned ==> codeIndex == |Codes(lib, ciphers[..i])| && unsupportedIndex == |Unknown(lib, ciphers[..i])|
      invariant aligned ==> names == AcceptedNames(lib, ciphers[..i]) && unsupported == Rejected(lib, ciphers[..i])
      invariant aligned ==> !guardTaken
    {
      var cipher := ciphers[i];
      NextOfLists(lib, ciphers, i);
      assert ciphers[..i + 1][..i] == ciphers[..i];
      if unsupportedIndex < |unknown| && unknown[unsupportedIndex] == cipher {
        unsupported := unsupported + [cipher];
        unsupportedIndex := unsupportedIndex + 1;
        continue;
      }
      if codeIndex >= |codes| {
        unsupported := unsupported + [cipher];
        guardTaken := true;
        continue;
      }
      var name := lib.suiteName(codes[codeIndex]);
      codeIndex := codeIndex + 1;
      if name in supported {
        names := names + [name];
        continue;
      }
      unsupported := unsupported + [cipher];
    }
    assert ciphers[..|ciphers|] == ciphers;
  }

  // The profile positions of the accepted (or of the rejected) ciphers, ascending.
  function Positions(lib: Library, ciphers: seq<string>, accepted: bool): seq<nat> {
    if ciphers == [] then []
    else
      var n := |ciphers| - 1;
      Positions(lib, ciphers[..n], accepted) + if Accepted(lib, ciphers[n]) == accepted then [n] else []
  }

  /** Every position is accepted or rejected, once, and the two outputs follow profile order. */
  lemma {:induction false} OrderPreservingPartition(lib: Library, ciphers: seq<string>)
    ensures var names, rejected := AcceptedNames(lib, ciphers), Rejected(lib, ciphers);
            var yes, no := Positions(lib, ciphers, true), Positions(lib, ciphers, false);
            && |names| == |yes| && |rejected| == |no|
            && (forall i :: 0 <= i < |ciphers| ==> (i in yes <==> i !in no))
            && (forall i, j :: 0 <= i < j < |yes| ==> yes[i] < yes[j])
            && (forall i, j :: 0 <= i < j < |no| ==> no[i] < no[j])
            && (forall i :: 0 <= i < |yes| ==> yes[i] < |ciphers| && lib.lookup(ciphers[yes[i]]).Some? &&
                                               names[i] == lib.suiteName(lib.lookup(ciphers[yes[i]]).value))
            && (forall i :: 0 <= i < |no| ==> no[i] < |ciphers| && rejected[i] == ciphers[no[i]])
  {
    if ciphers != [] {
      OrderPreservingPartition(lib, ciphers[..|ciphers| - 1]);
    }
  }

  /**
   The same on the library itself: an emitted name is the name of one of its suites,
   namely that of the code of its cipher; a reported cipher has no code, or a code
   whose name is none of the suites.
   */
  lemma PartitionOnLibrary(lib: Library, ciphers: seq<string>)
    ensures var yes, no := Positions(lib, ciphers, true), Positions(lib, ciphers, false);
            forall i :: 0 <= i < |ciphers| ==>
              && (i in yes <==> lib.lookup(ciphers[i]).Some? &&
                                exists s :: s in lib.suites && s.name == lib.suiteName(lib.lookup(ciphers[i]).value))
              && (i in no <==> lib.lookup(ciphers[i]).None? ||
                               forall s :: s in lib.suites ==> s.name != lib.suiteName(lib.lookup(ciphers[i]).value))
  {
    OrderPreservingPartition(lib, ciphers);
    PositionsAreAccepted(lib, ciphers);
  }

  lemma {:induction false} PositionsAreAccepted(lib: Library, ciphers: seq<string>)
    ensures forall i :: 0 <= i < |ciphers| ==> (i in Positions(lib, ciphers, true) <==> Accepted(lib, ciphers[i]))
    ensures forall i :: i in Positions(lib, ciphers, true) ==> i < |ciphers|
  {
    if ciphers != [] {
      PositionsAreAccepted(lib, ciphers[..|ciphers| - 1]);
    }
  }

  // Profile values

  ghost predicate UsableWithTls12(lib: Library, names: seq<string>) {
    exists s, n :: s in lib.suites && n in names && s.name == n && TLS12 in s.versions
  }

  method HasTls12CipherSuite(lib: Library, names: seq<string>) returns (found: bool)
    ensures found <==> UsableWithTls12(lib, names)
  {
    for i := 0 to |lib.suites|
      invariant forall s, n :: s in lib.suites[..i] && n in names && s.name == n ==> TLS12 !in s.versions
    {
      var suite := lib.suites[i];
      assert lib.suites[..i + 1] == lib.suites[..i] + [suite];
      for j := 0 to |names|
        invariant forall n :: n in names[..j] && suite.name == n ==> TLS12 !in suite.versions
      {
        assert names[..j + 1] == names[..j] + [names[j]];
        if suite.name != names[j] {
          continue;
        }
        for k := 0 to |suite.versions|
          invariant TLS12 !in suite.versions[..k]
        {
          assert suite.versions[..k + 1] == suite.versions[..k] + [suite.versions[k]];
          if suite.versions[k] == TLS12 {
            assert suite in lib.suites && names[j] in names;
            return true;
          }
        }
        assert suite.versions[..|suite.versions|] == suite.versions;
      }
      assert names[..|names|] == names;
    }
    assert lib.suites[..|lib.suites|] == lib.suites;
    return false;
  }

  datatype ProfileValues = ProfileValues(minVersion: string, cipherSuites: string, nextProtos: string)

  datatype ProfileError = MinVersionUnsupported | NoTls12Cipher(details: seq<string>)

  // Joining from the right: each further name comes after one comma.
  lemma {:induction false} JoinCommaGrows(names: seq<string>, name: string)
    ensures JoinComma([name]) == name
    ensures names != [] ==> JoinComma(names + [name]) == JoinComma(names) + "," + name
  {
    if |names| > 1 {
      JoinCommaGrows(names[1..], name);
      assert (names + [name])[1..] == names[1..] + [name];
    }
  }

  function JoinComma(names: seq<string>): string {
    if names == [] then "" else if |names| == 1 then names[0] else names[0] + "," + JoinComma(names[1..])
  }

  // The declared meaning of acceptance.
  ghost predicate ProfileAccepted(lib: Library, spec: Profile) {
    && (spec.minTLSVersion == "" || spec.minTLSVersion == VERSION_TLS12 || spec.minTLSVersion == VERSION_TLS13)
    && (spec.ciphers != [] && spec.minTLSVersion != VERSION_TLS13 ==>
          UsableWithTls12(lib, AcceptedNames(lib, spec.ciphers)))
  }

  /**
   A profile is accepted exactly when its minimum version is known and, unless it
   is TLS 1.3, its ciphers, if any, yield a suite usable with TLS 1.2; the
   emitted suites are the accepted names in profile order.
   */
  method ProfileValuesFromSpec(lib: Library, spec: Profile)
    returns (r: Result<ProfileValues, ProfileError>, unsupported: seq<string>)
    ensures r.Ok? <==> ProfileAccepted(lib, spec)
    ensures r.Ok? ==>
              r.value == ProfileValues(spec.minTLSVersion,
                                       if spec.minTLSVersion == VERSION_TLS13 then ""
                                       else JoinComma(AcceptedNames(lib, spec.ciphers)),
                                       DEFAULT_NEXT_PROTOS)
    ensures unsupported == if (r.Err? && r.error.MinVersionUnsupported?) || spec.minTLSVersion == VERSION_TLS13 then []
                           else Rejected(lib, spec.ciphers)
    ensures r.Err? ==> r.error ==
                       if spec.minTLSVersion !in {"", VERSION_TLS12, VERSION_TLS13} then MinVersionUnsupported
                       else if Rejected(lib, spec.ciphers) == [] then NoTls12Cipher(spec.ciphers)
                       else NoTls12Cipher(Rejected(lib, spec.ciphers))
  {
    var vals := ProfileValues("", "", DEFAULT_NEXT_PROTOS);
    if spec.minTLSVersion != "" {
      vals := vals.(minVersion := spec.minTLSVersion);
      if spec.minTLSVersion != VERSION_TLS12 && spec.minTLSVersion != VERSION_TLS13 {
        return Err(MinVersionUnsupported), [];
      }
    }
    if |spec.ciphers| > 0 {
      var names, rejected, _ :=
        BatchGatewayCipherSuiteNames(lib, spec, Codes(lib, spec.ciphers), Unknown(lib, spec.ciphers));
      if spec.minTLSVersion != VERSION_TLS13 {
        var usable := HasTls12CipherSuite(lib, names);
        if !usable {
          var details := rejected;
          if |details| == 0 {
            details := spec.ciphers;
          }
          return Err(NoTls12Cipher(details)), rejected;
        }
      }
      vals := vals.(cipherSuites := JoinComma(names));
      return Ok(vals), rejected;
    }
    return Ok(vals), [];
  }

  /**
   Acceptance on the library itself: the minimum version is one of the known ones,
   and a profile below TLS 1.3 that lists ciphers lists one whose code names a suite
   that works with TLS 1.2.
   */
  lemma AcceptedProfileHasTls12Suite(lib: Library, spec: Profile)
    ensures ProfileAccepted(lib, spec) <==>
            && spec.minTLSVersion in {"", "VersionTLS12", "VersionTLS13"}
            && (spec.ciphers != [] && spec.minTLSVersion != "VersionTLS13" ==>
                  exists c, s :: c in spec.ciphers && lib.lookup(c).Some? && s in lib.suites &&
                                 s.name == lib.suiteName(lib.lookup(c).value) && 0x0303 in s.versions)
  {
    AcceptedNamesComeFromProfile(lib, spec.ciphers);
    if UsableWithTls12(lib, AcceptedNames(lib, spec.ciphers)) {
      var s, n :| s in lib.suites && n in AcceptedNames(lib, spec.ciphers) && s.name == n && TLS12 in s.versions;
    }
    if c, s :| c in spec.ciphers && lib.lookup(c).Some? && s in lib.suites &&
               s.name == lib.suiteName(lib.lookup(c).value) && 0x0303 in s.versions {
      assert Accepted(lib, c);
      assert s.name in AcceptedNames(lib, spec.ciphers);
    }
  }

  lemma {:induction false} AcceptedNamesComeFromProfile(lib: Library, ciphers: seq<string>)
    ensures forall n :: n in AcceptedNames(lib, ciphers) ==>
                          exists c :: c in ciphers && Accepted(lib, c) && n == lib.suiteName(lib.lookup(c).value)
    ensures forall c :: c in ciphers && Accepted(lib, c) ==>
                          lib.suiteName(lib.lookup(c).value) in AcceptedNames(lib, ciphers)
  {
    if ciphers != [] {
      var init := ciphers[..|ciphers| - 1];
      AcceptedNamesComeFromProfile(lib, init);
      assert ciphers == init + [ciphers[|ciphers| - 1]];
    }
  }
}
