/**
 Whole runs of spec edits, metadata edits and any number of reconcilers that read
 possibly stale versions and patch the status. The history of stored versions
 keeps observedGeneration below generation and never lets it fall, and every
 patch that lands was computed from the version it overwrites.
 */
module StatusRuns {
  import opened Wrappers
  import opened Readiness
  import opened Status
  import opened StatusPatching

  // All stored versions, oldest first, and the version each reconciler holds.
  datatype System = System(history: seq<Version>, held: map<nat, Version>)

  datatype Step =
    | EditSpec
    | EditMetadata
    | Read(who: nat, at: nat)
    | WriteFailure(who: nat, failure: Failure, fault: bool)
    | WriteObserved(who: nat, comp: ComponentStatus, fault: bool)

  const CREATED := System([Version(1, 1, GatewayStatus(0, [], None))], map[])

  function Current(s: System): Version
    requires s.history != []
  {
    s.history[|s.history| - 1]
  }

  function Store(s: System, v: Version): System
    requires s.history != []
  {
    if v == Current(s) then s else s.(history := s.history + [v])
  }

  // A write by a reconciler that holds nothing does not happen; after a write it holds nothing.
  function Attempt(s: System, step: Step): (Version, PatchOutcome)
    requires s.history != []
    requires (step.WriteFailure? || step.WriteObserved?) && step.who in s.held
  {
    match step
    case WriteFailure(who, failure, fault) => FailureWrite(Current(s), s.held[who], failure, fault)
    case WriteObserved(who, comp, fault) => ObservedWrite(Current(s), s.held[who], comp, fault)
  }

  function Next(s: System, step: Step): (s': System)
    requires s.history != []
    ensures s'.history != []
  {
    var now := Current(s);
    match step
    case EditSpec => Store(s, Version(now.generation + 1, now.resourceVersion + 1, now.status))
    case EditMetadata => Store(s, Version(now.generation, now.resourceVersion + 1, now.status))
    case Read(who, at) => if at < |s.history| then s.(held := s.held[who := s.history[at]]) else s
    case _ =>
      if step.who in s.held then Store(s, Attempt(s, step).0).(held := s.held - {step.who}) else s
  }

  function Run(s: System, steps: seq<Step>): (s': System)
    requires s.history != []
    ensures s'.history != []
  {
    if steps == [] then s else Next(Run(s, steps[..|steps| - 1]), steps[|steps| - 1])
  }

  ghost predicate GoodVersion(v: Version) {
    && v.status.observedGeneration <= v.generation
    && OnePerType(v.status.conditions)
    && forall c :: c in v.status.conditions ==> c.observedGeneration <= v.generation
  }

  // v may directly or indirectly precede w.
  predicate Precedes(v: Version, w: Version) {
    && v.resourceVersion < w.resourceVersion
    && v.generation <= w.generation
    && v.status.observedGeneration <= w.status.observedGeneration
  }

  ghost predicate Good(s: System) {
    && s.history != []
    && (forall i :: 0 <= i < |s.history| ==> GoodVersion(s.history[i]))
    && (forall i, j :: 0 <= i < j < |s.history| ==> Precedes(s.history[i], s.history[j]))
    && (forall who :: who in s.held ==> s.held[who] in s.history)
  }

  /** A resourceVersion names one version, so a matching copy is the stored object. */
  lemma SameVersionNumber(s: System, who: nat)
    requires Good(s) && who in s.held && s.held[who].resourceVersion == Current(s).resourceVersion
    ensures s.held[who] == Current(s)
  {
    var h := s.history;
    assert forall i :: 0 <= i < |h| - 1 ==> Precedes(h[i], h[|h| - 1]);
    var i :| 0 <= i < |h| && h[i] == s.held[who];
  }

  /**
   No lost update. A patch that lands was computed from exactly the stored
   version, so it keeps every condition type and component entry it does not
   write, and it observes the stored generation.
   */
  lemma LandedPatchIsExact(s: System, step: Step)
    requires Good(s)
    requires (step.WriteFailure? || step.WriteObserved?) && step.who in s.held && Attempt(s, step).1.Landed?
    ensures var now := Current(s);
            var then' := Attempt(s, step).0;
            && s.held[step.who] == now
            && then'.generation == now.generation
            && then'.status == (
               match step
               case WriteFailure(_, failure, _) => FailureStatus(now.status, now.generation, failure)
               case WriteObserved(_, comp, _) =>
                 GatewayStatus(now.generation, ObservedConditions(now.status.conditions, now.generation, comp),
                               Some(MergeComponents(now.status.componentStatus, comp))))
            && (then' == now || then'.resourceVersion == now.resourceVersion + 1)
  {
    SameVersionNumber(s, step.who);
    var now := Current(s);
    match step
    case WriteFailure(_, failure, _) =>
      FailurePatchFrame(now.status, FailureStatus(now.status, now.generation, failure));
    case WriteObserved(_, comp, _) =>
      ObservedPatchFrame(now.status, ObservedStatus(now.status, now.generation, comp), comp);
  }

  lemma RefusedWriteKeepsVersion(s: System, step: Step)
    requires s.history != []
    requires (step.WriteFailure? || step.WriteObserved?) && step.who in s.held && !Attempt(s, step).1.Landed?
    ensures Attempt(s, step).0 == Current(s)
  {
  }

  lemma StoreKeepsGood(s: System, v: Version)
    requires Good(s)
    requires v == Current(s) || (GoodVersion(v) && Precedes(Current(s), v))
    ensures Good(Store(s, v))
  {
    if v != Current(s) {
      var h := s.history + [v];
      forall i, j | 0 <= i < j < |h|
        ensures Precedes(h[i], h[j])
      {
        if j == |s.history| && i < |s.history| - 1 {
          assert Precedes(s.history[i], Current(s));
        }
      }
    }
  }

  lemma LandedVersionIsGood(s: System, step: Step)
    requires Good(s)
    requires (step.WriteFailure? || step.WriteObserved?) && step.who in s.held && Attempt(s, step).1.Landed?
    ensures GoodVersion(Attempt(s, step).0)
  {
    LandedPatchIsExact(s, step);
    var now := Current(s);
    assert GoodVersion(now);
    match step
    case WriteFailure(_, f, _) =>
      SetAllEffect(now.status.conditions, f.conditions, f.reason, f.message, now.generation);
    case WriteObserved(_, comp, _) =>
      ObservedConditionsEffect(now.status.conditions, now.generation, comp);
  }

  lemma StepKeepsGood(s: System, step: Step)
    requires Good(s)
    ensures Good(Next(s, step))
  {
    var now := Current(s);
    assert GoodVersion(now);
    match step
    case EditSpec =>
      StoreKeepsGood(s, Version(now.generation + 1, now.resourceVersion + 1, now.status));
    case EditMetadata =>
      StoreKeepsGood(s, Version(now.generation, now.resourceVersion + 1, now.status));
    case Read(who, at) =>
    case _ =>
      if step.who in s.held {
        if Attempt(s, step).1.Landed? {
          LandedPatchIsExact(s, step);
          LandedVersionIsGood(s, step);
        } else {
          RefusedWriteKeepsVersion(s, step);
        }
        StoreKeepsGood(s, Attempt(s, step).0);
      }
  }

  /**
   Optimistic concurrency over whole runs. However spec edits, metadata edits,
   stale reads and patches interleave, in every stored version
   observedGeneration is at most generation, conditions have one entry per type,
   and neither generation nor observedGeneration ever decreases.
   */
  lemma {:induction false} RunsStayGood(steps: seq<Step>)
    ensures var h := Run(CREATED, steps).history;
            && Good(Run(CREATED, steps))
            && (forall i :: 0 <= i < |h| ==> h[i].status.observedGeneration <= h[i].generation)
            && (forall i, j :: 0 <= i <= j < |h| ==>
                  h[i].generation <= h[j].generation && h[i].status.observedGeneration <= h[j].status.observedGeneration)
  {
    if steps != [] {
      var init := steps[..|steps| - 1];
      RunsStayGood(init);
      StepKeepsGood(Run(CREATED, init), steps[|steps| - 1]);
    }
    var h := Run(CREATED, steps).history;
    forall i | 0 <= i < |h|
      ensures h[i].status.observedGeneration <= h[i].generation
    {
      assert GoodVersion(h[i]);
    }
    forall i, j | 0 <= i <= j < |h|
      ensures h[i].generation <= h[j].generation && h[i].status.observedGeneration <= h[j].status.observedGeneration
    {
      if i < j {
        assert Precedes(h[i], h[j]);
      }
    }
  }

  /** In every run, the next write that lands does so on the version its reconciler read. */
  lemma LandedWritesInRuns(steps: seq<Step>, step: Step)
    requires (step.WriteFailure? || step.WriteObserved?) && step.who in Run(CREATED, steps).held
    requires Attempt(Run(CREATED, steps), step).1.Landed?
    ensures var s := Run(CREATED, steps);
            && s.held[step.who] == Current(s)
            && Attempt(s, step).0.status.observedGeneration == Current(s).generation
  {
    RunsStayGood(steps);
    LandedPatchIsExact(Run(CREATED, steps), step);
  }

  // Where a version comes from that a step adds.
  lemma AddedVersion(s: System, step: Step, v: Version)
    requires s.history != []
    requires v in Next(s, step).history && v !in s.history
    ensures !step.Read?
    ensures step.EditSpec? || step.EditMetadata? ==> v.status == Current(s).status
    ensures step.WriteFailure? || step.WriteObserved? ==>
              step.who in s.held && Attempt(s, step).1.Landed? && v == Attempt(s, step).0
  {
    assert Current(s) in s.history;
  }

  // The same write by the same reconciler, this time without a fault.
  function Repeated(step: Step): Step
    requires step.WriteFailure? || step.WriteObserved?
  {
    match step
    case WriteFailure(who, failure, _) => WriteFailure(who, failure, false)
    case WriteObserved(who, comp, _) => WriteObserved(who, comp, false)
  }

  // The same write on a version that the writer has just read.
  function WriteOn(v: Version, step: Step): (Version, PatchOutcome)
    requires step.WriteFailure? || step.WriteObserved?
  {
    match step
    case WriteFailure(_, failure, _) => FailureWrite(v, v, failure, false)
    case WriteObserved(_, comp, _) => ObservedWrite(v, v, comp, false)
  }

  lemma AttemptOnRead(s: System, step: Step)
    requires s.history != []
    requires (step.WriteFailure? || step.WriteObserved?) && step.who in s.held && s.held[step.who] == Current(s)
    ensures Attempt(s, step).1.Landed? ==> Attempt(s, step) == WriteOn(Current(s), step)
    ensures Attempt(s, Repeated(step)) == WriteOn(Current(s), step)
  {
  }

  lemma WriteOnSettles(v: Version, step: Step)
    requires step.WriteFailure? || step.WriteObserved?
    ensures var v1 := WriteOn(v, step).0;
            WriteOn(v1, step) == (v1, Landed)
  {
    match step
    case WriteFailure(_, failure, _) => LandedWritesSettle(v, failure, NO_COMPONENTS);
    case WriteObserved(_, comp, _) => LandedWritesSettle(v, Failure("", "", []), comp);
  }

  lemma WriteThenRead(s: System, step: Step)
    requires s.history != []
    requires (step.WriteFailure? || step.WriteObserved?) && step.who in s.held
    ensures var s1 := Next(s, step);
            var reread := Next(s1, Read(step.who, |s1.history| - 1));
            && Current(s1) == Attempt(s, step).0
            && reread.history == s1.history
            && step.who in reread.held && reread.held[step.who] == Current(s1)
  {
    var s1 := Next(s, step);
    assert s1.history == Store(s, Attempt(s, step).0).history;
    assert Current(s1) == Attempt(s, step).0;
    assert Next(s1, Read(step.who, |s1.history| - 1)) == s1.(held := s1.held[step.who := Current(s1)]);
  }

  lemma RepeatedOnRead(s: System, step: Step)
    requires s.history != []
    requires step.WriteFailure? || step.WriteObserved?
    requires step.who in s.held && s.held[step.who] == Current(s)
    requires WriteOn(Current(s), step) == (Current(s), Landed)
    ensures Attempt(s, Repeated(step)).1.Landed?
    ensures Next(s, Repeated(step)).history == s.history
  {
    AttemptOnRead(s, step);
  }

  /** In every run, a landed write that is repeated from a fresh read leaves the history as it is. */
  lemma RepeatedWriteIsQuiet(steps: seq<Step>, step: Step)
    requires (step.WriteFailure? || step.WriteObserved?) && step.who in Run(CREATED, steps).held
    requires Attempt(Run(CREATED, steps), step).1.Landed?
    ensures var s1 := Next(Run(CREATED, steps), step);
            var reread := Next(s1, Read(step.who, |s1.history| - 1));
            Attempt(reread, Repeated(step)).1.Landed? && Next(reread, Repeated(step)).history == s1.history
  {
    var s := Run(CREATED, steps);
    assert s.held[step.who] == Current(s) by {
      RunsStayGood(steps);
      LandedPatchIsExact(s, step);
    }
    WriteThenRead(s, step);
    AttemptOnRead(s, step);
    WriteOnSettles(Current(s), step);
    var s1 := Next(s, step);
    RepeatedOnRead(Next(s1, Read(step.who, |s1.history| - 1)), step);
  }
}
