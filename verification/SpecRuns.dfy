/**
 Runs in which the spec belongs to the generation. Reconcilers read possibly stale
 versions, validate and reconcile the spec of the generation they read, and write
 the status under optimistic concurrency. What the stored status says of its
 observed generation is true of the spec of that generation.
 */
module SpecRuns {
  import opened Wrappers
  import opened Cluster
  import opened Secrets
  import opened Spec
  import opened Reports
  import opened Validation
  import opened Readiness
  import opened Status
  import opened StatusPatching
  import opened StatusRuns
  import opened Operator

  // A pass sees the cluster as it then is; nothing is assumed about it.
  datatype Move =
    | Edit
    | EditMeta
    | Fetch(who: nat, at: nat)
    | Pass(who: nat, world: World, env: Env)

  // The spec of every generation.
  type Specs = int -> GatewaySpec

  // The status write of a pass by a reconciler that holds a version.
  ghost function StepOf(s: System, g: Gateway, specs: Specs, move: Move): Option<StatusRuns.Step> {
    match move
    case Edit => Some(EditSpec)
    case EditMeta => Some(EditMetadata)
    case Fetch(who, at) => Some(Read(who, at))
    case Pass(who, world, env) =>
      if who !in s.held then None
      else Carrier(who, WriteOf(world, g, specs(s.held[who].generation), env), env.statusFault)
  }

  // The step that carries a write.
  function Carrier(who: nat, write: StatusWrite, fault: bool): Option<StatusRuns.Step> {
    match write
    case NoWrite => None
    case FailureOf(f) => Some(WriteFailure(who, f, fault))
    case Observation(comp) => Some(WriteObserved(who, comp, fault))
  }

  ghost function After(s: System, g: Gateway, specs: Specs, move: Move): (s': System)
    requires s.history != []
    ensures s'.history != []
  {
    var step := StepOf(s, g, specs, move);
    if step.Some? then StatusRuns.Next(s, step.value) else s
  }

  ghost function RunOf(g: Gateway, specs: Specs, moves: seq<Move>): (s: System)
    ensures s.history != []
  {
    if moves == [] then CREATED
    else After(RunOf(g, specs, moves[..|moves| - 1]), g, specs, moves[|moves| - 1])
  }

  // The Ready condition that a write for one generation leaves.
  function ReadyOf(write: StatusWrite, generation: int): Option<Condition> {
    match write
    case NoWrite => None
    case FailureOf(f) => Some(Condition(READY, ConditionStatus(false), f.reason, f.message, generation))
    case Observation(comp) => Some(ReadyCondition(AllAvailable(comp), generation))
  }

  // A pass by a reconciler that holds generation n, and whose write lands.
  ghost predicate Lands(s: System, g: Gateway, specs: Specs, move: Move, n: int)
    requires s.history != []
  {
    && move.Pass? && move.who in s.held && s.held[move.who].generation == n
    && var step := Carrier(move.who, WriteOf(move.world, g, specs(n), move.env), move.env.statusFault);
       step.Some? && Attempt(s, step.value).1.Landed?
  }

  // Move i of a run is such a pass.
  ghost predicate LandedAt(g: Gateway, specs: Specs, moves: seq<Move>, i: int, n: int) {
    0 <= i < |moves| && Lands(RunOf(g, specs, moves[..i]), g, specs, moves[i], n)
  }

  // A pass over the spec of the observed generation says what the Ready condition of v says.
  ghost predicate WrittenBy(v: Version, g: Gateway, specs: Specs, move: Move) {
    && move.Pass?
    && var n := v.status.observedGeneration;
       SaysReady(v, WriteOf(move.world, g, specs(n), move.env), n)
  }

  ghost predicate SaysReady(v: Version, write: StatusWrite, n: int) {
    && v.status.observedGeneration == n
    && !write.NoWrite?
    && Find(v.status.conditions, READY) == ReadyOf(write, n)
  }

  predicate ConcernsReady(write: StatusWrite) {
    write.FailureOf? ==> READY in write.failure.conditions
  }

  ghost predicate Untouched(v: Version) {
    v.status.observedGeneration == 0 && Find(v.status.conditions, READY).None?
  }

  // Nobody has written the status yet, or a pass that held the observed generation wrote Ready.
  ghost predicate Accounted(v: Version, g: Gateway, specs: Specs, moves: seq<Move>) {
    || Untouched(v)
    || exists i :: LandedAt(g, specs, moves, i, v.status.observedGeneration) && WrittenBy(v, g, specs, moves[i])
  }

  // Every failure that a pass records concerns Ready.
  lemma FailuresConcernReady(w: World, g: Gateway, spec: GatewaySpec, env: Env)
    ensures ConcernsReady(WriteOf(w, g, spec, env))
  {
    assert ALL_CONDITION_TYPES[0] == READY;
    if Admissible(spec) {
      var (s1, r) := Resolve(w, g, spec.secretRef, env.secret);
      if r.Ok? {
        assert WriteOf(w, g, spec, env) == WriteOfWorkloads(s1, w.installed, g, env, spec, r.value);
      } else {
        assert WriteOf(w, g, spec, env) == WriteOfResolveError(g, spec.secretRef, r.error);
      }
    }
  }

  lemma FailureSaysReady(s: GatewayStatus, generation: int, f: Failure)
    requires READY in f.conditions
    ensures Find(FailureStatus(s, generation, f).conditions, READY) == ReadyOf(FailureOf(f), generation)
  {
    SetAllEffect(s.conditions, f.conditions, f.reason, f.message, generation);
  }

  lemma ObservationSaysReady(s: GatewayStatus, generation: int, comp: ComponentStatus)
    ensures Find(ObservedConditions(s.conditions, generation, comp), READY) == ReadyOf(Observation(comp), generation)
  {
    ObservedConditionsEffect(s.conditions, generation, comp);
  }

  // A landed write leaves its Ready condition, for the generation it had read.
  lemma LandedSaysReady(s: System, who: nat, write: StatusWrite, fault: bool)
    requires Good(s) && who in s.held && ConcernsReady(write)
    requires var step := Carrier(who, write, fault);
             step.Some? && Attempt(s, step.value).1.Landed?
    ensures SaysReady(Attempt(s, Carrier(who, write, fault).value).0, write, s.held[who].generation)
  {
    var now := Current(s);
    LandedPatchIsExact(s, Carrier(who, write, fault).value);
    if write.FailureOf? {
      FailureSaysReady(now.status, now.generation, write.failure);
    } else {
      ObservationSaysReady(now.status, now.generation, write.comp);
    }
  }

  lemma PassIsAccounted(g: Gateway, specs: Specs, moves: seq<Move>, move: Move, v: Version)
    requires Good(RunOf(g, specs, moves)) && move.Pass? && move.who in RunOf(g, specs, moves).held
    requires var s := RunOf(g, specs, moves);
             var step := StepOf(s, g, specs, move);
             step.Some? && Attempt(s, step.value).1.Landed? && v == Attempt(s, step.value).0
    ensures Accounted(v, g, specs, moves + [move])
  {
    var s := RunOf(g, specs, moves);
    var spec := specs(s.held[move.who].generation);
    FailuresConcernReady(move.world, g, spec, move.env);
    LandedSaysReady(s, move.who, WriteOf(move.world, g, spec, move.env), move.env.statusFault);
    var all, i := moves + [move], |moves|;
    assert all[..i] == moves && all[i] == move;
    assert LandedAt(g, specs, all, i, v.status.observedGeneration) && WrittenBy(v, g, specs, all[i]);
  }

  lemma AddedIsAccounted(g: Gateway, specs: Specs, moves: seq<Move>, move: Move, v: Version)
    requires var s := RunOf(g, specs, moves);
             && Good(s) && Accounted(Current(s), g, specs, moves)
             && v in After(s, g, specs, move).history && v !in s.history
    ensures Accounted(v, g, specs, moves + [move])
  {
    var s := RunOf(g, specs, moves);
    AddedVersion(s, StepOf(s, g, specs, move).value, v);
    if move.Pass? {
      PassIsAccounted(g, specs, moves, move, v);
    } else {
      AccountFollowsStatus(Current(s), v, g, specs, moves);
      AccountGrows(v, g, specs, moves, move);
    }
  }

  lemma MoveKeepsAccount(g: Gateway, specs: Specs, moves: seq<Move>, move: Move)
    requires Good(RunOf(g, specs, moves))
    requires forall v :: v in RunOf(g, specs, moves).history ==> Accounted(v, g, specs, moves)
    ensures forall v :: v in After(RunOf(g, specs, moves), g, specs, move).history ==>
                          Accounted(v, g, specs, moves + [move])
  {
    var s := RunOf(g, specs, moves);
    assert Current(s) in s.history;
    forall v | v in After(s, g, specs, move).history
      ensures Accounted(v, g, specs, moves + [move])
    {
      if v in s.history {
        AccountGrows(v, g, specs, moves, move);
      } else {
        AddedIsAccounted(g, specs, moves, move, v);
      }
    }
  }

  lemma AccountFollowsStatus(v: Version, v': Version, g: Gateway, specs: Specs, moves: seq<Move>)
    requires v.status == v'.status && Accounted(v, g, specs, moves)
    ensures Accounted(v', g, specs, moves)
  {
    if !Untouched(v) {
      var i :| LandedAt(g, specs, moves, i, v.status.observedGeneration) && WrittenBy(v, g, specs, moves[i]);
      assert WrittenBy(v', g, specs, moves[i]);
    }
  }

  lemma AccountGrows(v: Version, g: Gateway, specs: Specs, moves: seq<Move>, move: Move)
    requires Accounted(v, g, specs, moves)
    ensures Accounted(v, g, specs, moves + [move])
  {
    if !Untouched(v) {
      var i :| LandedAt(g, specs, moves, i, v.status.observedGeneration) && WrittenBy(v, g, specs, moves[i]);
      LandedAtGrows(g, specs, moves, move, i, v.status.observedGeneration);
      assert (moves + [move])[i] == moves[i];
    }
  }

  lemma LandedAtGrows(g: Gateway, specs: Specs, moves: seq<Move>, move: Move, i: int, n: int)
    requires LandedAt(g, specs, moves, i, n)
    ensures LandedAt(g, specs, moves + [move], i, n)
  {
    var all := moves + [move];
    assert all[..i] == moves[..i] && all[i] == moves[i];
  }

  /**
   The Ready condition of every version stored in any run is what a pass wrote that
   held exactly the generation that the status claims to observe, and whose write landed.
   */
  lemma {:induction false} StatusIsAccounted(g: Gateway, specs: Specs, moves: seq<Move>)
    ensures Good(RunOf(g, specs, moves))
    ensures forall v :: v in RunOf(g, specs, moves).history ==> Accounted(v, g, specs, moves)
  {
    if moves != [] {
      var init, last := moves[..|moves| - 1], moves[|moves| - 1];
      StatusIsAccounted(g, specs, init);
      var s := RunOf(g, specs, init);
      MoveKeepsAccount(g, specs, init, last);
      var step := StepOf(s, g, specs, last);
      if step.Some? {
        StepKeepsGood(s, step.value);
      }
      assert moves == init + [last];
    } else {
      RunsStayGood([]);
    }
  }

  /**
   What the stored status says of generation n is true of the spec of generation n,
   in every run. Ready names a failed validation exactly when that spec is
   inadmissible, and Ready is True only if that spec is admissible and a pass by a
   reconciler that held generation n reconciled the cluster and saw all four
   components rolled out.
   */
  lemma ReadyIsTrueOfObservedSpec(g: Gateway, specs: Specs, moves: seq<Move>, v: Version)
    requires v in RunOf(g, specs, moves).history && v.status.observedGeneration != 0
    ensures var n := v.status.observedGeneration;
            var ready := Find(v.status.conditions, READY);
            && n <= v.generation
            && ready.Some? && ready.value.observedGeneration == n
            && (ready.value.reason == "ValidationFailed" <==> !Admissible(specs(n)))
            && (ready.value.status == "True" ==>
                  exists i :: LandedAt(g, specs, moves, i, n) && Served(g, specs(n), moves[i]))
  {
    StatusIsAccounted(g, specs, moves);
    var n := v.status.observedGeneration;
    var i :| LandedAt(g, specs, moves, i, n) && WrittenBy(v, g, specs, moves[i]);
    var move := moves[i];
    ReasonTells(move.world, g, specs(n), move.env, n);
    if Find(v.status.conditions, READY).value.status == "True" {
      TrueTells(move.world, g, specs(n), move.env, n);
      assert Served(g, specs(n), moves[i]);
    }
    assert GoodVersion(v);
  }

  // A pass that reconciled everything and saw all components rolled out.
  ghost predicate Served(g: Gateway, spec: GatewaySpec, move: Move) {
    && move.Pass?
    && Reconciled(move.world, g, spec, move.env)
    && move.env.deployments.Some? && move.env.statefulSets.Some?
    && AllRolledOut(move.env.deployments.value, move.env.statefulSets.value, g.uid)
  }

  lemma TrueTells(w: World, g: Gateway, spec: GatewaySpec, env: Env, n: int)
    requires var ready := ReadyOf(WriteOf(w, g, spec, env), n);
             ready.Some? && ready.value.status == "True"
    ensures Reconciled(w, g, spec, env) && env.deployments.Some? && env.statefulSets.Some?
    ensures AllRolledOut(env.deployments.value, env.statefulSets.value, g.uid)
  {
    var write := WriteOf(w, g, spec, env);
    ReadyTrueIff(false, n);
    assert write.Observation?;
    ObservesIff(w, g, spec, env);
    ReadyTrueIff(AllAvailable(write.comp), n);
    AllAvailableIffRolledOut(env.deployments.value, env.statefulSets.value, g.uid);
  }

  lemma ReasonTells(w: World, g: Gateway, spec: GatewaySpec, env: Env, n: int)
    requires ReadyOf(WriteOf(w, g, spec, env), n).Some?
    ensures ReadyOf(WriteOf(w, g, spec, env), n).value.reason == "ValidationFailed" <==> !Admissible(spec)
  {
    OtherReasons();
    if Admissible(spec) {
      var (s1, r) := Resolve(w, g, spec.secretRef, env.secret);
      if r.Ok? {
        assert WriteOf(w, g, spec, env) == WriteOfWorkloads(s1, w.installed, g, env, spec, r.value);
      } else {
        assert WriteOf(w, g, spec, env) == WriteOfResolveError(g, spec.secretRef, r.error);
      }
    }
  }

  lemma OtherReasons()
    ensures "ValidationFailed" !in
            {"RenderFailed", "ReferenceNotPermitted", "SecretRefImmutable", "AllComponentsReady", "ComponentsNotReady"}
  {
    assert |"ValidationFailed"| == 16 && |"RenderFailed"| == 12 && |"ReferenceNotPermitted"| == 21;
    assert |"SecretRefImmutable"| == 18 && |"AllComponentsReady"| == 18 && |"ComponentsNotReady"| == 18;
  }
}
