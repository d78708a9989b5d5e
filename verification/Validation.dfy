/**
 Spec validation. The imperative checks accept a spec exactly when one
 declarative predicate holds of it, whatever order maps are iterated in; the error
 they return names a real violation and is the first one in the order of the checks.
 */
module Validation {
  import opened Wrappers
  import opened Ordering
  import opened Spec
  import opened AsyncQueues
  import opened Reports

  // The declared meaning of acceptance

  predicate PoolsDistinct(mg: map<string, ModelGateway>) {
    forall m, n :: m in mg && n in mg && mg[m].inferencePoolName == mg[n].inferencePoolName ==> m == n
  }

  predicate ResultQueuesDistinct(mg: map<string, ModelGateway>) {
    forall m, n :: m in mg && n in mg && SqlResultQueueFor(mg[m]) == SqlResultQueueFor(mg[n]) ==> m == n
  }

  // The listed queues match the published ones one for one.
  predicate Covers(mg: map<string, ModelGateway>, queues: seq<Queue>) {
    && NoDuplicates(QueueNames(queues))
    && (set q | q in queues :: q.name) == PublishedNames(mg)
  }

  // Derived queues never carry their own URL.
  predicate HasURLs(ac: AsyncConfig) {
    SharedURL(ac) != "" || (ConfiguredQueues(ac) != [] && forall q :: q in ConfiguredQueues(ac) ==> q.igwBaseURL != "")
  }

  // Derived Redis queues carry the top-level gate, derived SQL queues none.
  function QueueGates(ac: AsyncConfig): set<string> {
    if ConfiguredQueues(ac) != [] then set q | q in ConfiguredQueues(ac) :: q.gateType
    else if ac.redis.Some? then {ac.redis.value.gateType}
    else {}
  }

  predicate HasPrometheusForGates(ac: AsyncConfig) {
    ac.prometheusURL != "" ||
    (&& (forall gate :: gate in QueueGates(ac) ==> !IsPrometheusGate(gate))
     && (forall p :: p in ac.workerPools ==> !IsPrometheusGate(p.gateType)))
  }

  predicate Admissible(spec: GatewaySpec) {
    && (spec.dbBackend == "" || spec.dbBackend == "postgresql")
    && spec.dispatchMode != "sync"
    && spec.asyncConfig.Some?
    && var ac, mg := spec.asyncConfig.value, spec.modelGateways;
       && (ac.redis.Some? <==> ac.sql.None?)
       && ac.resultPollTimeout != ""
       && mg != map[]
       && (forall m :: m in mg ==> CompleteGateway(mg[m]))
       && (ac.sql.Some? ==> PoolsDistinct(mg) && ResultQueuesDistinct(mg))
       && (ConfiguredQueues(ac) != [] ==> Covers(mg, ConfiguredQueues(ac)))
       && HasURLs(ac)
       && HasPrometheusForGates(ac)
  }

  // The reference definition: the same conditions on the fields of the spec alone,
  // without the functions that the checks and the renderers use.

  ghost predicate IsolatedFields(mg: map<string, ModelGateway>) {
    forall m, n :: m in mg && n in mg && m != n ==>
      && mg[m].inferencePoolName != mg[n].inferencePoolName
      && (mg[m].resultQueueName != "" ==> mg[m].resultQueueName != mg[n].resultQueueName)
      && (mg[m].resultQueueName != "" && mg[n].resultQueueName == "" ==>
            mg[m].resultQueueName != "llm-d-async:results:" + mg[n].inferencePoolName)
  }

  // The queues that the processors of the models publish to.
  function PublishedFields(mg: map<string, ModelGateway>): set<string> {
    set m | m in mg :: if mg[m].requestQueueName != "" then mg[m].requestQueueName
                       else "llm-d-async:requests:" + mg[m].inferencePoolName
  }

  ghost predicate CoveringFields(mg: map<string, ModelGateway>, queues: seq<Queue>) {
    && (forall i, j :: 0 <= i < j < |queues| ==> queues[i].name != queues[j].name)
    && (set q | q in queues :: q.name) == PublishedFields(mg)
  }

  predicate GatedByPrometheus(gateType: string) {
    gateType in {"prometheus-budget", "prometheus-query", "prometheus-saturation"}
  }

  ghost predicate GateFields(ac: AsyncConfig, queues: seq<Queue>) {
    || ac.prometheusURL != ""
    || (&& (forall q :: q in queues ==> !GatedByPrometheus(q.gateType))
        && (queues == [] && ac.redis.Some? ==> !GatedByPrometheus(ac.redis.value.gateType))
        && (forall p :: p in ac.workerPools ==> !GatedByPrometheus(p.gateType)))
  }

  ghost predicate URLFields(ac: AsyncConfig, queues: seq<Queue>) {
    || (ac.inferenceGateway.Some? && ac.inferenceGateway.value != "")
    || (queues != [] && forall q :: q in queues ==> q.igwBaseURL != "")
  }

  lemma ResultPrefixCancels(a: string, b: string)
    ensures "llm-d-async:results:" + a == "llm-d-async:results:" + b ==> a == b
  {
    var p := "llm-d-async:results:";
    assert (p + a)[|p|..] == a && (p + b)[|p|..] == b;
  }

  lemma IsolationOnFields(mg: map<string, ModelGateway>)
    ensures PoolsDistinct(mg) && ResultQueuesDistinct(mg) <==> IsolatedFields(mg)
  {
    forall m | m in mg
      ensures SqlResultQueueFor(mg[m]) ==
              if mg[m].resultQueueName != "" then mg[m].resultQueueName
              else "llm-d-async:results:" + mg[m].inferencePoolName
    {
      NamesOnFields(mg[m]);
    }
    forall m, n | m in mg && n in mg
      ensures "llm-d-async:results:" + mg[m].inferencePoolName == "llm-d-async:results:" + mg[n].inferencePoolName ==>
                mg[m].inferencePoolName == mg[n].inferencePoolName
    {
      ResultPrefixCancels(mg[m].inferencePoolName, mg[n].inferencePoolName);
    }
    if PoolsDistinct(mg) && ResultQueuesDistinct(mg) {
      forall m, n | m in mg && n in mg && m != n
        ensures SqlResultQueueFor(mg[m]) != SqlResultQueueFor(mg[n])
      {
      }
    }
    if IsolatedFields(mg) {
      forall m, n | m in mg && n in mg && m != n
        ensures SqlResultQueueFor(mg[m]) != SqlResultQueueFor(mg[n])
      {
        assert n != m;
      }
    }
  }

  lemma PublishedOnFields(mg: map<string, ModelGateway>)
    ensures PublishedNames(mg) == PublishedFields(mg)
  {
    forall m | m in mg
      ensures RequestQueueFor(mg[m]) == if mg[m].requestQueueName != "" then mg[m].requestQueueName
                                        else "llm-d-async:requests:" + mg[m].inferencePoolName
    {
      NamesOnFields(mg[m]);
    }
  }

  lemma CoverageOnFields(mg: map<string, ModelGateway>, queues: seq<Queue>)
    ensures Covers(mg, queues) <==> CoveringFields(mg, queues)
  {
    PublishedOnFields(mg);
    DistinctNames(queues);
  }

  lemma DistinctNames(queues: seq<Queue>)
    ensures NoDuplicates(QueueNames(queues)) <==>
            forall i, j :: 0 <= i < j < |queues| ==> queues[i].name != queues[j].name
  {
    var names := QueueNames(queues);
    if NoDuplicates(names) {
      forall i, j | 0 <= i < j < |queues|
        ensures queues[i].name != queues[j].name
      {
        assert names[i] != names[j];
      }
    }
  }

  lemma GatesOnFields(ac: AsyncConfig)
    ensures HasPrometheusForGates(ac) <==> GateFields(ac, ConfiguredQueues(ac))
  {
    var queues := ConfiguredQueues(ac);
    forall gate
      ensures IsPrometheusGate(gate) <==> GatedByPrometheus(gate)
    {
      NamesOnFields(ModelGateway("", "", "", ""));
    }
    if queues != [] {
      assert forall q :: q in queues ==> q.gateType in QueueGates(ac);
    } else if ac.redis.Some? {
      assert ac.redis.value.gateType in QueueGates(ac);
    }
  }

  ghost predicate TransportFields(mg: map<string, ModelGateway>, ac: AsyncConfig, queues: seq<Queue>) {
    && (ac.sql.Some? ==> IsolatedFields(mg))
    && (queues != [] ==> CoveringFields(mg, queues))
    && URLFields(ac, queues)
    && GateFields(ac, queues)
  }

  lemma TransportOnFields(mg: map<string, ModelGateway>, ac: AsyncConfig)
    ensures (&& (ac.sql.Some? ==> PoolsDistinct(mg) && ResultQueuesDistinct(mg))
             && (ConfiguredQueues(ac) != [] ==> Covers(mg, ConfiguredQueues(ac)))
             && HasURLs(ac)
             && HasPrometheusForGates(ac)) <==> TransportFields(mg, ac, ConfiguredQueues(ac))
  {
    IsolationOnFields(mg);
    CoverageOnFields(mg, ConfiguredQueues(ac));
    GatesOnFields(ac);
    assert HasURLs(ac) <==> URLFields(ac, ConfiguredQueues(ac));
  }

  /** What is accepted, on the fields of the spec alone. */
  lemma AdmissibleOnFields(spec: GatewaySpec)
    ensures Admissible(spec) <==>
            && (spec.dbBackend == "" || spec.dbBackend == "postgresql") && spec.dispatchMode != "sync"
            && spec.asyncConfig.Some?
            && var ac, mg := spec.asyncConfig.value, spec.modelGateways;
               && (ac.redis.Some? || ac.sql.Some?) && !(ac.redis.Some? && ac.sql.Some?)
               && ac.resultPollTimeout != "" && mg != map[]
               && (forall m :: m in mg ==>
                     mg[m].inferencePoolName != "" && (mg[m].requestQueueName == "" <==> mg[m].resultQueueName == ""))
               && TransportFields(mg, ac, if ac.redis.Some? then ac.redis.value.queuesConfig else ac.sql.value.queuesConfig)
  {
    if spec.asyncConfig.Some? {
      TransportOnFields(spec.modelGateways, spec.asyncConfig.value);
    }
  }

  // The declared meaning of an error.
  ghost predicate Violated(spec: GatewaySpec, e: ValidationError) {
    var mg := spec.modelGateways;
    match e
    case DbBackendUnsupported => spec.dbBackend != "" && spec.dbBackend != "postgresql"
    case SyncDispatchUnsupported => spec.dispatchMode == "sync"
    case AsyncConfigMissing => spec.asyncConfig.None?
    case TransportsExclusive =>
      spec.asyncConfig.Some? && spec.asyncConfig.value.redis.Some? && spec.asyncConfig.value.sql.Some?
    case TransportMissing =>
      spec.asyncConfig.Some? && spec.asyncConfig.value.redis.None? && spec.asyncConfig.value.sql.None?
    case ResultPollTimeoutMissing => spec.asyncConfig.Some? && spec.asyncConfig.value.resultPollTimeout == ""
    case ModelGatewaysMissing => mg == map[]
    case PoolNameMissing(m) => m in mg && mg[m].inferencePoolName == ""
    case QueuePairIncomplete(m) => m in mg && (mg[m].requestQueueName == "") != (mg[m].resultQueueName == "")
    case PoolShared(m, n) =>
      spec.asyncConfig.Some? && spec.asyncConfig.value.sql.Some? &&
      m != n && m in mg && n in mg && mg[m].inferencePoolName == mg[n].inferencePoolName
    case ResultQueueShared(m, n) =>
      spec.asyncConfig.Some? && spec.asyncConfig.value.sql.Some? &&
      m != n && m in mg && n in mg && SqlResultQueueFor(mg[m]) == SqlResultQueueFor(mg[n])
    case QueueDuplicated(name) =>
      spec.asyncConfig.Some? &&
      var names := QueueNames(ConfiguredQueues(spec.asyncConfig.value));
      exists i, j :: 0 <= i < j < |names| && names[i] == names[j] == name
    case QueueMissing(name, m) =>
      spec.asyncConfig.Some? && ConfiguredQueues(spec.asyncConfig.value) != [] && m in mg && RequestQueueFor(mg[m]) == name &&
      forall q :: q in ConfiguredQueues(spec.asyncConfig.value) ==> q.name != name
    case QueueUnpublished(name) =>
      // Missing queues are reported first.
      spec.asyncConfig.Some? && name !in PublishedNames(mg) &&
      (exists q :: q in ConfiguredQueues(spec.asyncConfig.value) && q.name == name) &&
      forall p :: p in PublishedNames(mg) ==> exists q :: q in ConfiguredQueues(spec.asyncConfig.value) && q.name == p
    case QueueURLMissing(name) =>
      spec.asyncConfig.Some? && SharedURL(spec.asyncConfig.value) == "" &&
      exists q :: q in EffectiveQueues(mg, spec.asyncConfig.value) && q.name == name && q.igwBaseURL == ""
    case QueueGateUnsupported(name, gate) =>
      spec.asyncConfig.Some? && spec.asyncConfig.value.prometheusURL == "" &&
      IsPrometheusGate(gate) &&
      exists q :: q in EffectiveQueues(mg, spec.asyncConfig.value) && q.name == name && q.gateType == gate
    case PoolGateUnsupported(name, gate) =>
      spec.asyncConfig.Some? && spec.asyncConfig.value.prometheusURL == "" &&
      exists p :: p in spec.asyncConfig.value.workerPools && p.name == name && p.gateType == gate && IsPrometheusGate(gate)
  }

  /** Every violation makes a spec inadmissible. */
  lemma ViolationsAreReal(spec: GatewaySpec, e: ValidationError)
    requires Violated(spec, e)
    ensures !Admissible(spec)
  {
    if spec.asyncConfig.Some? {
      var ac, mg := spec.asyncConfig.value, spec.modelGateways;
      var listed := set q | q in ConfiguredQueues(ac) :: q.name;
      if mg != map[] && (ac.redis.Some? || ac.sql.Some?) {
        EffectiveQueueFacts(mg, ac);
      }
      if e.QueueMissing? {
        assert e.name in PublishedNames(mg) && e.name !in listed;
      } else if e.QueueUnpublished? {
        assert e.name in listed && e.name !in PublishedNames(mg);
      }
    }
  }

  // A list that does not cover the published queues shows one of the three coverage errors.
  lemma UncoveredIsViolated(spec: GatewaySpec) returns (e: ValidationError)
    requires spec.asyncConfig.Some? && ConfiguredQueues(spec.asyncConfig.value) != []
    requires !Covers(spec.modelGateways, ConfiguredQueues(spec.asyncConfig.value))
    ensures Violated(spec, e)
  {
    var mg, queues := spec.modelGateways, ConfiguredQueues(spec.asyncConfig.value);
    var names := QueueNames(queues);
    var listed := set q | q in queues :: q.name;
    if !NoDuplicates(names) {
      var i, j :| 0 <= i < j < |names| && names[i] == names[j];
      return QueueDuplicated(names[i]);
    }
    if p :| p in PublishedNames(mg) && p !in listed {
      var m :| m in mg && RequestQueueFor(mg[m]) == p;
      return QueueMissing(p, m);
    }
    var name :| name in listed && name !in PublishedNames(mg);
    forall p | p in PublishedNames(mg)
      ensures exists q :: q in queues && q.name == p
    {
      assert p in listed;
    }
    return QueueUnpublished(name);
  }

  // An unaccepted gateway map shows an error of one entry or of two.
  lemma UnacceptedGatewaysAreViolated(spec: GatewaySpec) returns (e: ValidationError)
    requires spec.asyncConfig.Some?
    requires var mg := spec.modelGateways;
             || (exists m :: m in mg && !CompleteGateway(mg[m]))
             || (spec.asyncConfig.value.sql.Some? && !(PoolsDistinct(mg) && ResultQueuesDistinct(mg)))
    ensures Violated(spec, e)
  {
    var mg := spec.modelGateways;
    if m :| m in mg && !CompleteGateway(mg[m]) {
      return if mg[m].inferencePoolName == "" then PoolNameMissing(m) else QueuePairIncomplete(m);
    }
    if !PoolsDistinct(mg) {
      var m, n :| m in mg && n in mg && mg[m].inferencePoolName == mg[n].inferencePoolName && m != n;
      return PoolShared(m, n);
    }
    var m, n :| m in mg && n in mg && SqlResultQueueFor(mg[m]) == SqlResultQueueFor(mg[n]) && m != n;
    return ResultQueueShared(m, n);
  }

  // Queues without a URL or gates without Prometheus show an error of one of them.
  lemma UnservedQueuesAreViolated(spec: GatewaySpec) returns (e: ValidationError)
    requires spec.asyncConfig.Some? && spec.modelGateways != map[]
    requires spec.asyncConfig.value.redis.Some? || spec.asyncConfig.value.sql.Some?
    requires !(HasURLs(spec.asyncConfig.value) && HasPrometheusForGates(spec.asyncConfig.value))
    ensures Violated(spec, e)
  {
    var ac, mg := spec.asyncConfig.value, spec.modelGateways;
    EffectiveQueueFacts(mg, ac);
    var queues := EffectiveQueues(mg, ac);
    if !HasURLs(ac) {
      var q :| q in queues && q.igwBaseURL == "";
      return QueueURLMissing(q.name);
    }
    if p :| p in ac.workerPools && IsPrometheusGate(p.gateType) {
      return PoolGateUnsupported(p.name, p.gateType);
    }
    var gate :| gate in QueueGates(ac) && IsPrometheusGate(gate);
    var q :| q in queues && q.gateType == gate;
    return QueueGateUnsupported(q.name, gate);
  }

  /** Every inadmissible spec has a violation to report. */
  lemma InadmissibleIsViolated(spec: GatewaySpec) returns (e: ValidationError)
    requires !Admissible(spec)
    ensures Violated(spec, e)
  {
    if spec.dbBackend != "" && spec.dbBackend != "postgresql" {
      return DbBackendUnsupported;
    }
    if spec.dispatchMode == "sync" {
      return SyncDispatchUnsupported;
    }
    if spec.asyncConfig.None? {
      return AsyncConfigMissing;
    }
    var ac, mg := spec.asyncConfig.value, spec.modelGateways;
    if ac.redis.Some? <==> ac.sql.Some? {
      return if ac.redis.Some? then TransportsExclusive else TransportMissing;
    }
    if ac.resultPollTimeout == "" || mg == map[] {
      return if mg == map[] then ModelGatewaysMissing else ResultPollTimeoutMissing;
    }
    if (exists m :: m in mg && !CompleteGateway(mg[m])) ||
       (ac.sql.Some? && !(PoolsDistinct(mg) && ResultQueuesDistinct(mg))) {
      e := UnacceptedGatewaysAreViolated(spec);
    } else if ConfiguredQueues(ac) != [] && !Covers(mg, ConfiguredQueues(ac)) {
      e := UncoveredIsViolated(spec);
    } else {
      e := UnservedQueuesAreViolated(spec);
    }
  }

  // The checks

  // `order` is the order in which the map of model gateways happens to be visited.
  method ValidateSpec(spec: GatewaySpec, configured: array<Queue>, order: seq<string>)
    returns (err: Option<ValidationError>)
    requires Visits(order, spec.modelGateways)
    requires spec.asyncConfig.Some? ==> configured[..] == ConfiguredQueues(spec.asyncConfig.value)
    ensures err.None? <==> Admissible(spec)
    ensures err.Some? ==> Violated(spec, err.value)
    ensures err == Report(spec, order)
  {
    if spec.dbBackend != "" && spec.dbBackend != "postgresql" {
      return Some(DbBackendUnsupported);
    }
    if spec.dispatchMode == "sync" {
      return Some(SyncDispatchUnsupported);
    }
    if spec.asyncConfig.None? {
      return Some(AsyncConfigMissing);
    }
    var ac := spec.asyncConfig.value;
    if ac.redis.Some? && ac.sql.Some? {
      return Some(TransportsExclusive);
    }
    if ac.redis.None? && ac.sql.None? {
      return Some(TransportMissing);
    }
    if ac.resultPollTimeout == "" {
      return Some(ResultPollTimeoutMissing);
    }
    if spec.modelGateways == map[] {
      return Some(ModelGatewaysMissing);
    }
    err := ValidateModelGateways(spec, order);
    if err.Some? {
      return;
    }
    if ac.redis.Some? {
      err := ValidateAsyncRedisConfig(spec, configured);
    } else {
      err := ValidateAsyncSQLConfig(spec, configured);
    }
  }

  method ValidateModelGateways(spec: GatewaySpec, order: seq<string>) returns (err: Option<ValidationError>)
    requires Visits(order, spec.modelGateways)
    ensures err.None? <==> forall m :: m in spec.modelGateways ==> CompleteGateway(spec.modelGateways[m])
    ensures err.Some? ==> Violated(spec, err.value)
    ensures err == EntryReport(spec.modelGateways, order)
  {
    var mg := spec.modelGateways;
    for i := 0 to |order|
      invariant FirstIncomplete(mg, order[i..]) == FirstIncomplete(mg, order)
      invariant forall m :: m in order[..i] ==> m in mg && CompleteGateway(mg[m])
    {
      var model := order[i];
      assert model in order && order[i..][1..] == order[i + 1..];
      if mg[model].inferencePoolName == "" {
        return Some(PoolNameMissing(model));
      }
      if (mg[model].requestQueueName == "") != (mg[model].resultQueueName == "") {
        return Some(QueuePairIncomplete(model));
      }
    }
    assert order[..|order|] == order;
    return None;
  }

  method ValidateAsyncRedisConfig(spec: GatewaySpec, configured: array<Queue>) returns (err: Option<ValidationError>)
    requires spec.asyncConfig.Some? && spec.modelGateways != map[]
    requires spec.asyncConfig.value.redis.Some?
    requires configured[..] == ConfiguredQueues(spec.asyncConfig.value)
    ensures err.None? <==> TransportAccepted(spec)
    ensures err.Some? ==> Violated(spec, err.value)
    ensures err == TransportReport(spec.modelGateways, spec.asyncConfig.value)
  {
    var ac := spec.asyncConfig.value;
    if configured.Length > 0 {
      err := ValidateAsyncQueueCoverage(spec, configured);
      if err.Some? {
        return;
      }
    }
    var queues := RedisQueues(spec.modelGateways, ac.redis.value, configured);
    err := ValidateAsyncQueueGatewayURL(spec, queues);
    if err.Some? {
      return;
    }
    err := ValidateAsyncPrometheusGates(spec, queues);
  }

  method ValidateAsyncSQLConfig(spec: GatewaySpec, configured: array<Queue>) returns (err: Option<ValidationError>)
    requires spec.asyncConfig.Some? && spec.modelGateways != map[]
    requires spec.asyncConfig.value.redis.None? && spec.asyncConfig.value.sql.Some?
    requires configured[..] == ConfiguredQueues(spec.asyncConfig.value)
    ensures err.None? <==>
            PoolsDistinct(spec.modelGateways) && ResultQueuesDistinct(spec.modelGateways) && TransportAccepted(spec)
    ensures err.Some? ==> Violated(spec, err.value)
    ensures err == LateReport(spec.modelGateways, spec.asyncConfig.value)
  {
    var ac := spec.asyncConfig.value;
    err := ValidatePools(spec);
    if err.Some? {
      return;
    }
    err := ValidateResultQueues(spec);
    if err.Some? {
      return;
    }
    if configured.Length > 0 {
      err := ValidateAsyncQueueCoverage(spec, configured);
      if err.Some? {
        return;
      }
    }
    var queues := SqlQueues(spec.modelGateways, ac.sql.value, configured);
    err := ValidateAsyncQueueGatewayURL(spec, queues);
    if err.Some? {
      return;
    }
    err := ValidateAsyncPrometheusGates(spec, queues);
  }

  predicate TransportAccepted(spec: GatewaySpec)
    requires spec.asyncConfig.Some?
  {
    var ac := spec.asyncConfig.value;
    && (ConfiguredQueues(ac) != [] ==> Covers(spec.modelGateways, ConfiguredQueues(ac)))
    && HasURLs(ac)
    && HasPrometheusForGates(ac)
  }

  // The checks on effective queues mean the declared properties of the config.
  lemma EffectiveQueueFacts(mg: map<string, ModelGateway>, ac: AsyncConfig)
    requires mg != map[] && (ac.redis.Some? || ac.sql.Some?)
    ensures var queues := EffectiveQueues(mg, ac);
            && (HasURLs(ac) <==> SharedURL(ac) != "" || forall q :: q in queues ==> q.igwBaseURL != "")
            && (forall gate :: IsPrometheusGate(gate) ==>
                  (gate in QueueGates(ac) <==> exists q :: q in queues && q.gateType == gate))
  {
    var queues := EffectiveQueues(mg, ac);
    if ConfiguredQueues(ac) == [] {
      var m :| m in mg;
      assert RequestQueueFor(mg[m]) in PublishedNames(mg);
      DerivedNamesArePublished(mg);
      assert |queues| == |DerivedNames(mg)| > 0;
      assert queues[0] in queues && queues[0].igwBaseURL == "";
    }
  }

  // The duplicate scan that both isolation checks run over the sorted models: the
  // seen map holds the model of each label.
  method ScanDistinct(models: seq<string>, labels: seq<string>) returns (clash: Option<(string, string)>)
    requires |labels| == |models|
    ensures clash.None? <==> NoDuplicates(labels)
    ensures clash.Some? ==>
              exists i, j :: 0 <= i < j < |labels| && labels[i] == labels[j] && clash.value == (models[j], models[i])
    ensures clash == Clash(models, labels)
  {
    var seen: map<string, string> := map[];
    for j := 0 to |models|
      invariant FirstRepeat(labels, j) == FirstRepeat(labels, 0)
      invariant forall x :: x in seen <==> x in labels[..j]
      invariant forall i :: 0 <= i < j ==> labels[i] in seen && seen[labels[i]] == models[i]
      invariant NoDuplicates(labels[..j])
    {
      if labels[j] in seen {
        ghost var i := IndexOf(labels, labels[j]);
        assert i < j;
        return Some((models[j], seen[labels[j]]));
      }
      seen := seen[labels[j] := models[j]];
    }
    assert labels[..|models|] == labels;
    return None;
  }

  // Distinct labels over the sorted models are distinct labels over the map.
  lemma DistinctOverMap(models: seq<string>, labels: seq<string>, labelOf: map<string, string>)
    requires Ascending(models) && Lists(models, labelOf.Keys) && |labels| == |models|
    requires forall i :: 0 <= i < |models| ==> models[i] in labelOf && labels[i] == labelOf[models[i]]
    ensures NoDuplicates(labels) <==> forall m, n :: m in labelOf && n in labelOf && labelOf[m] == labelOf[n] ==> m == n
  {
    AscendingNoDuplicates(models);
    if NoDuplicates(labels) {
      forall m, n | m in labelOf && n in labelOf && labelOf[m] == labelOf[n]
        ensures m == n
      {
        assert m in models && n in models;
        var i :| 0 <= i < |models| && models[i] == m;
        var j :| 0 <= j < |models| && models[j] == n;
        assert labels[i] == labels[j];
      }
    }
  }

  method ValidatePools(spec: GatewaySpec) returns (err: Option<ValidationError>)
    requires spec.asyncConfig.Some? && spec.asyncConfig.value.sql.Some?
    ensures err.None? <==> PoolsDistinct(spec.modelGateways)
    ensures err.Some? ==> Violated(spec, err.value)
    ensures err == PoolReport(spec.modelGateways)
  {
    var mg := spec.modelGateways;
    var models := SortedKeys(mg.Keys);
    assert forall i :: 0 <= i < |models| ==> models[i] in models;
    var labels := seq(|models|, i requires 0 <= i < |models| => PoolOf(mg[models[i]]));
    LabelsAt(mg, PoolOf, labels);
    DistinctOverMap(models, labels, map m | m in mg :: mg[m].inferencePoolName);
    AscendingNoDuplicates(models);
    var clash := ScanDistinct(models, labels);
    return if clash.None? then None else Some(PoolShared(clash.value.0, clash.value.1));
  }

  method ValidateResultQueues(spec: GatewaySpec) returns (err: Option<ValidationError>)
    requires spec.asyncConfig.Some? && spec.asyncConfig.value.sql.Some?
    ensures err.None? <==> ResultQueuesDistinct(spec.modelGateways)
    ensures err.Some? ==> Violated(spec, err.value)
    ensures err == ResultQueueReport(spec.modelGateways)
  {
    var mg := spec.modelGateways;
    var models := SortedKeys(mg.Keys);
    assert forall i :: 0 <= i < |models| ==> models[i] in models;
    var labels := seq(|models|, i requires 0 <= i < |models| => SqlResultQueueFor(mg[models[i]]));
    LabelsAt(mg, SqlResultQueueFor, labels);
    DistinctOverMap(models, labels, map m | m in mg :: SqlResultQueueFor(mg[m]));
    AscendingNoDuplicates(models);
    var clash := ScanDistinct(models, labels);
    return if clash.None? then None else Some(ResultQueueShared(clash.value.0, clash.value.1));
  }

  lemma AscendingNoDuplicates(s: seq<string>)
    requires Ascending(s)
    ensures NoDuplicates(s)
    ensures forall i :: 0 <= i < |s| ==> s[i] !in s[..i]
  {
    forall i, j | 0 <= i < j < |s|
      ensures s[i] != s[j]
    {
      LessTotal(s[i], s[j]);
    }
  }

  // The request queues that the models publish to, with a model for each.
  method PublishedQueues(mg: map<string, ModelGateway>, models: seq<string>) returns (published: map<string, string>)
    requires Lists(models, mg.Keys)
    ensures published.Keys == PublishedNames(mg)
  {
    published := map[];
    for i := 0 to |models|
      invariant published.Keys == set m | m in models[..i] && m in mg :: RequestQueueFor(mg[m])
    {
      assert models[i] in models;
      assert models[..i + 1] == models[..i] + [models[i]];
      published := published[RequestQueueFor(mg[models[i]]) := models[i]];
    }
    assert models[..|models|] == models;
  }

  // The set of listed names, or the first name that is listed again.
  method ListedNames(queues: array<Queue>) returns (configured: set<string>, duplicate: Option<string>)
    ensures duplicate.None? <==> NoDuplicates(QueueNames(queues[..]))
    ensures duplicate.None? ==> configured == set q | q in queues[..] :: q.name
    ensures var names := QueueNames(queues[..]);
            var r := FirstRepeat(names, 0);
            duplicate == if r.Some? then Some(names[r.value]) else None
  {
    ghost var names := QueueNames(queues[..]);
    configured := {};
    for i := 0 to queues.Length
      invariant FirstRepeat(names, i) == FirstRepeat(names, 0)
      invariant forall x :: x in configured <==> x in names[..i]
      invariant NoDuplicates(names[..i])
    {
      assert names[..i + 1] == names[..i] + [names[i]] && names[i] == queues[i].name;
      if queues[i].name in configured {
        ghost var j :| 0 <= j < i && names[j] == names[i];
        return configured, Some(queues[i].name);
      }
      configured := configured + {queues[i].name};
    }
    assert names[..queues.Length] == names;
    ConfiguredNames(queues[..]);
    return configured, None;
  }

  // The first model whose request queue is not listed.
  method FindMissing(mg: map<string, ModelGateway>, models: seq<string>, configured: set<string>)
    returns (missing: Option<string>)
    requires Lists(models, mg.Keys)
    ensures missing.None? <==> PublishedNames(mg) <= configured
    ensures missing.Some? ==> missing.value in mg && RequestQueueFor(mg[missing.value]) !in configured
    ensures missing == FirstUnlisted(mg, models, configured)
  {
    for i := 0 to |models|
      invariant FirstUnlisted(mg, models[i..], configured) == FirstUnlisted(mg, models, configured)
      invariant forall j :: 0 <= j < i ==> models[j] in mg && RequestQueueFor(mg[models[j]]) in configured
    {
      assert models[i] in models && models[i..][1..] == models[i + 1..];
      if RequestQueueFor(mg[models[i]]) !in configured {
        assert RequestQueueFor(mg[models[i]]) in PublishedNames(mg);
        return Some(models[i]);
      }
    }
    forall m | m in mg
      ensures RequestQueueFor(mg[m]) in configured
    {
      assert m in models;
    }
    return None;
  }

  // The first listed queue that nothing publishes to.
  method FindUnpublished(queues: array<Queue>, published: set<string>) returns (extra: Option<string>)
    ensures extra.None? <==> forall q :: q in queues[..] ==> q.name in published
    ensures extra.Some? ==> extra.value !in published && exists q :: q in queues[..] && q.name == extra.value
    ensures var q := FirstUnpublished(queues[..], published);
            extra == if q.Some? then Some(q.value.name) else None
  {
    ghost var all := queues[..];
    for i := 0 to queues.Length
      invariant FirstUnpublished(all[i..], published) == FirstUnpublished(all, published)
      invariant forall j :: 0 <= j < i ==> queues[j].name in published
    {
      assert all[i..][1..] == all[i + 1..];
      if queues[i].name !in published {
        assert queues[i] in queues[..];
        return Some(queues[i].name);
      }
    }
    return None;
  }

  method ValidateAsyncQueueCoverage(spec: GatewaySpec, queues: array<Queue>) returns (err: Option<ValidationError>)
    requires spec.asyncConfig.Some? && queues.Length > 0 && queues[..] == ConfiguredQueues(spec.asyncConfig.value)
    ensures err.None? <==> Covers(spec.modelGateways, queues[..])
    ensures err.Some? ==> Violated(spec, err.value)
    ensures err == CoverageReport(spec.modelGateways, queues[..])
  {
    var mg := spec.modelGateways;
    var models := SortedKeys(mg.Keys);
    var published := PublishedQueues(mg, models);
    var configured, duplicate := ListedNames(queues);
    if duplicate.Some? {
      return Some(QueueDuplicated(duplicate.value));
    }
    var missing := FindMissing(mg, models, configured);
    if missing.Some? {
      return Some(QueueMissing(RequestQueueFor(mg[missing.value]), missing.value));
    }
    var extra := FindUnpublished(queues, published.Keys);
    if extra.Some? {
      return Some(QueueUnpublished(extra.value));
    }
    return None;
  }

  lemma ConfiguredNames(queues: seq<Queue>)
    ensures forall x :: x in QueueNames(queues) <==> x in (set q | q in queues :: q.name)
    ensures forall x :: x in QueueNames(queues) <==> exists q :: q in queues && q.name == x
  {
    var names := QueueNames(queues);
    forall x | x in names
      ensures exists q :: q in queues && q.name == x
    {
      var i :| 0 <= i < |names| && names[i] == x;
      assert queues[i] in queues;
    }
    forall q | q in queues
      ensures q.name in names
    {
      var i :| 0 <= i < |queues| && queues[i] == q;
      assert names[i] == q.name;
    }
  }

  method ValidateAsyncQueueGatewayURL(spec: GatewaySpec, queues: array<Queue>) returns (err: Option<ValidationError>)
    requires spec.asyncConfig.Some? && spec.modelGateways != map[]
    requires spec.asyncConfig.value.redis.Some? || spec.asyncConfig.value.sql.Some?
    requires queues[..] == EffectiveQueues(spec.modelGateways, spec.asyncConfig.value)
    ensures err.None? <==> HasURLs(spec.asyncConfig.value)
    ensures err.Some? ==> Violated(spec, err.value)
    ensures err == URLReport(queues[..], SharedURL(spec.asyncConfig.value))
  {
    EffectiveQueueFacts(spec.modelGateways, spec.asyncConfig.value);
    var ig := spec.asyncConfig.value.inferenceGateway;
    if ig.Some? && ig.value != "" {
      return None;
    }
    ghost var all := queues[..];
    FirstInFacts(all, LacksURL);
    for i := 0 to queues.Length
      invariant FirstIn(all[i..], LacksURL) == FirstIn(all, LacksURL)
    {
      FirstInStep(all, LacksURL, i);
      if queues[i].igwBaseURL == "" {
        return Some(QueueURLMissing(queues[i].name));
      }
    }
    return None;
  }

  method ValidateAsyncPrometheusGates(spec: GatewaySpec, queues: array<Queue>) returns (err: Option<ValidationError>)
    requires spec.asyncConfig.Some? && spec.modelGateways != map[]
    requires spec.asyncConfig.value.redis.Some? || spec.asyncConfig.value.sql.Some?
    requires queues[..] == EffectiveQueues(spec.modelGateways, spec.asyncConfig.value)
    ensures err.None? <==> HasPrometheusForGates(spec.asyncConfig.value)
    ensures err.Some? ==> Violated(spec, err.value)
    ensures err == GateReport(queues[..], spec.asyncConfig.value.workerPools, spec.asyncConfig.value.prometheusURL)
  {
    var ac := spec.asyncConfig.value;
    EffectiveQueueFacts(spec.modelGateways, ac);
    if ac.prometheusURL != "" {
      return None;
    }
    ghost var all := queues[..];
    FirstInFacts(all, QueueGated);
    FirstInFacts(ac.workerPools, PoolGated);
    for i := 0 to queues.Length
      invariant FirstIn(all[i..], QueueGated) == FirstIn(all, QueueGated)
    {
      FirstInStep(all, QueueGated, i);
      if IsPrometheusGate(queues[i].gateType) {
        return Some(QueueGateUnsupported(queues[i].name, queues[i].gateType));
      }
    }
    for i := 0 to |ac.workerPools|
      invariant FirstIn(ac.workerPools[i..], PoolGated) == FirstIn(ac.workerPools, PoolGated)
    {
      FirstInStep(ac.workerPools, PoolGated, i);
      var pool := ac.workerPools[i];
      if IsPrometheusGate(pool.gateType) {
        return Some(PoolGateUnsupported(pool.name, pool.gateType));
      }
    }
    return None;
  }
}
