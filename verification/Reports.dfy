/**
 What a failed validation reports: the first violation in the order of the checks.
 Every check runs in the order of the lists or of the sorted model names, except
 the one over model gateways, which follows the order the map is visited in.
 */
module Reports {
  import opened Wrappers
  import opened Ordering
  import opened Spec
  import opened AsyncQueues

  datatype ValidationError =
    | DbBackendUnsupported
    | SyncDispatchUnsupported
    | AsyncConfigMissing
    | TransportsExclusive
    | TransportMissing
    | ResultPollTimeoutMissing
    | ModelGatewaysMissing
    | PoolNameMissing(model: string)
    | QueuePairIncomplete(model: string)
    | PoolShared(model: string, other: string)
    | ResultQueueShared(model: string, other: string)
    | QueueDuplicated(name: string)
    | QueueMissing(name: string, model: string)
    | QueueUnpublished(name: string)
    | QueueURLMissing(name: string)
    | QueueGateUnsupported(name: string, gate: string)
    | PoolGateUnsupported(name: string, gate: string)

  // First hits

  function FirstIn<T>(s: seq<T>, p: T -> bool): Option<T> {
    if s == [] then None else if p(s[0]) then Some(s[0]) else FirstIn(s[1..], p)
  }

  lemma {:induction false} FirstInFacts<T>(s: seq<T>, p: T -> bool)
    ensures FirstIn(s, p).None? <==> forall x :: x in s ==> !p(x)
    ensures FirstIn(s, p).Some? ==> FirstIn(s, p).value in s && p(FirstIn(s, p).value)
  {
    if s != [] {
      assert s == [s[0]] + s[1..];
      if !p(s[0]) {
        FirstInFacts(s[1..], p);
      }
    }
  }

  lemma FirstInStep<T>(s: seq<T>, p: T -> bool, i: nat)
    requires i < |s|
    ensures FirstIn(s[i..], p) == if p(s[i]) then Some(s[i]) else FirstIn(s[i + 1..], p)
  {
    assert s[i..][1..] == s[i + 1..];
  }

  // The first position from j on whose label was there before.
  function FirstRepeat(labels: seq<string>, j: nat): (r: Option<nat>)
    requires j <= |labels|
    ensures r.Some? ==> j <= r.value < |labels| && labels[r.value] in labels[..r.value]
    decreases |labels| - j
  {
    if j == |labels| then None else if labels[j] in labels[..j] then Some(j) else FirstRepeat(labels, j + 1)
  }

  function IndexOf(s: seq<string>, x: string): (i: nat)
    requires x in s
    ensures i < |s| && s[i] == x && x !in s[..i]
  {
    if s[0] == x then 0
    else
      assert s == [s[0]] + s[1..];
      assert forall k :: 0 <= k < |s| - 1 ==> s[1..][..k] == s[1..k + 1];
      var k := IndexOf(s[1..], x);
      assert s[..k + 1] == [s[0]] + s[1..][..k];
      k + 1
  }

  // The checks

  predicate CompleteGateway(gateway: ModelGateway) {
    && gateway.inferencePoolName != ""
    && (gateway.requestQueueName == "" <==> gateway.resultQueueName == "")
  }

  function EarlyReport(spec: GatewaySpec): Option<ValidationError> {
    if spec.dbBackend != "" && spec.dbBackend != "postgresql" then Some(DbBackendUnsupported)
    else if spec.dispatchMode == "sync" then Some(SyncDispatchUnsupported)
    else if spec.asyncConfig.None? then Some(AsyncConfigMissing)
    else if spec.asyncConfig.value.redis.Some? && spec.asyncConfig.value.sql.Some? then Some(TransportsExclusive)
    else if spec.asyncConfig.value.redis.None? && spec.asyncConfig.value.sql.None? then Some(TransportMissing)
    else if spec.asyncConfig.value.resultPollTimeout == "" then Some(ResultPollTimeoutMissing)
    else if spec.modelGateways == map[] then Some(ModelGatewaysMissing)
    else None
  }

  predicate Incomplete(mg: map<string, ModelGateway>, m: string) {
    m in mg && !CompleteGateway(mg[m])
  }

  function EntryError(mg: map<string, ModelGateway>, m: string): ValidationError
    requires m in mg
  {
    if mg[m].inferencePoolName == "" then PoolNameMissing(m) else QueuePairIncomplete(m)
  }

  // The first incomplete entry in the order the map is visited in.
  function FirstIncomplete(mg: map<string, ModelGateway>, order: seq<string>): Option<string> {
    FirstIn(order, m => Incomplete(mg, m))
  }

  function EntryReport(mg: map<string, ModelGateway>, order: seq<string>): Option<ValidationError> {
    var m := FirstIncomplete(mg, order);
    if m.Some? && m.value in mg then Some(EntryError(mg, m.value)) else None
  }

  // The first two models, in the given order, with the same label.
  function Clash(models: seq<string>, labels: seq<string>): Option<(string, string)>
    requires |labels| == |models|
  {
    var j := FirstRepeat(labels, 0);
    if j.Some? then Some((models[j.value], models[IndexOf(labels, labels[j.value])])) else None
  }

  ghost function Labels(mg: map<string, ModelGateway>, tag: ModelGateway -> string): (labels: seq<string>)
    ensures |labels| == |SortedOf(mg.Keys)|
  {
    var models := SortedOf(mg.Keys);
    seq(|models|, i requires 0 <= i < |models| => if models[i] in mg then tag(mg[models[i]]) else "")
  }

  lemma LabelsAt(mg: map<string, ModelGateway>, tag: ModelGateway -> string, labels: seq<string>)
    requires var models := SortedOf(mg.Keys);
             |labels| == |models| &&
             forall i :: 0 <= i < |models| ==> models[i] in mg && labels[i] == tag(mg[models[i]])
    ensures labels == Labels(mg, tag)
  {
  }

  function PoolOf(gateway: ModelGateway): string {
    gateway.inferencePoolName
  }

  ghost function PoolReport(mg: map<string, ModelGateway>): Option<ValidationError> {
    var c := Clash(SortedOf(mg.Keys), Labels(mg, PoolOf));
    if c.Some? then Some(PoolShared(c.value.0, c.value.1)) else None
  }

  ghost function ResultQueueReport(mg: map<string, ModelGateway>): Option<ValidationError> {
    var c := Clash(SortedOf(mg.Keys), Labels(mg, SqlResultQueueFor));
    if c.Some? then Some(ResultQueueShared(c.value.0, c.value.1)) else None
  }

  predicate Unlisted(mg: map<string, ModelGateway>, listed: set<string>, m: string) {
    m in mg && RequestQueueFor(mg[m]) !in listed
  }

  function FirstUnlisted(mg: map<string, ModelGateway>, models: seq<string>, listed: set<string>): Option<string> {
    FirstIn(models, m => Unlisted(mg, listed, m))
  }

  function FirstUnpublished(queues: seq<Queue>, published: set<string>): Option<Queue> {
    FirstIn(queues, (q: Queue) => q.name !in published)
  }

  ghost function CoverageReport(mg: map<string, ModelGateway>, queues: seq<Queue>): Option<ValidationError> {
    var repeated := FirstRepeat(QueueNames(queues), 0);
    var missing := FirstUnlisted(mg, SortedOf(mg.Keys), set q | q in queues :: q.name);
    var extra := FirstUnpublished(queues, PublishedNames(mg));
    if repeated.Some? then Some(QueueDuplicated(QueueNames(queues)[repeated.value]))
    else if missing.Some? && missing.value in mg then Some(QueueMissing(RequestQueueFor(mg[missing.value]), missing.value))
    else if extra.Some? then Some(QueueUnpublished(extra.value.name))
    else None
  }

  predicate LacksURL(q: Queue) {
    q.igwBaseURL == ""
  }

  predicate QueueGated(q: Queue) {
    IsPrometheusGate(q.gateType)
  }

  predicate PoolGated(p: WorkerPool) {
    IsPrometheusGate(p.gateType)
  }

  function URLReport(queues: seq<Queue>, sharedURL: string): Option<ValidationError> {
    var q := FirstIn(queues, LacksURL);
    if sharedURL == "" && q.Some? then Some(QueueURLMissing(q.value.name)) else None
  }

  function GateReport(queues: seq<Queue>, pools: seq<WorkerPool>, prometheusURL: string): Option<ValidationError> {
    var q, p := FirstIn(queues, QueueGated), FirstIn(pools, PoolGated);
    if prometheusURL != "" then None
    else if q.Some? then Some(QueueGateUnsupported(q.value.name, q.value.gateType))
    else if p.Some? then Some(PoolGateUnsupported(p.value.name, p.value.gateType))
    else None
  }

  function OrElse<T>(a: Option<T>, b: Option<T>): Option<T> {
    if a.Some? then a else b
  }

  ghost function IsolationReport(mg: map<string, ModelGateway>): Option<ValidationError> {
    OrElse(PoolReport(mg), ResultQueueReport(mg))
  }

  // The checks that both transports share.
  ghost function TransportReport(mg: map<string, ModelGateway>, ac: AsyncConfig): Option<ValidationError> {
    var queues := EffectiveQueues(mg, ac);
    OrElse(if ConfiguredQueues(ac) != [] then CoverageReport(mg, ConfiguredQueues(ac)) else None,
           OrElse(URLReport(queues, SharedURL(ac)), GateReport(queues, ac.workerPools, ac.prometheusURL)))
  }

  ghost function LateReport(mg: map<string, ModelGateway>, ac: AsyncConfig): Option<ValidationError> {
    OrElse(if ac.redis.None? then IsolationReport(mg) else None, TransportReport(mg, ac))
  }

  // The error of a validation that visits the model gateways in the given order.
  ghost function Report(spec: GatewaySpec, order: seq<string>): Option<ValidationError> {
    if EarlyReport(spec).Some? then EarlyReport(spec)
    else OrElse(EntryReport(spec.modelGateways, order), LateReport(spec.modelGateways, spec.asyncConfig.value))
  }

  // An order in which a map can be visited.
  ghost predicate Visits(order: seq<string>, mg: map<string, ModelGateway>) {
    Lists(order, mg.Keys) && NoDuplicates(order)
  }

  // Text

  function Quoted(s: string): string {
    "\"" + s + "\""
  }

  const ENTRY := "processor.modelGateways["
  const POOL_MISSING := "].inferencePoolName is required"
  const PAIR_INCOMPLETE := "].requestQueueName and resultQueueName must both be set or both be empty"

  function Entry(model: string): string {
    ENTRY + model + "]"
  }

  function Lower(ac: Option<AsyncConfig>): string {
    if ac.Some? && ac.value.redis.Some? then "redis" else "sql"
  }

  function Upper(ac: Option<AsyncConfig>): string {
    if ac.Some? && ac.value.redis.Some? then "Redis" else "SQL"
  }

  function PoolText(mg: map<string, ModelGateway>, m: string): string {
    if m in mg then Quoted(mg[m].inferencePoolName) else ""
  }

  function ResultQueueText(mg: map<string, ModelGateway>, m: string): string {
    if m in mg then Quoted(SqlResultQueueFor(mg[m])) else ""
  }

  function ErrorText(spec: GatewaySpec, e: ValidationError): string {
    match e
    case PoolNameMissing(m) => ENTRY + m + POOL_MISSING
    case QueuePairIncomplete(m) => ENTRY + m + PAIR_INCOMPLETE
    case _ => CheckText(spec, e)
  }

  function CheckText(spec: GatewaySpec, e: ValidationError): string
    requires !e.PoolNameMissing? && !e.QueuePairIncomplete?
  {
    var mg, ac := spec.modelGateways, spec.asyncConfig;
    var queuesConfig := "processor.asyncConfig." + Lower(ac) + ".queuesConfig ";
    match e
    case DbBackendUnsupported =>
      "spec.dbBackend " + Quoted(spec.dbBackend) + " is not supported; only \"postgresql\" is supported by batch-gateway"
    case SyncDispatchUnsupported =>
      "processor.dispatchMode \"sync\" is not supported; " +
      "synchronous dispatch was removed, drain this resource and re-deploy it with async dispatch"
    case AsyncConfigMissing => "processor.asyncConfig is required"
    case TransportsExclusive => "processor.asyncConfig.redis and processor.asyncConfig.sql are mutually exclusive"
    case TransportMissing => "processor.asyncConfig.redis or processor.asyncConfig.sql is required"
    case ResultPollTimeoutMissing => "processor.asyncConfig.resultPollTimeout is required"
    case ModelGatewaysMissing => "processor.modelGateways is required"
    case PoolShared(m, n) =>
      Entry(n) + " and " + Entry(m) + " use the same SQL inference pool " + PoolText(mg, m) +
      "; each model must use a distinct inferencePoolName"
    case ResultQueueShared(m, n) =>
      Entry(n) + " and " + Entry(m) + " resolve to the same SQL result queue " + ResultQueueText(mg, m) +
      "; set distinct requestQueueName/resultQueueName pairs"
    case QueueDuplicated(name) => queuesConfig + "contains duplicate queue " + Quoted(name)
    case QueueMissing(name, m) =>
      queuesConfig + "is missing request queue " + Quoted(name) + " required by " + Entry(m)
    case QueueUnpublished(name) =>
      queuesConfig + "contains queue " + Quoted(name) + " that no processor.modelGateways entry publishes to"
    case QueueURLMissing(name) =>
      "processor.asyncConfig.inferenceGateway.url is required when " + Upper(ac) + " queue " + Quoted(name) +
      " does not set igwBaseURL"
    case QueueGateUnsupported(name, gate) =>
      "processor.asyncConfig.prometheusURL is required for " + Upper(ac) + " queue " + Quoted(name) +
      " with gate " + Quoted(gate)
    case PoolGateUnsupported(name, gate) =>
      "processor.asyncConfig.prometheusURL is required for worker pool " + Quoted(name) + " with gate " + Quoted(gate)
  }

  // The message that a failed validation records.
  ghost function ValidationMessage(spec: GatewaySpec, order: seq<string>): string {
    var e := Report(spec, order);
    "Spec validation failed: " + if e.Some? then ErrorText(spec, e.value) else ""
  }

  // When the report cannot depend on the order

  ghost predicate OneIncomplete(mg: map<string, ModelGateway>) {
    forall m, n :: Incomplete(mg, m) && Incomplete(mg, n) ==> m == n
  }

  // An earlier check fails, or at most one model gateway is incomplete.
  ghost predicate Steady(spec: GatewaySpec) {
    EarlyReport(spec).Some? || OneIncomplete(spec.modelGateways)
  }

  // Two texts that differ in the middle, and whose ends are equal or end differently, differ.
  lemma MiddlesTell(p: string, m: string, n: string, x: string, y: string)
    requires m != n && x != "" && y != ""
    requires x == y || x[|x| - 1] != y[|y| - 1]
    ensures p + m + x != p + n + y
  {
    var a, b := p + m + x, p + n + y;
    assert a[|a| - 1] == x[|x| - 1] && b[|b| - 1] == y[|y| - 1];
    assert a[|p|..|p| + |m|] == m && b[|p|..|p| + |n|] == n;
  }

  lemma EntryTextsDiffer(spec: GatewaySpec, m: string, n: string)
    requires m in spec.modelGateways && n in spec.modelGateways && m != n
    ensures ErrorText(spec, EntryError(spec.modelGateways, m)) != ErrorText(spec, EntryError(spec.modelGateways, n))
  {
    assert POOL_MISSING[|POOL_MISSING| - 1] == 'd' && PAIR_INCOMPLETE[|PAIR_INCOMPLETE| - 1] == 'y';
    MiddlesTell(ENTRY, m, n, POOL_MISSING, PAIR_INCOMPLETE);
    MiddlesTell(ENTRY, m, n, PAIR_INCOMPLETE, POOL_MISSING);
    MiddlesTell(ENTRY, m, n, POOL_MISSING, POOL_MISSING);
    MiddlesTell(ENTRY, m, n, PAIR_INCOMPLETE, PAIR_INCOMPLETE);
  }

  lemma SteadyReport(spec: GatewaySpec, a: seq<string>, b: seq<string>)
    requires Steady(spec) && Visits(a, spec.modelGateways) && Visits(b, spec.modelGateways)
    ensures Report(spec, a) == Report(spec, b)
  {
    var mg := spec.modelGateways;
    FirstInFacts(a, m => Incomplete(mg, m));
    FirstInFacts(b, m => Incomplete(mg, m));
  }

  // A visit that comes to a given incomplete entry first.
  lemma VisitedFirst(spec: GatewaySpec, m: string) returns (order: seq<string>)
    requires EarlyReport(spec).None? && Incomplete(spec.modelGateways, m)
    ensures Visits(order, spec.modelGateways)
    ensures Report(spec, order) == Some(EntryError(spec.modelGateways, m))
  {
    var rest := SortedOf(spec.modelGateways.Keys - {m});
    forall i, j | 0 <= i < j < |rest|
      ensures rest[i] != rest[j]
    {
      LessTotal(rest[i], rest[j]);
    }
    order := [m] + rest;
    assert forall i :: 0 <= i < |rest| ==> rest[i] in rest;
  }

  /**
   The recorded message is the same for every order the model gateways are visited
   in exactly when an earlier check fails or at most one of them is incomplete.
   */
  lemma MessageIsSteadyIff(spec: GatewaySpec)
    ensures (forall a, b :: Visits(a, spec.modelGateways) && Visits(b, spec.modelGateways) ==>
               ValidationMessage(spec, a) == ValidationMessage(spec, b)) <==> Steady(spec)
  {
    if Steady(spec) {
      forall a, b | Visits(a, spec.modelGateways) && Visits(b, spec.modelGateways)
        ensures ValidationMessage(spec, a) == ValidationMessage(spec, b)
      {
        SteadyReport(spec, a, b);
      }
    } else {
      var a, b := TwoMessages(spec);
    }
  }

  lemma TwoMessages(spec: GatewaySpec) returns (a: seq<string>, b: seq<string>)
    requires !Steady(spec)
    ensures Visits(a, spec.modelGateways) && Visits(b, spec.modelGateways)
    ensures ValidationMessage(spec, a) != ValidationMessage(spec, b)
  {
    var mg := spec.modelGateways;
    var m, n :| Incomplete(mg, m) && Incomplete(mg, n) && m != n;
    a := VisitedFirst(spec, m);
    b := VisitedFirst(spec, n);
    EntryTextsDiffer(spec, m, n);
    var p, x, y := "Spec validation failed: ", ErrorText(spec, EntryError(mg, m)), ErrorText(spec, EntryError(mg, n));
    assert (p + x)[|p|..] == x && (p + y)[|p|..] == y;
  }
}
