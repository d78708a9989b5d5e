/** The fields of an LLMBatchGateway spec that the operator's logic reads, and the queue naming rules. */
module Spec {
  import opened Wrappers
  import opened Names

  datatype ModelGateway = ModelGateway(
    inferencePoolName: string, inferenceObjective: string, requestQueueName: string, resultQueueName: string)

  datatype Queue = Queue(
    name: string, workerPoolID: string, igwBaseURL: string, requestPathURL: string,
    gateType: string, gateParams: map<string, string>)

  datatype WorkerPool = WorkerPool(name: string, workers: int, gateType: string, gateParams: map<string, string>)

  datatype RedisSpec = RedisSpec(
    requestPathURL: string, gateType: string, gateParams: map<string, string>, queuesConfig: seq<Queue>)

  datatype SqlSpec = SqlSpec(queuesConfig: seq<Queue>)

  datatype AsyncConfig = AsyncConfig(
    resultPollTimeout: string, inferenceGateway: Option<string>, redis: Option<RedisSpec>, sql: Option<SqlSpec>,
    workerPools: seq<WorkerPool>, prometheusURL: string)

  datatype GatewaySpec = GatewaySpec(
    secretRef: NsName, dbBackend: string, dispatchMode: string,
    modelGateways: map<string, ModelGateway>, asyncConfig: Option<AsyncConfig>)

  const QUEUE_PREFIX := "llm-d-async:"
  const TRANSPORT_REDIS := "redis-sortedset"
  const TRANSPORT_SQL := "sql"

  function RequestQueueOfPool(pool: string): string {
    QUEUE_PREFIX + "requests:" + pool
  }

  function ResultQueueOfPool(pool: string): string {
    QUEUE_PREFIX + "results:" + pool
  }

  // The request queue a model publishes to.
  function RequestQueueFor(gateway: ModelGateway): string {
    if gateway.requestQueueName != "" then gateway.requestQueueName else RequestQueueOfPool(gateway.inferencePoolName)
  }

  function SqlResultQueueFor(gateway: ModelGateway): string {
    if gateway.resultQueueName != "" then gateway.resultQueueName else ResultQueueOfPool(gateway.inferencePoolName)
  }

  predicate IsPrometheusGate(gate: string) {
    gate == "prometheus-budget" || gate == "prometheus-query" || gate == "prometheus-saturation"
  }

  function SharedURL(ac: AsyncConfig): string {
    if ac.inferenceGateway.Some? then ac.inferenceGateway.value else ""
  }

  // The naming rules on the fields.
  lemma NamesOnFields(gateway: ModelGateway)
    ensures RequestQueueFor(gateway) ==
            if gateway.requestQueueName != "" then gateway.requestQueueName
            else "llm-d-async:requests:" + gateway.inferencePoolName
    ensures SqlResultQueueFor(gateway) ==
            if gateway.resultQueueName != "" then gateway.resultQueueName
            else "llm-d-async:results:" + gateway.inferencePoolName
    ensures forall gate :: IsPrometheusGate(gate) <==>
                             gate in {"prometheus-budget", "prometheus-query", "prometheus-saturation"}
  {
    assert QUEUE_PREFIX + "requests:" == "llm-d-async:requests:";
    assert QUEUE_PREFIX + "results:" == "llm-d-async:results:";
  }

  /** Distinct pools derive distinct result queues, so a clash involves an explicit name. */
  lemma ResultQueueClashNeedsExplicitName(a: ModelGateway, b: ModelGateway)
    requires a.inferencePoolName != b.inferencePoolName
    requires SqlResultQueueFor(a) == SqlResultQueueFor(b)
    ensures a.resultQueueName != "" || b.resultQueueName != ""
  {
    var p := QUEUE_PREFIX + "results:";
    assert ResultQueueOfPool(a.inferencePoolName)[|p|..] == a.inferencePoolName;
    assert ResultQueueOfPool(b.inferencePoolName)[|p|..] == b.inferencePoolName;
  }
}
