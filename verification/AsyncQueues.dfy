/**
 The dispatcher side of the async transport: the queues it polls and the chart
 values that carry them.
 */
module AsyncQueues {
  import opened Wrappers
  import opened Ordering
  import opened Spec

  // Derived queues

  ghost function RequestQueues(mg: map<string, ModelGateway>, models: seq<string>): seq<string>
    requires forall m :: m in models ==> m in mg
  {
    seq(|models|, i requires 0 <= i < |models| => RequestQueueFor(mg[models[i]]))
  }

  // The canonical list: first occurrences over the ascending model names.
  ghost function DerivedNames(mg: map<string, ModelGateway>): seq<string> {
    FirstOccurrences(RequestQueues(mg, SortedOf(mg.Keys)))
  }

  function PublishedNames(mg: map<string, ModelGateway>): set<string> {
    set m | m in mg :: RequestQueueFor(mg[m])
  }

  function QueueNames(queues: seq<Queue>): seq<string> {
    seq(|queues|, i requires 0 <= i < |queues| => queues[i].name)
  }

  /** The derived queues are the published ones, each once. */
  lemma DerivedNamesArePublished(mg: map<string, ModelGateway>)
    ensures NoDuplicates(DerivedNames(mg))
    ensures forall q :: q in DerivedNames(mg) <==> q in PublishedNames(mg)
  {
    var models := SortedOf(mg.Keys);
    var all := RequestQueues(mg, models);
    FirstOccurrencesCanonical(all);
    forall q | q in PublishedNames(mg)
      ensures q in all
    {
      var m :| m in mg && RequestQueueFor(mg[m]) == q;
      assert m in models;
      var i :| 0 <= i < |models| && models[i] == m;
      assert all[i] == q;
    }
    forall q | q in all
      ensures q in PublishedNames(mg)
    {
      var i :| 0 <= i < |all| && all[i] == q;
      assert models[i] in models;
    }
  }

  method SortedModelGateways(mg: map<string, ModelGateway>) returns (gateways: seq<ModelGateway>)
    ensures var models := SortedOf(mg.Keys);
            |gateways| == |models| && forall i :: 0 <= i < |models| ==> gateways[i] == mg[models[i]]
  {
    var models := SortedKeys(mg.Keys);
    gateways := [];
    for i := 0 to |models|
      invariant |gateways| == i
      invariant forall j :: 0 <= j < i ==> models[j] in mg && gateways[j] == mg[models[j]]
    {
      assert models[i] in models;
      gateways := gateways + [mg[models[i]]];
    }
  }

  function DefaultQueue(name: string): Queue {
    Queue(name, "", "", "", "", map[])
  }

  method DefaultAsyncQueues(mg: map<string, ModelGateway>) returns (queues: array<Queue>)
    ensures fresh(queues)
    ensures queues.Length == |DerivedNames(mg)|
    ensures forall i :: 0 <= i < queues.Length ==> queues[i] == DefaultQueue(DerivedNames(mg)[i])
  {
    var gateways := SortedModelGateways(mg);
    ghost var all := RequestQueues(mg, SortedOf(mg.Keys));
    ghost var names: seq<string> := [];
    var list: seq<Queue> := [];
    var seen: set<string> := {};
    for i := 0 to |gateways|
      invariant names == FirstOccurrences(all[..i])
      invariant forall x :: x in seen <==> x in all[..i]
      invariant |list| == |names|
      invariant forall j :: 0 <= j < |list| ==> list[j] == DefaultQueue(names[j])
    {
      var name := RequestQueueFor(gateways[i]);
      FirstOccurrencesStep(all, i);
      if name in seen {
        continue;
      }
      seen := seen + {name};
      names := names + [name];
      list := list + [DefaultQueue(name)];
    }
    assert all[..|gateways|] == all;
    queues := new Queue[|list|](i requires 0 <= i < |list| => list[i]);
  }

  // Effective queues

  ghost function Derived(mg: map<string, ModelGateway>, shape: Queue): seq<Queue> {
    var names := DerivedNames(mg);
    seq(|names|, i requires 0 <= i < |names| => shape.(name := names[i]))
  }

  ghost function RedisQueuesOf(mg: map<string, ModelGateway>, redis: RedisSpec): seq<Queue> {
    if redis.queuesConfig != [] then redis.queuesConfig
    else Derived(mg, Queue("", "", "", redis.requestPathURL, redis.gateType, redis.gateParams))
  }

  ghost function SqlQueuesOf(mg: map<string, ModelGateway>, sql: SqlSpec): seq<Queue> {
    if sql.queuesConfig != [] then sql.queuesConfig else Derived(mg, DefaultQueue(""))
  }

  /**
   The configured array is handed out as it is; otherwise the settings are
   written into the fresh derived queues. No array that existed before changes.
   */
  method RedisQueues(mg: map<string, ModelGateway>, redis: RedisSpec, configured: array<Queue>)
    returns (queues: array<Queue>)
    requires configured[..] == redis.queuesConfig
    ensures if configured.Length > 0 then queues == configured else fresh(queues)
    ensures queues[..] == RedisQueuesOf(mg, redis)
    ensures configured[..] == old(configured[..])
  {
    if configured.Length > 0 {
      return configured;
    }
    queues := DefaultAsyncQueues(mg);
    ghost var names := DerivedNames(mg);
    for i := 0 to queues.Length
      invariant queues.Length == |names|
      invariant forall j :: 0 <= j < queues.Length ==> queues[j].name == names[j]
      invariant forall j :: i <= j < queues.Length ==> queues[j] == DefaultQueue(names[j])
      invariant forall j :: 0 <= j < i ==>
                              queues[j] == Queue(names[j], "", "", redis.requestPathURL, redis.gateType, redis.gateParams)
    {
      queues[i] := queues[i].(requestPathURL := redis.requestPathURL);
      queues[i] := queues[i].(gateType := redis.gateType);
      queues[i] := queues[i].(gateParams := redis.gateParams);
    }
    assert queues[..] == RedisQueuesOf(mg, redis);
  }

  method SqlQueues(mg: map<string, ModelGateway>, sql: SqlSpec, configured: array<Queue>) returns (queues: array<Queue>)
    requires configured[..] == sql.queuesConfig
    ensures if configured.Length > 0 then queues == configured else fresh(queues)
    ensures queues[..] == SqlQueuesOf(mg, sql)
  {
    if configured.Length > 0 {
      return configured;
    }
    queues := DefaultAsyncQueues(mg);
    assert queues[..] == SqlQueuesOf(mg, sql);
  }

  // Chart values

  datatype Value = Text(text: string) | Number(n: int) | Params(params: map<string, string>)

  type Values = map<string, Value>

  function SetIfNotEmpty(m: Values, key: string, value: string): Values {
    if value != "" then m[key := Text(value)] else m
  }

  function QueueURL(q: Queue, gatewayURL: string): string {
    if q.igwBaseURL != "" then q.igwBaseURL else gatewayURL
  }

  function QueueValues(q: Queue, gatewayURL: string): Values {
    var v := map["queue_name" := Text(q.name)];
    var v := SetIfNotEmpty(v, "worker_pool_id", q.workerPoolID);
    var v := SetIfNotEmpty(v, "igw_base_url", QueueURL(q, gatewayURL));
    var v := SetIfNotEmpty(v, "request_path_url", q.requestPathURL);
    var v := SetIfNotEmpty(v, "gate_type", q.gateType);
    if q.gateParams != map[] then v["gate_params" := Params(q.gateParams)] else v
  }

  function PoolValues(p: WorkerPool): Values {
    var v := map["id" := Text(p.name), "workers" := Number(p.workers)];
    var v := SetIfNotEmpty(v, "gate_type", p.gateType);
    if p.gateParams != map[] then v["gate_params" := Params(p.gateParams)] else v
  }

  // Reading a text value back, as a chart template does.
  function Read(v: Values, key: string): string {
    if key in v && v[key].Text? then v[key].text else ""
  }

  /** The optional settings of a queue can be read back from its values, and are absent only when empty. */
  lemma QueueValuesRoundTrip(q: Queue, gatewayURL: string)
    ensures var v := QueueValues(q, gatewayURL);
            && Read(v, "queue_name") == q.name
            && Read(v, "worker_pool_id") == q.workerPoolID
            && Read(v, "igw_base_url") == (if q.igwBaseURL != "" then q.igwBaseURL else gatewayURL)
            && Read(v, "request_path_url") == q.requestPathURL
            && Read(v, "gate_type") == q.gateType
            && ("gate_params" in v <==> q.gateParams != map[])
            && ("gate_params" in v ==> v["gate_params"] == Params(q.gateParams))
            && ("igw_base_url" in v <==> q.igwBaseURL != "" || gatewayURL != "")
            && v["queue_name"] == Text(q.name)
  {
  }

  /** The settings of a worker pool can be read back from its values. */
  lemma PoolValuesRoundTrip(p: WorkerPool)
    ensures var v := PoolValues(p);
            && Read(v, "id") == p.name && v["workers"] == Number(p.workers)
            && Read(v, "gate_type") == p.gateType
            && ("gate_params" in v <==> p.gateParams != map[])
            && ("gate_params" in v ==> v["gate_params"] == Params(p.gateParams))
  {
  }

  method AsyncQueueValues(queues: array<Queue>, gatewayURL: string) returns (values: seq<Values>)
    ensures |values| == queues.Length
    ensures forall i :: 0 <= i < |values| ==> values[i] == QueueValues(queues[i], gatewayURL)
  {
    values := [];
    for i := 0 to queues.Length
      invariant |values| == i
      invariant forall j :: 0 <= j < i ==> values[j] == QueueValues(queues[j], gatewayURL)
    {
      var q := queues[i];
      var qm := map["queue_name" := Text(q.name)];
      qm := SetIfNotEmpty(qm, "worker_pool_id", q.workerPoolID);
      var queueGatewayURL := q.igwBaseURL;
      if queueGatewayURL == "" {
        queueGatewayURL := gatewayURL;
      }
      qm := SetIfNotEmpty(qm, "igw_base_url", queueGatewayURL);
      qm := SetIfNotEmpty(qm, "request_path_url", q.requestPathURL);
      qm := SetIfNotEmpty(qm, "gate_type", q.gateType);
      if q.gateParams != map[] {
        qm := qm["gate_params" := Params(q.gateParams)];
      }
      values := values + [qm];
    }
  }

  // The queue-related values of the async chart.
  datatype Dispatcher = Dispatcher(
    prometheusURL: Option<string>, transport: Option<string>, resultQueueName: Option<string>,
    queues: seq<Values>, workerPools: seq<Values>)

  // The queues that the dispatcher polls; Redis is tested before SQL.
  ghost function EffectiveQueues(mg: map<string, ModelGateway>, ac: AsyncConfig): seq<Queue> {
    if ac.redis.Some? then RedisQueuesOf(mg, ac.redis.value)
    else if ac.sql.Some? then SqlQueuesOf(mg, ac.sql.value)
    else []
  }

  ghost function FallbackResultQueue(mg: map<string, ModelGateway>): Option<string> {
    if mg == map[] then None
    else
      assert SortedOf(mg.Keys)[0] in SortedOf(mg.Keys);
      var q := SqlResultQueueFor(mg[SortedOf(mg.Keys)[0]]);
      if q == "" then None else Some(q)
  }

  function ConfiguredQueues(ac: AsyncConfig): seq<Queue> {
    if ac.redis.Some? then ac.redis.value.queuesConfig
    else if ac.sql.Some? then ac.sql.value.queuesConfig
    else []
  }

  ghost predicate RendersDispatcher(d: Dispatcher, mg: map<string, ModelGateway>, ac: AsyncConfig) {
    && d.prometheusURL == (if ac.prometheusURL != "" then Some(ac.prometheusURL) else None)
    && d.transport == (if ac.redis.Some? then Some(TRANSPORT_REDIS) else if ac.sql.Some? then Some(TRANSPORT_SQL) else None)
    && d.resultQueueName == (if ac.redis.None? && ac.sql.Some? then FallbackResultQueue(mg) else None)
    && |d.queues| == |EffectiveQueues(mg, ac)|
    && (forall i :: 0 <= i < |d.queues| ==> d.queues[i] == QueueValues(EffectiveQueues(mg, ac)[i], SharedURL(ac)))
    && |d.workerPools| == |ac.workerPools|
    && (forall i :: 0 <= i < |d.workerPools| ==> d.workerPools[i] == PoolValues(ac.workerPools[i]))
  }

  method SqlResultQueueName(mg: map<string, ModelGateway>) returns (name: string)
    ensures name == if FallbackResultQueue(mg).Some? then FallbackResultQueue(mg).value else ""
  {
    var gateways := SortedModelGateways(mg);
    if |gateways| == 0 {
      return "";
    }
    return SqlResultQueueFor(gateways[0]);
  }

  // `configured` is the memory that holds the queue list of the transport in use.
  method SpecToAsyncHelmValues(mg: map<string, ModelGateway>, ac: AsyncConfig, configured: array<Queue>)
    returns (d: Dispatcher)
    requires configured[..] == ConfiguredQueues(ac)
    ensures RendersDispatcher(d, mg, ac)
  {
    var prometheusURL := None;
    if ac.prometheusURL != "" {
      prometheusURL := Some(ac.prometheusURL);
    }
    var gatewayURL := "";
    if ac.inferenceGateway.Some? {
      gatewayURL := ac.inferenceGateway.value;
    }
    var transport: Option<string>, resultQueueName: Option<string>, queues: seq<Values> := None, None, [];
    if ac.redis.Some? {
      var effective := RedisQueues(mg, ac.redis.value, configured);
      queues := AsyncQueueValues(effective, gatewayURL);
      transport := Some(TRANSPORT_REDIS);
    } else if ac.sql.Some? {
      var resultQueue := SqlResultQueueName(mg);
      if resultQueue != "" {
        resultQueueName := Some(resultQueue);
      }
      var effective := SqlQueues(mg, ac.sql.value, configured);
      queues := AsyncQueueValues(effective, gatewayURL);
      transport := Some(TRANSPORT_SQL);
    }
    var pools: seq<Values> := [];
    for i := 0 to |ac.workerPools|
      invariant |pools| == i
      invariant forall j :: 0 <= j < i ==> pools[j] == PoolValues(ac.workerPools[j])
    {
      var wp := ac.workerPools[i];
      var pm := map["id" := Text(wp.name), "workers" := Number(wp.workers)];
      pm := SetIfNotEmpty(pm, "gate_type", wp.gateType);
      if wp.gateParams != map[] {
        pm := pm["gate_params" := Params(wp.gateParams)];
      }
      pools := pools + [pm];
    }
    return Dispatcher(prometheusURL, transport, resultQueueName, queues, pools);
  }
}
