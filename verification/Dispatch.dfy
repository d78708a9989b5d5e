/**
 The publisher side of the async transport and its agreement with the
 dispatcher side. The two renderers read different fields and test the
 transports in opposite order; validation is what makes them agree.
 */
module Dispatch {
  import opened Wrappers
  import opened Names
  import opened Ordering
  import opened Spec
  import opened AsyncQueues
  import opened Reports
  import opened Validation

  // The asyncDispatch values of the batch chart.
  datatype Publisher = Publisher(resultPollTimeout: string, transport: Option<string>, models: map<string, Values>)

  function ModelValues(gateway: ModelGateway): Values {
    var v := SetIfNotEmpty(map[], "inferencePoolName", gateway.inferencePoolName);
    var v := SetIfNotEmpty(v, "inferenceObjective", gateway.inferenceObjective);
    var v := SetIfNotEmpty(v, "requestQueueName", gateway.requestQueueName);
    SetIfNotEmpty(v, "resultQueueName", gateway.resultQueueName)
  }

  function PublisherOf(mg: map<string, ModelGateway>, ac: AsyncConfig): Publisher {
    Publisher(ac.resultPollTimeout,
              if ac.sql.Some? then Some(TRANSPORT_SQL) else if ac.redis.Some? then Some(TRANSPORT_REDIS) else None,
              map m | m in mg :: ModelValues(mg[m]))
  }

  method AsyncModelGatewayToMap(gateway: ModelGateway) returns (m: Values)
    ensures m == ModelValues(gateway)
  {
    m := map[];
    m := SetIfNotEmpty(m, "inferencePoolName", gateway.inferencePoolName);
    m := SetIfNotEmpty(m, "inferenceObjective", gateway.inferenceObjective);
    m := SetIfNotEmpty(m, "requestQueueName", gateway.requestQueueName);
    m := SetIfNotEmpty(m, "resultQueueName", gateway.resultQueueName);
  }

  /** The model map is filled in an arbitrary order. */
  method ModelMap(mg: map<string, ModelGateway>) returns (models: map<string, Values>)
    ensures models.Keys == mg.Keys
    ensures forall m :: m in models ==> models[m] == ModelValues(mg[m])
  {
    models := map[];
    var todo := mg.Keys;
    while todo != {}
      invariant todo <= mg.Keys
      invariant models.Keys == mg.Keys - todo
      invariant forall m :: m in models ==> models[m] == ModelValues(mg[m])
      decreases |todo|
    {
      var model :| model in todo;
      todo := todo - {model};
      var m := AsyncModelGatewayToMap(mg[model]);
      models := models[model := m];
    }
  }

  method AsyncDispatchValues(mg: map<string, ModelGateway>, ac: AsyncConfig) returns (p: Publisher)
    ensures p == PublisherOf(mg, ac)
  {
    var transport := None;
    if ac.sql.Some? {
      transport := Some(TRANSPORT_SQL);
    } else if ac.redis.Some? {
      transport := Some(TRANSPORT_REDIS);
    }
    var models := ModelMap(mg);
    assert models == PublisherOf(mg, ac).models;
    return Publisher(ac.resultPollTimeout, transport, models);
  }

  // The queue that the batch processor publishes to, read off one rendered model entry.
  function PublishedQueue(entry: Values): string {
    if Read(entry, "requestQueueName") != "" then Read(entry, "requestQueueName")
    else RequestQueueOfPool(Read(entry, "inferencePoolName"))
  }

  function PublishedQueues(p: Publisher): set<string> {
    set m | m in p.models :: PublishedQueue(p.models[m])
  }

  // The queues that the dispatcher polls, read off its rendered values.
  function PolledQueues(d: Dispatcher): seq<string> {
    seq(|d.queues|, i requires 0 <= i < |d.queues| => Read(d.queues[i], "queue_name"))
  }

  /** A rendered model map publishes to the request queues of the spec. */
  lemma PublishedQueuesOfSpec(mg: map<string, ModelGateway>, ac: AsyncConfig)
    ensures PublishedQueues(PublisherOf(mg, ac)) == PublishedNames(mg)
  {
    var p := PublisherOf(mg, ac);
    forall m | m in mg
      ensures PublishedQueue(p.models[m]) == RequestQueueFor(mg[m])
    {
      ModelValuesRoundTrip(mg[m]);
    }
    assert forall m :: m in p.models <==> m in mg;
  }

  lemma ModelValuesRoundTrip(gateway: ModelGateway)
    ensures var v := ModelValues(gateway);
            && Read(v, "inferencePoolName") == gateway.inferencePoolName
            && Read(v, "inferenceObjective") == gateway.inferenceObjective
            && Read(v, "requestQueueName") == gateway.requestQueueName
            && Read(v, "resultQueueName") == gateway.resultQueueName
  {
  }

  lemma PolledQueuesOfSpec(mg: map<string, ModelGateway>, ac: AsyncConfig, d: Dispatcher)
    requires RendersDispatcher(d, mg, ac)
    ensures PolledQueues(d) == QueueNames(EffectiveQueues(mg, ac))
  {
    var queues := EffectiveQueues(mg, ac);
    forall i | 0 <= i < |d.queues|
      ensures PolledQueues(d)[i] == queues[i].name
    {
      QueueValuesRoundTrip(queues[i], SharedURL(ac));
    }
  }

  // What the two sides must agree on: every published queue is polled, by one
  // dispatcher queue, and nothing else is polled.
  ghost predicate QueuesAgree(d: Dispatcher, p: Publisher) {
    && NoDuplicates(PolledQueues(d))
    && forall q :: q in PolledQueues(d) <==> q in PublishedQueues(p)
  }

  // The queue that the dispatcher would fall back to without a queue list.
  const DISPATCHER_DEFAULT := "request-sortedset"

  /**
   With Redis and no configured list the dispatcher polls that single queue exactly
   when it is the one queue that the models publish to.
   */
  lemma EmptyRedisPollsDefaultIff(mg: map<string, ModelGateway>, ac: AsyncConfig, d: Dispatcher)
    requires RendersDispatcher(d, mg, ac)
    requires ac.redis.Some? && ac.redis.value.queuesConfig == []
    ensures PolledQueues(d) == [DISPATCHER_DEFAULT] <==> PublishedNames(mg) == {DISPATCHER_DEFAULT}
  {
    PolledQueuesOfSpec(mg, ac, d);
    DerivedNamesArePublished(mg);
    assert PolledQueues(d) == DerivedNames(mg);
    OnlyElement(DerivedNames(mg), DISPATCHER_DEFAULT);
    assert PublishedNames(mg) == {DISPATCHER_DEFAULT} <==> forall q :: q in PublishedNames(mg) <==> q == DISPATCHER_DEFAULT;
  }

  lemma OnlyElement(names: seq<string>, x: string)
    requires NoDuplicates(names)
    ensures names == [x] <==> forall q :: q in names <==> q == x
  {
    if x in names && names != [x] {
      var k := if names[0] == x then 1 else 0;
      assert names == [names[0]] + names[1..];
      assert names[k] in names && names[k] != x;
    }
  }

  /** An accepted spec with an empty Redis section whose dispatcher polls the published queue and not the default. */
  lemma EmptyRedisPollsPublished() returns (spec: GatewaySpec)
    ensures Admissible(spec)
    ensures spec.asyncConfig.value.redis.Some? && spec.asyncConfig.value.redis.value.queuesConfig == []
    ensures forall d :: RendersDispatcher(d, spec.modelGateways, spec.asyncConfig.value) ==>
                          DISPATCHER_DEFAULT !in PolledQueues(d) && RequestQueueOfPool("llama-pool") in PolledQueues(d)
  {
    var mg := map["llama-3" := ModelGateway("llama-pool", "", "", "")];
    var ac := AsyncConfig("30s", Some("http://gateway:8000"), Some(RedisSpec("", "", map[], [])), None, [], "");
    spec := GatewaySpec(NsName("", "creds"), "", "", mg, Some(ac));
    assert "llama-3" in mg;
    assert RequestQueueOfPool("llama-pool")[0] == 'l' && DISPATCHER_DEFAULT[0] == 'r';
    assert PublishedNames(mg) == {RequestQueueOfPool("llama-pool")};
    forall d | RendersDispatcher(d, mg, ac)
      ensures DISPATCHER_DEFAULT !in PolledQueues(d) && RequestQueueOfPool("llama-pool") in PolledQueues(d)
    {
      PolledQueuesOfSpec(mg, ac, d);
      DerivedNamesArePublished(mg);
      assert PolledQueues(d) == DerivedNames(mg);
    }
  }

  /**
   With at least one transport configured, the rendered queues agree exactly
   when the configured list, if there is one, covers the published queues.
   */
  lemma QueuesAgreeIff(mg: map<string, ModelGateway>, ac: AsyncConfig, d: Dispatcher)
    requires RendersDispatcher(d, mg, ac)
    requires ac.redis.Some? || ac.sql.Some?
    ensures QueuesAgree(d, PublisherOf(mg, ac)) <==> (ConfiguredQueues(ac) != [] ==> Covers(mg, ConfiguredQueues(ac)))
  {
    PolledQueuesOfSpec(mg, ac, d);
    PublishedQueuesOfSpec(mg, ac);
    if ConfiguredQueues(ac) != [] {
      var queues := ConfiguredQueues(ac);
      ConfiguredNames(queues);
      var listed := set q | q in queues :: q.name;
      assert EffectiveQueues(mg, ac) == queues;
      assert forall x :: x in PolledQueues(d) <==> x in listed;
      assert listed == PublishedNames(mg) <==> forall x :: x in listed <==> x in PublishedNames(mg);
    } else {
      DerivedNamesArePublished(mg);
      assert QueueNames(EffectiveQueues(mg, ac)) == DerivedNames(mg);
    }
  }

  /** The renderers choose the same transport exactly when not both are configured. */
  lemma TransportsAgreeIff(mg: map<string, ModelGateway>, ac: AsyncConfig, d: Dispatcher)
    requires RendersDispatcher(d, mg, ac)
    ensures d.transport == PublisherOf(mg, ac).transport <==> !(ac.redis.Some? && ac.sql.Some?)
  {
    assert TRANSPORT_REDIS[0] != TRANSPORT_SQL[0];
  }

  ghost predicate EveryQueueHasURL(d: Dispatcher) {
    forall i :: 0 <= i < |d.queues| ==> "igw_base_url" in d.queues[i]
  }

  ghost predicate RendersQueueGate(d: Dispatcher) {
    exists i :: 0 <= i < |d.queues| && IsPrometheusGate(Read(d.queues[i], "gate_type"))
  }

  ghost predicate RendersPoolGate(d: Dispatcher) {
    exists i :: 0 <= i < |d.workerPools| && IsPrometheusGate(Read(d.workerPools[i], "gate_type"))
  }

  ghost predicate RendersPrometheusGate(d: Dispatcher) {
    RendersQueueGate(d) || RendersPoolGate(d)
  }

  /** Every rendered queue carries a gateway URL exactly when the declared condition on the spec holds. */
  lemma QueueURLsIff(mg: map<string, ModelGateway>, ac: AsyncConfig, d: Dispatcher)
    requires RendersDispatcher(d, mg, ac)
    requires mg != map[] && (ac.redis.Some? || ac.sql.Some?)
    ensures EveryQueueHasURL(d) <==> HasURLs(ac)
  {
    var queues := EffectiveQueues(mg, ac);
    EffectiveQueueFacts(mg, ac);
    forall i | 0 <= i < |queues|
      ensures "igw_base_url" in d.queues[i] <==> queues[i].igwBaseURL != "" || SharedURL(ac) != ""
    {
      QueueValuesRoundTrip(queues[i], SharedURL(ac));
    }
    if EveryQueueHasURL(d) && SharedURL(ac) == "" {
      forall q | q in queues
        ensures q.igwBaseURL != ""
      {
        var i :| 0 <= i < |queues| && queues[i] == q;
        assert "igw_base_url" in d.queues[i];
      }
    }
  }

  // The rendered gates are the declared ones.
  lemma QueueGatesRendered(mg: map<string, ModelGateway>, ac: AsyncConfig, d: Dispatcher)
    requires RendersDispatcher(d, mg, ac)
    requires mg != map[] && (ac.redis.Some? || ac.sql.Some?)
    ensures RendersQueueGate(d) <==> exists gate :: gate in QueueGates(ac) && IsPrometheusGate(gate)
  {
    var queues := EffectiveQueues(mg, ac);
    EffectiveQueueFacts(mg, ac);
    forall i | 0 <= i < |queues|
      ensures Read(d.queues[i], "gate_type") == queues[i].gateType && queues[i] in queues
    {
      QueueValuesRoundTrip(queues[i], SharedURL(ac));
    }
    if gate :| gate in QueueGates(ac) && IsPrometheusGate(gate) {
      var q :| q in queues && q.gateType == gate;
      var i :| 0 <= i < |queues| && queues[i] == q;
      assert Read(d.queues[i], "gate_type") == gate;
    }
  }

  lemma PoolGatesRendered(mg: map<string, ModelGateway>, ac: AsyncConfig, d: Dispatcher)
    requires RendersDispatcher(d, mg, ac)
    ensures RendersPoolGate(d) <==> exists p :: p in ac.workerPools && IsPrometheusGate(p.gateType)
  {
    forall i | 0 <= i < |ac.workerPools|
      ensures Read(d.workerPools[i], "gate_type") == ac.workerPools[i].gateType && ac.workerPools[i] in ac.workerPools
    {
      PoolGate(ac.workerPools[i]);
    }
    if p :| p in ac.workerPools && IsPrometheusGate(p.gateType) {
      var i :| 0 <= i < |ac.workerPools| && ac.workerPools[i] == p;
      assert Read(d.workerPools[i], "gate_type") == p.gateType;
    }
  }

  lemma PoolGate(p: WorkerPool)
    ensures Read(PoolValues(p), "gate_type") == p.gateType
  {
  }

  /** A rendered Prometheus gate goes with a rendered Prometheus URL exactly when the declared condition holds. */
  lemma PrometheusURLIff(mg: map<string, ModelGateway>, ac: AsyncConfig, d: Dispatcher)
    requires RendersDispatcher(d, mg, ac)
    requires mg != map[] && (ac.redis.Some? || ac.sql.Some?)
    ensures (RendersPrometheusGate(d) ==> d.prometheusURL.Some?) <==> HasPrometheusForGates(ac)
  {
    QueueGatesRendered(mg, ac, d);
    PoolGatesRendered(mg, ac, d);
  }

  /**
   Publisher and dispatcher agreement. For every accepted spec both sides use the
   same transport, poll and publish the same queues without duplicates, every
   polled queue has a gateway URL, and Prometheus gates come with a URL.
   */
  lemma Agreement(spec: GatewaySpec, d: Dispatcher)
    requires Admissible(spec)
    requires RendersDispatcher(d, spec.modelGateways, spec.asyncConfig.value)
    ensures var p := PublisherOf(spec.modelGateways, spec.asyncConfig.value);
            && d.transport.Some?
            && d.transport == p.transport
            && QueuesAgree(d, p)
            && EveryQueueHasURL(d)
            && (RendersPrometheusGate(d) ==> d.prometheusURL.Some?)
  {
    var mg, ac := spec.modelGateways, spec.asyncConfig.value;
    TransportsAgreeIff(mg, ac, d);
    QueuesAgreeIff(mg, ac, d);
    QueueURLsIff(mg, ac, d);
    PrometheusURLIff(mg, ac, d);
  }

  /**
   Both sides agree for every accepted spec, on the values they render and the
   fields of the spec: one transport, and one dispatcher queue for each queue that
   the models publish to.
   */
  lemma AgreementOnFields(spec: GatewaySpec, d: Dispatcher)
    requires Admissible(spec)
    requires RendersDispatcher(d, spec.modelGateways, spec.asyncConfig.value)
    ensures var ac, mg := spec.asyncConfig.value, spec.modelGateways;
            var p := PublisherOf(mg, ac);
            && d.transport == p.transport == Some(if ac.redis.Some? then "redis-sortedset" else "sql")
            && d.prometheusURL == (if ac.prometheusURL != "" then Some(ac.prometheusURL) else None)
            && (ac.redis.Some? ==> d.resultQueueName.None?)
            && p.resultPollTimeout == ac.resultPollTimeout
            && p.models.Keys == mg.Keys
            && (forall i, j :: 0 <= i < j < |d.queues| ==> Read(d.queues[i], "queue_name") != Read(d.queues[j], "queue_name"))
            && (set v | v in d.queues :: Read(v, "queue_name")) == PublishedFields(mg)
  {
    var ac, mg := spec.asyncConfig.value, spec.modelGateways;
    TransportsAgreeIff(mg, ac, d);
    QueuesAgreeIff(mg, ac, d);
    PublishedQueuesOfSpec(mg, ac);
    PublishedOnFields(mg);
    PolledOnValues(d);
    assert forall q :: q in PolledQueues(d) <==> q in PublishedFields(mg);
  }

  lemma PolledOnValues(d: Dispatcher)
    ensures NoDuplicates(PolledQueues(d)) ==>
              forall i, j :: 0 <= i < j < |d.queues| ==> Read(d.queues[i], "queue_name") != Read(d.queues[j], "queue_name")
    ensures forall q :: q in PolledQueues(d) <==> q in (set v | v in d.queues :: Read(v, "queue_name"))
  {
    var polled := PolledQueues(d);
    if NoDuplicates(polled) {
      forall i, j | 0 <= i < j < |d.queues|
        ensures Read(d.queues[i], "queue_name") != Read(d.queues[j], "queue_name")
      {
        assert polled[i] != polled[j];
      }
    }
    forall v | v in d.queues
      ensures Read(v, "queue_name") in polled
    {
      var i :| 0 <= i < |d.queues| && d.queues[i] == v;
      assert polled[i] == Read(v, "queue_name");
    }
    forall q | q in polled
      ensures exists v :: v in d.queues && Read(v, "queue_name") == q
    {
      var i :| 0 <= i < |polled| && polled[i] == q;
      assert d.queues[i] in d.queues;
    }
  }

  /** The rendered model map and the rendered worker pools, on the fields of the spec. */
  lemma ModelsAndPoolsOnFields(mg: map<string, ModelGateway>, ac: AsyncConfig, d: Dispatcher)
    requires RendersDispatcher(d, mg, ac)
    ensures var p := PublisherOf(mg, ac);
            && p.models.Keys == mg.Keys
            && forall m :: m in mg ==>
                 && Read(p.models[m], "inferencePoolName") == mg[m].inferencePoolName
                 && Read(p.models[m], "inferenceObjective") == mg[m].inferenceObjective
                 && Read(p.models[m], "requestQueueName") == mg[m].requestQueueName
                 && Read(p.models[m], "resultQueueName") == mg[m].resultQueueName
    ensures |d.workerPools| == |ac.workerPools|
    ensures forall i :: 0 <= i < |ac.workerPools| ==>
              var v, pool := d.workerPools[i], ac.workerPools[i];
              && Read(v, "id") == pool.name && "workers" in v && v["workers"] == Number(pool.workers)
              && Read(v, "gate_type") == pool.gateType
              && (if pool.gateParams != map[] then "gate_params" in v && v["gate_params"] == Params(pool.gateParams)
                  else "gate_params" !in v)
  {
    forall m | m in mg
      ensures PublisherOf(mg, ac).models[m] == ModelValues(mg[m])
      ensures Read(ModelValues(mg[m]), "requestQueueName") == mg[m].requestQueueName
    {
      ModelValuesRoundTrip(mg[m]);
    }
    forall m | m in mg
      ensures && Read(ModelValues(mg[m]), "inferencePoolName") == mg[m].inferencePoolName
              && Read(ModelValues(mg[m]), "inferenceObjective") == mg[m].inferenceObjective
              && Read(ModelValues(mg[m]), "resultQueueName") == mg[m].resultQueueName
    {
      ModelValuesRoundTrip(mg[m]);
    }
    forall i | 0 <= i < |ac.workerPools|
      ensures var v, pool := d.workerPools[i], ac.workerPools[i];
              && Read(v, "id") == pool.name && "workers" in v && v["workers"] == Number(pool.workers)
              && Read(v, "gate_type") == pool.gateType
              && (if pool.gateParams != map[] then "gate_params" in v && v["gate_params"] == Params(pool.gateParams)
                  else "gate_params" !in v)
    {
      PoolValuesRoundTrip(ac.workerPools[i]);
    }
  }

  /** For every accepted spec each dispatcher queue has a URL, and whatever gates on Prometheus comes with its URL. */
  lemma UrlsOnFields(spec: GatewaySpec, d: Dispatcher)
    requires Admissible(spec)
    requires RendersDispatcher(d, spec.modelGateways, spec.asyncConfig.value)
    ensures forall i :: 0 <= i < |d.queues| ==> Read(d.queues[i], "igw_base_url") != ""
    ensures forall v :: (v in d.queues || v in d.workerPools) && GatedByPrometheus(Read(v, "gate_type")) ==>
                          spec.asyncConfig.value.prometheusURL != "" &&
                          d.prometheusURL == Some(spec.asyncConfig.value.prometheusURL)
  {
    var ac, mg := spec.asyncConfig.value, spec.modelGateways;
    QueueURLsIff(mg, ac, d);
    PrometheusURLIff(mg, ac, d);
    forall i | 0 <= i < |d.queues|
      ensures Read(d.queues[i], "igw_base_url") != ""
    {
      assert "igw_base_url" in d.queues[i];
      QueueValuesRoundTrip(EffectiveQueues(mg, ac)[i], SharedURL(ac));
    }
    forall v | (v in d.queues || v in d.workerPools) && GatedByPrometheus(Read(v, "gate_type"))
      ensures RendersPrometheusGate(d)
    {
      NamesOnFields(ModelGateway("", "", "", ""));
      GateIsRendered(d, v);
    }
  }

  lemma GateIsRendered(d: Dispatcher, v: Values)
    requires (v in d.queues || v in d.workerPools) && IsPrometheusGate(Read(v, "gate_type"))
    ensures RendersPrometheusGate(d)
  {
    if v in d.queues {
      var i :| 0 <= i < |d.queues| && d.queues[i] == v;
      assert IsPrometheusGate(Read(d.queues[i], "gate_type"));
    } else {
      var i :| 0 <= i < |d.workerPools| && d.workerPools[i] == v;
      assert IsPrometheusGate(Read(d.workerPools[i], "gate_type"));
    }
  }

  /**
   What every queue of the dispatcher is told, on the fields: the settings of the
   configured queue, the shared URL only where it has none; and for derived queues
   the top-level Redis settings, or none for SQL, with the shared URL.
   */
  lemma QueueSettingsOnFields(mg: map<string, ModelGateway>, ac: AsyncConfig, d: Dispatcher, i: nat)
    requires RendersDispatcher(d, mg, ac) && i < |d.queues|
    ensures var list := if ac.redis.Some? then ac.redis.value.queuesConfig
                        else if ac.sql.Some? then ac.sql.value.queuesConfig else [];
            var shared := if ac.inferenceGateway.Some? then ac.inferenceGateway.value else "";
            var v := d.queues[i];
            if list != [] then
              && |d.queues| == |list|
              && Read(v, "queue_name") == list[i].name
              && Read(v, "worker_pool_id") == list[i].workerPoolID
              && Read(v, "igw_base_url") == (if list[i].igwBaseURL != "" then list[i].igwBaseURL else shared)
              && Read(v, "request_path_url") == list[i].requestPathURL
              && Read(v, "gate_type") == list[i].gateType
              && (if list[i].gateParams != map[] then "gate_params" in v && v["gate_params"] == Params(list[i].gateParams)
                  else "gate_params" !in v)
            else
              && Read(v, "worker_pool_id") == ""
              && Read(v, "igw_base_url") == shared
              && Read(v, "request_path_url") == (if ac.redis.Some? then ac.redis.value.requestPathURL else "")
              && Read(v, "gate_type") == (if ac.redis.Some? then ac.redis.value.gateType else "")
              && (if ac.redis.Some? && ac.redis.value.gateParams != map[]
                  then "gate_params" in v && v["gate_params"] == Params(ac.redis.value.gateParams)
                  else "gate_params" !in v)
  {
    QueueValuesRoundTrip(EffectiveQueues(mg, ac)[i], SharedURL(ac));
  }

  /**
   SQL isolation on the fields. In an accepted SQL spec no two models share an
   inference pool; two explicit result queues differ, and an explicit one is never
   the one that is derived for an entry without a name; and the fallback result queue
   is the explicit or derived one of the least model name.
   */
  lemma SqlIsolation(spec: GatewaySpec, d: Dispatcher)
    requires Admissible(spec) && spec.asyncConfig.value.sql.Some?
    requires RendersDispatcher(d, spec.modelGateways, spec.asyncConfig.value)
    ensures var mg := spec.modelGateways;
            && (forall m, n :: m in mg && n in mg && m != n ==>
                  && mg[m].inferencePoolName != mg[n].inferencePoolName
                  && (mg[m].resultQueueName != "" ==> mg[m].resultQueueName != mg[n].resultQueueName)
                  && (mg[m].resultQueueName != "" && mg[n].resultQueueName == "" ==>
                        mg[m].resultQueueName != "llm-d-async:results:" + mg[n].inferencePoolName))
            && exists m :: m in mg && (forall n :: n in mg && n != m ==> Less(m, n)) &&
                           d.resultQueueName == Some(if mg[m].resultQueueName != "" then mg[m].resultQueueName
                                                     else "llm-d-async:results:" + mg[m].inferencePoolName)
  {
    var mg := spec.modelGateways;
    IsolationOnFields(mg);
    var m := LeastModelFallback(mg);
    NamesOnFields(mg[m]);
  }

  lemma LeastModelFallback(mg: map<string, ModelGateway>) returns (m: string)
    requires mg != map[]
    ensures m in mg && (forall n :: n in mg && n != m ==> Less(m, n))
    ensures FallbackResultQueue(mg) == Some(SqlResultQueueFor(mg[m]))
  {
    var models := SortedOf(mg.Keys);
    m := models[0];
    assert m in models && m in mg;
    assert SqlResultQueueFor(mg[m]) != "" by {
      assert |ResultQueueOfPool(mg[m].inferencePoolName)| > 0;
    }
    forall n | n in mg && n != m
      ensures Less(m, n)
    {
      assert n in models;
      HeadLeast(models, n);
    }
  }

  /** In a spec whose pools are distinct, the result-queue scan only ever rejects a pair with an explicit name. */
  lemma ResultQueueScanRejectsExplicitOnly(mg: map<string, ModelGateway>, m: string, n: string)
    requires PoolsDistinct(mg) && m in mg && n in mg && m != n
    requires SqlResultQueueFor(mg[m]) == SqlResultQueueFor(mg[n])
    ensures mg[m].resultQueueName != "" || mg[n].resultQueueName != ""
  {
    ResultQueueClashNeedsExplicitName(mg[m], mg[n]);
  }

  /** What two methods render for an accepted spec agrees. */
  method RenderQueues(spec: GatewaySpec, configured: array<Queue>, order: seq<string>)
    returns (r: Result<(Publisher, Dispatcher), ValidationError>)
    requires Visits(order, spec.modelGateways)
    requires spec.asyncConfig.Some? ==> configured[..] == ConfiguredQueues(spec.asyncConfig.value)
    ensures r.Ok? <==> Admissible(spec)
    ensures r.Ok? ==> QueuesAgree(r.value.1, r.value.0) && r.value.0.transport == r.value.1.transport
    ensures r.Err? ==> Violated(spec, r.error)
  {
    var err := ValidateSpec(spec, configured, order);
    if err.Some? {
      return Err(err.value);
    }
    var ac := spec.asyncConfig.value;
    var p := AsyncDispatchValues(spec.modelGateways, ac);
    var d := SpecToAsyncHelmValues(spec.modelGateways, ac, configured);
    Agreement(spec, d);
    return Ok((p, d));
  }
}
