/**
 The status subresource: condition bookkeeping, what the two writers put into a
 status, and the JSON form of a status.
 */
module Status {
  import opened Wrappers
  import opened MergePatch
  import opened Readiness

  datatype Condition = Condition(ctype: string, status: string, reason: string, message: string, observedGeneration: int)

  datatype GatewayStatus = GatewayStatus(
    observedGeneration: int, conditions: seq<Condition>, componentStatus: Option<ComponentStatus>)

  const READY := "Ready"
  const API_SERVER_AVAILABLE := "APIServerAvailable"
  const PROCESSOR_AVAILABLE := "ProcessorAvailable"
  const GC_AVAILABLE := "GCAvailable"
  const ASYNC_PROCESSOR_AVAILABLE := "AsyncProcessorAvailable"

  const ALL_CONDITION_TYPES: seq<string> :=
    [READY, API_SERVER_AVAILABLE, PROCESSOR_AVAILABLE, GC_AVAILABLE, ASYNC_PROCESSOR_AVAILABLE]

  function ConditionStatus(ok: bool): string {
    if ok then "True" else "False"
  }

  function AvailableType(c: Component): string {
    match c
    case ApiServer => API_SERVER_AVAILABLE
    case Processor => PROCESSOR_AVAILABLE
    case Gc => GC_AVAILABLE
    case AsyncProcessor => ASYNC_PROCESSOR_AVAILABLE
  }

  // Conditions

  // An entry of the same type is updated in place, otherwise one is appended.
  function SetCondition(cs: seq<Condition>, c: Condition): seq<Condition> {
    if cs == [] then [c]
    else if cs[0].ctype == c.ctype then [c] + cs[1..]
    else [cs[0]] + SetCondition(cs[1..], c)
  }

  function Find(cs: seq<Condition>, ctype: string): Option<Condition> {
    if cs == [] then None
    else if cs[0].ctype == ctype then Some(cs[0])
    else Find(cs[1..], ctype)
  }

  ghost predicate OnePerType(cs: seq<Condition>) {
    forall i, j :: 0 <= i < j < |cs| ==> cs[i].ctype != cs[j].ctype
  }

  /** Setting a condition changes what is found for its type only, and keeps one entry per type. */
  lemma {:induction false} SetConditionEffect(cs: seq<Condition>, c: Condition)
    ensures Find(SetCondition(cs, c), c.ctype) == Some(c)
    ensures forall t :: t != c.ctype ==> Find(SetCondition(cs, c), t) == Find(cs, t)
    ensures OnePerType(cs) ==> OnePerType(SetCondition(cs, c))
    ensures forall x :: x in SetCondition(cs, c) ==> x in cs || x == c
  {
    if cs != [] && cs[0].ctype != c.ctype {
      var r := SetCondition(cs[1..], c);
      SetConditionEffect(cs[1..], c);
      assert SetCondition(cs, c)[1..] == r;
      if OnePerType(cs) {
        assert OnePerType(cs[1..]);
        forall i | 0 <= i < |r|
          ensures r[i].ctype != cs[0].ctype
        {
          assert r[i] in r;
          if r[i] != c {
            var j :| 0 <= j < |cs[1..]| && cs[1..][j] == r[i];
            assert cs[j + 1] == r[i];
          }
        }
      }
    }
  }

  function SetAll(
    cs: seq<Condition>, types: seq<string>, reason: string, message: string, generation: int): seq<Condition>
  {
    if types == [] then cs
    else
      SetCondition(SetAll(cs, types[..|types| - 1], reason, message, generation),
                   Condition(types[|types| - 1], ConditionStatus(false), reason, message, generation))
  }

  lemma {:induction false} SetAllEffect(
    cs: seq<Condition>, types: seq<string>, reason: string, message: string, generation: int)
    ensures var r := SetAll(cs, types, reason, message, generation);
            && (forall t :: t in types ==>
                  Find(r, t) == Some(Condition(t, "False", reason, message, generation)))
            && (forall t :: t !in types ==> Find(r, t) == Find(cs, t))
            && (OnePerType(cs) ==> OnePerType(r))
            && (forall x :: x in r ==> x in cs || x.observedGeneration == generation)
  {
    if types != [] {
      var init, last := types[..|types| - 1], types[|types| - 1];
      SetAllEffect(cs, init, reason, message, generation);
      SetConditionEffect(SetAll(cs, init, reason, message, generation),
                         Condition(last, ConditionStatus(false), reason, message, generation));
      assert types == init + [last];
    }
  }

  // A condition that is already there is set without effect.
  lemma {:induction false} SetConditionAgain(cs: seq<Condition>, c: Condition)
    requires Find(cs, c.ctype) == Some(c)
    ensures SetCondition(cs, c) == cs
  {
    if cs[0].ctype != c.ctype {
      SetConditionAgain(cs[1..], c);
    }
  }

  lemma {:induction false} SetAllAgain(
    cs: seq<Condition>, types: seq<string>, reason: string, message: string, generation: int)
    requires forall t :: t in types ==> Find(cs, t) == Some(Condition(t, ConditionStatus(false), reason, message, generation))
    ensures SetAll(cs, types, reason, message, generation) == cs
  {
    if types != [] {
      var last := types[|types| - 1];
      SetAllAgain(cs, types[..|types| - 1], reason, message, generation);
      SetConditionAgain(cs, Condition(last, ConditionStatus(false), reason, message, generation));
    }
  }

  // What the two writers put into the status

  datatype Failure = Failure(reason: string, message: string, conditions: seq<string>)

  function FailureStatus(s: GatewayStatus, generation: int, f: Failure): GatewayStatus {
    s.(observedGeneration := generation, conditions := SetAll(s.conditions, f.conditions, f.reason, f.message, generation))
  }

  function ComponentName(c: Component): string {
    match c
    case ApiServer => "API server"
    case Processor => "Processor"
    case Gc => "GC"
    case AsyncProcessor => "Async processor"
  }

  function Decimal(n: int): string
    decreases if n < 0 then 1 - n else n
  {
    if n < 0 then "-" + Decimal(-n)
    else if n < 10 then [(n as char) + '0']
    else Decimal(n / 10) + Decimal(n % 10)
  }

  function AvailableCondition(c: Component, st: Option<ReplicaStatus>, generation: int): Condition {
    var replicas := if st.Some? then st.value.replicas else 0;
    var ready := if st.Some? then st.value.readyReplicas else 0;
    Condition(AvailableType(c), ConditionStatus(Available(st)), if Available(st) then "Available" else "Unavailable",
              ComponentName(c) + ": " + Decimal(ready) + "/" + Decimal(replicas) + " replicas ready", generation)
  }

  function ReadyCondition(ready: bool, generation: int): Condition {
    Condition(READY, ConditionStatus(ready), if ready then "AllComponentsReady" else "ComponentsNotReady",
              if ready then "All components are fully rolled out" else "One or more components are not fully rolled out",
              generation)
  }

  function SetEach(cs: seq<Condition>, list: seq<Condition>): seq<Condition> {
    if list == [] then cs else SetCondition(SetEach(cs, list[..|list| - 1]), list[|list| - 1])
  }

  ghost predicate HasType(list: seq<Condition>, t: string) {
    exists x :: x in list && x.ctype == t
  }

  lemma {:induction false} SetEachEffect(cs: seq<Condition>, list: seq<Condition>)
    requires OnePerType(list)
    ensures var r := SetEach(cs, list);
            && (forall x :: x in list ==> Find(r, x.ctype) == Some(x))
            && (forall t :: !HasType(list, t) ==> Find(r, t) == Find(cs, t))
            && (OnePerType(cs) ==> OnePerType(r))
            && (forall x :: x in r ==> x in cs || x in list)
  {
    if list != [] {
      var init, last := list[..|list| - 1], list[|list| - 1];
      SetEachEffect(cs, init);
      SetConditionEffect(SetEach(cs, init), last);
      assert list == init + [last];
      forall t | !HasType(list, t)
        ensures !HasType(init, t) && t != last.ctype
      {
        assert last in list;
      }
    }
  }

  lemma {:induction false} SetEachAgain(cs: seq<Condition>, list: seq<Condition>)
    requires forall x :: x in list ==> Find(cs, x.ctype) == Some(x)
    ensures SetEach(cs, list) == cs
  {
    if list != [] {
      SetEachAgain(cs, list[..|list| - 1]);
      SetConditionAgain(cs, list[|list| - 1]);
    }
  }

  // The conditions of one observation, in the order they are set.
  function Observed(generation: int, comp: ComponentStatus): seq<Condition> {
    [AvailableCondition(ApiServer, comp.apiServer, generation),
     AvailableCondition(Processor, comp.processor, generation),
     AvailableCondition(Gc, comp.gc, generation),
     AvailableCondition(AsyncProcessor, comp.asyncProcessor, generation),
     ReadyCondition(AllAvailable(comp), generation)]
  }

  function ObservedConditions(cs: seq<Condition>, generation: int, comp: ComponentStatus): seq<Condition> {
    SetEach(cs, Observed(generation, comp))
  }

  function ObservedStatus(s: GatewayStatus, generation: int, comp: ComponentStatus): GatewayStatus {
    GatewayStatus(generation, ObservedConditions(s.conditions, generation, comp), Some(comp))
  }

  /** After an observation every component condition and Ready say exactly what was observed; other types are kept. */
  lemma ObservedConditionsEffect(cs: seq<Condition>, generation: int, comp: ComponentStatus)
    ensures var r := ObservedConditions(cs, generation, comp);
            && (forall c :: Find(r, AvailableType(c)) == Some(AvailableCondition(c, Get(comp, c), generation)))
            && Find(r, READY) == Some(ReadyCondition(AllAvailable(comp), generation))
            && (forall t :: t != READY && (forall c :: t != AvailableType(c)) ==> Find(r, t) == Find(cs, t))
            && (OnePerType(cs) ==> OnePerType(r))
            && (forall x :: x in r ==> x in cs || x.observedGeneration == generation)
  {
    ObservedTypes(generation, comp);
    SetEachEffect(cs, Observed(generation, comp));
  }

  lemma ObservedTypes(generation: int, comp: ComponentStatus)
    ensures var list := Observed(generation, comp);
            && OnePerType(list)
            && (forall c :: AvailableCondition(c, Get(comp, c), generation) in list)
            && ReadyCondition(AllAvailable(comp), generation) in list
            && (forall t :: HasType(list, t) ==> t == READY || exists c :: t == AvailableType(c))
            && (forall x :: x in list ==> x.observedGeneration == generation)
  {
    var list := Observed(generation, comp);
    FiveTypes(list);
    forall c: Component
      ensures AvailableCondition(c, Get(comp, c), generation) in list
    {
      assert list[Rank(c)] == AvailableCondition(c, Get(comp, c), generation);
    }
    assert list[4] in list;
  }

  function Rank(c: Component): nat {
    match c
    case ApiServer => 0
    case Processor => 1
    case Gc => 2
    case AsyncProcessor => 3
  }

  lemma FiveTypes(list: seq<Condition>)
    requires |list| == 5 && list[4].ctype == READY
    requires forall c :: list[Rank(c)].ctype == AvailableType(c)
    ensures OnePerType(list)
    ensures forall t :: HasType(list, t) ==> t == READY || exists c :: t == AvailableType(c)
  {
    TypesDiffer();
    assert list[Rank(ApiServer)] == list[0] && list[Rank(Processor)] == list[1];
    assert list[Rank(Gc)] == list[2] && list[Rank(AsyncProcessor)] == list[3];
  }

  lemma TypesDiffer()
    ensures forall c :: AvailableType(c) != READY
    ensures forall c, d :: AvailableType(c) == AvailableType(d) ==> c == d
  {
    assert |READY| == 5 && |API_SERVER_AVAILABLE| == 18 && |PROCESSOR_AVAILABLE| == 18;
    assert |GC_AVAILABLE| == 11 && |ASYNC_PROCESSOR_AVAILABLE| == 23;
    assert API_SERVER_AVAILABLE[0] == 'A' && PROCESSOR_AVAILABLE[0] == 'P';
  }

  // The condition types by component.
  lemma TypesByName()
    ensures READY == "Ready"
    ensures AvailableType(ApiServer) == "APIServerAvailable" && AvailableType(Processor) == "ProcessorAvailable"
    ensures AvailableType(Gc) == "GCAvailable" && AvailableType(AsyncProcessor) == "AsyncProcessorAvailable"
    ensures forall t :: t in ALL_CONDITION_TYPES <==>
              t in {"Ready", "APIServerAvailable", "ProcessorAvailable", "GCAvailable", "AsyncProcessorAvailable"}
  {
  }

  lemma AvailabilityInWords(c: Component, st: Option<ReplicaStatus>, generation: int)
    ensures var cond := AvailableCondition(c, st, generation);
            var ok := st.Some? && st.value.replicas > 0 && st.value.readyReplicas >= st.value.replicas;
            && (cond.status == "True" <==> ok) && (cond.status == "False" <==> !ok)
            && (cond.reason == "Available" <==> ok) && (cond.reason == "Unavailable" <==> !ok)
            && cond.ctype == AvailableType(c) && cond.observedGeneration == generation
    ensures st.Some? ==>
              AvailableCondition(c, st, generation).message ==
              (match c case ApiServer => "API server" case Processor => "Processor"
                       case Gc => "GC" case AsyncProcessor => "Async processor") +
              ": " + Decimal(st.value.readyReplicas) + "/" + Decimal(st.value.replicas) + " replicas ready"
  {
    assert |"True"| == 4 && |"False"| == 5 && |"Available"| == 9 && |"Unavailable"| == 11;
  }

  lemma ReadinessInWords(ready: bool, generation: int)
    ensures var cond := ReadyCondition(ready, generation);
            && (cond.status == "True" <==> ready) && (cond.status == "False" <==> !ready)
            && (cond.reason == "AllComponentsReady" <==> ready) && (cond.reason == "ComponentsNotReady" <==> !ready)
            && cond.ctype == "Ready" && cond.observedGeneration == generation
  {
    assert |"True"| == 4 && |"False"| == 5 && "AllComponentsReady"[0] == 'A' && "ComponentsNotReady"[0] == 'C';
  }

  /** Recording the same failure or the same observation again changes no condition. */
  lemma ConditionsSettle(cs: seq<Condition>, generation: int, f: Failure, comp: ComponentStatus)
    ensures var r := SetAll(cs, f.conditions, f.reason, f.message, generation);
            SetAll(r, f.conditions, f.reason, f.message, generation) == r
    ensures var r := ObservedConditions(cs, generation, comp);
            ObservedConditions(r, generation, comp) == r
  {
    SetAllEffect(cs, f.conditions, f.reason, f.message, generation);
    SetAllAgain(SetAll(cs, f.conditions, f.reason, f.message, generation), f.conditions, f.reason, f.message, generation);
    ObservedTypes(generation, comp);
    SetEachEffect(cs, Observed(generation, comp));
    SetEachAgain(ObservedConditions(cs, generation, comp), Observed(generation, comp));
  }

  // JSON form; empty members of the status are omitted

  function EncodeCondition(c: Condition): Json {
    var m := map["type" := JStr(c.ctype), "status" := JStr(c.status),
                 "reason" := JStr(c.reason), "message" := JStr(c.message)];
    JObj(if c.observedGeneration != 0 then m["observedGeneration" := JNum(c.observedGeneration)] else m)
  }

  function EncodeReplicas(st: ReplicaStatus): Json {
    JObj(map["replicas" := JNum(st.replicas), "readyReplicas" := JNum(st.readyReplicas)])
  }

  function Put(m: map<string, Json>, name: string, st: Option<ReplicaStatus>): map<string, Json> {
    if st.Some? then m[name := EncodeReplicas(st.value)] else m
  }

  function EncodeComponents(cs: ComponentStatus): Json {
    JObj(Put(Put(Put(Put(map[], "apiServer", cs.apiServer), "processor", cs.processor), "gc", cs.gc),
             "asyncProcessor", cs.asyncProcessor))
  }

  function EncodeConditions(cs: seq<Condition>): Json {
    JArr(seq(|cs|, i requires 0 <= i < |cs| => EncodeCondition(cs[i])))
  }

  function EncodeStatus(s: GatewayStatus): Json {
    var m := map[];
    var m := if s.observedGeneration != 0 then m["observedGeneration" := JNum(s.observedGeneration)] else m;
    var m := if s.conditions != [] then m["conditions" := EncodeConditions(s.conditions)] else m;
    JObj(if s.componentStatus.Some? then m["componentStatus" := EncodeComponents(s.componentStatus.value)] else m)
  }

  function DecodeNum(j: Json): int {
    if j.JNum? then j.n else 0
  }

  function DecodeStr(j: Json): string {
    if j.JStr? then j.s else ""
  }

  function DecodeCondition(j: Json): Condition {
    Condition(DecodeStr(FieldOf(j, "type")), DecodeStr(FieldOf(j, "status")), DecodeStr(FieldOf(j, "reason")),
              DecodeStr(FieldOf(j, "message")), DecodeNum(FieldOf(j, "observedGeneration")))
  }

  function DecodeReplicas(j: Json): Option<ReplicaStatus> {
    if j.JNull? then None
    else Some(ReplicaStatus(DecodeNum(FieldOf(j, "replicas")), DecodeNum(FieldOf(j, "readyReplicas"))))
  }

  function DecodeComponents(j: Json): Option<ComponentStatus> {
    if j.JNull? then None
    else Some(ComponentStatus(DecodeReplicas(FieldOf(j, "apiServer")), DecodeReplicas(FieldOf(j, "processor")),
                              DecodeReplicas(FieldOf(j, "gc")), DecodeReplicas(FieldOf(j, "asyncProcessor"))))
  }

  function DecodeConditions(j: Json): seq<Condition> {
    if j.JArr? then seq(|j.items|, i requires 0 <= i < |j.items| => DecodeCondition(j.items[i])) else []
  }

  function DecodeStatus(j: Json): GatewayStatus {
    GatewayStatus(DecodeNum(FieldOf(j, "observedGeneration")), DecodeConditions(FieldOf(j, "conditions")),
                  DecodeComponents(FieldOf(j, "componentStatus")))
  }

  lemma ConditionsRoundTrip(cs: seq<Condition>)
    ensures DecodeConditions(EncodeConditions(cs)) == cs
  {
    forall i | 0 <= i < |cs|
      ensures DecodeCondition(EncodeCondition(cs[i])) == cs[i]
    {
    }
  }

  lemma ComponentsRoundTrip(cs: ComponentStatus)
    ensures DecodeComponents(EncodeComponents(cs)) == Some(cs)
  {
    var m := EncodeComponents(cs).fields;
    assert DecodeReplicas(FieldOf(JObj(m), "apiServer")) == cs.apiServer;
    assert DecodeReplicas(FieldOf(JObj(m), "processor")) == cs.processor;
    assert DecodeReplicas(FieldOf(JObj(m), "gc")) == cs.gc;
    assert DecodeReplicas(FieldOf(JObj(m), "asyncProcessor")) == cs.asyncProcessor;
  }

  // The members of the status, each present unless it is empty.
  lemma StatusMembers(s: GatewayStatus)
    ensures var j := EncodeStatus(s);
            && FieldOf(j, "observedGeneration") == (if s.observedGeneration != 0 then JNum(s.observedGeneration) else JNull)
            && FieldOf(j, "conditions") == (if s.conditions != [] then EncodeConditions(s.conditions) else JNull)
            && FieldOf(j, "componentStatus") ==
               (if s.componentStatus.Some? then EncodeComponents(s.componentStatus.value) else JNull)
  {
  }

  /** The JSON form loses nothing. */
  lemma StatusRoundTrip(s: GatewayStatus)
    ensures DecodeStatus(EncodeStatus(s)) == s
  {
    StatusMembers(s);
    ConditionsRoundTrip(s.conditions);
    if s.componentStatus.Some? {
      ComponentsRoundTrip(s.componentStatus.value);
    }
  }
}
