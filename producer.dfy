/** The publisher of event-producer/src/producer.js: event validation, the
    broker message, the size gate, publishing through the retry combinator
    with a single dead-letter fallback, and the connected flag behind the
    health check. */
module EventProducer {
  import opened JsValues
  import opened Delivery

  const EventTypes: set<string> := {"admission", "lab_result", "vitals", "discharge"}
  const Severities: set<string> := {"normal", "warning", "critical"}
  const RequiredFields: seq<string> := ["patientId", "eventType", "severity", "department", "data", "timestamp"]
  const DefaultMaxMessageBytes: nat := 1000000
  const DefaultSource: string := "patient-api"

  /** Which check of `assertValidEventMessage` threw. */
  datatype EventError =
    | NotAnObject
    | MissingField(field: string)
    | BlankPatientId
    | InvalidEventType
    | InvalidSeverity
    | BlankDepartment
    | DataNotObject
    | InvalidTimestamp

  predicate Has(event: Json, field: string) {
    Get(event, field).Some?
  }

  /** A string whose trimmed form is not empty. */
  predicate NonBlankString(v: Option<Json>) {
    v.Some? && v.value.JStr? && Trim(v.value.s) != ""
  }

  /** A string in `allowed` (`Set.has` is false for anything else). */
  predicate OneOf(v: Option<Json>, allowed: set<string>) {
    v.Some? && v.value.JStr? && v.value.s in allowed
  }

  /** Position of the first of `fields` that `event` lacks, or `|fields|`. */
  function FirstMissing(event: Json, fields: seq<string>): (k: nat)
    ensures k <= |fields|
    ensures forall j :: 0 <= j < k ==> Has(event, fields[j])
    ensures k < |fields| ==> !Has(event, fields[k])
  {
    if fields == [] || !Has(event, fields[0]) then 0 else 1 + FirstMissing(event, fields[1..])
  }

  predicate AllPresent(event: Json) {
    forall f :: f in RequiredFields ==> Has(event, f)
  }

  predicate TimestampParses(event: Json, parseDate: DateParser) {
    Get(event, "timestamp").Some? && parseDate(Get(event, "timestamp").value).Some?
  }

  /** A message the producer accepts: every check passes. */
  predicate ValidEventMessage(event: Json, parseDate: DateParser) {
    && IsObject(event)
    && AllPresent(event)
    && NonBlankString(Get(event, "patientId"))
    && OneOf(Get(event, "eventType"), EventTypes)
    && OneOf(Get(event, "severity"), Severities)
    && NonBlankString(Get(event, "department"))
    && Get(event, "data").Some? && IsObject(Get(event, "data").value)
    && TimestampParses(event, parseDate)
  }

  /** The required fields are all present exactly when none is missing. */
  lemma AllRequiredPresent(event: Json)
    ensures AllPresent(event) <==> FirstMissing(event, RequiredFields) == |RequiredFields|
  {
    var missing := FirstMissing(event, RequiredFields);
    if missing < |RequiredFields| {
      assert RequiredFields[missing] in RequiredFields;
    }
  }

  /** `assertValidEventMessage`: the first failing check, in the order
      object, required fields (patientId, eventType, severity, department,
      data, timestamp), patientId, eventType, severity, department, data,
      timestamp. Each error is raised only when every earlier check passed. */
  function AssertValidEventMessage(event: Json, parseDate: DateParser): (r: Result<(), EventError>)
    ensures r.Ok? <==> ValidEventMessage(event, parseDate)
    ensures r == Err(NotAnObject) <==> !IsObject(event)
    ensures r.Err? && r.error.MissingField? ==>
      IsObject(event) && FirstMissing(event, RequiredFields) < |RequiredFields|
      && r.error.field == RequiredFields[FirstMissing(event, RequiredFields)]
    ensures r == Err(BlankPatientId) ==>
      IsObject(event) && AllPresent(event) && !NonBlankString(Get(event, "patientId"))
    ensures r == Err(InvalidEventType) ==>
      IsObject(event) && AllPresent(event) && NonBlankString(Get(event, "patientId"))
      && !OneOf(Get(event, "eventType"), EventTypes)
    ensures r == Err(InvalidSeverity) ==>
      IsObject(event) && AllPresent(event) && NonBlankString(Get(event, "patientId"))
      && OneOf(Get(event, "eventType"), EventTypes) && !OneOf(Get(event, "severity"), Severities)
    ensures r == Err(BlankDepartment) ==>
      IsObject(event) && AllPresent(event) && NonBlankString(Get(event, "patientId"))
      && OneOf(Get(event, "eventType"), EventTypes) && OneOf(Get(event, "severity"), Severities)
      && !NonBlankString(Get(event, "department"))
    ensures r == Err(DataNotObject) ==>
      IsObject(event) && AllPresent(event) && NonBlankString(Get(event, "patientId"))
      && OneOf(Get(event, "eventType"), EventTypes) && OneOf(Get(event, "severity"), Severities)
      && NonBlankString(Get(event, "department")) && !IsObject(Get(event, "data").value)
    ensures r == Err(InvalidTimestamp) ==>
      IsObject(event) && AllPresent(event) && NonBlankString(Get(event, "patientId"))
      && OneOf(Get(event, "eventType"), EventTypes) && OneOf(Get(event, "severity"), Severities)
      && NonBlankString(Get(event, "department")) && IsObject(Get(event, "data").value)
      && !TimestampParses(event, parseDate)
  {
    var missing := FirstMissing(event, RequiredFields);
    AllRequiredPresent(event);
    assert AllPresent(event) ==> Has(event, "data") && Has(event, "timestamp") by {
      assert "data" in RequiredFields && "timestamp" in RequiredFields;
    }
    if !IsObject(event) then Err(NotAnObject)
    else if missing < |RequiredFields| then Err(MissingField(RequiredFields[missing]))
    else if !NonBlankString(Get(event, "patientId")) then Err(BlankPatientId)
    else if !OneOf(Get(event, "eventType"), EventTypes) then Err(InvalidEventType)
    else if !OneOf(Get(event, "severity"), Severities) then Err(InvalidSeverity)
    else if !NonBlankString(Get(event, "department")) then Err(BlankDepartment)
    else if !IsObject(Get(event, "data").value) then Err(DataNotObject)
    else if parseDate(Get(event, "timestamp").value).None? then Err(InvalidTimestamp)
    else Ok(())
  }

  /** `buildMessage`: keyed by the patient id, the event as value, headers
      `{source, version: '1'}`. */
  function BuildMessage(event: Json, source: string): BrokerMessage {
    BrokerMessage(Get(event, "patientId"), event, source, "1")
  }

  /** The dead-letter message the producer sends after the retries run out. */
  function DeadLetterMessage(event: Json, errorMessage: string, source: string): BrokerMessage {
    BrokerMessage(Get(event, "patientId"), DeadLetterPayload(event, errorMessage), source, "1")
  }

  /** `metadata.source || 'patient-api'`. */
  function MessageSource(metadataSource: Option<string>): string {
    if metadataSource.Some? && metadataSource.value != "" then metadataSource.value else DefaultSource
  }

  datatype ConfigError = MaxMessageBytesNotPositiveInteger

  /** `Number(config.kafkaMaxMessageBytes || 1000000)`, rejected unless a
      positive integer. */
  function ResolveMaxMessageBytes(configured: Option<Json>, ofString: StringToInteger): (r: Result<nat, ConfigError>)
    ensures r.Ok? ==> r.value > 0
    ensures !Present(configured) ==> r == Ok(DefaultMaxMessageBytes)
    ensures Present(configured) ==>
      (r.Ok? <==> NumberInteger(configured.value, ofString).Some? && NumberInteger(configured.value, ofString).value > 0)
    ensures Present(configured) && r.Ok? ==> r.value == NumberInteger(configured.value, ofString).value
  {
    var raw := if Present(configured) then configured.value else JNum(DefaultMaxMessageBytes);
    match NumberInteger(raw, ofString)
    case Some(n) => if n > 0 then Ok(n) else Err(MaxMessageBytesNotPositiveInteger)
    case None => Err(MaxMessageBytesNotPositiveInteger)
  }

  datatype ProducerConfig = ProducerConfig(topic: string, dlqTopic: string, maxMessageBytes: nat)

  /** The runtime functions the publish path relies on. */
  datatype Runtime = Runtime(parseDate: DateParser, byteSize: ByteSize)

  /** Scripted broker behaviour for one publish: the three main-topic
      attempts and the single dead-letter send. */
  datatype PublishScript = PublishScript(main: Attempts, dlq: Outcome)

  datatype PublishResult =
    | Published
    | Rejected(error: EventError)
    | Oversize(size: nat)
    | PublishFailed(message: string)

  /** `publishPatientEvent` as a function of its inputs: validate, build,
      size gate, publish with retries, and on exhaustion one dead-letter
      send followed by re-throwing the publish error (or the dead-letter
      send's own error, when that send throws). */
  function Publish(config: ProducerConfig, event: Json, metadataSource: Option<string>, runtime: Runtime, script: PublishScript)
    : (PublishResult, seq<Effect>)
  {
    match AssertValidEventMessage(event, runtime.parseDate)
    case Err(e) => (Rejected(e), [])
    case Ok(_) =>
      var source := MessageSource(metadataSource);
      var message := BuildMessage(event, source);
      var size := runtime.byteSize(message.value);
      if size > config.maxMessageBytes then (Oversize(size), [])
      else
        var sends := RetryTrace(Send(config.topic, message), script.main, AttemptsMade(script.main));
        match RetryOutcome(script.main)
        case Succeeded => (Published, sends)
        case Failed(publishError) =>
          var dlq := Call(Send(config.dlqTopic, DeadLetterMessage(event, publishError, source)), script.dlq);
          (if script.dlq.Succeeded? then PublishFailed(publishError) else PublishFailed(script.dlq.message), sends + [dlq])
  }

  /** A validation failure or an oversize message is reported before any
      broker call; a message exactly at the limit passes the gate. */
  lemma PublishRejectsLocally(config: ProducerConfig, event: Json, metadataSource: Option<string>, runtime: Runtime, script: PublishScript)
    ensures var (result, trace) := Publish(config, event, metadataSource, runtime, script);
      && (result.Rejected? <==> !ValidEventMessage(event, runtime.parseDate))
      && (result.Oversize? <==> ValidEventMessage(event, runtime.parseDate) && runtime.byteSize(event) > config.maxMessageBytes)
      && (result.Rejected? || result.Oversize? <==> trace == [])
  {
  }

  /** The main-topic sends of a publish: none when it was rejected,
      otherwise one per attempt made, each with the built message. */
  lemma {:induction false} PublishMainSendsShape(config: ProducerConfig, event: Json, metadataSource: Option<string>, runtime: Runtime, script: PublishScript)
    requires config.topic != config.dlqTopic
    ensures var trace := Publish(config, event, metadataSource, runtime, script).1;
      var n := AttemptsMade(script.main);
      SendsTo(trace, config.topic)
        == if trace == [] then []
           else seq(n, i requires 0 <= i < n => (BuildMessage(event, MessageSource(metadataSource)), script.main[i]))
  {
    var (result, trace) := Publish(config, event, metadataSource, runtime, script);
    if trace != [] {
      var source := MessageSource(metadataSource);
      var message := BuildMessage(event, source);
      var n := AttemptsMade(script.main);
      var sends := RetryTrace(Send(config.topic, message), script.main, n);
      RetrySends(Send(config.topic, message), script.main, n, config.topic);
      if RetryOutcome(script.main).Failed? {
        var dlq := Call(Send(config.dlqTopic, DeadLetterMessage(event, RetryOutcome(script.main).message, source)), script.dlq);
        assert trace == sends + [dlq];
        SendsToAppend(sends, [dlq], config.topic);
        assert SendsTo([dlq], config.topic) == [];
      } else {
        assert trace == sends;
      }
    }
  }

  /** Every main-topic send carries the event, keyed by its patient id,
      with the `{source, version: '1'}` headers; at most three are made,
      the attempts stop at the first success, and the publish succeeds
      exactly when one of them was delivered. */
  lemma PublishMainSends(config: ProducerConfig, event: Json, metadataSource: Option<string>, runtime: Runtime, script: PublishScript)
    requires config.topic != config.dlqTopic
    ensures var (result, trace) := Publish(config, event, metadataSource, runtime, script);
      var main := SendsTo(trace, config.topic);
      && |main| <= MaxAttempts
      && (forall i :: 0 <= i < |main| ==>
            main[i].0 == BrokerMessage(Get(event, "patientId"), event, MessageSource(metadataSource), "1")
            && (i < |main| - 1 ==> main[i].1.Failed?))
      && (result == Published <==> Delivered(main) == 1)
  {
    PublishMainSendsShape(config, event, metadataSource, runtime, script);
    DeliveredOfAttempts(BuildMessage(event, MessageSource(metadataSource)), script.main, AttemptsMade(script.main));
  }

  /** Counting the delivered sends of a retried send: one when the retry
      loop succeeded, none otherwise. */
  lemma {:induction false} DeliveredOfAttempts(message: BrokerMessage, outcomes: Attempts, n: nat)
    requires n == AttemptsMade(outcomes)
    ensures Delivered(seq(n, i requires 0 <= i < n => (message, outcomes[i])))
         == if RetryOutcome(outcomes).Succeeded? then 1 else 0
  {
    var s := seq(n, i requires 0 <= i < n => (message, outcomes[i]));
    var s1 := seq(1, i requires 0 <= i < 1 => (message, outcomes[i]));
    var s2 := seq(2, i requires 0 <= i < 2 => (message, outcomes[i]));
    assert s1 == [(message, outcomes[0])];
    assert Delivered(s1) == if outcomes[0].Succeeded? then 1 else 0;
    assert s2 == s1 + [(message, outcomes[1])];
    CountsAppend([], [], s1, [(message, outcomes[1])]);
    if n == 3 {
      assert s == s2 + [(message, outcomes[2])];
      CountsAppend([], [], s2, [(message, outcomes[2])]);
    }
  }

  /** A successful publish sends nothing to the dead-letter topic. */
  lemma PublishSuccessSkipsDeadLetter(config: ProducerConfig, event: Json, metadataSource: Option<string>, runtime: Runtime, script: PublishScript)
    requires config.topic != config.dlqTopic
    requires Publish(config, event, metadataSource, runtime, script).0 == Published
    ensures SendsTo(Publish(config, event, metadataSource, runtime, script).1, config.dlqTopic) == []
  {
    var message := BuildMessage(event, MessageSource(metadataSource));
    RetrySends(Send(config.topic, message), script.main, AttemptsMade(script.main), config.dlqTopic);
  }

  /** The publish of a valid, small enough event whose three sends all
      fail: the three attempts, then the dead-letter send. */
  lemma ExhaustedPublish(config: ProducerConfig, event: Json, metadataSource: Option<string>, runtime: Runtime, script: PublishScript)
    requires ValidEventMessage(event, runtime.parseDate)
    requires runtime.byteSize(event) <= config.maxMessageBytes
    requires forall i :: 0 <= i < MaxAttempts ==> script.main[i].Failed?
    ensures var source := MessageSource(metadataSource);
      var lastError := script.main[MaxAttempts - 1].message;
      Publish(config, event, metadataSource, runtime, script)
        == (PublishFailed(if script.dlq.Succeeded? then lastError else script.dlq.message),
            RetryTrace(Send(config.topic, BuildMessage(event, source)), script.main, MaxAttempts)
            + [Call(Send(config.dlqTopic, DeadLetterMessage(event, lastError, source)), script.dlq)])
  {
    assert AssertValidEventMessage(event, runtime.parseDate).Ok?;
    assert AttemptsMade(script.main) == MaxAttempts;
    assert RetryOutcome(script.main) == script.main[MaxAttempts - 1];
  }

  /** When all three main sends fail, exactly one dead-letter send is made,
      not retried: it carries the event as `originalMessage` and the last
      error's message, keyed by the patient id; then the publish error is
      re-thrown, unless the dead-letter send itself threw, whose error then
      replaces it. */
  lemma {:induction false} PublishExhaustion(config: ProducerConfig, event: Json, metadataSource: Option<string>, runtime: Runtime, script: PublishScript)
    requires config.topic != config.dlqTopic
    requires ValidEventMessage(event, runtime.parseDate)
    requires runtime.byteSize(event) <= config.maxMessageBytes
    requires forall i :: 0 <= i < MaxAttempts ==> script.main[i].Failed?
    ensures var (result, trace) := Publish(config, event, metadataSource, runtime, script);
      var lastError := script.main[MaxAttempts - 1].message;
      && |SendsTo(trace, config.topic)| == MaxAttempts
      && SendsTo(trace, config.dlqTopic)
           == [(BrokerMessage(Get(event, "patientId"), DeadLetterPayload(event, lastError), MessageSource(metadataSource), "1"), script.dlq)]
      && Get(SendsTo(trace, config.dlqTopic)[0].0.value, "originalMessage") == Some(event)
      && result == PublishFailed(if script.dlq.Succeeded? then lastError else script.dlq.message)
  {
    var source := MessageSource(metadataSource);
    var message := BuildMessage(event, source);
    var sends := RetryTrace(Send(config.topic, message), script.main, MaxAttempts);
    var dlq := Call(Send(config.dlqTopic, DeadLetterMessage(event, script.main[MaxAttempts - 1].message, source)), script.dlq);
    ExhaustedPublish(config, event, metadataSource, runtime, script);
    RetrySends(Send(config.topic, message), script.main, MaxAttempts, config.topic);
    RetrySends(Send(config.topic, message), script.main, MaxAttempts, config.dlqTopic);
    SendsToAppend(sends, [dlq], config.topic);
    SendsToAppend(sends, [dlq], config.dlqTopic);
  }

  /** Per call, at most one of the two topics receives the event; exactly one
      does unless the retries ran out and the dead-letter send threw too. */
  lemma {:induction false} PublishAtMostOneDestination(config: ProducerConfig, event: Json, metadataSource: Option<string>, runtime: Runtime, script: PublishScript)
    requires config.topic != config.dlqTopic
    ensures var (result, trace) := Publish(config, event, metadataSource, runtime, script);
      var total := Delivered(SendsTo(trace, config.topic)) + Delivered(SendsTo(trace, config.dlqTopic));
      && total <= 1
      && (total == 1 <==> result == Published || (result.PublishFailed? && script.dlq.Succeeded?))
  {
    var (result, trace) := Publish(config, event, metadataSource, runtime, script);
    PublishMainSends(config, event, metadataSource, runtime, script);
    if result == Published {
      PublishSuccessSkipsDeadLetter(config, event, metadataSource, runtime, script);
    } else if result.PublishFailed? {
      PublishExhaustion(config, event, metadataSource, runtime, script);
      var d := SendsTo(trace, config.dlqTopic);
      assert Delivered(d) == (if script.dlq.Succeeded? then 1 else 0) + Delivered(d[1..]);
    }
  }

  /** A sequence of `connect` / `disconnect` calls on one producer. */
  datatype LifecycleCall = ConnectCall(attempts: Attempts) | DisconnectCall(settled: Outcome)

  /** The `isConnected` flag after `history`, starting from a new producer. */
  function ConnectedAfter(history: seq<LifecycleCall>): bool
    decreases |history|
  {
    if history == [] then false
    else
      var last := history[|history| - 1];
      match last
      case DisconnectCall(_) => false
      case ConnectCall(attempts) => ConnectedAfter(history[..|history| - 1]) || RetryOutcome(attempts).Succeeded?
  }

  /** The producer counts as connected exactly when some `connect` succeeded
      with its retries and no `disconnect` came after it. */
  lemma {:induction false} ConnectedAfterSuccessfulConnect(history: seq<LifecycleCall>)
    ensures ConnectedAfter(history) <==>
      exists i :: 0 <= i < |history| && history[i].ConnectCall? && RetryOutcome(history[i].attempts).Succeeded?
        && forall j :: i < j < |history| ==> !history[j].DisconnectCall?
  {
    if history != [] {
      var n := |history| - 1;
      var init := history[..n];
      ConnectedAfterSuccessfulConnect(init);
      if ConnectedAfter(history) {
        if history[n].ConnectCall? && RetryOutcome(history[n].attempts).Succeeded? {
          assert 0 <= n < |history|;
        } else {
          var i :| 0 <= i < |init| && init[i].ConnectCall? && RetryOutcome(init[i].attempts).Succeeded?
            && forall j :: i < j < |init| ==> !init[j].DisconnectCall?;
          assert history[i] == init[i];
          assert forall j :: i < j < |history| ==> !history[j].DisconnectCall? by {
            forall j | i < j < |history| ensures !history[j].DisconnectCall? {
              if j < n { assert history[j] == init[j]; }
            }
          }
        }
      } else {
        forall i | 0 <= i < |history| && history[i].ConnectCall? && RetryOutcome(history[i].attempts).Succeeded?
          ensures exists j :: i < j < |history| && history[j].DisconnectCall?
        {
          if i == n {
            assert false;
          } else if history[n].DisconnectCall? {
            assert i < n;
          } else {
            assert init[i] == history[i];
            var j :| i < j < |init| && init[j].DisconnectCall?;
            assert history[j] == init[j];
          }
        }
      }
    }
  }

  /** The producer object: its configuration and the `isConnected` flag. */
  class PatientEventProducer {
    const config: ProducerConfig
    var isConnected: bool

    /** `createPatientEventProducer`; creation throws unless the configured
        maximum message size resolves to a positive integer. */
    constructor (topic: string, dlqTopic: string, configuredMaxBytes: Option<Json>, ofString: StringToInteger)
      requires ResolveMaxMessageBytes(configuredMaxBytes, ofString).Ok?
      ensures config == ProducerConfig(topic, dlqTopic, ResolveMaxMessageBytes(configuredMaxBytes, ofString).value)
      ensures !isConnected
    {
      config := ProducerConfig(topic, dlqTopic, ResolveMaxMessageBytes(configuredMaxBytes, ofString).value);
      isConnected := false;
    }

    /** `connect`: connect with retries; the flag is set only on success. */
    method Connect(attempts: Attempts) returns (result: Outcome, trace: seq<Effect>)
      modifies this
      ensures result == RetryOutcome(attempts)
      ensures trace == RetryTrace(ConnectClients, attempts, AttemptsMade(attempts))
      ensures isConnected == (old(isConnected) || result.Succeeded?)
    {
      result, trace := WithRetries(ConnectClients, attempts);
      if result.Succeeded? {
        isConnected := true;
      }
    }

    /** `disconnect`: the producer and admin disconnects are settled
        whatever they do, and the flag is cleared. */
    method Disconnect(settled: Outcome) returns (trace: seq<Effect>)
      modifies this
      ensures trace == [Call(DisconnectClients, settled)]
      ensures !isConnected
    {
      trace := [Call(DisconnectClients, settled)];
      isConnected := false;
    }

    /** `checkHealth`: false without a broker call while disconnected;
        otherwise the metadata query decides. */
    method CheckHealth(fetch: Outcome) returns (healthy: Result<bool, string>, trace: seq<Effect>)
      ensures !isConnected ==> healthy == Ok(false) && trace == []
      ensures isConnected ==> trace == [Call(FetchMetadata, fetch)]
      ensures isConnected ==> healthy == if fetch.Succeeded? then Ok(true) else Err(fetch.message)
    {
      if !isConnected {
        return Ok(false), [];
      }
      trace := [Call(FetchMetadata, fetch)];
      healthy := if fetch.Succeeded? then Ok(true) else Err(fetch.message);
    }

    /** `publishPatientEvent`. */
    method PublishPatientEvent(event: Json, metadataSource: Option<string>, runtime: Runtime, script: PublishScript)
      returns (result: PublishResult, trace: seq<Effect>)
      ensures (result, trace) == Publish(config, event, metadataSource, runtime, script)
    {
      var valid := AssertValidEventMessage(event, runtime.parseDate);
      if valid.Err? {
        return Rejected(valid.error), [];
      }
      var source := MessageSource(metadataSource);
      var message := BuildMessage(event, source);
      var size := runtime.byteSize(message.value);
      if size > config.maxMessageBytes {
        return Oversize(size), [];
      }
      var published;
      published, trace := WithRetries(Send(config.topic, message), script.main);
      if published.Failed? {
        var dlqMessage := DeadLetterMessage(event, published.message, source);
        trace := trace + [Call(Send(config.dlqTopic, dlqMessage), script.dlq)];
        if script.dlq.Failed? {
          return PublishFailed(script.dlq.message), trace;
        }
        return PublishFailed(published.message), trace;
      }
      result := Published;
    }
  }

  /** Driving a new producer through `history` leaves its flag equal to
      `ConnectedAfter(history)`, so `checkHealth` reports false unless a
      connect succeeded since the last disconnect. */
  method ReplayLifecycle(p: PatientEventProducer, history: seq<LifecycleCall>)
    requires !p.isConnected
    modifies p
    ensures p.isConnected == ConnectedAfter(history)
  {
    var i := 0;
    while i < |history|
      invariant 0 <= i <= |history|
      invariant p.isConnected == ConnectedAfter(history[..i])
    {
      assert history[..i + 1][..i] == history[..i];
      match history[i] {
        case ConnectCall(attempts) =>
          var _, _ := p.Connect(attempts);
        case DisconnectCall(settled) =>
          var _ := p.Disconnect(settled);
      }
      i := i + 1;
    }
    assert history[..i] == history;
  }
}
