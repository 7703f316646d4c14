/** The indexer's batch consumer of indexer-service/src/kafka.js: for each
    message of a batch, in order, parse it, index it with retries, fall back
    to the dead-letter topic, then resolve its offset, commit and heartbeat;
    plus the `isRunning` flag behind `startConsumer` and `shutdown`. */
module IndexerConsumer {
  import opened JsValues
  import opened Delivery

  const ConsumerSource: string := "indexer-service"
  const EmptyValueError: string := "Kafka message value is empty"
  /** The message of the TypeError raised by reading `patientId` of null. */
  const NullPatientIdError: string := "Cannot read properties of null (reading 'patientId')"
  const DefaultIndexError: string := "Indexing failure"

  /** A broker message: its key and value as UTF-8 text (None for a null
      key or value) and its offset. */
  datatype KafkaMessage = KafkaMessage(key: Option<string>, value: Option<string>, offset: int)

  /** Scripted behaviour around one message: the two liveness probes, the
      outcomes of the three index attempts, of the dead-letter send made
      after the retries run out, and of the dead-letter send made by the
      outer `catch`. */
  datatype MessageScript = MessageScript(
    running: bool, stale: bool, index: Attempts, firstDlq: Outcome, secondDlq: Outcome)

  datatype Entry = Entry(message: KafkaMessage, script: MessageScript)

  /** The loop goes on with this message: `consumerIsRunning() && !isStale()`. */
  predicate Live(e: Entry) {
    e.script.running && !e.script.stale
  }

  /** `parseMessageValue`: a null value is rejected, anything else goes to
      `JSON.parse` (so an empty value fails to parse). */
  function ParseMessageValue(value: Option<string>, parse: JsonParser): (r: Result<Json, string>)
    ensures value.None? ==> r == Err(EmptyValueError)
    ensures value.Some? ==> r == parse(value.value)
  {
    match value
    case None => Err(EmptyValueError)
    case Some(text) => parse(text)
  }

  /** `message.value?.toString('utf8') || ''`. */
  function Raw(value: Option<string>): string {
    if value.Some? then value.value else ""
  }

  /** `message.key?.toString('utf8')` as a message key. */
  function KeyOf(key: Option<string>): Option<Json> {
    if key.Some? then Some(JStr(key.value)) else None
  }

  /** `event.patientId || message.key?.toString('utf8')`: reading a property
      of null throws; other non-objects have no `patientId`. */
  function DlqKey(event: Json, messageKey: Option<string>): Result<Option<Json>, string> {
    if event == JNull then Err(NullPatientIdError)
    else if Present(Get(event, "patientId")) then Ok(Get(event, "patientId"))
    else Ok(KeyOf(messageKey))
  }

  /** `lastError?.message || 'Indexing failure'`. */
  function Reason(lastError: string): string {
    if lastError == "" then DefaultIndexError else lastError
  }

  /** `buildDlqPayload` wrapped in the dead-letter record the consumer sends. */
  function DeadLetter(original: Json, errorMessage: string, key: Option<Json>): BrokerMessage {
    BrokerMessage(key, DeadLetterPayload(original, errorMessage), ConsumerSource, "1")
  }

  /** The index calls and delays of one message: the retry loop when the
      value parsed, nothing otherwise. */
  function Tries(m: KafkaMessage, script: MessageScript, parse: JsonParser): seq<Effect> {
    match ParseMessageValue(m.value, parse)
    case Err(_) => []
    case Ok(event) => RetryTrace(Index(event), script.index, AttemptsMade(script.index))
  }

  /** What the outer `try` block sends to the dead-letter topic (at most one
      record), and the message of the error it throws, if any. */
  datatype TryOutcome = TryOutcome(records: seq<(BrokerMessage, Outcome)>, caught: Option<string>)

  function TryBlock(m: KafkaMessage, script: MessageScript, parse: JsonParser): TryOutcome {
    match ParseMessageValue(m.value, parse)
    case Err(e) => TryOutcome([], Some(e))
    case Ok(event) =>
      match RetryOutcome(script.index)
      case Succeeded => TryOutcome([], None)
      case Failed(lastError) =>
        match DlqKey(event, m.key)
        case Err(e) => TryOutcome([], Some(e))
        case Ok(key) =>
          TryOutcome([(DeadLetter(event, Reason(lastError), key), script.firstDlq)],
                     if script.firstDlq.Succeeded? then None else Some(script.firstDlq.message))
  }

  /** The record the `catch` block sends: the raw text and the caught
      error's message, keyed by the message key. */
  function RawDeadLetter(m: KafkaMessage, error: string): BrokerMessage {
    DeadLetter(JStr(Raw(m.value)), error, KeyOf(m.key))
  }

  /** Every record one message sends to the dead-letter topic, in order. */
  function DeadLetters(m: KafkaMessage, script: MessageScript, parse: JsonParser): seq<(BrokerMessage, Outcome)> {
    var t := TryBlock(m, script, parse);
    match t.caught
    case None => t.records
    case Some(error) => t.records + [(RawDeadLetter(m, error), script.secondDlq)]
  }

  /** The error that escapes the batch: the `catch` block's own send threw. */
  function Escape(m: KafkaMessage, script: MessageScript, parse: JsonParser): Option<string> {
    if TryBlock(m, script, parse).caught.Some? && script.secondDlq.Failed? then Some(script.secondDlq.message) else None
  }

  /** The broker calls that send `records` to `topic`, in order. */
  function SendCalls(topic: string, records: seq<(BrokerMessage, Outcome)>): (t: seq<Effect>)
    ensures |t| == |records|
  {
    if records == [] then [] else [Call(Send(topic, records[0].0), records[0].1)] + SendCalls(topic, records[1..])
  }

  /** The effects of handling one message, and the error that escapes the
      batch, if the `catch` block's own dead-letter send throws. */
  datatype Handled = Handled(effects: seq<Effect>, escaped: Option<string>)

  /** One message, from parse to the end of the `catch` block. */
  function Handle(m: KafkaMessage, script: MessageScript, dlqTopic: string, parse: JsonParser): Handled {
    Handled(Tries(m, script, parse) + SendCalls(dlqTopic, DeadLetters(m, script, parse)), Escape(m, script, parse))
  }

  /** The effects that end the handling of a message that did not escape. */
  function Acknowledge(offset: int): seq<Effect> {
    [ResolveOffset(offset), Commit, Heartbeat]
  }

  /** How a batch ended: every message handled, the loop left at the first
      message that failed the liveness check, or the handler threw at a
      message. */
  datatype BatchEnd = Completed | Stopped(at: nat) | Crashed(at: nat, error: string)

  /** The end of a batch seen from `k` messages earlier. */
  function Shift(end: BatchEnd, k: nat): (r: BatchEnd)
    ensures k == 0 ==> r == end
  {
    match end
    case Completed => Completed
    case Stopped(at) => Stopped(at + k)
    case Crashed(at, error) => Crashed(at + k, error)
  }

  /** Number of messages whose offset was resolved. */
  function Acked(end: BatchEnd, size: nat): nat {
    match end
    case Completed => size
    case Stopped(at) => at
    case Crashed(at, _) => at
  }

  /** The handling of each message of a batch, had the loop reached it. */
  function Handlings(batch: seq<Entry>, dlqTopic: string, parse: JsonParser): (hs: seq<Handled>) {
    seq(|batch|, i requires 0 <= i < |batch| => Handle(batch[i].message, batch[i].script, dlqTopic, parse))
  }

  /** The loop over a batch, given how each message is handled: stop at
      the first message that fails the liveness check, end the batch at a
      handling that escapes, and acknowledge every other message. */
  function RunSteps(batch: seq<Entry>, hs: seq<Handled>): (r: (seq<Effect>, BatchEnd))
    requires |hs| == |batch|
    ensures r.1.Completed? ==> forall i :: 0 <= i < |batch| ==> Live(batch[i]) && hs[i].escaped.None?
    ensures r.1.Stopped? ==>
      && r.1.at < |batch| && !Live(batch[r.1.at])
      && forall i :: 0 <= i < r.1.at ==> Live(batch[i]) && hs[i].escaped.None?
    ensures r.1.Crashed? ==>
      && r.1.at < |batch| && Live(batch[r.1.at]) && hs[r.1.at].escaped == Some(r.1.error)
      && forall i :: 0 <= i < r.1.at ==> Live(batch[i]) && hs[i].escaped.None?
    decreases |batch|
  {
    if batch == [] then ([], Completed)
    else if !Live(batch[0]) then ([], Stopped(0))
    else if hs[0].escaped.Some? then (hs[0].effects, Crashed(0, hs[0].escaped.value))
    else
      var rest := RunSteps(batch[1..], hs[1..]);
      (hs[0].effects + Acknowledge(batch[0].message.offset) + rest.0, Shift(rest.1, 1))
  }

  /** The `eachBatch` handler as a function of the batch. */
  function RunBatch(batch: seq<Entry>, dlqTopic: string, parse: JsonParser): (seq<Effect>, BatchEnd) {
    RunSteps(batch, Handlings(batch, dlqTopic, parse))
  }

  /** One message of `eachBatch`: the parse, the inline retry loop around
      `indexEvent`, the dead-letter send after exhaustion, and the `catch`
      block's dead-letter send of the raw text. */
  method HandleMessage(m: KafkaMessage, script: MessageScript, dlqTopic: string, parse: JsonParser)
    returns (effects: seq<Effect>, escaped: Option<string>)
    ensures Handled(effects, escaped) == Handle(m, script, dlqTopic, parse)
  {
    effects := [];
    ghost var records: seq<(BrokerMessage, Outcome)> := [];
    var caught: Option<string> := None;
    var parsed := ParseMessageValue(m.value, parse);
    if parsed.Err? {
      caught := Some(parsed.error);
    } else {
      var event := parsed.value;
      var indexed, tries := WithRetries(Index(event), script.index);
      effects := tries;
      if indexed.Failed? {
        var key := DlqKey(event, m.key);
        if key.Err? {
          caught := Some(key.error);
        } else {
          var record := DeadLetter(event, Reason(indexed.message), key.value);
          effects := effects + [Call(Send(dlqTopic, record), script.firstDlq)];
          records := [(record, script.firstDlq)];
          if script.firstDlq.Failed? {
            caught := Some(script.firstDlq.message);
          }
        }
      }
    }
    assert TryBlock(m, script, parse) == TryOutcome(records, caught);
    assert effects == Tries(m, script, parse) + SendCalls(dlqTopic, records);
    escaped := None;
    if caught.Some? {
      var record := RawDeadLetter(m, caught.value);
      SendCallsAppend(dlqTopic, records, [(record, script.secondDlq)]);
      effects := effects + [Call(Send(dlqTopic, record), script.secondDlq)];
      if script.secondDlq.Failed? {
        escaped := Some(script.secondDlq.message);
      }
    }
  }

  /** `RunSteps` on the suffix of `batch` from message `i`, one step. */
  lemma RunStepsFrom(batch: seq<Entry>, hs: seq<Handled>, i: nat)
    requires |hs| == |batch| && i < |batch|
    ensures var rest := RunSteps(batch[i + 1..], hs[i + 1..]);
      RunSteps(batch[i..], hs[i..])
        == if !Live(batch[i]) then ([], Stopped(0))
           else if hs[i].escaped.Some? then (hs[i].effects, Crashed(0, hs[i].escaped.value))
           else (hs[i].effects + Acknowledge(batch[i].message.offset) + rest.0, Shift(rest.1, 1))
  {
    assert batch[i..][0] == batch[i];
    assert batch[i..][1..] == batch[i + 1..];
    assert hs[i..][1..] == hs[i + 1..];
  }

  /** The loop invariant of `EachBatch`: the batch's run is what has been
      emitted so far followed by the run of the rest. */
  ghost predicate WalkedTo(batch: seq<Entry>, hs: seq<Handled>, i: nat, trace: seq<Effect>)
    requires |hs| == |batch| && i <= |batch|
  {
    RunSteps(batch, hs) == (trace + RunSteps(batch[i..], hs[i..]).0, Shift(RunSteps(batch[i..], hs[i..]).1, i))
  }

  lemma WalkStart(batch: seq<Entry>, hs: seq<Handled>)
    requires |hs| == |batch|
    ensures WalkedTo(batch, hs, 0, [])
  {
    assert batch[0..] == batch && hs[0..] == hs;
    assert [] + RunSteps(batch, hs).0 == RunSteps(batch, hs).0;
  }

  lemma WalkStop(batch: seq<Entry>, hs: seq<Handled>, i: nat, trace: seq<Effect>)
    requires |hs| == |batch| && i < |batch| && WalkedTo(batch, hs, i, trace)
    requires !Live(batch[i])
    ensures RunSteps(batch, hs) == (trace, Stopped(i))
  {
    RunStepsFrom(batch, hs, i);
    assert trace + [] == trace;
  }

  lemma WalkCrash(batch: seq<Entry>, hs: seq<Handled>, i: nat, trace: seq<Effect>)
    requires |hs| == |batch| && i < |batch| && WalkedTo(batch, hs, i, trace)
    requires Live(batch[i]) && hs[i].escaped.Some?
    ensures RunSteps(batch, hs) == (trace + hs[i].effects, Crashed(i, hs[i].escaped.value))
  {
    RunStepsFrom(batch, hs, i);
  }

  lemma WalkStep(batch: seq<Entry>, hs: seq<Handled>, i: nat, trace: seq<Effect>)
    requires |hs| == |batch| && i < |batch| && WalkedTo(batch, hs, i, trace)
    requires Live(batch[i]) && hs[i].escaped.None?
    ensures WalkedTo(batch, hs, i + 1, trace + hs[i].effects + Acknowledge(batch[i].message.offset))
  {
    RunStepsFrom(batch, hs, i);
    var rest := RunSteps(batch[i + 1..], hs[i + 1..]);
    assert Shift(Shift(rest.1, 1), i) == Shift(rest.1, i + 1);
    assert trace + (hs[i].effects + Acknowledge(batch[i].message.offset) + rest.0)
        == trace + hs[i].effects + Acknowledge(batch[i].message.offset) + rest.0;
  }

  lemma WalkEnd(batch: seq<Entry>, hs: seq<Handled>, trace: seq<Effect>)
    requires |hs| == |batch| && WalkedTo(batch, hs, |batch|, trace)
    ensures RunSteps(batch, hs) == (trace, Completed)
  {
    assert batch[|batch|..] == [] && hs[|batch|..] == [];
    assert trace + [] == trace;
  }

  /** The `eachBatch` loop: stop at the first message that fails the
      liveness check; after each handled message resolve its offset, commit
      and heartbeat; a handler error ends the batch. */
  method EachBatch(batch: seq<Entry>, dlqTopic: string, parse: JsonParser) returns (trace: seq<Effect>, end: BatchEnd)
    ensures (trace, end) == RunBatch(batch, dlqTopic, parse)
  {
    ghost var hs := Handlings(batch, dlqTopic, parse);
    trace := [];
    var i := 0;
    WalkStart(batch, hs);
    while i < |batch|
      invariant 0 <= i <= |batch|
      invariant WalkedTo(batch, hs, i, trace)
    {
      var entry := batch[i];
      if !Live(entry) {
        WalkStop(batch, hs, i, trace);
        return trace, Stopped(i);
      }
      var effects, escaped := HandleMessage(entry.message, entry.script, dlqTopic, parse);
      assert hs[i] == Handled(effects, escaped);
      if escaped.Some? {
        WalkCrash(batch, hs, i, trace);
        return trace + effects, Crashed(i, escaped.value);
      }
      WalkStep(batch, hs, i, trace);
      trace := trace + effects + Acknowledge(entry.message.offset);
      i := i + 1;
    }
    WalkEnd(batch, hs, trace);
    end := Completed;
  }

  /** Acknowledging a message resolves its offset and nothing else. */
  lemma AcknowledgeResolves(offset: int)
    ensures Resolved(Acknowledge(offset)) == [offset]
  {
    ResolvedAppend([ResolveOffset(offset)], [Commit, Heartbeat]);
    ResolvedAppend([Commit], [Heartbeat]);
    assert [Commit] + [Heartbeat] == [Commit, Heartbeat];
    assert Acknowledge(offset) == [ResolveOffset(offset)] + [Commit, Heartbeat];
  }

  lemma {:induction false} SendCallsAppend(topic: string, a: seq<(BrokerMessage, Outcome)>, b: seq<(BrokerMessage, Outcome)>)
    ensures SendCalls(topic, a + b) == SendCalls(topic, a) + SendCalls(topic, b)
  {
    if a != [] {
      assert (a + b)[1..] == a[1..] + b;
      SendCallsAppend(topic, a[1..], b);
    } else {
      assert a + b == b;
    }
  }

  /** Dead-letter sends resolve no offset and make no delay. */
  lemma {:induction false} SendCallsQuiet(topic: string, records: seq<(BrokerMessage, Outcome)>)
    ensures Resolved(SendCalls(topic, records)) == []
    ensures Delays(SendCalls(topic, records)) == []
  {
    if records != [] {
      SendCallsQuiet(topic, records[1..]);
    }
  }

  /** Dead-letter sends make no index call. */
  lemma {:induction false} SendCallsIndexNothing(topic: string, records: seq<(BrokerMessage, Outcome)>, op: Operation)
    requires op.Index?
    ensures IndexCalls(SendCalls(topic, records)) == []
    ensures OutcomesOf(SendCalls(topic, records), op) == []
  {
    if records != [] {
      SendCallsIndexNothing(topic, records[1..], op);
    }
  }

  /** The sends to the dead-letter topic are the records, in order. */
  lemma {:induction false} SendCallsSends(topic: string, records: seq<(BrokerMessage, Outcome)>)
    ensures SendsTo(SendCalls(topic, records), topic) == records
  {
    if records != [] {
      SendCallsSends(topic, records[1..]);
      assert records == [records[0]] + records[1..];
    }
  }

  /** No handling of a message resolves an offset. */
  lemma HandleResolvesNothing(m: KafkaMessage, script: MessageScript, dlqTopic: string, parse: JsonParser)
    ensures Resolved(Handle(m, script, dlqTopic, parse).effects) == []
  {
    var records := DeadLetters(m, script, parse);
    ResolvedAppend(Tries(m, script, parse), SendCalls(dlqTopic, records));
    SendCallsQuiet(dlqTopic, records);
    if ParseMessageValue(m.value, parse).Ok? {
      RetryResolvesNothing(Index(ParseMessageValue(m.value, parse).value), script.index, AttemptsMade(script.index));
    }
  }

  /** The records a message sends to the dead-letter topic are exactly the
      sends to that topic among its effects. */
  lemma HandleSends(m: KafkaMessage, script: MessageScript, dlqTopic: string, parse: JsonParser)
    ensures SendsTo(Handle(m, script, dlqTopic, parse).effects, dlqTopic) == DeadLetters(m, script, parse)
  {
    var records := DeadLetters(m, script, parse);
    SendsToAppend(Tries(m, script, parse), SendCalls(dlqTopic, records), dlqTopic);
    SendCallsSends(dlqTopic, records);
    if ParseMessageValue(m.value, parse).Ok? {
      RetrySends(Index(ParseMessageValue(m.value, parse).value), script.index, AttemptsMade(script.index), dlqTopic);
    }
  }

  /** The offsets resolved during a batch are those of the handled prefix,
      each once and in batch order: all of them when the batch completed,
      none from the first message that failed the liveness check onwards,
      and none for the message whose handling threw. */
  lemma {:induction false} StepsResolveHandledPrefix(batch: seq<Entry>, hs: seq<Handled>)
    requires |hs| == |batch|
    requires forall i :: 0 <= i < |hs| ==> Resolved(hs[i].effects) == []
    ensures Acked(RunSteps(batch, hs).1, |batch|) <= |batch|
    ensures Resolved(RunSteps(batch, hs).0) == Offsets(batch, Acked(RunSteps(batch, hs).1, |batch|))
    decreases |batch|
  {
    if batch != [] && Live(batch[0]) && hs[0].escaped.None? {
      var rest := RunSteps(batch[1..], hs[1..]);
      StepsResolveHandledPrefix(batch[1..], hs[1..]);
      ResolvedStep(hs[0].effects, batch[0].message.offset, rest.0);
      OffsetsCons(batch, Acked(rest.1, |batch| - 1));
    }
  }

  /** The offsets resolved during a batch are those of the handled prefix,
      each once and in batch order: all of them when the batch completed,
      none from the first message that failed the liveness check onwards,
      and none for the message whose handling threw. */
  lemma BatchResolvesHandledPrefix(batch: seq<Entry>, dlqTopic: string, parse: JsonParser)
    ensures Acked(RunBatch(batch, dlqTopic, parse).1, |batch|) <= |batch|
    ensures Resolved(RunBatch(batch, dlqTopic, parse).0) == Offsets(batch, Acked(RunBatch(batch, dlqTopic, parse).1, |batch|))
  {
    var hs := Handlings(batch, dlqTopic, parse);
    forall i | 0 <= i < |hs| ensures Resolved(hs[i].effects) == [] {
      HandleResolvesNothing(batch[i].message, batch[i].script, dlqTopic, parse);
    }
    StepsResolveHandledPrefix(batch, hs);
  }

  /** A batch stops at the first message that fails the liveness check:
      every message before it was live; a completed batch was live
      throughout. */
  lemma BatchStopsAtFirstNotLive(batch: seq<Entry>, dlqTopic: string, parse: JsonParser)
    ensures var end := RunBatch(batch, dlqTopic, parse).1;
      && (end.Completed? ==> forall i :: 0 <= i < |batch| ==> Live(batch[i]))
      && (end.Stopped? ==> end.at < |batch| && !Live(batch[end.at]) && forall i :: 0 <= i < end.at ==> Live(batch[i]))
  {
  }

  /** A batch that ends early at a live message does so because that
      message's handling escaped, with that error. */
  lemma BatchCrashesOnEscape(batch: seq<Entry>, dlqTopic: string, parse: JsonParser)
    requires RunBatch(batch, dlqTopic, parse).1.Crashed?
    ensures var end := RunBatch(batch, dlqTopic, parse).1;
      && end.at < |batch| && (forall i :: 0 <= i <= end.at ==> Live(batch[i]))
      && Handle(batch[end.at].message, batch[end.at].script, dlqTopic, parse).escaped == Some(end.error)
  {
  }

  /** The offsets of the first `k` messages of `batch`. */
  function Offsets(batch: seq<Entry>, k: nat): (r: seq<int>)
    requires k <= |batch|
    ensures |r| == k && forall i :: 0 <= i < k ==> r[i] == batch[i].message.offset
  {
    seq(k, i requires 0 <= i < k => batch[i].message.offset)
  }

  lemma OffsetsCons(batch: seq<Entry>, k: nat)
    requires k + 1 <= |batch|
    ensures Offsets(batch, k + 1) == [batch[0].message.offset] + Offsets(batch[1..], k)
  {
  }

  /** A handled message followed by its acknowledgement adds exactly its
      offset to the resolved offsets. */
  lemma ResolvedStep(effects: seq<Effect>, offset: int, rest: seq<Effect>)
    requires Resolved(effects) == []
    ensures Resolved(effects + Acknowledge(offset) + rest) == [offset] + Resolved(rest)
  {
    ResolvedAppend(effects, Acknowledge(offset));
    ResolvedAppend(effects + Acknowledge(offset), rest);
    AcknowledgeResolves(offset);
  }

  /** For a parsed message, `indexEvent` is called with the parsed event at
      most three times, every call but the last failed, and it is not called
      again after a success; an unparseable or empty message is never
      indexed. */
  lemma HandleIndexing(m: KafkaMessage, script: MessageScript, dlqTopic: string, parse: JsonParser)
    ensures var h := Handle(m, script, dlqTopic, parse);
      match ParseMessageValue(m.value, parse)
      case Err(_) => IndexCalls(h.effects) == []
      case Ok(event) =>
        && IndexCalls(h.effects) == script.index[..AttemptsMade(script.index)]
        && OutcomesOf(h.effects, Index(event)) == script.index[..AttemptsMade(script.index)]
  {
    var tries := Tries(m, script, parse);
    var sends := SendCalls(dlqTopic, DeadLetters(m, script, parse));
    IndexCallsAppend(tries, sends);
    match ParseMessageValue(m.value, parse)
    case Err(_) =>
      SendCallsIndexNothing(dlqTopic, DeadLetters(m, script, parse), Index(JNull));
    case Ok(event) =>
      var n := AttemptsMade(script.index);
      RetryIndexCalls(Index(event), script.index, n);
      RetryCalls(Index(event), script.index, n);
      OutcomesOfAppend(tries, sends, Index(event));
      SendCallsIndexNothing(dlqTopic, DeadLetters(m, script, parse), Index(event));
  }

  /** Before index retry `k` the handler waits `300*k` ms, and not after the
      last attempt; an unparseable message causes no wait. */
  lemma HandleBackoff(m: KafkaMessage, script: MessageScript, dlqTopic: string, parse: JsonParser)
    ensures var h := Handle(m, script, dlqTopic, parse);
      var waits := if ParseMessageValue(m.value, parse).Ok? then AttemptsMade(script.index) - 1 else 0;
      Delays(h.effects) == seq(waits, i requires 0 <= i < waits => Backoff(i + 1))
  {
    DelaysAppend(Tries(m, script, parse), SendCalls(dlqTopic, DeadLetters(m, script, parse)));
    SendCallsQuiet(dlqTopic, DeadLetters(m, script, parse));
    if ParseMessageValue(m.value, parse).Ok? {
      RetryBackoff(Index(ParseMessageValue(m.value, parse).value), script.index, AttemptsMade(script.index));
    }
  }

  /** When an index attempt succeeds, no dead-letter record is sent and
      nothing escapes. */
  lemma HandleSuccessSkipsDeadLetter(m: KafkaMessage, script: MessageScript, dlqTopic: string, parse: JsonParser)
    requires ParseMessageValue(m.value, parse).Ok?
    requires RetryOutcome(script.index).Succeeded?
    ensures SendsTo(Handle(m, script, dlqTopic, parse).effects, dlqTopic) == []
    ensures Handle(m, script, dlqTopic, parse).escaped.None?
  {
    HandleSends(m, script, dlqTopic, parse);
  }

  /** When all three index attempts fail on a parsed event that is not
      null, one dead-letter record is sent that holds the event and the last
      error's message, keyed by the event's patient id or else by the
      message key; only when that send throws does the `catch` block send a
      second record, holding the raw text and the send's error. */
  lemma HandleExhaustion(m: KafkaMessage, script: MessageScript, dlqTopic: string, parse: JsonParser)
    requires ParseMessageValue(m.value, parse).Ok?
    requires ParseMessageValue(m.value, parse).value != JNull
    requires forall i :: 0 <= i < MaxAttempts ==> script.index[i].Failed?
    ensures var event := ParseMessageValue(m.value, parse).value;
      var key := if Present(Get(event, "patientId")) then Get(event, "patientId") else KeyOf(m.key);
      var sends := SendsTo(Handle(m, script, dlqTopic, parse).effects, dlqTopic);
      && |sends| == (if script.firstDlq.Succeeded? then 1 else 2)
      && sends[0] == (DeadLetter(event, Reason(script.index[MaxAttempts - 1].message), key), script.firstDlq)
      && Get(sends[0].0.value, "originalMessage") == Some(event)
      && (script.firstDlq.Failed? ==> sends[1] == (RawDeadLetter(m, script.firstDlq.message), script.secondDlq))
  {
    HandleSends(m, script, dlqTopic, parse);
  }

  /** When all three index attempts fail on a message whose value is the
      JSON text `null`, reading `patientId` of the event throws before any
      send: the only dead-letter record is the `catch` block's, holding the
      raw text and that TypeError's message, keyed by the message key; the
      event itself is never dead-lettered. */
  lemma HandleExhaustedNull(m: KafkaMessage, script: MessageScript, dlqTopic: string, parse: JsonParser)
    requires ParseMessageValue(m.value, parse) == Ok(JNull)
    requires forall i :: 0 <= i < MaxAttempts ==> script.index[i].Failed?
    ensures var h := Handle(m, script, dlqTopic, parse);
      && SendsTo(h.effects, dlqTopic) == [(RawDeadLetter(m, NullPatientIdError), script.secondDlq)]
      && IndexCalls(h.effects) == script.index
      && (h.escaped.None? <==> script.secondDlq.Succeeded?)
  {
    HandleSends(m, script, dlqTopic, parse);
    HandleIndexing(m, script, dlqTopic, parse);
    assert script.index[..AttemptsMade(script.index)] == script.index;
  }

  /** A null value or one that fails to parse produces a single dead-letter
      send of the raw text (empty for a null value), keyed by the message
      key, and no index call. */
  lemma HandleUnparseable(m: KafkaMessage, script: MessageScript, dlqTopic: string, parse: JsonParser)
    requires ParseMessageValue(m.value, parse).Err?
    ensures var h := Handle(m, script, dlqTopic, parse);
      var error := ParseMessageValue(m.value, parse).error;
      && h.effects == [Call(Send(dlqTopic, DeadLetter(JStr(Raw(m.value)), error, KeyOf(m.key))), script.secondDlq)]
      && (h.escaped.None? <==> script.secondDlq.Succeeded?)
  {
    var records := DeadLetters(m, script, parse);
    assert SendCalls(dlqTopic, records) == [Call(Send(dlqTopic, records[0].0), records[0].1)] + SendCalls(dlqTopic, []);
  }

  /** Exactly one terminal outcome per message that does not escape: either
      one index call succeeded or one dead-letter record was delivered,
      never both; when the handling escapes, neither happened. */
  lemma HandleExactlyOneOutcome(m: KafkaMessage, script: MessageScript, dlqTopic: string, parse: JsonParser)
    ensures var h := Handle(m, script, dlqTopic, parse);
      Successes(IndexCalls(h.effects)) + Delivered(SendsTo(h.effects, dlqTopic)) == if h.escaped.None? then 1 else 0
  {
    HandleIndexing(m, script, dlqTopic, parse);
    HandleSends(m, script, dlqTopic, parse);
    var records := DeadLetters(m, script, parse);
    var t := TryBlock(m, script, parse);
    if ParseMessageValue(m.value, parse).Ok? {
      SuccessesOfAttempts(script.index);
    }
    if t.caught.Some? {
      CountsAppend([], [], t.records, [(RawDeadLetter(m, t.caught.value), script.secondDlq)]);
    }
  }

  /** Of the attempts a retry loop makes, one succeeded exactly when the
      loop succeeded. */
  lemma SuccessesOfAttempts(outcomes: Attempts)
    ensures Successes(outcomes[..AttemptsMade(outcomes)]) == if RetryOutcome(outcomes).Succeeded? then 1 else 0
  {
    var n := AttemptsMade(outcomes);
    assert outcomes[..1] == [outcomes[0]];
    assert outcomes[..2] == outcomes[..1] + [outcomes[1]];
    CountsAppend(outcomes[..1], [outcomes[1]], [], []);
    if n == 3 {
      assert outcomes[..3] == outcomes[..2] + [outcomes[2]];
      CountsAppend(outcomes[..2], [outcomes[2]], [], []);
    }
  }

  /** The consumer object: topic names and the `isRunning` flag. */
  class KafkaConsumerClient {
    const patientEventsTopic: string
    const dlqTopic: string
    var isRunning: bool

    constructor (patientEventsTopic: string, dlqTopic: string)
      ensures this.patientEventsTopic == patientEventsTopic && this.dlqTopic == dlqTopic
      ensures !isRunning
    {
      this.patientEventsTopic := patientEventsTopic;
      this.dlqTopic := dlqTopic;
      isRunning := false;
    }

    /** `startConsumer`: subscribe, then set the flag; a failed subscription
        throws and leaves the flag alone. */
    method StartConsumer(subscribe: Outcome) returns (result: Outcome, trace: seq<Effect>)
      modifies this
      ensures trace == [Call(Subscribe, subscribe)] && result == subscribe
      ensures isRunning == (old(isRunning) || subscribe.Succeeded?)
    {
      trace := [Call(Subscribe, subscribe)];
      result := subscribe;
      if subscribe.Succeeded? {
        isRunning := true;
      }
    }

    /** `shutdown`: stop the consumer only while the flag is set, and clear
        the flag once it has stopped; unless the stop threw, the consumer,
        producer and admin disconnects are then settled, whatever each does. */
    method Shutdown(stop: Outcome, settled: Outcome) returns (result: Outcome, trace: seq<Effect>)
      modifies this
      ensures old(isRunning) && stop.Failed? ==> trace == [Call(StopConsumer, stop)] && result == stop && isRunning
      ensures old(isRunning) && stop.Succeeded? ==>
        trace == [Call(StopConsumer, stop), Call(DisconnectClients, settled)] && result == Succeeded && !isRunning
      ensures !old(isRunning) ==> trace == [Call(DisconnectClients, settled)] && result == Succeeded && !isRunning
    {
      trace := [];
      if isRunning {
        trace := [Call(StopConsumer, stop)];
        if stop.Failed? {
          return stop, trace;
        }
        isRunning := false;
      }
      trace := trace + [Call(DisconnectClients, settled)];
      result := Succeeded;
    }

    /** `checkHealth`: the metadata query decides. */
    method CheckHealth(fetch: Outcome) returns (healthy: Result<bool, string>, trace: seq<Effect>)
      ensures trace == [Call(FetchMetadata, fetch)]
      ensures healthy.Ok? <==> fetch.Succeeded?
      ensures healthy.Ok? ==> healthy.value
      ensures healthy.Err? ==> healthy.error == fetch.message
    {
      trace := [Call(FetchMetadata, fetch)];
      healthy := if fetch.Succeeded? then Ok(true) else Err(fetch.message);
    }
  }

  /** Once a shutdown has stopped the consumer, a second shutdown makes no
      stop call: it only settles the disconnects again. Had the first stop
      thrown, the second shutdown stops the consumer once more. */
  method ShutdownTwice(c: KafkaConsumerClient, first: Outcome, second: Outcome, settled1: Outcome, settled2: Outcome)
    returns (trace: seq<Effect>)
    requires c.isRunning
    modifies c
    ensures first.Succeeded? ==>
      trace == [Call(StopConsumer, first), Call(DisconnectClients, settled1), Call(DisconnectClients, settled2)]
    ensures first.Failed? ==>
      trace == [Call(StopConsumer, first), Call(StopConsumer, second)]
               + (if second.Succeeded? then [Call(DisconnectClients, settled2)] else [])
    ensures c.isRunning <==> first.Failed? && second.Failed?
  {
    var _, t1 := c.Shutdown(first, settled1);
    var _, t2 := c.Shutdown(second, settled2);
    trace := t1 + t2;
  }
}
