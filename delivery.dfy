/** What both sides of the event-delivery pipeline share: the broker message
    envelope, the dead-letter record, the effect trace a run leaves behind,
    and the bounded retry combinator (3 attempts, a backoff of 300 ms times
    the attempt number between attempts). */
module Delivery {
  import opened JsValues

  const MaxAttempts: nat := 3

  /** The delay after failed attempt `attempt` when another attempt follows. */
  function Backoff(attempt: nat): nat {
    300 * attempt
  }

  /** What one call to a collaborator (a broker send, an index write, a
      connect) did: returned, or threw an error with this message. */
  datatype Outcome = Succeeded | Failed(message: string)

  /** The scripted outcome of each of the three attempts a retry loop may make. */
  type Attempts = s: seq<Outcome> | |s| == MaxAttempts witness [Succeeded, Succeeded, Succeeded]

  /** A message handed to the broker: key, value (the JSON document that is
      serialized), and the `{source, version}` headers. */
  datatype BrokerMessage = BrokerMessage(key: Option<Json>, value: Json, source: string, version: string)

  /** The `{originalMessage, error: {message}}` record sent to the
      dead-letter topic. */
  function DeadLetterPayload(original: Json, errorMessage: string): (p: Json)
    ensures Get(p, "originalMessage") == Some(original)
    ensures Get(p, "error") == Some(JObj([("message", JStr(errorMessage))]))
  {
    var fields := [("originalMessage", original), ("error", JObj([("message", JStr(errorMessage))]))];
    assert Lookup(fields[1..], "error") == Some(fields[1].1);
    JObj(fields)
  }

  /** The calls to collaborators that a run makes. */
  datatype Operation =
    | Send(topic: string, message: BrokerMessage)
    | Index(event: Json)
    | ConnectClients
    | FetchMetadata
    | Subscribe
    | StopConsumer
    /** A `Promise.allSettled` group of client disconnects, seen as one call. */
    | DisconnectClients

  /** One observable step of a run. */
  datatype Effect =
    | Call(op: Operation, outcome: Outcome)
    | Delay(ms: nat)
    | ResolveOffset(offset: int)
    | Commit
    | Heartbeat

  // ---------------------------------------------------------------------
  // Views of a trace

  /** The outcomes of the calls to `op`, in order. */
  function OutcomesOf(t: seq<Effect>, op: Operation): (r: seq<Outcome>)
    ensures |r| <= |t|
  {
    if t == [] then []
    else (if t[0].Call? && t[0].op == op then [t[0].outcome] else []) + OutcomesOf(t[1..], op)
  }

  /** The index calls, in order, whatever event they carry. */
  function IndexCalls(t: seq<Effect>): (r: seq<Outcome>)
    ensures |r| <= |t|
  {
    if t == [] then []
    else (if t[0].Call? && t[0].op.Index? then [t[0].outcome] else []) + IndexCalls(t[1..])
  }

  /** The sends to `topic`: the message and what became of it, in order. */
  function SendsTo(t: seq<Effect>, topic: string): (r: seq<(BrokerMessage, Outcome)>)
    ensures |r| <= |t|
  {
    if t == [] then []
    else
      (if t[0].Call? && t[0].op.Send? && t[0].op.topic == topic then [(t[0].op.message, t[0].outcome)] else [])
      + SendsTo(t[1..], topic)
  }

  /** The delays, in order. */
  function Delays(t: seq<Effect>): (r: seq<nat>)
    ensures |r| <= |t|
  {
    if t == [] then [] else (if t[0].Delay? then [t[0].ms] else []) + Delays(t[1..])
  }

  /** The offsets resolved, in order. */
  function Resolved(t: seq<Effect>): (r: seq<int>)
    ensures |r| <= |t|
  {
    if t == [] then [] else (if t[0].ResolveOffset? then [t[0].offset] else []) + Resolved(t[1..])
  }

  /** Number of outcomes that succeeded. */
  function Successes(os: seq<Outcome>): (n: nat)
    ensures n <= |os|
  {
    if os == [] then 0 else (if os[0].Succeeded? then 1 else 0) + Successes(os[1..])
  }

  /** Number of sends whose outcome succeeded. */
  function Delivered(sends: seq<(BrokerMessage, Outcome)>): (n: nat)
    ensures n <= |sends|
  {
    if sends == [] then 0 else (if sends[0].1.Succeeded? then 1 else 0) + Delivered(sends[1..])
  }

  /** Every view of a trace distributes over concatenation. */
  lemma {:induction false} OutcomesOfAppend(a: seq<Effect>, b: seq<Effect>, op: Operation)
    ensures OutcomesOf(a + b, op) == OutcomesOf(a, op) + OutcomesOf(b, op)
  {
    if a == [] {
      assert a + b == b;
    } else {
      assert (a + b)[0] == a[0];
      assert (a + b)[1..] == a[1..] + b;
      OutcomesOfAppend(a[1..], b, op);
    }
  }

  lemma {:induction false} IndexCallsAppend(a: seq<Effect>, b: seq<Effect>)
    ensures IndexCalls(a + b) == IndexCalls(a) + IndexCalls(b)
  {
    if a == [] {
      assert a + b == b;
    } else {
      assert (a + b)[0] == a[0];
      assert (a + b)[1..] == a[1..] + b;
      IndexCallsAppend(a[1..], b);
    }
  }

  lemma {:induction false} SendsToAppend(a: seq<Effect>, b: seq<Effect>, topic: string)
    ensures SendsTo(a + b, topic) == SendsTo(a, topic) + SendsTo(b, topic)
  {
    if a == [] {
      assert a + b == b;
    } else {
      assert (a + b)[0] == a[0];
      assert (a + b)[1..] == a[1..] + b;
      SendsToAppend(a[1..], b, topic);
    }
  }

  lemma {:induction false} DelaysAppend(a: seq<Effect>, b: seq<Effect>)
    ensures Delays(a + b) == Delays(a) + Delays(b)
  {
    if a == [] {
      assert a + b == b;
    } else {
      assert (a + b)[0] == a[0];
      assert (a + b)[1..] == a[1..] + b;
      DelaysAppend(a[1..], b);
    }
  }

  lemma {:induction false} ResolvedAppend(a: seq<Effect>, b: seq<Effect>)
    ensures Resolved(a + b) == Resolved(a) + Resolved(b)
  {
    if a == [] {
      assert a + b == b;
    } else {
      assert (a + b)[0] == a[0];
      assert (a + b)[1..] == a[1..] + b;
      ResolvedAppend(a[1..], b);
    }
  }

  /** All views at once. */
  lemma ViewsAppend(a: seq<Effect>, b: seq<Effect>, op: Operation, topic: string)
    ensures OutcomesOf(a + b, op) == OutcomesOf(a, op) + OutcomesOf(b, op)
    ensures IndexCalls(a + b) == IndexCalls(a) + IndexCalls(b)
    ensures SendsTo(a + b, topic) == SendsTo(a, topic) + SendsTo(b, topic)
    ensures Delays(a + b) == Delays(a) + Delays(b)
    ensures Resolved(a + b) == Resolved(a) + Resolved(b)
  {
    OutcomesOfAppend(a, b, op);
    IndexCallsAppend(a, b);
    SendsToAppend(a, b, topic);
    DelaysAppend(a, b);
    ResolvedAppend(a, b);
  }

  lemma {:induction false} CountsAppend(a: seq<Outcome>, b: seq<Outcome>, s: seq<(BrokerMessage, Outcome)>, u: seq<(BrokerMessage, Outcome)>)
    ensures Successes(a + b) == Successes(a) + Successes(b)
    ensures Delivered(s + u) == Delivered(s) + Delivered(u)
  {
    if a == [] {
      assert a + b == b;
    } else {
      assert (a + b)[0] == a[0];
      assert (a + b)[1..] == a[1..] + b;
    }
    if s == [] {
      assert s + u == u;
    } else {
      assert (s + u)[0] == s[0];
      assert (s + u)[1..] == s[1..] + u;
    }
    if a != [] || s != [] {
      CountsAppend(if a == [] then a else a[1..], b, if s == [] then s else s[1..], u);
    }
  }

  // ---------------------------------------------------------------------
  // The retry combinator

  /** How many attempts a retry loop makes: up to and including the first
      success, and never more than three. */
  function AttemptsMade(outcomes: Attempts): (n: nat)
    ensures 1 <= n <= MaxAttempts
    ensures forall i :: 0 <= i < n - 1 ==> outcomes[i].Failed?
    ensures n < MaxAttempts ==> outcomes[n - 1].Succeeded?
  {
    if outcomes[0].Succeeded? then 1 else if outcomes[1].Succeeded? then 2 else 3
  }

  /** What the retry loop reports: success when some attempt succeeded,
      otherwise the error of the last attempt. */
  function RetryOutcome(outcomes: Attempts): (r: Outcome)
    ensures r.Succeeded? <==> exists i :: 0 <= i < MaxAttempts && outcomes[i].Succeeded?
    ensures r.Failed? ==> r == outcomes[MaxAttempts - 1]
  {
    outcomes[AttemptsMade(outcomes) - 1]
  }

  /** The effects of the first `n` attempts of a retry loop around `op`:
      each attempt, and the backoff after every attempt but the last. */
  function RetryTrace(op: Operation, outcomes: Attempts, n: nat): (t: seq<Effect>)
    requires 1 <= n <= MaxAttempts
  {
    if n == 1 then [Call(op, outcomes[0])]
    else RetryTrace(op, outcomes, n - 1) + [Delay(Backoff(n - 1)), Call(op, outcomes[n - 1])]
  }

  /** The retry loop calls `op` exactly `n` times, seeing the first `n`
      scripted outcomes in order. */
  lemma {:induction false} RetryCalls(op: Operation, outcomes: Attempts, n: nat)
    requires 1 <= n <= MaxAttempts
    ensures OutcomesOf(RetryTrace(op, outcomes, n), op) == outcomes[..n]
  {
    if n > 1 {
      var tail := [Delay(Backoff(n - 1)), Call(op, outcomes[n - 1])];
      RetryCalls(op, outcomes, n - 1);
      OutcomesOfAppend(RetryTrace(op, outcomes, n - 1), tail, op);
      assert OutcomesOf(tail, op) == [outcomes[n - 1]];
      assert outcomes[..n] == outcomes[..n - 1] + [outcomes[n - 1]];
    }
  }

  /** Around an index write, the index calls of the retry loop are its attempts. */
  lemma {:induction false} RetryIndexCalls(op: Operation, outcomes: Attempts, n: nat)
    requires 1 <= n <= MaxAttempts
    ensures IndexCalls(RetryTrace(op, outcomes, n)) == if op.Index? then outcomes[..n] else []
  {
    if n > 1 {
      var tail := [Delay(Backoff(n - 1)), Call(op, outcomes[n - 1])];
      RetryIndexCalls(op, outcomes, n - 1);
      IndexCallsAppend(RetryTrace(op, outcomes, n - 1), tail);
      assert IndexCalls(tail) == if op.Index? then [outcomes[n - 1]] else [];
      assert outcomes[..n] == outcomes[..n - 1] + [outcomes[n - 1]];
    }
  }

  /** Around a send, the sends of the retry loop are its attempts, each
      carrying the same message; it sends nothing to any other topic. */
  lemma {:induction false} RetrySends(op: Operation, outcomes: Attempts, n: nat, topic: string)
    requires 1 <= n <= MaxAttempts
    ensures SendsTo(RetryTrace(op, outcomes, n), topic) ==
      if op.Send? && op.topic == topic then seq(n, i requires 0 <= i < n => (op.message, outcomes[i])) else []
  {
    if n > 1 {
      var tail := [Delay(Backoff(n - 1)), Call(op, outcomes[n - 1])];
      RetrySends(op, outcomes, n - 1, topic);
      SendsToAppend(RetryTrace(op, outcomes, n - 1), tail, topic);
      assert SendsTo(tail, topic) == if op.Send? && op.topic == topic then [(op.message, outcomes[n - 1])] else [];
    }
  }

  /** The retry loop resolves no offset. */
  lemma {:induction false} RetryResolvesNothing(op: Operation, outcomes: Attempts, n: nat)
    requires 1 <= n <= MaxAttempts
    ensures Resolved(RetryTrace(op, outcomes, n)) == []
  {
    if n > 1 {
      var tail := [Delay(Backoff(n - 1)), Call(op, outcomes[n - 1])];
      RetryResolvesNothing(op, outcomes, n - 1);
      ResolvedAppend(RetryTrace(op, outcomes, n - 1), tail);
      assert Resolved(tail) == [];
    }
  }

  /** The retry loop waits 300 ms times the attempt number after each
      failed attempt but the last, and never after the last one. */
  lemma {:induction false} RetryBackoff(op: Operation, outcomes: Attempts, n: nat)
    requires 1 <= n <= MaxAttempts
    ensures |Delays(RetryTrace(op, outcomes, n))| == n - 1
    ensures forall i :: 0 <= i < n - 1 ==> Delays(RetryTrace(op, outcomes, n))[i] == Backoff(i + 1)
    ensures RetryTrace(op, outcomes, n)[|RetryTrace(op, outcomes, n)| - 1] == Call(op, outcomes[n - 1])
  {
    if n > 1 {
      var prev := RetryTrace(op, outcomes, n - 1);
      RetryBackoff(op, outcomes, n - 1);
      DelaysAppend(prev, [Delay(Backoff(n - 1)), Call(op, outcomes[n - 1])]);
      assert Delays([Delay(Backoff(n - 1)), Call(op, outcomes[n - 1])]) == [Backoff(n - 1)];
    }
  }

  /** `withRetries(operation)`: run `op` up to three times, stopping at the
      first success and sleeping `Backoff(attempt)` between attempts; report
      the first success or, once the attempts are used up, the last error. */
  method WithRetries(op: Operation, outcomes: Attempts) returns (result: Outcome, trace: seq<Effect>)
    ensures result == RetryOutcome(outcomes)
    ensures trace == RetryTrace(op, outcomes, AttemptsMade(outcomes))
  {
    trace := [];
    var lastError := Failed("");
    var attempt := 1;
    while attempt <= MaxAttempts
      invariant 1 <= attempt <= MaxAttempts + 1
      invariant forall i :: 0 <= i < attempt - 1 ==> outcomes[i].Failed?
      invariant attempt > 1 ==> lastError == outcomes[attempt - 2]
      invariant attempt == 1 ==> trace == []
      invariant 1 < attempt <= MaxAttempts ==>
        trace == RetryTrace(op, outcomes, attempt - 1) + [Delay(Backoff(attempt - 1))]
      invariant attempt == MaxAttempts + 1 ==> trace == RetryTrace(op, outcomes, MaxAttempts)
    {
      var outcome := outcomes[attempt - 1];
      if attempt > 1 {
        assert trace + [Call(op, outcome)]
            == RetryTrace(op, outcomes, attempt - 1) + [Delay(Backoff(attempt - 1)), Call(op, outcome)];
      }
      trace := trace + [Call(op, outcome)];
      if outcome.Succeeded? {
        return Succeeded, trace;
      }
      lastError := outcome;
      if attempt < MaxAttempts {
        trace := trace + [Delay(Backoff(attempt))];
      }
      attempt := attempt + 1;
    }
    result := lastError;
  }
}
