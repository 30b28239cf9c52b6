/** The retry loop of `recognize_song_from_signature`, as a pure function of
    the outcomes the network gives to successive sends. */
module Retry {
  import opened Wrappers
  import opened Errors
  import opened Http
  import opened Backoff

  /** Attempts run from 0 to MaxRetries inclusive: at most 11 sends. */
  const MaxRetries: nat := 10

  /** What a call did: its result, how many sends it made (so how many
      entries of the outcome sequence it consumed), and the delays it slept,
      in order. */
  datatype Trace = Trace(result: Result<Document, Failure>, sends: nat, sleeps: seq<nat>)

  /** A network that can answer every send the loop may make. */
  predicate Answers(net: seq<Send>) {
    |net| > MaxRetries
  }

  /** The result a call ends with when `s` is its last send: throttling on
      the last allowed attempt gives up, any other outcome is final. */
  function Verdict(s: Send): (r: Result<Document, Failure>)
    ensures s.TransportErr? ==> r == Failure(TransportError)
    ensures Retryable(s) ==> r == Failure(RateLimitExceeded(s.code))
    ensures s.Status? && Classify(s.code) == Rejected ==> r == Failure(UnexpectedStatus(s.code))
    ensures s.Status? && IsSuccessStatus(s.code) && s.body.Json? ==> r == Success(s.body.doc)
    ensures s.Status? && IsSuccessStatus(s.code) && s.body.NotJson? ==> r == Failure(DecodeError)
    ensures r.Success? <==> s.Status? && IsSuccessStatus(s.code) && s.body.Json?
    ensures r.Failure? && r.error.RateLimitExceeded? <==> Retryable(s)
    ensures r != Failure(Unreachable)
  {
    match s
    case TransportErr => Failure(TransportError)
    case Status(code, body) =>
      match Classify(code)
      case Throttled => Failure(RateLimitExceeded(code))
      case Rejected => Failure(UnexpectedStatus(code))
      case Succeeded =>
        match body
        case Json(doc) => Success(doc)
        case NotJson => Failure(DecodeError)
  }

  /** What one iteration does after its send: sleep and go round again, or
      return. */
  datatype Step = Sleep(ms: nat) | Return(result: Result<Document, Failure>)

  /** The body of the loop for the response to attempt `attempt`. It sleeps
      exactly when the response is throttled and attempts remain, for that
      attempt's delay; otherwise it returns what the response dictates. */
  function HandleResponse(response: Send, attempt: nat): (step: Step)
    ensures step.Sleep? <==> Retryable(response) && attempt < MaxRetries
    ensures step.Sleep? ==> step.ms == Delay(attempt)
    ensures step.Return? ==> step.result == Verdict(response)
  {
    match response
    case TransportErr => Return(Failure(TransportError))
    case Status(code, body) =>
      if code == 429 || code == 529 then
        if attempt < MaxRetries then Sleep(Delay(attempt))
        else Return(Failure(RateLimitExceeded(code)))
      else if IsSuccessStatus(code) then
        match body
        case Json(doc) => Return(Success(doc))
        case NotJson => Return(Failure(DecodeError))
      else
        Return(Failure(UnexpectedStatus(code)))
  }

  /** The loop from attempt `attempt` on. `sends` counts from the first
      attempt of the call; `sleeps` holds the delays slept from `attempt` on:
      one after every send but the last, each the delay of its attempt. */
  function Attempt(net: seq<Send>, attempt: nat): (t: Trace)
    requires Answers(net)
    requires attempt <= MaxRetries
    ensures attempt < t.sends <= MaxRetries + 1
    ensures |t.sleeps| == t.sends - 1 - attempt
    ensures forall k :: 0 <= k < |t.sleeps| ==> t.sleeps[k] == Delay(attempt + k)
    decreases MaxRetries - attempt
  {
    match HandleResponse(net[attempt], attempt)
    case Return(r) => Trace(r, attempt + 1, [])
    case Sleep(ms) =>
      var rest := Attempt(net, attempt + 1);
      Trace(rest.result, rest.sends, [ms] + rest.sleeps)
  }

  /** The run from `attempt` on, characterised without reference to the loop:
      the sends before the last were all throttled, the last one was not
      (unless it was the last allowed attempt), and it decides the result. */
  lemma {:induction false} AttemptDecidedByLastSend(net: seq<Send>, attempt: nat)
    requires Answers(net)
    requires attempt <= MaxRetries
    ensures var t := Attempt(net, attempt);
      && (forall i :: attempt <= i < t.sends - 1 ==> Retryable(net[i]))
      && (!Retryable(net[t.sends - 1]) || t.sends == MaxRetries + 1)
      && t.result == Verdict(net[t.sends - 1])
    decreases MaxRetries - attempt
  {
    if Retryable(net[attempt]) && attempt < MaxRetries {
      AttemptDecidedByLastSend(net, attempt + 1);
    }
  }

  /** From the first attempt on, the delays slept are a prefix of the schedule. */
  lemma SleepsFollowSchedule(net: seq<Send>)
    requires Answers(net)
    ensures Attempt(net, 0).sleeps == Schedule(Attempt(net, 0).sends - 1)
  {
    var t := Attempt(net, 0);
    var s := Schedule(t.sends - 1);
    assert |t.sleeps| == |s|;
    forall k | 0 <= k < |s|
      ensures t.sleeps[k] == s[k]
    {
    }
  }

  /** The whole loop: between 1 and 11 sends; every send but the last was
      throttled and followed by one sleep, with the delays of the backoff
      schedule; the last send decides the result, which is never the
      fall-through error after the loop. */
  function RetryLoop(net: seq<Send>): (t: Trace)
    requires Answers(net)
    ensures 1 <= t.sends <= MaxRetries + 1
    ensures t.sleeps == Schedule(t.sends - 1)
    ensures forall i :: 0 <= i < t.sends - 1 ==> Retryable(net[i])
    ensures !Retryable(net[t.sends - 1]) || t.sends == MaxRetries + 1
    ensures t.result == Verdict(net[t.sends - 1])
    ensures t.result != Failure(Unreachable)
  {
    AttemptDecidedByLastSend(net, 0);
    SleepsFollowSchedule(net);
    Attempt(net, 0)
  }

  /** The call ends at attempt k when the sends before it were throttled and
      the loop returns on it: k + 1 sends, the first k delays, and the result
      that send dictates. */
  lemma EndsAt(net: seq<Send>, k: nat)
    requires Answers(net)
    requires k <= MaxRetries
    requires forall i :: 0 <= i < k ==> Retryable(net[i])
    requires !Retryable(net[k]) || k == MaxRetries
    ensures RetryLoop(net) == Trace(Verdict(net[k]), k + 1, Schedule(k))
  {
  }

  /** Throttled on all 11 attempts: exactly 11 sends, the ten delays of the
      schedule, and a rate-limit failure carrying the last status. */
  lemma AllThrottledExhausts(net: seq<Send>)
    requires Answers(net)
    requires forall i :: 0 <= i <= MaxRetries ==> Retryable(net[i])
    ensures RetryLoop(net) == Trace(Failure(RateLimitExceeded(net[MaxRetries].code)), MaxRetries + 1, Schedule(MaxRetries))
  {
    EndsAt(net, MaxRetries);
  }

  /** Conversely, a rate-limit failure means every one of the 11 sends was throttled. */
  lemma RateLimitOnlyWhenAllThrottled(net: seq<Send>)
    requires Answers(net)
    requires RetryLoop(net).result.Failure? && RetryLoop(net).result.error.RateLimitExceeded?
    ensures RetryLoop(net).sends == MaxRetries + 1
    ensures forall i :: 0 <= i <= MaxRetries ==> Retryable(net[i])
  {
    var t := RetryLoop(net);
    var last := net[t.sends - 1];
    assert Verdict(last).Failure? && Verdict(last).error.RateLimitExceeded?;
    assert Retryable(last);
    assert t.sends == MaxRetries + 1;
    forall i | 0 <= i <= MaxRetries
      ensures Retryable(net[i])
    {
      if i < MaxRetries {
        assert i < t.sends - 1;
      }
    }
  }

  /** The first send that is not throttled ends the call. */
  lemma FirstDecisiveSendEnds(net: seq<Send>, k: nat)
    requires Answers(net)
    requires k <= MaxRetries
    requires forall i :: 0 <= i < k ==> Retryable(net[i])
    requires !Retryable(net[k])
    ensures RetryLoop(net) == Trace(Verdict(net[k]), k + 1, Schedule(k))
  {
    EndsAt(net, k);
  }

  /** A 2xx with a JSON body on the first attempt returns it after one send and no sleep. */
  lemma ImmediateSuccess(net: seq<Send>)
    requires Answers(net)
    requires net[0].Status? && IsSuccessStatus(net[0].code) && net[0].body.Json?
    ensures RetryLoop(net) == Trace(Success(net[0].body.doc), 1, [])
  {
    EndsAt(net, 0);
  }

  /** A transport failure is never retried: it ends the call at that send. */
  lemma TransportErrorNotRetried(net: seq<Send>, k: nat)
    requires Answers(net)
    requires k <= MaxRetries
    requires forall i :: 0 <= i < k ==> Retryable(net[i])
    requires net[k] == TransportErr
    ensures RetryLoop(net) == Trace(Failure(TransportError), k + 1, Schedule(k))
  {
    EndsAt(net, k);
  }

  /** A status other than 2xx, 429 and 529 ends the call at that send, with no sleep after it. */
  lemma UnexpectedStatusNotRetried(net: seq<Send>, k: nat)
    requires Answers(net)
    requires k <= MaxRetries
    requires forall i :: 0 <= i < k ==> Retryable(net[i])
    requires net[k].Status? && Classify(net[k].code) == Rejected
    ensures RetryLoop(net) == Trace(Failure(UnexpectedStatus(net[k].code)), k + 1, Schedule(k))
  {
    EndsAt(net, k);
  }

  /** A 2xx whose body is not JSON fails the call at that send, without retry. */
  lemma DecodeErrorNotRetried(net: seq<Send>, k: nat)
    requires Answers(net)
    requires k <= MaxRetries
    requires forall i :: 0 <= i < k ==> Retryable(net[i])
    requires net[k].Status? && IsSuccessStatus(net[k].code) && net[k].body.NotJson?
    ensures RetryLoop(net) == Trace(Failure(DecodeError), k + 1, Schedule(k))
  {
    EndsAt(net, k);
  }

  /** The loop never looks past the send that ended it: two networks that
      agree on the outcomes it consumed give the same trace. */
  lemma {:induction false} AttemptReadsOnlyConsumed(net: seq<Send>, net': seq<Send>, attempt: nat)
    requires Answers(net) && Answers(net')
    requires attempt <= MaxRetries
    requires forall i :: attempt <= i < Attempt(net, attempt).sends ==> net'[i] == net[i]
    ensures Attempt(net', attempt) == Attempt(net, attempt)
    decreases MaxRetries - attempt
  {
    assert net'[attempt] == net[attempt];
    if HandleResponse(net[attempt], attempt).Sleep? {
      AttemptReadsOnlyConsumed(net, net', attempt + 1);
    }
  }

  /** No send happens after the deciding one: replacing every answer after
      it by the answers of any other network does not change the call. */
  lemma NoSendAfterDecision(net: seq<Send>, other: seq<Send>)
    requires Answers(net)
    requires |other| == |net|
    ensures var n := RetryLoop(net).sends;
      RetryLoop(net[..n] + other[n..]) == RetryLoop(net)
  {
    var n := RetryLoop(net).sends;
    var net' := net[..n] + other[n..];
    forall i | 0 <= i < n
      ensures net'[i] == net[i]
    {
    }
    AttemptReadsOnlyConsumed(net, net', 0);
  }

  /** The loop as written: a counter over 0..=MaxRetries, one send per
      iteration, a sleep on throttling with attempts left, a return on every
      other outcome, and the fall-through error after the loop. */
  method RunRetryLoop(net: seq<Send>) returns (result: Result<Document, Failure>, sends: nat, sleeps: seq<nat>)
    requires Answers(net)
    ensures Trace(result, sends, sleeps) == RetryLoop(net)
  {
    sends, sleeps := 0, [];
    var attempt: nat := 0;
    while attempt <= MaxRetries
      invariant attempt <= MaxRetries
      invariant sends == attempt
      invariant sleeps == Schedule(attempt)
      invariant forall i :: 0 <= i < attempt ==> Retryable(net[i])
      decreases MaxRetries - attempt
    {
      var response := net[attempt];
      sends := sends + 1;
      match HandleResponse(response, attempt)
      case Return(r) =>
        EndsAt(net, attempt);
        return r, sends, sleeps;
      case Sleep(ms) =>
        sleeps := sleeps + [ms];
        attempt := attempt + 1;
    }
    result := Failure(Unreachable);
  }
}
