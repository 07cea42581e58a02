/**
 * `generateContent`: one completion request for a transcript, with a
 * bounded retry on rate limiting (HTTP status 429).
 *
 * The upstream provider is an oracle: `oracle[k]` is what attempt k+1
 * produces. The 1200 ms pause after a 429 is recorded as a `Backoff`
 * action in the log rather than as time.
 */
module AiService {
  import opened Wrappers
  import opened Conversation

  /** `let retries = 2` */
  const MaxAttempts: nat := 2

  /** Returned, not thrown, once every attempt was rate limited. */
  const BusyFallback := "The system is busy. Please try again in a moment."

  /** What the SDK throws: an optional HTTP status and a message. */
  datatype UpstreamError = UpstreamError(status: Option<int>, message: string)

  /** The outcome of one attempt. */
  datatype Attempt = Generated(text: string) | Failed(error: UpstreamError)

  /** The outcome of `generateContent`: a returned string or a rethrown error. */
  datatype Completion = Returned(text: string) | Raised(error: UpstreamError)

  /** What the loop does, in order: one request with its `contents`, or one pause. */
  datatype Action = Request(contents: seq<Turn>) | Backoff

  predicate IsRateLimit(e: UpstreamError) {
    e.status == Some(429)
  }

  /**
   * The retry loop with `left` attempts remaining, consuming the oracle
   * from its front: the completion and the actions taken.
   */
  function Retry(history: seq<Turn>, oracle: seq<Attempt>, left: nat): (Completion, seq<Action>)
    requires left <= |oracle|
    decreases left
  {
    if left == 0 then (Returned(BusyFallback), [])
    else
      match oracle[0]
      case Generated(t) => (Returned(t), [Request(history)])
      case Failed(e) =>
        if IsRateLimit(e) then
          var rest := Retry(history, oracle[1..], left - 1);
          (rest.0, [Request(history), Backoff] + rest.1)
        else (Raised(e), [Request(history)])
  }

  /** The number of upstream requests in a log. */
  function Requests(log: seq<Action>): nat {
    if log == [] then 0
    else (if log[0].Request? then 1 else 0) + Requests(log[1..])
  }

  lemma {:induction false} RequestsAppend(a: seq<Action>, b: seq<Action>)
    ensures Requests(a + b) == Requests(a) + Requests(b)
  {
    if a == [] {
      assert a + b == b;
    } else {
      assert (a + b)[1..] == a[1..] + b;
      RequestsAppend(a[1..], b);
    }
  }

  /** At least one and at most `left` requests are made, when any attempt is left. */
  lemma {:induction false} AttemptsBounded(history: seq<Turn>, oracle: seq<Attempt>, left: nat)
    requires left <= |oracle|
    ensures var n := Requests(Retry(history, oracle, left).1);
      n <= left && (left > 0 ==> 1 <= n)
  {
    if left > 0 && oracle[0].Failed? && IsRateLimit(oracle[0].error) {
      var rest := Retry(history, oracle[1..], left - 1);
      AttemptsBounded(history, oracle[1..], left - 1);
      RequestsAppend([Request(history), Backoff], rest.1);
    }
  }

  /** Every request carries the history unchanged as its contents. */
  lemma {:induction false} RequestsCarryHistory(history: seq<Turn>, oracle: seq<Attempt>, left: nat)
    requires left <= |oracle|
    ensures forall a :: a in Retry(history, oracle, left).1 && a.Request? ==> a.contents == history
  {
    if left > 0 && oracle[0].Failed? && IsRateLimit(oracle[0].error) {
      RequestsCarryHistory(history, oracle[1..], left - 1);
    }
  }

  /**
   * How the result is decided: it is the outcome of the last attempt made,
   * every earlier attempt was a 429 followed by a pause, and a 429 is never
   * rethrown — when all attempts are rate limited the fallback text is
   * returned.
   */
  lemma {:induction false} RetryOutcome(history: seq<Turn>, oracle: seq<Attempt>, left: nat)
    requires left <= |oracle|
    ensures var (c, log) := Retry(history, oracle, left);
      var n := Requests(log);
      && n <= left
      && (forall k :: 0 <= k < n - 1 ==> oracle[k].Failed? && IsRateLimit(oracle[k].error))
      && (c.Raised? ==> 0 < n && oracle[n - 1] == Failed(c.error) && !IsRateLimit(c.error))
      && (c.Returned? ==>
            (0 < n && oracle[n - 1] == Generated(c.text))
            || (n == left && c.text == BusyFallback
                && forall k :: 0 <= k < left ==> oracle[k].Failed? && IsRateLimit(oracle[k].error)))
  {
    AttemptsBounded(history, oracle, left);
    if left > 0 && oracle[0].Failed? && IsRateLimit(oracle[0].error) {
      var rest := Retry(history, oracle[1..], left - 1);
      RetryOutcome(history, oracle[1..], left - 1);
      RequestsAppend([Request(history), Backoff], rest.1);
      assert Requests([Request(history), Backoff]) == 1;
      forall k | 1 <= k <= Requests(rest.1) ensures oracle[k] == oracle[1..][k - 1] { }
    }
  }

  /** One turn of the loop: attempt `i + 1` with `left` attempts remaining. */
  lemma RetryUnfold(history: seq<Turn>, oracle: seq<Attempt>, i: nat, left: nat)
    requires 0 < left && i + left <= |oracle|
    ensures Retry(history, oracle[i..], left) ==
      match oracle[i]
      case Generated(t) => (Returned(t), [Request(history)])
      case Failed(e) =>
        if IsRateLimit(e) then
          (Retry(history, oracle[i + 1..], left - 1).0,
           [Request(history), Backoff] + Retry(history, oracle[i + 1..], left - 1).1)
        else (Raised(e), [Request(history)])
  {
    assert oracle[i..][0] == oracle[i] && oracle[i..][1..] == oracle[i + 1..];
  }

  /**
   * The retry specification with the source's two attempts: case by case
   * on what the first attempt produces, and the bounds of the general
   * lemmas instantiated.
   */
  lemma TwoAttempts(history: seq<Turn>, oracle: seq<Attempt>, result: Completion, log: seq<Action>)
    requires MaxAttempts <= |oracle|
    requires (result, log) == Retry(history, oracle, MaxAttempts)
    ensures oracle[0].Generated? ==> result == Returned(oracle[0].text) && log == [Request(history)]
    ensures oracle[0].Failed? && !IsRateLimit(oracle[0].error) ==>
              result == Raised(oracle[0].error) && log == [Request(history)]
    ensures oracle[0].Failed? && IsRateLimit(oracle[0].error) ==>
              |log| >= 3 && log[..3] == [Request(history), Backoff, Request(history)]
              && result == (match oracle[1]
                            case Generated(t) => Returned(t)
                            case Failed(e) => if IsRateLimit(e) then Returned(BusyFallback) else Raised(e))
    ensures log == [Request(history)]
            || log == [Request(history), Backoff, Request(history)]
            || log == [Request(history), Backoff, Request(history), Backoff]
    ensures forall a :: a in log && a.Request? ==> a.contents == history
    ensures result.Raised? ==> !IsRateLimit(result.error)
  {
  }

  /**
   * `generateContent`: `while (retries--)` with `retries` starting at 2.
   * A generated text is returned at once; a 429 pauses and continues; any
   * other error is rethrown at once; when the attempts run out the fallback
   * text is returned. The `return` and `throw` inside the loop are a
   * `break` with `settled` set, so the fallback is reached only when no
   * attempt settled the call.
   */
  method GenerateContent(history: seq<Turn>, oracle: seq<Attempt>) returns (result: Completion, log: seq<Action>)
    requires MaxAttempts <= |oracle|
    ensures (result, log) == Retry(history, oracle, MaxAttempts)
    ensures oracle[0].Generated? ==> result == Returned(oracle[0].text) && log == [Request(history)]
    ensures oracle[0].Failed? && !IsRateLimit(oracle[0].error) ==>
              result == Raised(oracle[0].error) && log == [Request(history)]
    ensures oracle[0].Failed? && IsRateLimit(oracle[0].error) ==>
              |log| >= 3 && log[..3] == [Request(history), Backoff, Request(history)]
              && result == (match oracle[1]
                            case Generated(t) => Returned(t)
                            case Failed(e) => if IsRateLimit(e) then Returned(BusyFallback) else Raised(e))
    ensures log == [Request(history)]
            || log == [Request(history), Backoff, Request(history)]
            || log == [Request(history), Backoff, Request(history), Backoff]
    ensures forall a :: a in log && a.Request? ==> a.contents == history
    ensures result.Raised? ==> !IsRateLimit(result.error)
  {
    ghost var spec := Retry(history, oracle, MaxAttempts);
    var retries := MaxAttempts;
    var i := 0;
    var settled := false;
    log := [];
    while retries > 0
      invariant i + retries == MaxAttempts
      invariant log + Retry(history, oracle[i..], retries).1 == spec.1
      invariant Retry(history, oracle[i..], retries).0 == spec.0
      decreases retries
    {
      RetryUnfold(history, oracle, i, retries);
      retries := retries - 1;
      i := i + 1;
      match oracle[i - 1]
      case Generated(t) =>
        log := log + [Request(history)];
        result, settled := Returned(t), true;
        break;
      case Failed(e) =>
        if e.status == Some(429) {
          ghost var tail := Retry(history, oracle[i..], retries).1;
          assert (log + [Request(history), Backoff]) + tail == log + ([Request(history), Backoff] + tail);
          log := log + [Request(history), Backoff];
          continue;
        }
        log := log + [Request(history)];
        result, settled := Raised(e), true;
        break;
    }
    if !settled {
      assert Retry(history, oracle[i..], 0) == (Returned(BusyFallback), []);
      assert log + [] == log;
      result := Returned(BusyFallback);
    }
    assert (result, log) == spec;
    TwoAttempts(history, oracle, result, log);
  }
}
