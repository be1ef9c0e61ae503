/**
 * The adaptive rate limiter (src/lib/utils/rateLimit.ts): tasks wait in a
 * FIFO queue, at most `concurrency` run at once, and the limit halves on a
 * rate-limit error and grows by one every ten successes. Tasks are known by
 * id; the outcome of an attempt and the end of a task are explicit calls.
 */
module RateLimit {
  import opened Wrappers
  import opened Text

  /** `RateLimitConfig`: every field optional. */
  datatype Config = Config(
    initialConcurrency: Option<int>,
    minConcurrency: Option<int>,
    maxConcurrency: Option<int>,
    retryDelay: Option<int>,
    backoffMultiplier: Option<real>)

  /** `x || fallback` for a number: absent and 0 both fall back. */
  function OrInt(x: Option<int>, fallback: int): (r: int)
    ensures x.Some? && x.value != 0 ==> r == x.value
    ensures x.None? || x.value == 0 ==> r == fallback
  {
    if x.Some? && x.value != 0 then x.value else fallback
  }

  function OrReal(x: Option<real>, fallback: real): (r: real)
    ensures x.Some? && x.value != 0.0 ==> r == x.value
    ensures x.None? || x.value == 0.0 ==> r == fallback
  {
    if x.Some? && x.value != 0.0 then x.value else fallback
  }

  /** `Math.max(Math.floor(concurrency / 2), minConcurrency)`. */
  function Halved(concurrency: int, minConcurrency: int): (r: int)
    ensures r >= minConcurrency
    ensures concurrency >= 0 ==> 2 * r <= concurrency || r == minConcurrency
  {
    if concurrency / 2 >= minConcurrency then concurrency / 2 else minConcurrency
  }

  /**
   * The concurrency after a success that brought the success count to
   * `successes`: one more on every tenth success, never above the maximum.
   */
  function Grown(concurrency: int, maxConcurrency: int, successes: int): (r: int)
    ensures concurrency <= r <= concurrency + 1
    ensures r > concurrency <==> successes % 10 == 0 && concurrency < maxConcurrency
  {
    if successes % 10 == 0 && concurrency < maxConcurrency then
      if concurrency + 1 <= maxConcurrency then concurrency + 1 else maxConcurrency
    else concurrency
  }

  /** The bounds the limit is meant to stay within. */
  predicate InBounds(concurrency: int, minConcurrency: int, maxConcurrency: int) {
    0 <= minConcurrency <= concurrency <= maxConcurrency
  }

  /** Both adjustments keep the limit between the minimum and the maximum. */
  lemma AdjustmentsKeepBounds(concurrency: int, minConcurrency: int, maxConcurrency: int, successes: int)
    requires InBounds(concurrency, minConcurrency, maxConcurrency)
    ensures InBounds(Halved(concurrency, minConcurrency), minConcurrency, maxConcurrency)
    ensures InBounds(Grown(concurrency, maxConcurrency, successes), minConcurrency, maxConcurrency)
  {
  }

  /** Ten successes in a row raise the limit by one unless it is at the maximum already. */
  lemma TenSuccessesGrowOnce(concurrency: int, maxConcurrency: int, successes: nat)
    requires successes % 10 == 0 && concurrency < maxConcurrency
    ensures Grown(concurrency, maxConcurrency, successes) == concurrency + 1
    ensures forall s :: successes < s < successes + 10 ==> Grown(concurrency, maxConcurrency, s) == concurrency
  {
    forall s | successes < s < successes + 10
      ensures s % 10 != 0
    {
      var q := successes / 10;
      assert successes == 10 * q;
      assert s == 10 * q + (s - successes);
    }
  }

  /** What a thrown error may carry. */
  datatype ErrorInfo = ErrorInfo(status: Option<int>, statusCode: Option<int>, message: Option<string>)

  /** `isRateLimitError(error)`. */
  predicate IsRateLimitError(e: ErrorInfo) {
    || e.status == Some(429)
    || e.statusCode == Some(429)
    || (e.message.Some? && Contains(Lower(e.message.value), "rate limit"))
    || (e.message.Some? && Contains(Lower(e.message.value), "too many requests"))
  }

  /** The test ignores the case of ASCII letters in the message. */
  lemma RateLimitCaseInsensitive(status: Option<int>, statusCode: Option<int>, m1: string, m2: string)
    requires Lower(m1) == Lower(m2)
    ensures IsRateLimitError(ErrorInfo(status, statusCode, Some(m1)))
        <==> IsRateLimitError(ErrorInfo(status, statusCode, Some(m2)))
  {
  }

  /** A message or status the server typically sends is recognised. */
  lemma TypicalRateLimitErrors()
    ensures IsRateLimitError(ErrorInfo(None, None, Some("Too Many Requests")))
    ensures IsRateLimitError(ErrorInfo(Some(429), None, None))
    ensures IsRateLimitError(ErrorInfo(None, Some(429), None))
    ensures IsRateLimitError(ErrorInfo(None, None, Some("Rate limit exceeded")))
    ensures !IsRateLimitError(ErrorInfo(Some(500), None, None))
  {
    RateLimitExceededRecognised();
    var m := Lower("Too Many Requests");
    assert m == "too many requests";
    assert StartsWith(m, "too many requests");
  }

  /** The lower-cased "Rate limit exceeded" begins with "rate limit". */
  lemma RateLimitExceededRecognised()
    ensures Contains(Lower("Rate limit exceeded"), "rate limit")
  {
    var m := Lower("Rate limit exceeded");
    assert m == "rate limit exceeded";
    assert m[..10] == "rate limit";
  }

  /** What `executeWithRetry` does after a failed attempt. */
  datatype Decision = Retry(nextAttempt: int) | Rethrow

  /** What `getStats` reports. */
  datatype Stats = Stats(currentConcurrency: int, rateLimitHits: nat, successfulRequests: nat, queueLength: nat, running: int)

  class RateLimitHandler {
    var concurrency: int
    const minConcurrency: int
    const maxConcurrency: int
    const retryDelay: int
    const backoffMultiplier: real
    var queue: seq<nat>
    var running: int
    var rateLimitHits: nat
    var successfulRequests: nat
    /** The ids of the tasks started, in the order they were started. */
    var started: seq<nat>

    predicate Bounded()
      reads this
    {
      InBounds(concurrency, minConcurrency, maxConcurrency)
    }

    /** `new RateLimitHandler(config)`: falsy fields take the defaults 5, 1, 10, 1000 and 1.5. */
    constructor (config: Config)
      ensures concurrency == OrInt(config.initialConcurrency, 5)
      ensures minConcurrency == OrInt(config.minConcurrency, 1)
      ensures maxConcurrency == OrInt(config.maxConcurrency, 10)
      ensures retryDelay == OrInt(config.retryDelay, 1000)
      ensures backoffMultiplier == OrReal(config.backoffMultiplier, 1.5)
      ensures queue == [] && running == 0 && rateLimitHits == 0 && successfulRequests == 0 && started == []
    {
      concurrency := OrInt(config.initialConcurrency, 5);
      minConcurrency := OrInt(config.minConcurrency, 1);
      maxConcurrency := OrInt(config.maxConcurrency, 10);
      retryDelay := OrInt(config.retryDelay, 1000);
      backoffMultiplier := OrReal(config.backoffMultiplier, 1.5);
      queue := [];
      running := 0;
      rateLimitHits := 0;
      successfulRequests := 0;
      started := [];
    }

    /** The default configuration satisfies the bounds. */
    static lemma DefaultsInBounds()
      ensures InBounds(OrInt(None, 5), OrInt(None, 1), OrInt(None, 10))
    {
    }

    /** `processQueue()` up to the task's start: take the oldest task if a slot is free. */
    method ProcessQueue()
      modifies this
      ensures concurrency == old(concurrency) && rateLimitHits == old(rateLimitHits)
      ensures successfulRequests == old(successfulRequests)
      ensures old(running) >= concurrency || old(queue) == [] ==>
        queue == old(queue) && running == old(running) && started == old(started)
      ensures old(running) < concurrency && old(queue) != [] ==>
        && queue == old(queue)[1..] && running == old(running) + 1
        && started == old(started) + [old(queue)[0]]
    {
      if running >= concurrency || |queue| == 0 {
        return;
      }
      var task := queue[0];
      queue := queue[1..];
      running := running + 1;
      started := started + [task];
    }

    /** `execute(fn)`: queue the task at the back, then try to start one. */
    method Execute(id: nat)
      modifies this
      ensures concurrency == old(concurrency) && rateLimitHits == old(rateLimitHits)
      ensures successfulRequests == old(successfulRequests)
      ensures old(running) >= concurrency ==>
        queue == old(queue) + [id] && running == old(running) && started == old(started)
      ensures old(running) < concurrency ==>
        && queue == (old(queue) + [id])[1..] && running == old(running) + 1
        && started == old(started) + [(old(queue) + [id])[0]]
    {
      queue := queue + [id];
      ProcessQueue();
    }

    /**
     * The `catch` of `executeWithRetry` after attempt number `attempt` threw
     * `e`: a rate-limit error counts a hit, halves the limit and asks for the
     * next attempt; any other error is rethrown.
     */
    method AttemptFailed(e: ErrorInfo, attempt: int) returns (d: Decision)
      modifies this
      ensures d == (if IsRateLimitError(e) then Retry(attempt + 1) else Rethrow)
      ensures IsRateLimitError(e) ==>
        concurrency == Halved(old(concurrency), minConcurrency) && rateLimitHits == old(rateLimitHits) + 1
      ensures !IsRateLimitError(e) ==> concurrency == old(concurrency) && rateLimitHits == old(rateLimitHits)
      ensures old(Bounded()) ==> Bounded()
      ensures queue == old(queue) && running == old(running) && started == old(started)
      ensures successfulRequests == old(successfulRequests)
    {
      if IsRateLimitError(e) {
        rateLimitHits := rateLimitHits + 1;
        concurrency := Halved(concurrency, minConcurrency);
        return Retry(attempt + 1);
      }
      return Rethrow;
    }

    /**
     * The end of `processQueue` for a started task: a success is counted and
     * may grow the limit; either way the slot is freed and the next task may
     * start.
     */
    method Settle(succeeded: bool)
      modifies this
      ensures succeeded ==> successfulRequests == old(successfulRequests) + 1
      ensures !succeeded ==> successfulRequests == old(successfulRequests)
      ensures succeeded ==> concurrency == Grown(old(concurrency), maxConcurrency, successfulRequests)
      ensures !succeeded ==> concurrency == old(concurrency)
      ensures old(Bounded()) ==> Bounded()
      ensures rateLimitHits == old(rateLimitHits)
      ensures var freed := old(running) - 1;
        if freed < concurrency && old(queue) != [] then
          queue == old(queue)[1..] && running == old(running) && started == old(started) + [old(queue)[0]]
        else
          queue == old(queue) && running == freed && started == old(started)
    {
      if succeeded {
        successfulRequests := successfulRequests + 1;
        concurrency := Grown(concurrency, maxConcurrency, successfulRequests);
      }
      running := running - 1;
      ProcessQueue();
    }

    /** `getStats()`. */
    function GetStats(): (s: Stats)
      reads this
      ensures s.currentConcurrency == concurrency && s.queueLength == |queue| && s.running == running
      ensures s.rateLimitHits == rateLimitHits && s.successfulRequests == successfulRequests
    {
      Stats(concurrency, rateLimitHits, successfulRequests, |queue|, running)
    }
  }
}
