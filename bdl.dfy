/**
 * The outbound client `bdl_get`: an authenticated GET retried with
 * exponential backoff on 429 (rate limit) and 5xx (transient server error).
 * The network is a script of upstream responses, one per request, and
 * `asyncio.sleep` is the list of waits the client asks for.
 */
module Bdl {
  import opened Wrappers
  import opened JsonValue
  import Text

  const InitialBackoff: nat := 2
  const MaxBackoff: nat := 30
  const DefaultMaxRetries: int := 4
  const MissingKeyDetail: string := "Falta BALLDONTLIE_API_KEY en Render (Environment Variables)."
  const UnexpectedDetail: string := "Unexpected error in bdl_get"
  const RateLimitMessage: string := "Too many requests (rate limit)."

  /**
   * One upstream response: the status code, the `Retry-After` header if sent,
   * the body text and what `r.json()` decodes it to (`None` where it raises).
   */
  datatype Response = Response(status: int, retryAfter: Option<string>, text: string, json: Option<Json>)

  /** How a call ends: a decoded body, an `HTTPException`, or an exception the client does not catch. */
  datatype Outcome =
    | Returned(body: Json)
    | Raised(status: int, detail: Json)  // HTTPException(status_code, detail)
    | InvalidJson                        // `r.json()` raises on a success response
    | TransportFailed                    // the request itself raises

  /** The outcome, the waits asked for, in order, and the number of requests issued. */
  datatype Trace = Trace(outcome: Outcome, sleeps: seq<nat>, requests: nat)

  /** `min(backoff * 2, 30)`. */
  function NextBackoff(b: nat): (n: nat)
    ensures n <= 2 * b && n <= MaxBackoff
    ensures n == 2 * b || n == MaxBackoff
  {
    if b * 2 < MaxBackoff then b * 2 else MaxBackoff
  }

  /** The backoff counter after `k` retries, whichever path (429 or 5xx) each retry took. */
  function BackoffAt(k: nat): (b: nat)
    ensures InitialBackoff <= b <= MaxBackoff
    ensures k >= 4 ==> b == MaxBackoff
    ensures k < 4 ==> b == InitialBackoff * Pow2(k)
  {
    if k == 0 then InitialBackoff else NextBackoff(BackoffAt(k - 1))
  }

  function Pow2(k: nat): (p: nat)
    ensures p >= 1
  {
    if k == 0 then 1 else 2 * Pow2(k - 1)
  }

  predicate Retryable(status: int) {
    status == 429 || 500 <= status <= 599
  }

  /** `retry_after and retry_after.isdigit()`. */
  predicate Honoured(header: Option<string>) {
    header.Some? && header.value != "" && Text.AllDigits(header.value)
  }

  /** The wait a 429 asks for: `int(Retry-After)` when honoured, otherwise the current backoff. */
  function RateLimitWait(header: Option<string>, backoff: nat): nat {
    if Honoured(header) then Text.Decimal(header.value) else backoff
  }

  /** The wait before retrying after `r`: a 429 may override it, a 5xx always uses the backoff. */
  function Pause(r: Response, backoff: nat): nat {
    if r.status == 429 then RateLimitWait(r.retryAfter, backoff) else backoff
  }

  /** The body as `detail`: the decoded JSON, or `{"error": text}` if it does not decode. */
  function ErrorDetail(r: Response): (d: Json)
    ensures r.json.Some? ==> d == r.json.value
    ensures r.json.None? ==> d.JObj? && d.fields.Keys == {"error"} && d.fields["error"] == JStr(r.text)
  {
    if r.json.Some? then r.json.value else JObj(map["error" := JStr(r.text)])
  }

  function RateLimitDetail(wait: nat): Json {
    JObj(map["error" := JStr(RateLimitMessage), "retry_after_seconds" := JInt(wait)])
  }

  /** How the response that ends the loop ends the call. */
  function Stop(r: Response, backoff: nat): (o: Outcome)
    ensures o.Raised? <==> r.status >= 400
    ensures o.Raised? ==> o.status == r.status
    ensures r.status < 400 ==> (o.Returned? <==> r.json.Some?) && (o.Returned? ==> o.body == r.json.value)
    ensures r.status < 400 && r.json.None? ==> o == InvalidJson
  {
    if r.status == 429 then Raised(429, RateLimitDetail(RateLimitWait(r.retryAfter, backoff)))
    else if r.status >= 400 then Raised(r.status, ErrorDetail(r))
    else if r.json.Some? then Returned(r.json.value)
    else InvalidJson
  }

  /** The loop from attempt number `attempt` on, with the backoff counter at `backoff`. */
  function Attempts(maxRetries: int, upstream: seq<Response>, attempt: nat, backoff: nat): (t: Trace)
    ensures attempt <= |upstream| ==> attempt + t.requests <= |upstream| + 1
    ensures attempt <= |upstream| && t.outcome == TransportFailed ==> attempt + t.requests == |upstream| + 1
    decreases maxRetries + 1 - attempt
  {
    if attempt > maxRetries then Trace(Raised(500, JStr(UnexpectedDetail)), [], 0)
    else if attempt >= |upstream| then Trace(TransportFailed, [], 1)
    else
      var r := upstream[attempt];
      if Retryable(r.status) && attempt < maxRetries then
        var rest := Attempts(maxRetries, upstream, attempt + 1, NextBackoff(backoff));
        Trace(rest.outcome, [Pause(r, backoff)] + rest.sleeps, rest.requests + 1)
      else
        Trace(Stop(r, backoff), [], 1)
  }

  /** `bdl_get(path, params, max_retries)` against a given upstream script and API key. */
  function Fetch(apiKey: string, maxRetries: int, upstream: seq<Response>): (t: Trace)
    ensures t.requests <= |upstream| + 1
    ensures t.outcome == TransportFailed ==> t.requests == |upstream| + 1
  {
    if apiKey == "" then Trace(Raised(500, JStr(MissingKeyDetail)), [], 0)
    else Attempts(maxRetries, upstream, 0, InitialBackoff)
  }

  function Then(sleeps: seq<nat>, requests: nat, t: Trace): Trace {
    Trace(t.outcome, sleeps + t.sleeps, requests + t.requests)
  }

  /** The retry loop itself. */
  method Get(apiKey: string, maxRetries: int, upstream: seq<Response>) returns (outcome: Outcome, sleeps: seq<nat>, requests: nat)
    ensures Trace(outcome, sleeps, requests) == Fetch(apiKey, maxRetries, upstream)
  {
    sleeps, requests := [], 0;
    if apiKey == "" {
      outcome := Raised(500, JStr(MissingKeyDetail));
      return;
    }
    var backoff := InitialBackoff;
    var attempt: nat := 0;
    assert Then([], 0, Attempts(maxRetries, upstream, 0, backoff)) == Fetch(apiKey, maxRetries, upstream);
    while attempt < maxRetries + 1
      invariant requests == attempt
      invariant Fetch(apiKey, maxRetries, upstream) == Then(sleeps, requests, Attempts(maxRetries, upstream, attempt, backoff))
      decreases maxRetries + 1 - attempt
    {
      if attempt >= |upstream| {
        outcome, requests := TransportFailed, requests + 1;
        return;
      }
      var r := upstream[attempt];
      requests := requests + 1;
      if r.status == 429 {
        var wait := RateLimitWait(r.retryAfter, backoff);
        if attempt >= maxRetries {
          outcome := Raised(429, RateLimitDetail(wait));
          return;
        }
        sleeps := sleeps + [wait];
        backoff := NextBackoff(backoff);
      } else if 500 <= r.status <= 599 {
        if attempt >= maxRetries {
          outcome := Raised(r.status, ErrorDetail(r));
          return;
        }
        sleeps := sleeps + [backoff];
        backoff := NextBackoff(backoff);
      } else if r.status >= 400 {
        outcome := Raised(r.status, ErrorDetail(r));
        return;
      } else {
        outcome := if r.json.Some? then Returned(r.json.value) else InvalidJson;
        return;
      }
      attempt := attempt + 1;
    }
    outcome := Raised(500, JStr(UnexpectedDetail));
  }

  // ---------------------------------------------------------------- properties of the loop

  /** Attempts from `attempt` on issue at most `maxRetries + 1 - attempt` requests and sleep between each two. */
  lemma {:induction false} AttemptsCount(maxRetries: int, upstream: seq<Response>, attempt: nat, backoff: nat)
    ensures var t := Attempts(maxRetries, upstream, attempt, backoff);
      && (attempt > maxRetries ==> t.requests == 0 && t.sleeps == [])
      && (attempt <= maxRetries ==> 1 <= t.requests <= maxRetries + 1 - attempt && |t.sleeps| == t.requests - 1)
    decreases maxRetries + 1 - attempt
  {
    if attempt <= maxRetries && attempt < |upstream| {
      if Retryable(upstream[attempt].status) && attempt < maxRetries {
        AttemptsCount(maxRetries, upstream, attempt + 1, NextBackoff(backoff));
      }
    }
  }

  /** The wait asked for at attempt `j` answers a retried 429 or 5xx and is that response's wait at the shared backoff. */
  predicate SleepFits(maxRetries: int, upstream: seq<Response>, j: nat, wait: nat) {
    && j < |upstream| && j < maxRetries
    && Retryable(upstream[j].status)
    && wait == Pause(upstream[j], BackoffAt(j))
  }

  lemma {:induction false} AttemptsSleepAt(maxRetries: int, upstream: seq<Response>, attempt: nat, i: nat)
    requires i < |Attempts(maxRetries, upstream, attempt, BackoffAt(attempt)).sleeps|
    ensures SleepFits(maxRetries, upstream, attempt + i, Attempts(maxRetries, upstream, attempt, BackoffAt(attempt)).sleeps[i])
    decreases i
  {
    var r := upstream[attempt];
    assert NextBackoff(BackoffAt(attempt)) == BackoffAt(attempt + 1);
    var rest := Attempts(maxRetries, upstream, attempt + 1, BackoffAt(attempt + 1));
    var t := Attempts(maxRetries, upstream, attempt, BackoffAt(attempt));
    assert t.sleeps == [Pause(r, BackoffAt(attempt))] + rest.sleeps;
    if i > 0 {
      AttemptsSleepAt(maxRetries, upstream, attempt + 1, i - 1);
      assert t.sleeps[i] == rest.sleeps[i - 1];
      assert attempt + 1 + (i - 1) == attempt + i;
    }
  }

  lemma AttemptsSleeps(maxRetries: int, upstream: seq<Response>, attempt: nat)
    ensures var t := Attempts(maxRetries, upstream, attempt, BackoffAt(attempt));
      forall i :: 0 <= i < |t.sleeps| ==> SleepFits(maxRetries, upstream, attempt + i, t.sleeps[i])
  {
    var t := Attempts(maxRetries, upstream, attempt, BackoffAt(attempt));
    forall i | 0 <= i < |t.sleeps|
      ensures SleepFits(maxRetries, upstream, attempt + i, t.sleeps[i])
    {
      AttemptsSleepAt(maxRetries, upstream, attempt, i);
    }
  }

  /**
   * The last request decides the outcome: it raised in transport exactly when the
   * script ran out, and otherwise it is a non-retryable response or the last allowed attempt.
   */
  lemma {:induction false} AttemptsLast(maxRetries: int, upstream: seq<Response>, attempt: nat)
    requires attempt <= maxRetries && attempt <= |upstream|
    ensures var t := Attempts(maxRetries, upstream, attempt, BackoffAt(attempt));
      var k := attempt + t.requests - 1;
      && (k < |upstream| ==>
            t.outcome == Stop(upstream[k], BackoffAt(k)) && (!Retryable(upstream[k].status) || k == maxRetries))
      && (k >= |upstream| ==> k == |upstream| && t.outcome == TransportFailed)
    decreases maxRetries + 1 - attempt
  {
    if attempt < |upstream| {
      var r := upstream[attempt];
      if Retryable(r.status) && attempt < maxRetries {
        assert NextBackoff(BackoffAt(attempt)) == BackoffAt(attempt + 1);
        AttemptsLast(maxRetries, upstream, attempt + 1);
      }
    }
  }

  /** With no API key the call fails with 500 before any request or wait. */
  lemma MissingKeyFailsFast(maxRetries: int, upstream: seq<Response>)
    ensures Fetch("", maxRetries, upstream) == Trace(Raised(500, JStr(MissingKeyDetail)), [], 0)
  {
  }

  /**
   * At most `maxRetries + 1` requests; with a negative `maxRetries` none at all and the
   * "Unexpected error"; otherwise one wait fewer than requests.
   */
  lemma FetchBounds(apiKey: string, maxRetries: int, upstream: seq<Response>)
    ensures var t := Fetch(apiKey, maxRetries, upstream);
      && t.requests <= (if maxRetries < 0 then 0 else maxRetries + 1)
      && (apiKey != "" && maxRetries < 0 ==> t == Trace(Raised(500, JStr(UnexpectedDetail)), [], 0))
      && (t.requests > 0 ==> |t.sleeps| == t.requests - 1)
      && (t.requests == 0 ==> t.sleeps == [])
      && (apiKey != "" && maxRetries >= 0 ==> t.requests >= 1)
  {
    AttemptsCount(maxRetries, upstream, 0, InitialBackoff);
  }

  /** `int(Retry-After)` for an all-digit header on a 429, otherwise the backoff after `k` retries. */
  function ScheduledWait(r: Response, k: nat): nat {
    if r.status == 429 && Honoured(r.retryAfter) then Text.Decimal(r.retryAfter.value) else BackoffAt(k)
  }

  /**
   * The waits: the i-th follows a 429 or 5xx at attempt i and is `int(Retry-After)` for an
   * all-digit header on a 429, else the backoff after i retries (2, 4, 8, 16, then 30).
   */
  lemma FetchSleepSchedule(apiKey: string, maxRetries: int, upstream: seq<Response>)
    ensures var t := Fetch(apiKey, maxRetries, upstream);
      && |t.sleeps| <= |upstream|
      && (|t.sleeps| > 0 ==> |t.sleeps| <= maxRetries)
      && forall i :: 0 <= i < |t.sleeps| ==>
           t.sleeps[i] == ScheduledWait(upstream[i], i) && Retryable(upstream[i].status)
  {
    if apiKey != "" {
      assert BackoffAt(0) == InitialBackoff;
      var t := Fetch(apiKey, maxRetries, upstream);
      assert t == Attempts(maxRetries, upstream, 0, BackoffAt(0));
      AttemptsSleeps(maxRetries, upstream, 0);
      if |t.sleeps| > 0 {
        AttemptsSleepAt(maxRetries, upstream, 0, |t.sleeps| - 1);
        assert SleepFits(maxRetries, upstream, 0 + (|t.sleeps| - 1), t.sleeps[|t.sleeps| - 1]);
      }
    }
  }

  /**
   * How the call ends, after `n` requests: the n-th response is either not 429/5xx
   * (a client error, a success, or an undecodable success body) or came on the last
   * allowed attempt; a 429 then reports its computed wait, a 5xx its own status and body.
   */
  lemma FetchOutcome(apiKey: string, maxRetries: int, upstream: seq<Response>)
    requires apiKey != "" && maxRetries >= 0
    ensures var t := Fetch(apiKey, maxRetries, upstream);
      var k := t.requests - 1;
      && (k < |upstream| ==> (!Retryable(upstream[k].status) || k == maxRetries))
      && (k < |upstream| && upstream[k].status == 429 ==>
            t.outcome == Raised(429, RateLimitDetail(RateLimitWait(upstream[k].retryAfter, BackoffAt(k)))))
      && (k < |upstream| && upstream[k].status != 429 && upstream[k].status >= 400 ==>
            t.outcome == Raised(upstream[k].status, ErrorDetail(upstream[k])))
      && (k < |upstream| && upstream[k].status < 400 ==>
            t.outcome == if upstream[k].json.Some? then Returned(upstream[k].json.value) else InvalidJson)
      && (k >= |upstream| ==> k == |upstream| && t.outcome == TransportFailed)
  {
    assert BackoffAt(0) == InitialBackoff;
    AttemptsCount(maxRetries, upstream, 0, InitialBackoff);
    AttemptsLast(maxRetries, upstream, 0);
  }

  /** A client error other than 429 on the first attempt raises at once: one request, no wait. */
  lemma ClientErrorIsNotRetried(apiKey: string, maxRetries: int, upstream: seq<Response>)
    requires apiKey != "" && maxRetries >= 0 && |upstream| > 0
    requires 400 <= upstream[0].status && !Retryable(upstream[0].status)
    ensures Fetch(apiKey, maxRetries, upstream) == Trace(Raised(upstream[0].status, ErrorDetail(upstream[0])), [], 1)
  {
  }

  /** A `Retry-After` of `str(n)` on a 429 is honoured: the wait is `n` seconds. */
  lemma RetryAfterHonoured(n: nat, backoff: nat)
    ensures Honoured(Some(Text.DecimalText(n)))
    ensures RateLimitWait(Some(Text.DecimalText(n)), backoff) == n
  {
    Text.DecimalOfText(n);
  }

  /** A missing, empty or not all-digit `Retry-After` falls back to the backoff. */
  lemma RetryAfterFallsBack(header: Option<string>, backoff: nat)
    requires header.None? || header.value == [] || exists i :: 0 <= i < |header.value| && !Text.IsDigit(header.value[i])
    ensures !Honoured(header) && RateLimitWait(header, backoff) == backoff
  {
  }

  predicate ServerError(r: Response) {
    500 <= r.status <= 599
  }

  predicate PlainRateLimit(r: Response) {
    r.status == 429 && !Honoured(r.retryAfter)
  }

  lemma EarlyBackoffs()
    ensures BackoffAt(0) == 2 && BackoffAt(1) == 4 && BackoffAt(2) == 8 && BackoffAt(3) == 16 && BackoffAt(4) == 30
  {
    assert Pow2(1) == 2 && Pow2(2) == 4 && Pow2(3) == 8;
  }

  /** With the default `max_retries = 4`, five 5xx responses sleep 2, 4, 8, 16 and raise the fifth one's error. */
  lemma DefaultAllServerErrors(apiKey: string, upstream: seq<Response>)
    requires apiKey != "" && |upstream| >= 5
    requires forall i :: 0 <= i < 5 ==> ServerError(upstream[i])
    ensures Fetch(apiKey, DefaultMaxRetries, upstream)
      == Trace(Raised(upstream[4].status, ErrorDetail(upstream[4])), [2, 4, 8, 16], 5)
  {
    EarlyBackoffs();
  }

  /** With the default `max_retries = 4`, five header-less 429s raise 429 reporting a 30-second wait. */
  lemma DefaultAllRateLimited(apiKey: string, upstream: seq<Response>)
    requires apiKey != "" && |upstream| >= 5
    requires forall i :: 0 <= i < 5 ==> PlainRateLimit(upstream[i])
    ensures Fetch(apiKey, DefaultMaxRetries, upstream)
      == Trace(Raised(429, RateLimitDetail(30)), [2, 4, 8, 16], 5)
  {
    EarlyBackoffs();
  }

  /** Three header-less 429s then a success: waits 2, 4, 8 and returns the body. */
  lemma ThreeRateLimitsThenSuccess(apiKey: string, upstream: seq<Response>, body: Json)
    requires apiKey != "" && |upstream| >= 4
    requires forall i :: 0 <= i < 3 ==> PlainRateLimit(upstream[i])
    requires upstream[3].status == 200 && upstream[3].json == Some(body)
    ensures Fetch(apiKey, DefaultMaxRetries, upstream) == Trace(Returned(body), [2, 4, 8], 4)
  {
    EarlyBackoffs();
  }

  /** An honoured `Retry-After` replaces the wait but the backoff still doubles: a following 5xx waits 4. */
  lemma RetryAfterStillAdvancesBackoff(apiKey: string, upstream: seq<Response>, body: Json)
    requires apiKey != "" && |upstream| >= 3
    requires upstream[0].status == 429 && upstream[0].retryAfter == Some("7")
    requires ServerError(upstream[1])
    requires upstream[2].status == 200 && upstream[2].json == Some(body)
    ensures Fetch(apiKey, DefaultMaxRetries, upstream) == Trace(Returned(body), [7, 4], 3)
  {
    assert Text.Decimal("7") == 7 by {
      assert "7"[..0] == [];
    }
  }
}
