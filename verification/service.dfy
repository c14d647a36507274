/** `getInstagramVideo` (src/lib/instagram-service.ts): the configuration
    check, one provider attempt, and the retry loop around it.

    The network is not modelled. Each `fetch` of the provider is replaced by
    a `FetchOutcome` supplied by the caller, one per attempt, in order; the
    15-second abort is one of the ways a fetch fails. The one-second pause
    between attempts is counted, not taken. */
module InstagramService {
  import opened Common
  import opened MediaNormalizer

  /** What `response.json()` produced. */
  datatype Body = Json(payload: Payload) | NotJson(parseError: string)

  /** The result of one `fetch` of the provider: a rejected promise (network
      failure or the timeout's abort) with its error message, or a response. */
  datatype FetchOutcome = NetworkFailure(message: string) | Responded(status: nat, body: Body)

  /** What the loop did: the value returned or the error thrown, the number of
      provider attempts, and the number of one-second pauses. */
  datatype ServiceRun = ServiceRun(result: Result<InstagramData, string>, attempts: nat, sleeps: nat)

  const MaxAttempts: nat := 3
  const MissingKeyMessage := "Server Misconfiguration: RAPIDAPI_KEY is missing"
  const FallbackMessage := "Failed to fetch from Instagram API"
  const AuthMarker := "Authentication error"

  function AuthErrorMessage(status: nat): string {
    AuthMarker + (": " + DecimalString(status) + " - Check API Key")
  }

  /** The message for any other failed status: a fixed prefix, then the
      status in decimal, which reads back as the status. */
  function ApiErrorMessage(status: nat): (m: string)
    ensures |m| > 20 && m[..20] == "External API error: "
    ensures forall i :: 20 <= i < |m| ==> IsDigit(m[i])
    ensures DigitsValue(m[20..]) == status
  {
    var digits := DecimalString(status);
    assert ("External API error: " + digits)[20..] == digits;
    "External API error: " + digits
  }

  /** The loop's only terminal test: the error message contains the
      authentication marker anywhere in it. */
  predicate IsAuthenticationError(message: string) {
    Contains(message, AuthMarker)
  }

  /** An attempt that the loop retries: it failed, and not with an
      authentication error. */
  predicate Retryable(r: Result<InstagramData, string>) {
    r.Failure? && !IsAuthenticationError(r.error)
  }

  lemma AuthErrorDetected(status: nat)
    ensures IsAuthenticationError(AuthErrorMessage(status))
  {
    StartsWithAppend(AuthMarker, ": " + DecimalString(status) + " - Check API Key");
    PrefixIsContained(AuthErrorMessage(status), AuthMarker);
  }

  lemma ApiErrorPrefixNoPair()
    ensures NoPairIn("External API error: ", 'A', 'u')
  {
    var m := "External API error: ";
    forall k | 0 <= k < |m| - 1
      ensures !(m[k] == 'A' && m[k + 1] == 'u')
    {
    }
  }

  /** The message of any other failed status never reads as an
      authentication error. */
  lemma ApiErrorNotAuthentication(status: nat)
    ensures !IsAuthenticationError(ApiErrorMessage(status))
  {
    var digits := DecimalString(status);
    ApiErrorPrefixNoPair();
    NoPairAppend("External API error: ", digits, 'A', 'u');
    NoPairNotContained(ApiErrorMessage(status), AuthMarker);
  }

  /** Neither does the normaliser's missing-URL error. */
  lemma NoDownloadUrlNotAuthentication()
    ensures !IsAuthenticationError(NoDownloadUrl)
  {
    var m := NoDownloadUrl;
    forall k | 0 <= k < |m| - 1
      ensures !(m[k] == 'A' && m[k + 1] == 'u')
    {
    }
    NoPairNotContained(m, AuthMarker);
  }

  /** One pass through the `try` block: fetch, status check, JSON parse,
      normalisation. */
  function Attempt(link: string, o: FetchOutcome): (r: Result<InstagramData, string>)
    ensures o.NetworkFailure? ==> r == Failure(o.message)
    ensures o.Responded? && (o.status == 401 || o.status == 403) ==> r.Failure? && !Retryable(r)
    ensures o.Responded? && !IsOkStatus(o.status) && o.status != 401 && o.status != 403 ==> Retryable(r)
    ensures o.Responded? && !IsOkStatus(o.status) ==>
              r == Failure(if o.status == 401 || o.status == 403 then AuthErrorMessage(o.status)
                           else ApiErrorMessage(o.status))
    ensures o.Responded? && IsOkStatus(o.status) && o.body.NotJson? ==> r == Failure(o.body.parseError)
    ensures o.Responded? && IsOkStatus(o.status) && o.body.Json? ==>
              r == Normalize(o.body.payload, link) && (r.Failure? ==> Retryable(r))
  {
    match o
    case NetworkFailure(message) => Failure(message)
    case Responded(status, body) =>
      if !IsOkStatus(status) then
        if status == 401 || status == 403 then
          AuthErrorDetected(status);
          Failure(AuthErrorMessage(status))
        else
          ApiErrorNotAuthentication(status);
          Failure(ApiErrorMessage(status))
      else
        match body
        case NotJson(parseError) => Failure(parseError)
        case Json(payload) =>
          NoDownloadUrlNotAuthentication();
          Normalize(payload, link)
  }

  /** The outcome of every attempt the environment answers for. */
  function Attempts(link: string, outcomes: seq<FetchOutcome>): (results: seq<Result<InstagramData, string>>)
    ensures |results| == |outcomes|
    ensures forall i :: 0 <= i < |outcomes| ==> results[i] == Attempt(link, outcomes[i])
  {
    seq(|outcomes|, i requires 0 <= i < |outcomes| => Attempt(link, outcomes[i]))
  }

  /** The `while (retries > 0)` loop after `done` attempts, `retries` of them
      left, with `sleeps` pauses taken so far; `results[i]` is what attempt
      `i` returns or throws. With attempts left it stops at the first attempt
      that succeeds or fails with an authentication error, or after the last
      attempt; the answer is always that of the attempt it stopped at, and it
      paused once after every attempt but that one. */
  function RetryLoop(results: seq<Result<InstagramData, string>>, done: nat, retries: nat,
                     lastError: Option<string>, sleeps: nat): (run: ServiceRun)
    requires done + retries <= |results|
    ensures retries == 0 ==> run.attempts == done && run.sleeps == sleeps && run.result.Failure?
    ensures retries > 0 ==> done < run.attempts <= done + retries
    ensures retries > 0 ==> run.sleeps == sleeps + (run.attempts - done - 1)
    ensures retries > 0 ==> run.result == results[run.attempts - 1]
    ensures retries > 0 ==> forall j :: done <= j < run.attempts - 1 ==> Retryable(results[j])
    ensures retries > 0 && run.attempts < done + retries ==> !Retryable(run.result)
    decreases retries
  {
    if retries == 0 then
      ServiceRun(Failure(if lastError.Some? then lastError.value else FallbackMessage), done, sleeps)
    else
      var r := results[done];
      if r.Success? || IsAuthenticationError(r.error) then ServiceRun(r, done + 1, sleeps)
      else
        var left := retries - 1;
        RetryLoop(results, done + 1, left, Some(r.error), if left > 0 then sleeps + 1 else sleeps)
  }

  /** `getInstagramVideo(link)` with the environment's `RAPIDAPI_KEY` and
      one fetch outcome for each attempt the loop may make. */
  function GetInstagramVideo(link: string, apiKey: Option<string>, outcomes: seq<FetchOutcome>): (run: ServiceRun)
    requires |outcomes| >= MaxAttempts
    ensures !Truthy(apiKey) ==> run == ServiceRun(Failure(MissingKeyMessage), 0, 0)
    ensures Truthy(apiKey) ==> 1 <= run.attempts <= MaxAttempts && run.sleeps == run.attempts - 1
    ensures Truthy(apiKey) ==> run.result == Attempt(link, outcomes[run.attempts - 1])
    ensures Truthy(apiKey) ==> forall j :: 0 <= j < run.attempts - 1 ==> Retryable(Attempt(link, outcomes[j]))
    ensures Truthy(apiKey) && run.attempts < MaxAttempts ==> !Retryable(run.result)
  {
    if !Truthy(apiKey) then ServiceRun(Failure(MissingKeyMessage), 0, 0)
    else RetryLoop(Attempts(link, outcomes), 0, MaxAttempts, None, 0)
  }

  /** The loop's answer is determined by the first decisive attempt: a
      success or an authentication error among the first three ends it there;
      if none of the three is decisive, the third attempt's error is thrown. */
  lemma FirstDecisiveAttempt(link: string, apiKey: Option<string>, outcomes: seq<FetchOutcome>, k: nat)
    requires |outcomes| >= MaxAttempts && Truthy(apiKey)
    requires k < MaxAttempts
    requires !Retryable(Attempt(link, outcomes[k]))
    requires forall j :: 0 <= j < k ==> Retryable(Attempt(link, outcomes[j]))
    ensures GetInstagramVideo(link, apiKey, outcomes) == ServiceRun(Attempt(link, outcomes[k]), k + 1, k)
  {
  }

  /** When no attempt is decisive the loop runs out: three attempts, two
      pauses, and the third attempt's error is thrown, so the fallback
      message is never reached. */
  lemma LoopExhausts(results: seq<Result<InstagramData, string>>)
    requires |results| >= MaxAttempts
    requires forall j :: 0 <= j < MaxAttempts ==> Retryable(results[j])
    ensures RetryLoop(results, 0, MaxAttempts, None, 0) == ServiceRun(results[2], 3, 2)
  {
    var run := RetryLoop(results, 0, MaxAttempts, None, 0);
    assert Retryable(results[run.attempts - 1]);
  }

  lemma AllAttemptsRetryable(link: string, apiKey: Option<string>, outcomes: seq<FetchOutcome>)
    requires |outcomes| >= MaxAttempts && Truthy(apiKey)
    requires forall j :: 0 <= j < MaxAttempts ==> Retryable(Attempt(link, outcomes[j]))
    ensures GetInstagramVideo(link, apiKey, outcomes) == ServiceRun(Attempt(link, outcomes[2]), 3, 2)
  {
    LoopExhausts(Attempts(link, outcomes));
  }

  /** Three network failures (timeouts included) whose messages are not
      authentication errors: three attempts, two pauses, and the third
      failure's message is thrown. */
  lemma ThreeNetworkFailures(link: string, apiKey: Option<string>, m1: string, m2: string, m3: string)
    requires Truthy(apiKey)
    requires !IsAuthenticationError(m1) && !IsAuthenticationError(m2) && !IsAuthenticationError(m3)
    ensures GetInstagramVideo(link, apiKey, [NetworkFailure(m1), NetworkFailure(m2), NetworkFailure(m3)]) ==
            ServiceRun(Failure(m3), 3, 2)
  {
    AllAttemptsRetryable(link, apiKey, [NetworkFailure(m1), NetworkFailure(m2), NetworkFailure(m3)]);
  }

  /** A 401 or 403 on the first attempt ends the loop at once: one attempt,
      no pause, whatever the later outcomes would have been. */
  lemma AuthenticationStopsAtOnce(link: string, apiKey: Option<string>, outcomes: seq<FetchOutcome>)
    requires |outcomes| >= MaxAttempts && Truthy(apiKey)
    requires outcomes[0].Responded? && (outcomes[0].status == 401 || outcomes[0].status == 403)
    ensures var run := GetInstagramVideo(link, apiKey, outcomes);
            run.attempts == 1 && run.sleeps == 0 && run.result.Failure? &&
            run.result.error == AuthErrorMessage(outcomes[0].status)
  {
    FirstDecisiveAttempt(link, apiKey, outcomes, 0);
  }
}
