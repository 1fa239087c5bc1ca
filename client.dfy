/** The API client wrapper: the SELECT guard on queries, the bounded retry
    loop with exponential backoff around every remote call, and the
    translation of structured API failures into the server's own errors.
    The remote service is a script of outcomes, one per attempt; sleeping
    is recorded as the list of delays slept. */
module Client {
  import opened Wrappers
  import opened Text
  import opened Errors
  import opened Operations

  /** One sub-error of a structured API failure: the text of its error code
      (None when no code is set) and its message. */
  datatype SubError = SubError(errorCode: Option<string>, message: string)

  /** How one remote call can fail: a structured API failure (with its
      sub-errors and its own text), one of the transient server or
      connection errors, or any other exception. */
  datatype Failure =
    | GoogleAdsFailure(errors: seq<SubError>, text: string)
    | TransientFailure(text: string)
    | OtherFailure(text: string)

  datatype Outcome<T> = Success(value: T) | Raised(failure: Failure)

  /** What the retry loop ends with: a value, an error of the server's own
      hierarchy, or an exception passed through unchanged. */
  datatype RetryResult<T> = Returned(value: T) | RaisedMcp(error: McpError) | Propagated(failure: Failure)

  /** A whole run of the loop: its result, how many calls it made, and the
      delays it slept, in order. */
  datatype RetryRun<T> = RetryRun(result: RetryResult<T>, calls: nat, sleeps: seq<nat>)

  /** The two remote requests the wrapper sends. */
  datatype Request =
    | SearchRequest(customerId: string, query: string, pageSize: int)
    | MutateRequest(customerId: string, operations: seq<MutateOperation>, partialFailure: bool)

  function Pow2(k: nat): (r: nat)
    ensures r >= 1
  {
    if k == 0 then 1 else 2 * Pow2(k - 1)
  }

  /** The delay slept after the transient failure of attempt `k`. */
  function Delay(baseDelay: nat, k: nat): nat {
    baseDelay * Pow2(k)
  }

  /** Each power of two is larger than the ones before it. */
  lemma {:induction false} Pow2Increasing(j: nat, k: nat)
    requires j < k
    ensures Pow2(j) < Pow2(k)
    decreases k
  {
    if j < k - 1 {
      Pow2Increasing(j, k - 1);
    }
  }

  /** The backoff never shrinks: a later attempt sleeps at least as long,
      and strictly longer for a positive base delay. */
  lemma DelayGrows(baseDelay: nat, j: nat, k: nat)
    requires j < k
    ensures Delay(baseDelay, j) <= Delay(baseDelay, k)
    ensures baseDelay > 0 ==> Delay(baseDelay, j) < Delay(baseDelay, k)
  {
    Pow2Increasing(j, k);
    ScaleIncreasing(baseDelay, Pow2(j), Pow2(k));
  }

  lemma {:induction false} ScaleIncreasing(c: nat, a: nat, b: nat)
    requires a < b
    ensures c * a <= c * b && (c > 0 ==> c * a < c * b)
    decreases c
  {
    if c > 0 {
      ScaleIncreasing(c - 1, a, b);
      assert c * a == (c - 1) * a + a && c * b == (c - 1) * b + b;
    }
  }

  /** The delays after attempts 0 .. k-1: base·2^0, …, base·2^(k-1). */
  function Backoff(baseDelay: nat, k: nat): (r: seq<nat>)
    ensures |r| == k && forall j :: 0 <= j < k ==> r[j] == Delay(baseDelay, j)
  {
    if k == 0 then [] else Backoff(baseDelay, k - 1) + [Delay(baseDelay, k - 1)]
  }

  /** The error raised once the last attempt has failed transiently. */
  function ExhaustedError(maxRetries: int, text: string): McpError {
    NewMcpError("Errore dopo " + IntToString(maxRetries + 1) + " tentativi: " + text)
  }

  /** The error raised when the loop runs no attempt at all (a negative
      retry count); no exception was ever recorded. */
  function UnexpectedError(): McpError {
    NewMcpError("Errore inaspettato dopo retry: None")
  }

  /** The three categories a code name can fall in. */
  datatype Category = AuthCategory | QuotaCategory | NotFoundCategory

  /** The last '.'-separated segment of the code's text, or "UNKNOWN". */
  function CodeName(e: SubError): string {
    if Truthy(e.errorCode) then LastSegment(e.errorCode.value, '.') else "UNKNOWN"
  }

  /** The checks on one code name, in their priority. */
  function Categorize(codeName: string): (c: Option<Category>)
    ensures c == Some(AuthCategory) <==>
      Contains(Lower(codeName), "authentication") || Contains(Lower(codeName), "authorization")
    ensures c == Some(QuotaCategory) <==>
      !(Contains(Lower(codeName), "authentication") || Contains(Lower(codeName), "authorization"))
      && (Contains(Lower(codeName), "quota") || Contains(Lower(codeName), "rate"))
    ensures c == Some(NotFoundCategory) <==>
      !(Contains(Lower(codeName), "authentication") || Contains(Lower(codeName), "authorization"))
      && !(Contains(Lower(codeName), "quota") || Contains(Lower(codeName), "rate"))
      && Contains(Lower(codeName), "not_found")
  {
    var lower := Lower(codeName);
    if Contains(lower, "authentication") || Contains(lower, "authorization") then Some(AuthCategory)
    else if Contains(lower, "quota") || Contains(lower, "rate") then Some(QuotaCategory)
    else if Contains(lower, "not_found") then Some(NotFoundCategory)
    else None
  }

  /** The error a matched sub-error turns into, carrying its message. */
  function CategoryError(c: Category, message: string): (e: McpError)
    ensures c == AuthCategory ==> e.kind == Authentication
    ensures c == QuotaCategory ==> e.kind == QuotaExhausted(60)
    ensures c == NotFoundCategory ==> e.kind == ResourceNotFound("", "")
  {
    match c
    case AuthCategory => NewAuthenticationError(FormatGoogleAdsError("AUTHENTICATION_ERROR", message))
    case QuotaCategory => NewQuotaExhaustedError(FormatGoogleAdsError("QUOTA_ERROR", message), 60)
    case NotFoundCategory => NewResourceNotFoundError(FormatGoogleAdsError("RESOURCE_NOT_FOUND", message))
  }

  /** The first sub-error that falls in a category decides; with none, the
      failure's own text becomes a request error. */
  function Classify(errors: seq<SubError>, text: string): McpError {
    if errors == [] then NewMcpError(FormatGoogleAdsError("REQUEST_ERROR", text))
    else match Categorize(CodeName(errors[0]))
      case Some(c) => CategoryError(c, errors[0].message)
      case None => Classify(errors[1..], text)
  }

  /** The first matching sub-error at index i decides the error. */
  lemma {:induction false} ClassifyFirstMatch(errors: seq<SubError>, text: string, i: nat)
    requires i < |errors| && Categorize(CodeName(errors[i])).Some?
    requires forall j :: 0 <= j < i ==> Categorize(CodeName(errors[j])).None?
    ensures Classify(errors, text) == CategoryError(Categorize(CodeName(errors[i])).value, errors[i].message)
  {
    if i > 0 {
      ClassifyFirstMatch(errors[1..], text, i - 1);
    }
  }

  /** With no matching sub-error, including none at all, a request error. */
  lemma {:induction false} ClassifyNoMatch(errors: seq<SubError>, text: string)
    requires forall j :: 0 <= j < |errors| ==> Categorize(CodeName(errors[j])).None?
    ensures Classify(errors, text) == NewMcpError(FormatGoogleAdsError("REQUEST_ERROR", text))
  {
    if errors != [] {
      ClassifyNoMatch(errors[1..], text);
    }
  }

  /** The loop from attempt `k` on: a success returns, a structured failure
      is classified at once, another exception passes through, and a
      transient failure sleeps and retries unless it was the last attempt. */
  function RetryFrom<T>(script: nat -> Outcome<T>, maxRetries: int, baseDelay: nat, k: nat): RetryRun<T>
    decreases maxRetries + 1 - k
  {
    if k > maxRetries then RetryRun(RaisedMcp(UnexpectedError()), 0, [])
    else match script(k)
      case Success(v) => RetryRun(Returned(v), 1, [])
      case Raised(GoogleAdsFailure(errors, text)) => RetryRun(RaisedMcp(Classify(errors, text)), 1, [])
      case Raised(OtherFailure(text)) => RetryRun(Propagated(OtherFailure(text)), 1, [])
      case Raised(TransientFailure(text)) =>
        if k < maxRetries then
          var rest := RetryFrom(script, maxRetries, baseDelay, k + 1);
          RetryRun(rest.result, rest.calls + 1, [Delay(baseDelay, k)] + rest.sleeps)
        else RetryRun(RaisedMcp(ExhaustedError(maxRetries, text)), 1, [])
  }

  predicate IsTransient<T>(o: Outcome<T>) {
    o.Raised? && o.failure.TransientFailure?
  }

  /** Every run from attempt k makes at most R+1-k calls and sleeps once
      fewer than it calls. */
  lemma {:induction false} RetryBounds<T>(script: nat -> Outcome<T>, maxRetries: int, baseDelay: nat, k: nat)
    ensures var run := RetryFrom(script, maxRetries, baseDelay, k);
      && (k <= maxRetries ==> 1 <= run.calls <= maxRetries + 1 - k && |run.sleeps| == run.calls - 1)
      && (k > maxRetries ==> run.calls == 0 && run.sleeps == [])
    decreases maxRetries + 1 - k
  {
    if k <= maxRetries && IsTransient(script(k)) && k < maxRetries {
      RetryBounds(script, maxRetries, baseDelay, k + 1);
    }
  }

  /** The delays base·2^k, …, base·2^(n-1). */
  function BackoffFrom(baseDelay: nat, k: nat, n: nat): (r: seq<nat>)
    requires k <= n
    ensures |r| == n - k
    decreases n - k
  {
    if k == n then [] else [Delay(baseDelay, k)] + BackoffFrom(baseDelay, k + 1, n)
  }

  lemma {:induction false} BackoffSplit(baseDelay: nat, n: nat)
    ensures BackoffFrom(baseDelay, 0, n) == Backoff(baseDelay, n)
  {
    var a := BackoffFrom(baseDelay, 0, n);
    var b := Backoff(baseDelay, n);
    forall j | 0 <= j < n
      ensures a[j] == b[j]
    {
      BackoffFromAt(baseDelay, 0, n, j);
    }
  }

  lemma {:induction false} BackoffFromAt(baseDelay: nat, k: nat, n: nat, j: nat)
    requires k <= j < n
    ensures BackoffFrom(baseDelay, k, n)[j - k] == Delay(baseDelay, j)
    decreases j - k
  {
    if j > k {
      BackoffFromAt(baseDelay, k + 1, n, j);
    }
  }

  /** When attempts k .. s-1 fail transiently and attempt s succeeds, the
      value of attempt s is returned after exactly those delays. */
  lemma {:induction false} RetryFirstSuccessFrom<T>(script: nat -> Outcome<T>, maxRetries: int, baseDelay: nat,
                                                    k: nat, s: nat)
    requires k <= s <= maxRetries && script(s).Success?
    requires forall j :: k <= j < s ==> IsTransient(script(j))
    ensures RetryFrom(script, maxRetries, baseDelay, k)
            == RetryRun(Returned(script(s).value), s - k + 1, BackoffFrom(baseDelay, k, s))
    decreases s - k
  {
    if k < s {
      RetryFirstSuccessFrom(script, maxRetries, baseDelay, k + 1, s);
    }
  }

  /** The first success on attempt s: its value, s+1 calls, and sleeps of
      base·2^0, …, base·2^(s-1). */
  lemma RetryFirstSuccess<T>(script: nat -> Outcome<T>, maxRetries: int, baseDelay: nat, s: nat)
    requires s <= maxRetries && script(s).Success?
    requires forall j :: 0 <= j < s ==> IsTransient(script(j))
    ensures RetryFrom(script, maxRetries, baseDelay, 0)
            == RetryRun(Returned(script(s).value), s + 1, Backoff(baseDelay, s))
  {
    RetryFirstSuccessFrom(script, maxRetries, baseDelay, 0, s);
    BackoffSplit(baseDelay, s);
  }

  lemma {:induction false} RetryAllTransientFrom<T>(script: nat -> Outcome<T>, maxRetries: int, baseDelay: nat,
                                                    k: nat, lastText: string)
    requires k <= maxRetries
    requires forall j :: k <= j < maxRetries ==> IsTransient(script(j))
    requires script(maxRetries) == Raised(TransientFailure(lastText))
    ensures RetryFrom(script, maxRetries, baseDelay, k)
            == RetryRun(RaisedMcp(ExhaustedError(maxRetries, lastText)),
                        maxRetries + 1 - k, BackoffFrom(baseDelay, k, maxRetries))
    decreases maxRetries - k
  {
    if k < maxRetries {
      RetryAllTransientFrom(script, maxRetries, baseDelay, k + 1, lastText);
    }
  }

  /** When every attempt fails transiently: R+1 calls, R sleeps, and the
      error naming the number of attempts and the last failure. */
  lemma RetryAllTransient<T>(script: nat -> Outcome<T>, maxRetries: nat, baseDelay: nat, lastText: string)
    requires forall j :: 0 <= j < maxRetries ==> IsTransient(script(j))
    requires script(maxRetries) == Raised(TransientFailure(lastText))
    ensures RetryFrom(script, maxRetries, baseDelay, 0)
            == RetryRun(RaisedMcp(ExhaustedError(maxRetries, lastText)),
                        maxRetries + 1, Backoff(baseDelay, maxRetries))
  {
    RetryAllTransientFrom(script, maxRetries, baseDelay, 0, lastText);
    BackoffSplit(baseDelay, maxRetries);
  }

  lemma {:induction false} RetryNotRetriedFrom<T>(script: nat -> Outcome<T>, maxRetries: int, baseDelay: nat,
                                                  k: nat, s: nat)
    requires k <= s <= maxRetries && script(s).Raised? && !script(s).failure.TransientFailure?
    requires forall j :: k <= j < s ==> IsTransient(script(j))
    ensures var run := RetryFrom(script, maxRetries, baseDelay, k);
      && run.calls == s - k + 1 && run.sleeps == BackoffFrom(baseDelay, k, s)
      && (script(s).failure.GoogleAdsFailure? ==>
            run.result == RaisedMcp(Classify(script(s).failure.errors, script(s).failure.text)))
      && (script(s).failure.OtherFailure? ==> run.result == Propagated(script(s).failure))
    decreases s - k
  {
    if k < s {
      RetryNotRetriedFrom(script, maxRetries, baseDelay, k + 1, s);
    }
  }

  /** A structured failure on attempt s is classified and raised there, and
      any other non-transient exception passes through there: no further
      call is made. */
  lemma RetryNotRetried<T>(script: nat -> Outcome<T>, maxRetries: int, baseDelay: nat, s: nat)
    requires s <= maxRetries && script(s).Raised? && !script(s).failure.TransientFailure?
    requires forall j :: 0 <= j < s ==> IsTransient(script(j))
    ensures var run := RetryFrom(script, maxRetries, baseDelay, 0);
      && run.calls == s + 1 && run.sleeps == Backoff(baseDelay, s)
      && (script(s).failure.GoogleAdsFailure? ==>
            run.result == RaisedMcp(Classify(script(s).failure.errors, script(s).failure.text)))
      && (script(s).failure.OtherFailure? ==> run.result == Propagated(script(s).failure))
  {
    RetryNotRetriedFrom(script, maxRetries, baseDelay, 0, s);
    BackoffSplit(baseDelay, s);
  }

  /** With a negative retry count nothing is called and the loop still raises. */
  lemma RetryNegative<T>(script: nat -> Outcome<T>, maxRetries: int, baseDelay: nat)
    requires maxRetries < 0
    ensures RetryFrom(script, maxRetries, baseDelay, 0) == RetryRun(RaisedMcp(UnexpectedError()), 0, [])
  {
  }

  /** The error text for a query that is not a SELECT, quoting at most its
      first 30 characters. */
  function NotSelectMessage(stripped: string): string {
    "Solo query SELECT consentite. Ricevuto: '" + stripped[..if |stripped| < 30 then |stripped| else 30] + "...'"
  }

  /** Whether the guard lets a query through. */
  predicate IsSelect(query: string) {
    StartsWith(Upper(Strip(query)), "SELECT")
  }

  /** A query either fails the guard with a ValueError or runs. */
  datatype QueryResult<T> = NotSelect(message: string) | Sent(run: RetryRun<T>, requests: seq<Request>)

  class GoogleAdsClientWrapper {
    var maxRetries: int
    var baseDelay: nat

    constructor(maxRetries: int := 3, baseDelay: nat := 1)
      ensures this.maxRetries == maxRetries && this.baseDelay == baseDelay
    {
      this.maxRetries := maxRetries;
      this.baseDelay := baseDelay;
    }

    /** Classification of a structured failure: the loop returns at the first
        sub-error that falls in a category. */
    method HandleGoogleAdsException(errors: seq<SubError>, text: string) returns (e: McpError)
      ensures e == Classify(errors, text)
    {
      var i := 0;
      while i < |errors|
        invariant 0 <= i <= |errors|
        invariant Classify(errors[i..], text) == Classify(errors, text)
      {
        var error := errors[i];
        var codeName := if Truthy(error.errorCode) then LastSegment(error.errorCode.value, '.') else "UNKNOWN";
        var lower := Lower(codeName);
        if Contains(lower, "authentication") || Contains(lower, "authorization") {
          return NewAuthenticationError(FormatGoogleAdsError("AUTHENTICATION_ERROR", error.message));
        }
        if Contains(lower, "quota") || Contains(lower, "rate") {
          return NewQuotaExhaustedError(FormatGoogleAdsError("QUOTA_ERROR", error.message), 60);
        }
        if Contains(lower, "not_found") {
          return NewResourceNotFoundError(FormatGoogleAdsError("RESOURCE_NOT_FOUND", error.message));
        }
        assert errors[i..][1..] == errors[i + 1..];
        i := i + 1;
      }
      e := NewMcpError(FormatGoogleAdsError("REQUEST_ERROR", text));
    }

    /** The retry loop: attempts 0 .. maxRetries, each one remote call of
        `request`; the run is the one `RetryFrom` describes. */
    method ExecuteWithRetry<T>(script: nat -> Outcome<T>, request: Request)
      returns (run: RetryRun<T>, requests: seq<Request>)
      ensures run == RetryFrom(script, maxRetries, baseDelay, 0)
      ensures |requests| == run.calls && forall j :: 0 <= j < |requests| ==> requests[j] == request
    {
      var sleeps: seq<nat> := [];
      requests := [];
      var attempt: nat := 0;
      while attempt <= maxRetries
        invariant attempt == 0 || attempt <= maxRetries
        invariant |requests| == attempt && |sleeps| == attempt
        invariant forall j :: 0 <= j < attempt ==> requests[j] == request
        invariant forall j :: 0 <= j < attempt ==> IsTransient(script(j))
        invariant sleeps == BackoffFrom(baseDelay, 0, attempt)
        decreases maxRetries + 1 - attempt
      {
        requests := requests + [request];
        var outcome := script(attempt);
        match outcome {
          case Success(v) =>
            run := RetryRun(Returned(v), attempt + 1, sleeps);
            RetryFirstSuccessFrom(script, maxRetries, baseDelay, 0, attempt);
            return;
          case Raised(GoogleAdsFailure(errors, text)) =>
            var error := HandleGoogleAdsException(errors, text);
            run := RetryRun(RaisedMcp(error), attempt + 1, sleeps);
            RetryNotRetriedFrom(script, maxRetries, baseDelay, 0, attempt);
            return;
          case Raised(OtherFailure(text)) =>
            run := RetryRun(Propagated(OtherFailure(text)), attempt + 1, sleeps);
            RetryNotRetriedFrom(script, maxRetries, baseDelay, 0, attempt);
            return;
          case Raised(TransientFailure(text)) =>
            if attempt < maxRetries {
              sleeps := sleeps + [Delay(baseDelay, attempt)];
              BackoffAppend(baseDelay, attempt);
            } else {
              run := RetryRun(RaisedMcp(ExhaustedError(maxRetries, text)), attempt + 1, sleeps);
              RetryAllTransientFrom(script, maxRetries, baseDelay, 0, text);
              return;
            }
        }
        attempt := attempt + 1;
      }
      run := RetryRun(RaisedMcp(UnexpectedError()), 0, []);
    }

    /** The SELECT guard: the trimmed, uppercased text must start with
        SELECT, and is then sent trimmed; nothing is sent otherwise. */
    method Query<T>(customerId: string, query: string, script: nat -> Outcome<T>, pageSize: int := 10000)
      returns (r: QueryResult<T>)
      ensures r.NotSelect? <==> !IsSelect(query)
      ensures r.NotSelect? ==> r.message == NotSelectMessage(Strip(query))
      ensures r.Sent? ==>
        && r.run == RetryFrom(script, maxRetries, baseDelay, 0)
        && |r.requests| == r.run.calls
        && forall j :: 0 <= j < |r.requests| ==> r.requests[j] == SearchRequest(customerId, Strip(query), pageSize)
    {
      var stripped := Strip(query);
      if !StartsWith(Upper(stripped), "SELECT") {
        return NotSelect(NotSelectMessage(stripped));
      }
      var run, requests := ExecuteWithRetry(script, SearchRequest(customerId, stripped, pageSize));
      r := Sent(run, requests);
    }

    /** Mutations go through the same retry loop; partial failure is off
        unless asked for. */
    method Mutate<T>(customerId: string, operations: seq<MutateOperation>, script: nat -> Outcome<T>,
                     partialFailure: bool := false)
      returns (run: RetryRun<T>, requests: seq<Request>)
      ensures run == RetryFrom(script, maxRetries, baseDelay, 0)
      ensures |requests| == run.calls
      ensures forall j :: 0 <= j < |requests| ==>
        requests[j] == MutateRequest(customerId, operations, partialFailure)
    {
      run, requests := ExecuteWithRetry(script, MutateRequest(customerId, operations, partialFailure));
    }
  }

  lemma BackoffAppend(baseDelay: nat, k: nat)
    ensures BackoffFrom(baseDelay, 0, k) + [Delay(baseDelay, k)] == BackoffFrom(baseDelay, 0, k + 1)
  {
    BackoffSplit(baseDelay, k);
    BackoffSplit(baseDelay, k + 1);
  }
}
