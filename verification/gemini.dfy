/**
 * The Gemini client (`google-gemini.ts`): the classifier that decides whether a
 * failed call is worth repeating, the retry loop with exponential backoff that
 * wraps the final failure, and the clean-up of a reply before it is parsed.
 * Each attempt's outcome is an input: the SDK call, its timer and the waits
 * themselves are not modelled, only the waits the loop asks for.
 */
module GoogleGemini {
  import opened Wrappers
  import opened Strings
  import opened JsonSpan

  /** `API_CONFIG`. */
  const MaxRetries: nat := 3
  const RetryDelay: nat := 1000
  const Timeout: nat := 30000

  /** The fields of a thrown `GeminiError` the loop looks at (an absent message reads as ""). */
  datatype ApiError = ApiError(message: string, code: Option<string>, status: Option<int>)

  /** What one call of `generateContent`, raced against the timer, produced. */
  datatype Outcome = Reply(text: string) | Thrown(error: ApiError)

  /** The error `callGeminiWithSearch` finally throws (the request id is left out). */
  datatype GeminiFailure = GeminiFailure(message: string, code: Option<string>, status: Option<int>, attempts: nat, originalError: ApiError)

  /** The error the timer rejects with after `timeout` milliseconds. */
  function TimeoutError(timeout: nat): ApiError {
    ApiError("Request timeout after " + NatToString(timeout) + "ms", None, None)
  }

  const RetryableStatus: set<int> := {408, 429, 500, 502, 503, 504}

  /** `isRetryableError`, the checks in the source's order. */
  function IsRetryable(e: ApiError): (r: bool)
    ensures Contains(e.message, "timeout") || Contains(e.message, "ECONNRESET") || Contains(e.message, "ETIMEDOUT") ==> r
    ensures e.status.Some? && e.status.value in RetryableStatus ==> r
    ensures e.code == Some("RATE_LIMIT_EXCEEDED") || Contains(e.message, "rate limit") ==> r
    ensures e.code == Some("INTERNAL_ERROR") || e.code == Some("SERVICE_UNAVAILABLE") ==> r
    ensures r ==> (|| Contains(e.message, "timeout") || Contains(e.message, "ECONNRESET") || Contains(e.message, "ETIMEDOUT")
                   || (e.status.Some? && e.status.value in RetryableStatus)
                   || e.code == Some("RATE_LIMIT_EXCEEDED") || Contains(e.message, "rate limit")
                   || e.code == Some("INTERNAL_ERROR") || e.code == Some("SERVICE_UNAVAILABLE"))
  {
    if Contains(e.message, "timeout") then true
    else if Contains(e.message, "ECONNRESET") then true
    else if Contains(e.message, "ETIMEDOUT") then true
    else if e.status.Some? && e.status.value in [408, 429, 500, 502, 503, 504] then true
    else if e.code == Some("RATE_LIMIT_EXCEEDED") then true
    else if Contains(e.message, "rate limit") then true
    else if e.code == Some("INTERNAL_ERROR") then true
    else if e.code == Some("SERVICE_UNAVAILABLE") then true
    else false
  }

  /** An attempt returns when the reply text is non-empty. */
  predicate Succeeded(o: Outcome) {
    o.Reply? && o.text != ""
  }

  /** The error a failed attempt leaves in `lastError`. */
  function AttemptError(o: Outcome): (e: ApiError)
    ensures o.Reply? ==> e == ApiError("Empty response received from Gemini API", None, None)
    ensures o.Thrown? ==> e == o.error
  {
    match o
    case Reply(_) => ApiError("Empty response received from Gemini API", None, None)
    case Thrown(err) => err
  }

  function Pow2(k: nat): (r: nat)
    ensures r >= 1
  {
    if k == 0 then 1 else 2 * Pow2(k - 1)
  }

  /** `retryDelay * 2^k`, written as k doublings of `retryDelay`. */
  function Delay(retryDelay: nat, k: nat): nat {
    if k == 0 then retryDelay else 2 * Delay(retryDelay, k - 1)
  }

  /** The doublings are the source's `retryDelay * Math.pow(2, attempt - 1)` with attempt = k + 1. */
  lemma {:induction false} DelayIsProduct(retryDelay: nat, k: nat)
    ensures Delay(retryDelay, k) == retryDelay * Pow2(k)
  {
    if k > 0 {
      DelayIsProduct(retryDelay, k - 1);
      Twice(retryDelay, Pow2(k - 1));
    }
  }

  lemma Twice(a: nat, p: nat)
    ensures 2 * (a * p) == a * (2 * p)
  {
  }

  /** The waits before attempts 1..n, in order. */
  function Backoff(retryDelay: nat, n: nat): (w: seq<nat>)
    ensures |w| == n
  {
    if n == 0 then [] else Backoff(retryDelay, n - 1) + [Delay(retryDelay, n - 1)]
  }

  /** The wait before attempt k + 1 is `retryDelay * 2^k`, and each wait doubles the one before. */
  lemma {:induction false} BackoffAt(retryDelay: nat, n: nat, k: nat)
    requires k < n
    ensures Backoff(retryDelay, n)[k] == retryDelay * Pow2(k)
    ensures k + 1 < n ==> Backoff(retryDelay, n)[k + 1] == 2 * Backoff(retryDelay, n)[k]
  {
    BackoffIsDelays(retryDelay, n, k);
    DelayIsProduct(retryDelay, k);
    if k + 1 < n {
      BackoffIsDelays(retryDelay, n, k + 1);
    }
  }

  lemma {:induction false} BackoffIsDelays(retryDelay: nat, n: nat, k: nat)
    requires k < n
    ensures Backoff(retryDelay, n)[k] == Delay(retryDelay, k)
  {
    if k < n - 1 {
      BackoffIsDelays(retryDelay, n - 1, k);
    }
  }

  function Sum(s: seq<nat>): nat {
    if |s| == 0 then 0 else Sum(s[..|s| - 1]) + s[|s| - 1]
  }

  /** The thrown error: its text counts `maxRetries + 1` attempts whatever ran, code and status are copied. */
  function Enhanced(last: ApiError, maxRetries: nat): (f: GeminiFailure)
    ensures f.attempts == maxRetries + 1
    ensures f.code == last.code && f.status == last.status && f.originalError == last
    ensures |f.message| > |last.message|
  {
    var cause := if last.message == "" then "Unknown error" else last.message;
    GeminiFailure("Gemini API failed after " + NatToString(maxRetries + 1) + " attempts: " + cause,
                  last.code, last.status, maxRetries + 1, last)
  }

  /**
   * The attempt loop of `callGeminiWithSearch`. `outcome(k)` is what attempt `k`
   * produces; `waits` are the delays requested before the attempts after the first.
   */
  method CallWithRetries(outcome: nat -> Outcome, maxRetries: nat, retryDelay: nat)
    returns (r: Result<string, GeminiFailure>, attempts: nat, waits: seq<nat>)
    ensures 1 <= attempts <= maxRetries + 1
    ensures forall k :: 0 <= k < attempts - 1 ==> !Succeeded(outcome(k)) && IsRetryable(AttemptError(outcome(k)))
    ensures r.Success? <==> Succeeded(outcome(attempts - 1))
    ensures r.Success? ==> r.value == outcome(attempts - 1).text
    ensures r.Failure? ==> attempts == maxRetries + 1 || !IsRetryable(AttemptError(outcome(attempts - 1)))
    ensures r.Failure? ==> r.error == Enhanced(AttemptError(outcome(attempts - 1)), maxRetries)
    ensures waits == Backoff(retryDelay, attempts - 1)
  {
    var lastError: Option<ApiError> := None;
    var attempt: nat := 0;
    waits := [];
    attempts := 0;
    while attempt <= maxRetries
      invariant attempt <= maxRetries
      invariant forall k :: 0 <= k < attempt ==> !Succeeded(outcome(k)) && IsRetryable(AttemptError(outcome(k)))
      invariant waits == Backoff(retryDelay, if attempt == 0 then 0 else attempt - 1)
    {
      if attempt > 0 {
        DelayIsProduct(retryDelay, attempt - 1);
        waits := waits + [retryDelay * Pow2(attempt - 1)];
      }
      var o := outcome(attempt);
      attempts := attempt + 1;
      if o.Reply? && o.text != "" {
        r := Success(o.text);
        return;
      }
      lastError := Some(AttemptError(o));
      if !IsRetryable(lastError.value) || attempt == maxRetries {
        break;
      }
      attempt := attempt + 1;
    }
    r := Failure(Enhanced(lastError.value, maxRetries));
  }

  lemma SumAppend(s: seq<nat>, x: nat)
    ensures Sum(s + [x]) == Sum(s) + x
  {
    assert (s + [x])[..|s|] == s;
  }

  /** The waits so far add up to one wait short of the next delay. */
  lemma {:induction false} BackoffSum(retryDelay: nat, n: nat)
    ensures Sum(Backoff(retryDelay, n)) + retryDelay == Delay(retryDelay, n)
  {
    if n > 0 {
      BackoffSum(retryDelay, n - 1);
      SumAppend(Backoff(retryDelay, n - 1), Delay(retryDelay, n - 1));
    }
  }

  /** Before the last attempt the loop has waited `retryDelay * (2^n - 1)` in all. */
  lemma BackoffTotal(retryDelay: nat, n: nat)
    ensures Sum(Backoff(retryDelay, n)) == retryDelay * (Pow2(n) - 1)
  {
    BackoffSum(retryDelay, n);
    DelayIsProduct(retryDelay, n);
    LessOne(retryDelay, Pow2(n));
  }

  lemma LessOne(a: nat, q: nat)
    requires q >= 1
    ensures a * q - a == a * (q - 1)
  {
  }

  /** A message without "u", "C", "T" and "l" and with no code or status is not retryable. */
  lemma NoRetryableFragment(m: string)
    requires forall k :: 0 <= k < |m| ==> m[k] !in "uCTl"
    ensures !IsRetryable(ApiError(m, None, None))
  {
    assert 'u' !in m && 'C' !in m && 'T' !in m && 'l' !in m;
    MissingCharExcludes(m, "timeout", 'u');
    MissingCharExcludes(m, "ECONNRESET", 'C');
    MissingCharExcludes(m, "ETIMEDOUT", 'T');
    MissingCharExcludes(m, "rate limit", 'l');
  }

  /** The empty-reply error is not retryable, so an empty reply ends the loop. */
  lemma EmptyResponseFinal()
    ensures !IsRetryable(ApiError("Empty response received from Gemini API", None, None))
  {
    NoRetryableFragment("Empty response received from Gemini API");
  }

  /** The timer's rejection is retryable: its message contains "timeout". */
  lemma TimeoutRetried(timeout: nat)
    ensures IsRetryable(TimeoutError(timeout))
  {
    var m := TimeoutError(timeout).message;
    assert m[8..15] == "timeout";
    assert OccursAt(m, "timeout", 8);
  }

  /** The length of the run of "`" characters at the start of `s`. */
  function LeadTicks(s: string): (n: nat)
    ensures n <= |s|
  {
    if |s| > 0 && s[0] == '`' then 1 + LeadTicks(s[1..]) else 0
  }

  /** A fence opens `s` exactly when `s` starts with three backticks. */
  lemma FenceAtStart(s: string)
    ensures LeadTicks(s) >= 3 <==> "```" <= s
  {
    if |s| >= 3 && s[0] == '`' && s[1] == '`' && s[2] == '`' {
      assert s[..3] == "```";
      assert LeadTicks(s[1..][1..]) >= 1;
    }
    if LeadTicks(s) >= 3 {
      var t := s[1..];
      assert s[0] == '`' && LeadTicks(t) >= 2;
      assert t[0] == '`' && LeadTicks(t[1..]) >= 1;
      assert t[1..][0] == '`';
      assert s[..3] == "```";
    }
  }

  /** Removing "```" left to right leaves a run of `n` leading backticks as `n % 3` of them. */
  lemma {:induction false} RemovalLeadTicks(s: string)
    ensures LeadTicks(RemoveAll(s, "```")) == LeadTicks(s) % 3
    decreases |s|
  {
    if |s| < 3 {
      ShortRemoval(s);
    } else if "```" <= s {
      RemovalLeadTicks(s[3..]);
      FenceRemoval(s);
    } else {
      RemovalLeadTicks(s[1..]);
      PlainRemoval(s);
    }
  }

  lemma ShortRemoval(s: string)
    requires |s| < 3
    ensures LeadTicks(RemoveAll(s, "```")) == LeadTicks(s) % 3
  {
    assert RemoveAll(s, "```") == s;
  }

  /** A fence at the front is dropped whole, taking three backticks with it. */
  lemma FenceRemoval(s: string)
    requires |s| >= 3 && "```" <= s
    requires LeadTicks(RemoveAll(s[3..], "```")) == LeadTicks(s[3..]) % 3
    ensures LeadTicks(RemoveAll(s, "```")) == LeadTicks(s) % 3
  {
    FenceTicks(s);
    assert RemoveAll(s, "```") == RemoveAll(s[3..], "```");
    ModThree(LeadTicks(s[3..]));
  }

  lemma ModThree(m: nat)
    ensures (m + 3) % 3 == m % 3
  {
  }

  /** Without a fence at the front the first character is kept, and fewer than three backticks lead. */
  lemma PlainRemoval(s: string)
    requires |s| >= 3 && !("```" <= s)
    requires LeadTicks(RemoveAll(s[1..], "```")) == LeadTicks(s[1..]) % 3
    ensures LeadTicks(RemoveAll(s, "```")) == LeadTicks(s) % 3
  {
    FenceAtStart(s);
    var rest := RemoveAll(s[1..], "```");
    assert RemoveAll(s, "```") == [s[0]] + rest;
    LeadTicksCons(s[0], rest);
    LeadTicksCons(s[0], s[1..]);
    assert [s[0]] + s[1..] == s;
    if s[0] == '`' {
      assert LeadTicks(s[1..]) < 2;
    }
  }

  /** A fence at the front accounts for three of the leading backticks. */
  lemma FenceTicks(s: string)
    requires "```" <= s
    ensures LeadTicks(s) == 3 + LeadTicks(s[3..])
  {
    var t1 := s[1..];
    var t2 := t1[1..];
    assert t2[1..] == s[3..];
    assert LeadTicks(t2) == 1 + LeadTicks(s[3..]);
    assert LeadTicks(t1) == 1 + LeadTicks(t2);
  }

  lemma LeadTicksCons(c: char, t: string)
    ensures LeadTicks([c] + t) == if c == '`' then 1 + LeadTicks(t) else 0
  {
    assert ([c] + t)[1..] == t;
  }

  /** After `replace(/```/g, "")` no code fence is left. */
  lemma {:induction false} NoFenceAfterRemoval(s: string)
    ensures !Contains(RemoveAll(s, "```"), "```")
    decreases |s|
  {
    var r := RemoveAll(s, "```");
    if |s| < 3 {
      assert r == s;
    } else if "```" <= s {
      NoFenceAfterRemoval(s[3..]);
    } else {
      var rest := RemoveAll(s[1..], "```");
      NoFenceAfterRemoval(s[1..]);
      RemovalLeadTicks(s[1..]);
      FenceAtStart(s);
      FenceAtStart(r);
      assert r == [s[0]] + rest && r[1..] == rest;
      ContainsUnfold(r, "```");
    }
  }

  /** The reply with every "```json" and then every "```" removed, then trimmed. */
  function CleanReply(text: string): (c: string)
    ensures |c| <= |text|
  {
    Trim(RemoveAll(RemoveAll(text, "```json"), "```"))
  }

  /** No code fence survives the clean-up. */
  lemma CleanReplyHasNoFence(text: string)
    ensures !Contains(CleanReply(text), "```")
  {
    var stripped := RemoveAll(RemoveAll(text, "```json"), "```");
    NoFenceAfterRemoval(RemoveAll(text, "```json"));
    AbsentFromSlice(stripped, "```", TrimBounds(stripped).0, TrimBounds(stripped).1);
  }

  /** The text handed to `JSON.parse`, or the error thrown when the cleaned reply holds no braces. */
  function ExtractJson(text: string): (r: Result<string, string>)
    ensures r.Failure? ==> r.error == "Invalid JSON response from Gemini"
    ensures r.Success? ==> Braced(r.value)
  {
    Extract(CleanReply(text), "Invalid JSON response from Gemini")
  }

  /** What reaches `JSON.parse` is free of code fences. */
  lemma ExtractedHasNoFence(text: string)
    ensures ExtractJson(text).Success? ==> !Contains(ExtractJson(text).value, "```")
  {
    CleanReplyHasNoFence(text);
    SpanKeepsAbsence(CleanReply(text), "Invalid JSON response from Gemini", "```");
  }

  /** The trim before `match` never changes what is extracted. */
  lemma ExtractionIgnoresTrim(text: string)
    ensures ExtractJson(text) == Extract(RemoveAll(RemoveAll(text, "```json"), "```"), "Invalid JSON response from Gemini")
  {
    BraceSpanIgnoresTrim(RemoveAll(RemoveAll(text, "```json"), "```"));
  }

  /** `generateDeepDive`: the reply with "```markdown" and then "```" removed, untrimmed. */
  function CleanMarkdown(text: string): (c: string)
    ensures |c| <= |text|
  {
    RemoveAll(RemoveAll(text, "```markdown"), "```")
  }

  /** The deep-dive text handed back holds no code fence. */
  lemma CleanMarkdownHasNoFence(text: string)
    ensures !Contains(CleanMarkdown(text), "```")
  {
    NoFenceAfterRemoval(RemoveAll(text, "```markdown"));
  }

  /** A client: with the default configuration and a call that always times out, four attempts run. */
  method AlwaysTimingOut()
  {
    TimeoutRetried(Timeout);
    var r, attempts, waits := CallWithRetries(k => Thrown(TimeoutError(Timeout)), MaxRetries, RetryDelay);
    assert attempts == 4;
    assert r.Failure? && r.error.attempts == 4;
    assert waits == [1000, 2000, 4000];
    BackoffTotal(RetryDelay, 3);
  }

  /** A client: an empty first reply ends the loop at once, still reporting four attempts. */
  method EmptyFirstReply(later: nat -> Outcome)
  {
    EmptyResponseFinal();
    var outcome := (k: nat) => if k == 0 then Reply("") else later(k);
    assert outcome(0) == Reply("");
    var r, attempts, waits := CallWithRetries(outcome, MaxRetries, RetryDelay);
    assert attempts == 1;
    assert r.Failure? && r.error.attempts == 4 && waits == [];
  }
}
