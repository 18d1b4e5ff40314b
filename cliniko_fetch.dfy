/** The retrying fetch client (`clinikoFetch` in src/lib/cliniko.ts).

    One call sends requests for the same endpoint until one of them decides the
    call. The network is a finite script of exchanges, consumed one per request;
    real waiting is replaced by a log of the sleep durations in milliseconds.

    - a 429 reply waits Retry-After seconds (2 by default) and asks again without
      spending an attempt;
    - any other 4xx reply throws at once, marked as not to be retried;
    - any other non-2xx reply, a transport failure, a blank 2xx body and a body
      that is not JSON each spend one attempt; after the k-th of them, when
      attempts remain, the client sleeps 2^k * 500 ms, and the last one is thrown;
    - a 2xx reply with a JSON body is returned. */
module ClinikoFetch {
  import opened Wrappers

  /** Attempt budget when the caller does not give one. */
  const DefaultRetries: int := 3
  const RateLimitStatus: nat := 429
  /** Wait, in seconds, when a 429 reply has no Retry-After header. */
  const DefaultRetryAfterSecs: nat := 2
  /** The backoff after the k-th counted failure is 2^k times this many ms. */
  const BackoffUnitMs: nat := 500
  /** How much of an error body goes into the error message. */
  const ExcerptLength: nat := 200

  /** An HTTP reply: its status, its Retry-After header as a number of seconds
      (when present) and its body text. */
  datatype Reply = Reply(status: nat, retryAfterSecs: Option<nat>, body: string)

  /** What one request produced: a transport exception, or a reply. */
  datatype Exchange =
    | NetworkFailure(reason: string)
    | Received(reply: Reply)

  /** The errors a call can throw. `noRetry` is the tag put on 4xx errors. */
  datatype FetchError =
    | ApiError(status: nat, excerpt: string, noRetry: bool)
    | EmptyResponse
    | InvalidJson(reason: string)
    | NetworkError(reason: string)
    | MaxRetriesExceeded

  /** How a call ended; `Waiting` means the script ran out while the call was
      still asking, which the client itself never reports. */
  datatype Outcome<+V> = Returned(value: V) | Threw(error: FetchError) | Waiting

  /** The outcome, how many exchanges of the script were consumed, and the
      sleeps taken between them, in order. */
  datatype Trace<+V> = Trace(outcome: Outcome<V>, used: nat, sleeps: seq<nat>)

  /** What the loop does with one exchange. */
  datatype Verdict<+V> =
    | RateLimited(waitMs: nat)
    | Fatal(error: FetchError)
    | Counted(error: FetchError)
    | Parsed(value: V)

  /** `res.ok`: a 2xx status. */
  predicate IsOk(status: nat) {
    200 <= status < 300
  }

  predicate IsClientError(status: nat) {
    400 <= status < 500
  }

  /** The characters JavaScript's `trim` removes. */
  predicate IsJsWhitespace(c: char) {
    || c == '\t' || c == '\n' || c == '\U{000B}' || c == '\U{000C}' || c == '\r' || c == ' '
    || c == '\U{00A0}' || c == '\U{1680}' || ('\U{2000}' <= c <= '\U{200A}')
    || c == '\U{2028}' || c == '\U{2029}' || c == '\U{202F}' || c == '\U{205F}'
    || c == '\U{3000}' || c == '\U{FEFF}'
  }

  /** `text.trimStart()`: drops the leading whitespace. */
  function TrimStart(text: string): (r: string)
    ensures |r| <= |text| && r == text[|text| - |r|..]
    ensures r != "" ==> !IsJsWhitespace(r[0])
    ensures forall i :: 0 <= i < |text| - |r| ==> IsJsWhitespace(text[i])
  {
    if text != "" && IsJsWhitespace(text[0]) then TrimStart(text[1..]) else text
  }

  /** `text.trimEnd()`: drops the trailing whitespace. */
  function TrimEnd(text: string): (r: string)
    ensures |r| <= |text| && r == text[..|r|]
    ensures r != "" ==> !IsJsWhitespace(r[|r| - 1])
    ensures forall i :: |r| <= i < |text| ==> IsJsWhitespace(text[i])
  {
    if text != "" && IsJsWhitespace(text[|text| - 1]) then TrimEnd(text[..|text| - 1]) else text
  }

  /** `text.trim()`. */
  function Trim(text: string): string {
    TrimEnd(TrimStart(text))
  }

  /** `!text || text.trim() === ""`: the body is blank exactly when every
      character of it is whitespace. */
  function IsBlank(text: string): (blank: bool)
    ensures blank <==> forall i :: 0 <= i < |text| ==> IsJsWhitespace(text[i])
  {
    text == "" || Trim(text) == ""
  }

  /** `text.substring(0, 200)`. */
  function Excerpt(text: string): (r: string)
    ensures |r| <= ExcerptLength && r <= text
    ensures |text| <= ExcerptLength ==> r == text
    ensures |text| > ExcerptLength ==> r == text[..ExcerptLength]
  {
    if |text| <= ExcerptLength then text else text[..ExcerptLength]
  }

  /** Milliseconds slept on a 429 reply: whole seconds, the header's value
      or 2 when it is absent. */
  function RetryAfterMs(retryAfterSecs: Option<nat>): (ms: nat)
    ensures ms % 1000 == 0
    ensures retryAfterSecs.Some? ==> ms / 1000 == retryAfterSecs.value
    ensures retryAfterSecs.None? ==> ms == 2000
  {
    match retryAfterSecs
    case Some(secs) => secs * 1000
    case None => DefaultRetryAfterSecs * 1000
  }

  function Pow2(k: nat): (r: nat)
    ensures r >= 1
  {
    if k == 0 then 1 else 2 * Pow2(k - 1)
  }

  /** The sleep after the k-th counted failure. */
  function BackoffMs(k: nat): (ms: nat)
    ensures ms >= BackoffUnitMs && ms % BackoffUnitMs == 0
  {
    Pow2(k) * BackoffUnitMs
  }

  /** The backoff sleeps after the failures numbered lo, lo + 1, ..., hi - 1. */
  function Backoffs(lo: nat, hi: int): (r: seq<nat>)
    ensures |r| == if lo <= hi then hi - lo else 0
    decreases hi - lo
  {
    if hi <= lo then [] else [BackoffMs(lo)] + Backoffs(lo + 1, hi)
  }

  /** The try block and the noRetry test of the catch block, for one exchange. */
  function Classify<V>(x: Exchange, parse: string -> Result<V, string>): (v: Verdict<V>)
    ensures v.RateLimited? <==> x.Received? && x.reply.status == RateLimitStatus
    ensures v.Fatal? <==> x.Received? && x.reply.status != RateLimitStatus && IsClientError(x.reply.status)
    ensures v.Parsed? <==> x.Received? && IsOk(x.reply.status) && !IsBlank(x.reply.body)
                           && parse(x.reply.body).Success?
    ensures v.Fatal? ==> v.error.ApiError? && v.error.noRetry
    ensures v.Counted? ==> !(v.error.ApiError? && v.error.noRetry) && v.error != MaxRetriesExceeded
  {
    match x
    case NetworkFailure(reason) => Counted(NetworkError(reason))
    case Received(res) =>
      if res.status == RateLimitStatus then RateLimited(RetryAfterMs(res.retryAfterSecs))
      else if !IsOk(res.status) then
        var error := ApiError(res.status, Excerpt(res.body), IsClientError(res.status));
        if error.noRetry then Fatal(error) else Counted(error)
      else if IsBlank(res.body) then Counted(EmptyResponse)
      else match parse(res.body)
        case Failure(reason) => Counted(InvalidJson(reason))
        case Success(value) => Parsed(value)
  }

  /** Prepends one consumed exchange followed by a sleep of `ms`. */
  function Then<V>(ms: nat, t: Trace<V>): Trace<V> {
    Trace(t.outcome, t.used + 1, [ms] + t.sleeps)
  }

  /** The loop of `clinikoFetch` as a function: what a call does on `script`
      once `attempt` attempts have been spent out of `retries`. */
  function Run<V>(script: seq<Exchange>, attempt: nat, retries: int,
                  parse: string -> Result<V, string>): (t: Trace<V>)
    ensures t.used <= |script|
    decreases |script|
  {
    if attempt >= retries then Trace(Threw(MaxRetriesExceeded), 0, [])
    else if script == [] then Trace(Waiting, 0, [])
    else match Classify(script[0], parse)
      case Parsed(value) => Trace(Returned(value), 1, [])
      case Fatal(error) => Trace(Threw(error), 1, [])
      case RateLimited(ms) => Then(ms, Run(script[1..], attempt, retries, parse))
      case Counted(error) =>
        if attempt + 1 >= retries then Trace(Threw(error), 1, [])
        else Then(BackoffMs(attempt + 1), Run(script[1..], attempt + 1, retries, parse))
  }

  /** `clinikoFetch(endpoint, retries)`, where `script` stands for the replies
      the network gives, in order, to the requests for that endpoint. */
  method Fetch<V>(script: seq<Exchange>, retries: int, parse: string -> Result<V, string>)
    returns (outcome: Outcome<V>, used: nat, sleeps: seq<nat>)
    ensures Trace(outcome, used, sleeps) == Run(script, 0, retries, parse)
  {
    var attempt := 0;
    used, sleeps := 0, [];
    while attempt < retries
      invariant used <= |script|
      invariant Run(script, 0, retries, parse)
             == var t := Run(script[used..], attempt, retries, parse);
                Trace(t.outcome, used + t.used, sleeps + t.sleeps)
      decreases |script| - used
    {
      if used == |script| {
        outcome := Waiting;
        return;
      }
      var exchange := script[used];
      assert script[used..][0] == exchange && script[used..][1..] == script[used + 1..];
      used := used + 1;
      var error: FetchError;
      match exchange {
        case NetworkFailure(reason) =>
          error := NetworkError(reason);
        case Received(res) =>
          if res.status == RateLimitStatus {
            sleeps := sleeps + [RetryAfterMs(res.retryAfterSecs)];
            continue;
          }
          if !IsOk(res.status) {
            error := ApiError(res.status, Excerpt(res.body), IsClientError(res.status));
          } else if IsBlank(res.body) {
            error := EmptyResponse;
          } else {
            match parse(res.body) {
              case Failure(reason) =>
                error := InvalidJson(reason);
              case Success(value) =>
                outcome := Returned(value);
                return;
            }
          }
      }
      // the catch block
      if error.ApiError? && error.noRetry {
        outcome := Threw(error);
        return;
      }
      attempt := attempt + 1;
      if attempt >= retries {
        outcome := Threw(error);
        return;
      }
      sleeps := sleeps + [BackoffMs(attempt)];
    }
    outcome := Threw(MaxRetriesExceeded);
  }

  /** The error message a thrown error carries: for an API error, the
      status in decimal and the body excerpt after a fixed prefix. */
  function Message(e: FetchError): (m: string)
    ensures e.ApiError? ==> "Cliniko API error " <= m
    ensures e.ApiError? ==> m == "Cliniko API error " + Decimal(e.status) + ": " + e.excerpt
  {
    match e
    case ApiError(status, excerpt, _) => "Cliniko API error " + Decimal(status) + ": " + excerpt
    case EmptyResponse => "Empty response from Cliniko API"
    case InvalidJson(reason) => reason
    case NetworkError(reason) => reason
    case MaxRetriesExceeded => "Max retries exceeded"
  }

  predicate IsDigits(s: string) {
    1 <= |s| && forall i :: 0 <= i < |s| ==> '0' <= s[i] <= '9'
  }

  /** The number a string of decimal digits denotes, most significant first. */
  function DigitsValue(s: string): nat {
    if s == [] then 0
    else
      var d := s[|s| - 1] as int - '0' as int;
      DigitsValue(s[..|s| - 1]) * 10 + (if 0 <= d then d else 0)
  }

  /** The decimal notation of n, as in a template string: digits that
      denote n, with no leading zero. */
  function Decimal(n: nat): (s: string)
    ensures IsDigits(s) && DigitsValue(s) == n
    ensures (n < 10) == (|s| == 1)
    ensures s[0] == '0' <==> n == 0
  {
    var last := [('0' as int + n % 10) as char];
    if n < 10 then last else Decimal(n / 10) + last
  }

  /** A 404 reply with body "Not found" throws "Cliniko API error 404: Not found". */
  lemma NotFoundMessage()
    ensures Message(ApiError(404, "Not found", true)) == "Cliniko API error 404: Not found"
  {
    assert Decimal(404) == "404" by {
      assert Decimal(4) == "4";
      assert Decimal(40) == "40";
    }
  }

  // ---------------------------------------------------------------------------
  // Single steps of the loop

  /** A 429 reply spends no attempt: the call sleeps Retry-After * 1000 ms
      (2000 ms without the header) and goes on with the same attempt count. */
  lemma RateLimitSpendsNoAttempt<V>(script: seq<Exchange>, attempt: nat, retries: int,
                                    parse: string -> Result<V, string>)
    requires attempt < retries && script != []
    requires script[0].Received? && script[0].reply.status == RateLimitStatus
    ensures var ms := if script[0].reply.retryAfterSecs.Some?
                      then script[0].reply.retryAfterSecs.value * 1000 else 2000;
            Run(script, attempt, retries, parse) == Then(ms, Run(script[1..], attempt, retries, parse))
  {
  }

  /** A 4xx reply other than 429 ends the call at once, with a noRetry error,
      no further request and no sleep. */
  lemma ClientErrorIsFinal<V>(script: seq<Exchange>, attempt: nat, retries: int,
                              parse: string -> Result<V, string>)
    requires attempt < retries && script != []
    requires script[0].Received? && IsClientError(script[0].reply.status)
    requires script[0].reply.status != RateLimitStatus
    ensures Run(script, attempt, retries, parse)
         == Trace(Threw(ApiError(script[0].reply.status, Excerpt(script[0].reply.body), true)), 1, [])
  {
  }

  /** A counted failure spends exactly one attempt: it is rethrown when that was
      the last attempt, and otherwise followed by a sleep of 2^attempt * 500 ms. */
  lemma CountedFailureSpendsOneAttempt<V>(script: seq<Exchange>, attempt: nat, retries: int,
                                          parse: string -> Result<V, string>)
    requires attempt < retries && script != []
    requires Classify(script[0], parse).Counted?
    ensures var error := Classify(script[0], parse).error;
            Run(script, attempt, retries, parse)
            == if attempt + 1 == retries then Trace(Threw(error), 1, [])
               else Then(BackoffMs(attempt + 1), Run(script[1..], attempt + 1, retries, parse))
  {
  }

  /** The exchanges that spend an attempt: a transport failure, a non-2xx reply
      that is neither 429 nor 4xx, a blank 2xx body, a 2xx body that is not JSON. */
  lemma CountedFailureCases<V>(x: Exchange, parse: string -> Result<V, string>)
    ensures Classify(x, parse).Counted? <==>
      || x.NetworkFailure?
      || (!IsOk(x.reply.status) && !IsClientError(x.reply.status) && x.reply.status != RateLimitStatus)
      || (IsOk(x.reply.status) && IsBlank(x.reply.body))
      || (IsOk(x.reply.status) && !IsBlank(x.reply.body) && parse(x.reply.body).Failure?)
  {
  }

  /** A 2xx reply with a JSON body returns the parsed value; nothing more is
      requested and nothing is slept. */
  lemma JsonBodyIsReturned<V>(script: seq<Exchange>, attempt: nat, retries: int,
                              parse: string -> Result<V, string>)
    requires attempt < retries && script != []
    requires script[0].Received? && IsOk(script[0].reply.status) && !IsBlank(script[0].reply.body)
    requires parse(script[0].reply.body).Success?
    ensures Run(script, attempt, retries, parse)
         == Trace(Returned(parse(script[0].reply.body).value), 1, [])
  {
  }

  lemma BackoffDoubles(k: nat)
    ensures BackoffMs(k + 1) == 2 * BackoffMs(k)
    ensures BackoffMs(1) == 1000 && BackoffMs(2) == 2000
  {
  }

  // ---------------------------------------------------------------------------
  // Whole calls

  /** The number of exchanges in xs that spend an attempt. */
  function CountedFailures<V>(xs: seq<Exchange>, parse: string -> Result<V, string>): (n: nat)
    ensures n <= |xs|
  {
    if xs == [] then 0
    else (if Classify(xs[0], parse).Counted? then 1 else 0) + CountedFailures(xs[1..], parse)
  }

  lemma CountedFailuresOfPrefix<V>(xs: seq<Exchange>, k: nat, parse: string -> Result<V, string>)
    requires 1 <= k <= |xs|
    ensures CountedFailures(xs[..k], parse)
         == (if Classify(xs[0], parse).Counted? then 1 else 0) + CountedFailures(xs[1..][..k - 1], parse)
  {
    assert xs[..k][1..] == xs[1..][..k - 1];
  }

  /** The call throws "Max retries exceeded" exactly when it starts with no
      attempt left: once inside the loop it leaves only by return or throw. */
  lemma {:induction false} MaxRetriesOnlyWithoutBudget<V>(script: seq<Exchange>, attempt: nat,
                                                          retries: int, parse: string -> Result<V, string>)
    ensures Run(script, attempt, retries, parse).outcome == Threw(MaxRetriesExceeded)
        <==> attempt >= retries
    decreases |script|
  {
    if attempt < retries && script != [] {
      match Classify(script[0], parse)
      case Parsed(_) =>
      case Fatal(_) =>
      case RateLimited(_) => MaxRetriesOnlyWithoutBudget(script[1..], attempt, retries, parse);
      case Counted(_) =>
        if attempt + 1 < retries {
          MaxRetriesOnlyWithoutBudget(script[1..], attempt + 1, retries, parse);
        }
    }
  }

  /** A call never spends more attempts than it has; when it rethrows a counted
      failure, that failure was the last attempt and it is the error thrown;
      when it returns or throws otherwise, the last exchange it consumed decided
      it and every earlier one was a 429 or a counted failure. */
  lemma {:induction false} FailureBudget<V>(script: seq<Exchange>, attempt: nat, retries: int,
                                            parse: string -> Result<V, string>)
    requires attempt < retries
    ensures var t := Run(script, attempt, retries, parse);
      && (t.outcome.Waiting? ==> t.used == |script|)
      && attempt + CountedFailures(script[..t.used], parse) <= retries
      && (forall i :: 0 <= i < t.used - 1 ==>
            Classify(script[i], parse).RateLimited? || Classify(script[i], parse).Counted?)
      && (t.outcome.Returned? ==> 1 <= t.used && Classify(script[t.used - 1], parse) == Parsed(t.outcome.value))
      && (t.outcome.Threw? ==>
            && 1 <= t.used
            && var last := Classify(script[t.used - 1], parse);
            && (last.Fatal? || last.Counted?)
            && last.error == t.outcome.error
            && (last.Counted? ==> attempt + CountedFailures(script[..t.used], parse) == retries))
    decreases |script|
  {
    var t := Run(script, attempt, retries, parse);
    if script == [] {
      assert script[..t.used] == [];
    } else {
      var c := Classify(script[0], parse);
      var next := if c.Counted? then attempt + 1 else attempt;
      if c.Parsed? || c.Fatal? || (c.Counted? && next >= retries) {
        assert t.used == 1;
        CountedFailuresOfPrefix(script, t.used, parse);
        assert script[1..][..0] == [];
      } else {
        var rest := script[1..];
        FailureBudget(rest, next, retries, parse);
        var t' := Run(rest, next, retries, parse);
        assert t == Then(t.sleeps[0], t');
        CountedFailuresOfPrefix(script, t.used, parse);
        forall i | 0 <= i < t.used - 1
          ensures Classify(script[i], parse).RateLimited? || Classify(script[i], parse).Counted?
        {
          if i > 0 { assert script[i] == rest[i - 1]; }
        }
        if t.outcome.Returned? || t.outcome.Threw? {
          assert script[t.used - 1] == rest[t'.used - 1];
        }
      }
    }
  }

  /** The sleep that follows the i-th consumed exchange: the Retry-After wait
      for a 429, else the backoff for the number of attempts spent so far. */
  function SleepAfter<V>(script: seq<Exchange>, i: nat, attempt: nat,
                         parse: string -> Result<V, string>): nat
    requires i < |script|
  {
    match Classify(script[i], parse)
    case RateLimited(ms) => ms
    case _ => BackoffMs(attempt + CountedFailures(script[..i + 1], parse))
  }

  /** Every consumed exchange but the deciding one is followed by exactly one
      sleep: the Retry-After wait after a 429, 2^k * 500 ms after the k-th
      counted failure. Nothing is slept after the last attempt. */
  lemma {:induction false} SleepSchedule<V>(script: seq<Exchange>, attempt: nat, retries: int,
                                            parse: string -> Result<V, string>)
    requires attempt < retries
    ensures var t := Run(script, attempt, retries, parse);
      && |t.sleeps| == (if t.outcome.Waiting? then t.used else t.used - 1)
      && forall i :: 0 <= i < |t.sleeps| ==> t.sleeps[i] == SleepAfter(script, i, attempt, parse)
    decreases |script|
  {
    var t := Run(script, attempt, retries, parse);
    if script != [] {
      var c := Classify(script[0], parse);
      var next := if c.Counted? then attempt + 1 else attempt;
      if !(c.Parsed? || c.Fatal? || (c.Counted? && next >= retries)) {
        var rest := script[1..];
        SleepSchedule(rest, next, retries, parse);
        var t' := Run(rest, next, retries, parse);
        assert t == Then(t.sleeps[0], t');
        assert |t.sleeps| == |t'.sleeps| + 1 && t.used == t'.used + 1;
        forall i | 0 <= i < |t.sleeps|
          ensures t.sleeps[i] == SleepAfter(script, i, attempt, parse)
        {
          if i == 0 {
            CountedFailuresOfPrefix(script, 1, parse);
            assert script[1..][..0] == [];
          } else {
            assert t.sleeps[i] == t'.sleeps[i - 1];
            SleepAfterShift(script, i, attempt, parse);
          }
        }
      }
    }
  }

  lemma SleepAfterShift<V>(script: seq<Exchange>, i: nat, attempt: nat, parse: string -> Result<V, string>)
    requires 1 <= i < |script|
    ensures var next := if Classify(script[0], parse).Counted? then attempt + 1 else attempt;
            SleepAfter(script[1..], i - 1, next, parse) == SleepAfter(script, i, attempt, parse)
  {
    CountedFailuresOfPrefix(script, i + 1, parse);
    assert script[1..][i - 1] == script[i];
  }

  /** When every remaining attempt fails in a row, the call throws the error of
      the last of them, after the backoffs for all the earlier ones. */
  lemma {:induction false} ConsecutiveFailures<V>(script: seq<Exchange>, attempt: nat, retries: int,
                                                  parse: string -> Result<V, string>)
    requires attempt < retries <= attempt + |script|
    requires forall i :: 0 <= i < retries - attempt ==> Classify(script[i], parse).Counted?
    ensures Run(script, attempt, retries, parse)
         == Trace(Threw(Classify(script[retries - attempt - 1], parse).error),
                  retries - attempt, Backoffs(attempt + 1, retries))
    decreases retries - attempt
  {
    if attempt + 1 < retries {
      var rest := script[1..];
      forall i | 0 <= i < retries - (attempt + 1)
        ensures Classify(rest[i], parse).Counted?
      {
        assert rest[i] == script[i + 1];
      }
      ConsecutiveFailures(rest, attempt + 1, retries, parse);
      assert rest[retries - (attempt + 1) - 1] == script[retries - attempt - 1];
    }
  }

  /** With the default budget, three 5xx replies in a row end the call with the
      third one's error, after sleeps of 1000 ms and 2000 ms. */
  lemma ThreeServerErrorsExhaustDefaultBudget<V>(script: seq<Exchange>, parse: string -> Result<V, string>)
    requires |script| >= 3
    requires forall i :: 0 <= i < 3 ==> script[i].Received? && 500 <= script[i].reply.status < 600
    ensures Run(script, 0, DefaultRetries, parse)
         == Trace(Threw(ApiError(script[2].reply.status, Excerpt(script[2].reply.body), false)), 3, [1000, 2000])
  {
    ConsecutiveFailures(script, 0, DefaultRetries, parse);
    assert Backoffs(1, 3) == [1000, 2000];
  }

  /** A decided call issues no further request: whatever the network would
      have answered next, the call behaves the same. */
  lemma {:induction false} DecisionIgnoresRest<V>(script: seq<Exchange>, rest: seq<Exchange>, attempt: nat,
                                                  retries: int, parse: string -> Result<V, string>)
    ensures var t := Run(script, attempt, retries, parse);
      !t.outcome.Waiting? ==> Run(script[..t.used] + rest, attempt, retries, parse) == t
    decreases |script|
  {
    var t := Run(script, attempt, retries, parse);
    if attempt < retries && script != [] {
      var c := Classify(script[0], parse);
      var next := if c.Counted? then attempt + 1 else attempt;
      assert (script[..t.used] + rest)[0] == script[0];
      if !(c.Parsed? || c.Fatal? || (c.Counted? && next >= retries)) {
        DecisionIgnoresRest(script[1..], rest, next, retries, parse);
        var t' := Run(script[1..], next, retries, parse);
        assert (script[..t.used] + rest)[1..] == script[1..][..t'.used] + rest;
      }
    }
  }
}
