/** The HTTP client shared by the task service: configuration copied from the
    settings store, the truthy-only `updateConfig`, the request headers, the
    retrying fetch with its instance-level retry counter, and the error
    reporter that always rethrows.

    The network is an input: `outcome(i)` is what the `i`-th attempt of a call
    gets back. Waiting is not modelled, only the delay each retry asks for. */
module BaseService {
  import opened Wrappers
  import opened Text
  import opened Records
  import SettingsStore

  /** The instance fields. `None` is `undefined`, which a partial settings
      update can leave in the store. */
  datatype Config = Config(baseUrl: Option<string>, timeout: Option<int>, retryAttempts: Option<int>)

  /** An instance: its configuration and its retry counter, which starts at 0
      and is never reset. */
  datatype Client = Client(config: Config, currentRetry: nat)

  /** The constructor reads the API half of the settings store. */
  function FromSettings(api: SettingsStore.ApiSettings): (c: Client)
    ensures c.currentRetry == 0
    ensures c.config.baseUrl == api.baseUrl && c.config.timeout == api.timeout
    ensures c.config.retryAttempts == api.retryAttempts
  {
    Client(Config(api.baseUrl, api.timeout, api.retryAttempts), 0)
  }

  predicate TruthyString(o: Option<string>) {
    o.Some? && o.value != ""
  }

  predicate TruthyNumber(o: Option<int>) {
    o.Some? && o.value != 0
  }

  /** The `Partial<ApiSettings>` argument of `updateConfig` as the method reads
      it: a missing key and an `undefined` one look the same. */
  datatype ConfigUpdate = ConfigUpdate(baseUrl: Option<string>, timeout: Option<int>, retryAttempts: Option<int>)

  /** A field is replaced only by a truthy value: an empty URL, a zero timeout
      or zero retries leave the old value. The retry counter is untouched. */
  function UpdateConfig(c: Client, u: ConfigUpdate): (r: Client)
    ensures r.currentRetry == c.currentRetry
    ensures r.config.baseUrl == if TruthyString(u.baseUrl) then u.baseUrl else c.config.baseUrl
    ensures r.config.timeout == if TruthyNumber(u.timeout) then u.timeout else c.config.timeout
    ensures r.config.retryAttempts == if TruthyNumber(u.retryAttempts) then u.retryAttempts else c.config.retryAttempts
  {
    var cfg := c.config;
    var cfg := if TruthyString(u.baseUrl) then cfg.(baseUrl := u.baseUrl) else cfg;
    var cfg := if TruthyNumber(u.timeout) then cfg.(timeout := u.timeout) else cfg;
    var cfg := if TruthyNumber(u.retryAttempts) then cfg.(retryAttempts := u.retryAttempts) else cfg;
    c.(config := cfg)
  }

  /** Falsy values never change an instance. */
  lemma FalsyUpdateIsNoOp(c: Client)
    ensures UpdateConfig(c, ConfigUpdate(Some(""), Some(0), Some(0))) == c
    ensures UpdateConfig(c, ConfigUpdate(None, None, None)) == c
  {
  }

  /** The headers object of every request: JSON content type, a bearer token
      when the stored token is truthy, then the caller's own headers, which
      win on a collision. */
  function RequestHeaders(token: Option<string>, given: Entries): (h: Entries)
    requires UniqueKeys(given)
    ensures UniqueKeys(h)
    ensures Get(h, "Content-Type") ==
      if "Content-Type" in KeySet(given) then Get(given, "Content-Type") else Some("application/json")
    ensures Get(h, "Authorization") ==
      if "Authorization" in KeySet(given) then Get(given, "Authorization")
      else if TruthyString(token) then Some("Bearer " + token.value)
      else None
    ensures forall k :: k != "Content-Type" && k != "Authorization" ==> Get(h, k) == Get(given, k)
  {
    var auth := if TruthyString(token) then [("Authorization", "Bearer " + token.value)] else [];
    var base := Spread([("Content-Type", "application/json")], auth);
    var h := Spread(base, given);
    SpreadKeys([("Content-Type", "application/json")], auth);
    SpreadKeys(base, given);
    SpreadGetAll(base, given);
    SpreadGetAll([("Content-Type", "application/json")], auth);
    h
  }

  /** What one attempt gets back: a response with its status, or a rejected
      `fetch` (network failure, timeout abort). */
  datatype Outcome = Responded(status: int) | NetworkFailure(message: string)

  /** `response.ok`. */
  predicate IsOk(o: Outcome) {
    o.Responded? && 200 <= o.status <= 299
  }

  /** A thrown JavaScript value as `handleError` inspects it: an `Error` with or
      without a `status` property, or anything else. */
  datatype Thrown = ErrorObject(message: string, status: Option<int>) | NonError

  /** The error a failed attempt throws. The HTTP error is a plain `Error`
      whose only trace of the status is in its message. */
  function AttemptError(o: Outcome): (e: Thrown)
    requires !IsOk(o)
    ensures e.ErrorObject? && e.status.None?
    ensures o.NetworkFailure? ==> e.message == o.message
    ensures o == Responded(401) ==> e.message == "HTTP error! status: 401"
  {
    assert IntToString(401) == "401";
    match o
    case Responded(n) => ErrorObject("HTTP error! status: " + IntToString(n), None)
    case NetworkFailure(m) => ErrorObject(m, None)
  }

  /** `this.currentRetry < this.retryAttempts`; comparing with `undefined` is false. */
  predicate CanRetry(c: Client) {
    c.config.retryAttempts.Some? && c.currentRetry < c.config.retryAttempts.value
  }

  /** How many more retries the instance will ever make under its current configuration. */
  function RetriesLeft(c: Client): nat {
    if CanRetry(c) then c.config.retryAttempts.value - c.currentRetry else 0
  }

  function Pow2(k: nat): nat {
    if k == 0 then 1 else 2 * Pow2(k - 1)
  }

  /** Milliseconds waited before a retry, given the counter value after its
      increment: 2000, 4000, 8000, ... */
  function RetryDelay(counter: nat): nat {
    Pow2(counter) * 1000
  }

  /** Attempts in [lo, hi) whose response was a 401, each of which logs out. */
  function Count401(outcome: nat -> Outcome, lo: nat, hi: nat): nat
    decreases hi - lo
  {
    if lo >= hi then 0
    else (if outcome(lo) == Responded(401) then 1 else 0) + Count401(outcome, lo + 1, hi)
  }

  /** The trace of one `fetchWithRetry` call: what it returned or threw, the
      instance afterwards, how many attempts were made in all (numbering
      included the ones before the starting index), how many logouts were
      triggered, and the delays waited. */
  datatype Run = Run(result: Result<int, Thrown>, client: Client, attempts: nat, logouts: nat, delays: seq<nat>)

  /** `fetchWithRetry` from attempt number `k` on. */
  function Fetch(c: Client, outcome: nat -> Outcome, k: nat): (r: Run)
    ensures r.result.Failure? ==> r.result.error.ErrorObject? && r.result.error.status.None?
    decreases RetriesLeft(c)
  {
    var o := outcome(k);
    var hit := if o == Responded(401) then 1 else 0;
    if IsOk(o) then Run(Success(o.status), c, k + 1, 0, [])
    else if CanRetry(c) then
      var c' := c.(currentRetry := c.currentRetry + 1);
      var rest := Fetch(c', outcome, k + 1);
      rest.(logouts := rest.logouts + hit, delays := [RetryDelay(c'.currentRetry)] + rest.delays)
    else Run(Failure(AttemptError(o)), c, k + 1, hit, [])
  }

  /** What one call does: it stops at the first successful response or once
      the retries are used up; it resolves with the status of a successful
      response and otherwise throws the last attempt's error; it advances the
      instance's counter once per retry; it waits 2^counter seconds before
      each retry; and it logs out once per 401 response. */
  lemma {:induction false} FetchSpec(c: Client, outcome: nat -> Outcome, k: nat)
    decreases RetriesLeft(c)
    ensures var r := Fetch(c, outcome, k);
      && k < r.attempts <= k + RetriesLeft(c) + 1
      && (forall i :: k <= i < r.attempts - 1 ==> !IsOk(outcome(i)))
      && (r.result.Success? <==> IsOk(outcome(r.attempts - 1)))
      && (r.result.Success? ==> r.result.value == outcome(r.attempts - 1).status)
      && (r.result.Failure? ==>
            r.attempts == k + RetriesLeft(c) + 1 && r.result.error == AttemptError(outcome(r.attempts - 1)))
      && r.client == c.(currentRetry := c.currentRetry + (r.attempts - 1 - k))
      && |r.delays| == r.attempts - 1 - k
      && (forall i :: 0 <= i < |r.delays| ==> r.delays[i] == RetryDelay(c.currentRetry + i + 1))
      && r.logouts == Count401(outcome, k, r.attempts)
  {
    var o := outcome(k);
    if !IsOk(o) && CanRetry(c) {
      var c' := c.(currentRetry := c.currentRetry + 1);
      FetchSpec(c', outcome, k + 1);
      var rest := Fetch(c', outcome, k + 1);
      var r := Fetch(c, outcome, k);
      assert forall i :: 0 <= i < |r.delays| ==> r.delays[i] == RetryDelay(c.currentRetry + i + 1) by {
        forall i | 0 <= i < |r.delays|
          ensures r.delays[i] == RetryDelay(c.currentRetry + i + 1)
        {
          if i > 0 {
            assert r.delays[i] == rest.delays[i - 1];
          }
        }
      }
    }
  }

  /** One failed attempt with retries left: count it, wait, go again. */
  lemma FetchRetries(c: Client, outcome: nat -> Outcome, k: nat)
    requires !IsOk(outcome(k)) && CanRetry(c)
    ensures
      var c' := c.(currentRetry := c.currentRetry + 1);
      var rest := Fetch(c', outcome, k + 1);
      Fetch(c, outcome, k) == rest.(logouts := rest.logouts + (if outcome(k) == Responded(401) then 1 else 0),
                                    delays := [RetryDelay(c'.currentRetry)] + rest.delays)
  {
  }

  /** A successful attempt, or a failed one with no retries left, ends the call. */
  lemma FetchStops(c: Client, outcome: nat -> Outcome, k: nat)
    requires IsOk(outcome(k)) || !CanRetry(c)
    ensures Fetch(c, outcome, k) ==
      if IsOk(outcome(k)) then Run(Success(outcome(k).status), c, k + 1, 0, [])
      else Run(Failure(AttemptError(outcome(k))), c, k + 1, if outcome(k) == Responded(401) then 1 else 0, [])
  {
  }

  /** The retrying fetch as the source runs it, one attempt per iteration. */
  method FetchWithRetry(c: Client, outcome: nat -> Outcome) returns (r: Run)
    ensures r == Fetch(c, outcome, 0)
  {
    ghost var total := Fetch(c, outcome, 0);
    var cur := c;
    var k: nat := 0;
    var logouts: nat := 0;
    var delays: seq<nat> := [];
    ghost var rest := total;
    while !IsOk(outcome(k)) && CanRetry(cur)
      invariant rest == Fetch(cur, outcome, k)
      invariant total == rest.(logouts := logouts + rest.logouts, delays := delays + rest.delays)
      decreases RetriesLeft(cur)
    {
      FetchRetries(cur, outcome, k);
      var hit := if outcome(k) == Responded(401) then 1 else 0;
      var next := cur.(currentRetry := cur.currentRetry + 1);
      ghost var after := Fetch(next, outcome, k + 1);
      assert delays + rest.delays == (delays + [RetryDelay(next.currentRetry)]) + after.delays;
      logouts := logouts + hit;
      delays := delays + [RetryDelay(next.currentRetry)];
      cur := next;
      k := k + 1;
      rest := after;
    }
    FetchStops(cur, outcome, k);
    var o := outcome(k);
    var hit := if o == Responded(401) then 1 else 0;
    var result := if IsOk(o) then Success(o.status) else Failure(AttemptError(o));
    assert delays + [] == delays;
    r := Run(result, cur, k + 1, logouts + hit, delays);
  }

  /** Once the counter has reached the limit, a failure throws on the first
      attempt and the instance stays as it is, for every later call. */
  lemma ExhaustedNeverRetries(c: Client, outcome: nat -> Outcome)
    requires !CanRetry(c)
    ensures Fetch(c, outcome, 0).attempts == 1
    ensures Fetch(c, outcome, 0).client == c
    ensures !IsOk(outcome(0)) ==> Fetch(c, outcome, 0).result == Failure(AttemptError(outcome(0)))
  {
    FetchSpec(c, outcome, 0);
  }

  /** Every attempt failing with 401 logs out once per attempt. */
  lemma {:induction false} All401Count(outcome: nat -> Outcome, lo: nat, hi: nat)
    requires forall i :: lo <= i < hi ==> outcome(i) == Responded(401)
    ensures Count401(outcome, lo, hi) == if lo <= hi then hi - lo else 0
    decreases hi - lo
  {
    if lo < hi {
      All401Count(outcome, lo + 1, hi);
    }
  }

  /** A fresh instance whose every attempt fails makes `retryAttempts + 1`
      attempts, waits 2 s, 4 s, 8 s, ... in between, throws the last error, and
      under a persistent 401 logs out on each attempt. */
  lemma FreshInstanceAllFailing(api: SettingsStore.ApiSettings, outcome: nat -> Outcome, n: nat)
    requires api.retryAttempts == Some(n)
    requires forall i :: !IsOk(outcome(i))
    ensures var r := Fetch(FromSettings(api), outcome, 0);
      && r.attempts == n + 1
      && r.result == Failure(AttemptError(outcome(n)))
      && r.client.currentRetry == n
      && |r.delays| == n
      && (forall i :: 0 <= i < n ==> r.delays[i] == Pow2(i + 1) * 1000)
      && ((forall i :: outcome(i) == Responded(401)) ==> r.logouts == n + 1)
  {
    FetchSpec(FromSettings(api), outcome, 0);
    var r := Fetch(FromSettings(api), outcome, 0);
    if forall i :: outcome(i) == Responded(401) {
      All401Count(outcome, 0, r.attempts);
    }
  }

  /** Several calls on one instance, in order. */
  function Lifetime(c: Client, calls: seq<nat -> Outcome>): (r: (Client, nat))
    decreases |calls|
  {
    if calls == [] then (c, 0)
    else
      var first := Fetch(c, calls[0], 0);
      var rest := Lifetime(first.client, calls[1..]);
      (rest.0, first.attempts + rest.1)
  }

  /** Over the whole life of an instance whose configuration is not changed,
      the retries of all calls together never exceed what the counter allowed
      at the start: at most `retryAttempts` for a fresh instance. */
  lemma {:induction false} LifetimeRetriesBounded(c: Client, calls: seq<nat -> Outcome>)
    ensures Lifetime(c, calls).1 <= |calls| + RetriesLeft(c)
    ensures Lifetime(c, calls).0.config == c.config
    ensures Lifetime(c, calls).0.currentRetry >= c.currentRetry
    decreases |calls|
  {
    if calls != [] {
      var first := Fetch(c, calls[0], 0);
      FetchSpec(c, calls[0], 0);
      LifetimeRetriesBounded(first.client, calls[1..]);
      assert RetriesLeft(first.client) + (first.attempts - 1) <= RetriesLeft(c);
    }
  }

  /** The status-keyed messages of `handleError`. */
  function StatusMessage(status: int): (m: Option<string>)
    ensures m.Some? <==> status in {400, 401, 403, 404, 429, 500}
  {
    if status == 400 then Some("Invalid request. Please check your input.")
    else if status == 401 then Some("Session expired. Please login again.")
    else if status == 403 then Some("You do not have permission to perform this action.")
    else if status == 404 then Some("The requested resource was not found.")
    else if status == 429 then Some("Too many requests. Please try again later.")
    else if status == 500 then Some("Server error. Please try again later.")
    else None
  }

  /** The toast `handleError` shows, and the value it throws again. */
  datatype Report = Report(toast: string, rethrown: Thrown)

  function HandleError(e: Thrown): (r: Report)
    ensures r.rethrown == e
    ensures e.NonError? ==> r.toast == "An unexpected error occurred"
    ensures e.ErrorObject? && e.status.None? ==> r.toast == e.message
    ensures e.ErrorObject? && e.status.Some? && StatusMessage(e.status.value).Some? ==>
      r.toast == StatusMessage(e.status.value).value
    ensures e.ErrorObject? && e.status.Some? && StatusMessage(e.status.value).None? ==>
      r.toast == if e.message != "" then e.message else "An error occurred"
  {
    var toast :=
      match e
      case NonError => "An unexpected error occurred"
      case ErrorObject(m, None) => m
      case ErrorObject(m, Some(s)) =>
        if StatusMessage(s).Some? then StatusMessage(s).value
        else if m != "" then m else "An error occurred";
    Report(toast, e)
  }

  /** The errors the retrying fetch throws carry no `status`, so `handleError`
      shows their raw message: a 401 from the server is reported as
      "HTTP error! status: 401", never as the session-expired text. */
  lemma FetchErrorsShowRawMessage(c: Client, outcome: nat -> Outcome)
    requires Fetch(c, outcome, 0).result.Failure?
    ensures var e := Fetch(c, outcome, 0).result.error;
      e.ErrorObject? && e.status.None? && HandleError(e).toast == e.message
    ensures var r := Fetch(c, outcome, 0);
      r.attempts >= 1 &&
      (outcome(r.attempts - 1) == Responded(401) ==>
         HandleError(r.result.error).toast == "HTTP error! status: 401")
  {
    FetchSpec(c, outcome, 0);
    var r := Fetch(c, outcome, 0);
  }
}
