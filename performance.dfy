/** `PerformanceMetrics`: bounded buffers of API-call and endpoint timings,
    and per-type error counters, read back by `get_stats`. The clock is a
    parameter; durations are reals that are only stored, never summed here. */
module Performance {
  import opened Common

  const MaxApiCalls: nat := 1000
  const MaxEndpointCalls: nat := 100

  datatype ApiCall = ApiCall(api: string, duration: real, success: bool, timestamp: real)

  datatype EndpointCall = EndpointCall(duration: real, statusCode: int, timestamp: real)

  /** `xs[-n:]` when `xs` is longer than `n`, else `xs`. */
  function KeepLast<T>(xs: seq<T>, n: nat): (r: seq<T>)
    ensures |r| == if |xs| <= n then |xs| else n
    ensures r == xs[|xs| - |r|..]
  {
    if |xs| <= n then xs else xs[|xs| - n..]
  }

  /** Trimming keeps the entry just appended, as the last one, when `n > 0`. */
  lemma KeepLastKeepsNewest<T>(xs: seq<T>, x: T, n: nat)
    requires n > 0
    ensures var r := KeepLast(xs + [x], n); |r| > 0 && r[|r| - 1] == x
  {
  }

  // ---------------------------------------------------------------------------
  // Error counters, a dictionary in insertion order

  type Counters = seq<(string, nat)>

  predicate UniqueNames(c: Counters) {
    forall i, j | 0 <= i < j < |c| :: c[i].0 != c[j].0
  }

  /** The counter for `key`, 0 when it has none. */
  function CountOf(c: Counters, key: string): nat {
    if c == [] then 0
    else if c[|c| - 1].0 == key then c[|c| - 1].1
    else CountOf(c[..|c| - 1], key)
  }

  /** `sum(self.error_counts.values())` */
  function Total(c: Counters): nat {
    if c == [] then 0 else Total(c[..|c| - 1]) + c[|c| - 1].1
  }

  /** `if key not in counts: counts[key] = 0`, then `counts[key] += 1`: a new
      key goes last. */
  function Bump(c: Counters, key: string): (r: Counters)
    ensures |r| == |c| || |r| == |c| + 1
  {
    if exists i | 0 <= i < |c| :: c[i].0 == key then
      seq(|c|, i requires 0 <= i < |c| => if c[i].0 == key then (key, c[i].1 + 1) else c[i])
    else c + [(key, 1)]
  }

  /** Only the bumped key's counter moves, by one, starting from 0. */
  lemma {:induction false} BumpCounts(c: Counters, key: string)
    requires UniqueNames(c)
    ensures UniqueNames(Bump(c, key))
    ensures CountOf(Bump(c, key), key) == CountOf(c, key) + 1
    ensures forall k | k != key :: CountOf(Bump(c, key), k) == CountOf(c, k)
  {
    BumpKeepsNames(c, key);
    if exists i | 0 <= i < |c| :: c[i].0 == key {
      var i :| 0 <= i < |c| && c[i].0 == key;
      BumpAt(c, key, i);
    } else {
      var r := c + [(key, 1)];
      assert r[..|r| - 1] == c;
      CountOfMissing(c, key);
      forall k | k != key ensures CountOf(r, k) == CountOf(c, k) {
      }
    }
  }

  /** Bumping a key found before the last entry bumps it in the entries
      before the last, and leaves the last alone. */
  lemma BumpInit(c: Counters, key: string, i: nat)
    requires UniqueNames(c) && i < |c| - 1 && c[i].0 == key
    ensures UniqueNames(c[..|c| - 1]) && c[..|c| - 1][i].0 == key
    ensures Bump(c, key)[..|c| - 1] == Bump(c[..|c| - 1], key)
    ensures Bump(c, key)[|c| - 1] == c[|c| - 1]
  {
    var init := c[..|c| - 1];
    assert init[i] == c[i];
  }

  /** Bumping never repeats a name. */
  lemma BumpKeepsNames(c: Counters, key: string)
    requires UniqueNames(c)
    ensures UniqueNames(Bump(c, key))
  {
    if !exists i | 0 <= i < |c| :: c[i].0 == key {
      var r := c + [(key, 1)];
      assert forall i | 0 <= i < |c| :: r[i] == c[i];
    }
  }

  /** The counters of `c` with `key`, found at `i`, bumped in place. */
  lemma {:induction false} BumpAt(c: Counters, key: string, i: nat)
    requires UniqueNames(c) && i < |c| && c[i].0 == key
    ensures CountOf(Bump(c, key), key) == CountOf(c, key) + 1
    ensures forall k | k != key :: CountOf(Bump(c, key), k) == CountOf(c, k)
    decreases |c|
  {
    var r := Bump(c, key);
    var n := |c| - 1;
    if i == n {
      assert r[..n] == c[..n];
      forall k | k != key ensures CountOf(r, k) == CountOf(c, k) {
      }
    } else {
      BumpInit(c, key, i);
      BumpAt(c[..n], key, i);
    }
  }

  /** ... and adds one to the total. */
  lemma {:induction false} BumpAtTotal(c: Counters, key: string, i: nat)
    requires UniqueNames(c) && i < |c| && c[i].0 == key
    ensures Total(Bump(c, key)) == Total(c) + 1
    decreases |c|
  {
    var r := Bump(c, key);
    var n := |c| - 1;
    if i == n {
      assert r[..n] == c[..n];
    } else {
      BumpInit(c, key, i);
      BumpAtTotal(c[..n], key, i);
    }
  }

  /** A new key's counter reads 0 until it is bumped. */
  lemma {:induction false} CountOfMissing(c: Counters, key: string)
    requires forall i | 0 <= i < |c| :: c[i].0 != key
    ensures CountOf(c, key) == 0
    decreases |c|
  {
    if c != [] {
      CountOfMissing(c[..|c| - 1], key);
    }
  }

  /** Each `record_error` adds exactly one to the total. */
  lemma BumpTotal(c: Counters, key: string)
    requires UniqueNames(c)
    ensures Total(Bump(c, key)) == Total(c) + 1
  {
    if exists i | 0 <= i < |c| :: c[i].0 == key {
      var i :| 0 <= i < |c| && c[i].0 == key;
      BumpAtTotal(c, key, i);
    } else {
      assert (c + [(key, 1)])[..|c|] == c;
    }
  }

  // ---------------------------------------------------------------------------
  // Statistics

  /** The number of successful stored calls to `api`. */
  function SuccessCount(calls: seq<ApiCall>, api: string): (r: nat)
    ensures r <= |calls|
  {
    if calls == [] then 0
    else SuccessCount(calls[..|calls| - 1], api)
         + (if calls[|calls| - 1].success && calls[|calls| - 1].api == api then 1 else 0)
  }

  /** `set(c['api'] for c in successful_calls)` */
  function SuccessfulApis(calls: seq<ApiCall>): set<string> {
    set c | c in calls && c.success :: c.api
  }

  /** The counts `get_stats` reports; averages, extremes, the success rate
      and memory samples are not modelled. */
  datatype Stats = Stats(
    totalApiCalls: nat,
    totalErrors: nat,
    errorBreakdown: Counters,
    apiBreakdown: Option<map<string, nat>>,
    endpointCounts: Option<map<string, nat>>)

  /** One count per api with a successful stored call, and every such api
      listed with its count. */
  function ApiBreakdown(calls: seq<ApiCall>): (r: Option<map<string, nat>>)
    ensures r.Some? <==> exists c | c in calls :: c.success
    ensures forall api | SuccessCount(calls, api) > 0 ::
      r.Some? && api in r.value && r.value[api] == SuccessCount(calls, api)
  {
    CountedApisSucceeded(calls);
    if SuccessfulApis(calls) != {} then
      Some(map a | a in SuccessfulApis(calls) :: SuccessCount(calls, a))
    else
      assert forall c | c in calls && c.success :: c.api in SuccessfulApis(calls);
      None
  }

  /** A positive count comes from a successful stored call to that api. */
  lemma {:induction false} PositiveCountHasCall(calls: seq<ApiCall>, api: string)
    requires SuccessCount(calls, api) > 0
    ensures exists c | c in calls :: c.success && c.api == api
    decreases |calls|
  {
    var n := |calls| - 1;
    if !(calls[n].success && calls[n].api == api) {
      PositiveCountHasCall(calls[..n], api);
      var c :| c in calls[..n] && c.success && c.api == api;
      assert c in calls;
    } else {
      assert calls[n] in calls;
    }
  }

  lemma CountedApisSucceeded(calls: seq<ApiCall>)
    ensures forall api | SuccessCount(calls, api) > 0 :: api in SuccessfulApis(calls)
  {
    forall api | SuccessCount(calls, api) > 0 ensures api in SuccessfulApis(calls) {
      PositiveCountHasCall(calls, api);
    }
  }

  /** Appending a call changes only its api's count, and only if it succeeded. */
  lemma SuccessCountAppend(calls: seq<ApiCall>, c: ApiCall, api: string)
    ensures SuccessCount(calls + [c], api) == SuccessCount(calls, api) + (if c.success && c.api == api then 1 else 0)
  {
    assert (calls + [c])[..|calls|] == calls;
  }

  /** An api whose every stored call failed has no successful calls counted. */
  lemma {:induction false} FailedCallsNotCounted(calls: seq<ApiCall>, api: string)
    requires forall i | 0 <= i < |calls| && calls[i].api == api :: !calls[i].success
    ensures SuccessCount(calls, api) == 0
    decreases |calls|
  {
    if calls != [] {
      FailedCallsNotCounted(calls[..|calls| - 1], api);
    }
  }

  // ---------------------------------------------------------------------------
  // The metrics object

  class PerformanceMetrics {
    var apiCallTimes: seq<ApiCall>
    var endpointTimes: map<string, seq<EndpointCall>>
    var errorCounts: Counters

    /** The bounds every `record_*` keeps. */
    predicate Valid()
      reads this
    {
      && |apiCallTimes| <= MaxApiCalls
      && (forall e | e in endpointTimes :: |endpointTimes[e]| <= MaxEndpointCalls)
      && UniqueNames(errorCounts)
    }

    constructor ()
      ensures Valid()
      ensures apiCallTimes == [] && endpointTimes == map[] && errorCounts == []
    {
      apiCallTimes := [];
      endpointTimes := map[];
      errorCounts := [];
    }

    /** `record_api_call`: append, then keep the latest 1000. */
    method RecordApiCall(api: string, duration: real, success: bool, now: real)
      requires Valid()
      modifies this
      ensures Valid()
      ensures apiCallTimes == KeepLast(old(apiCallTimes) + [ApiCall(api, duration, success, now)], MaxApiCalls)
      ensures apiCallTimes[|apiCallTimes| - 1] == ApiCall(api, duration, success, now)
      ensures endpointTimes == old(endpointTimes) && errorCounts == old(errorCounts)
    {
      var calls := apiCallTimes + [ApiCall(api, duration, success, now)];
      if |calls| > MaxApiCalls {
        calls := calls[|calls| - MaxApiCalls..];
      }
      KeepLastKeepsNewest(apiCallTimes, ApiCall(api, duration, success, now), MaxApiCalls);
      apiCallTimes := calls;
    }

    /** `record_endpoint`: the endpoint's list is created on first use,
        appended to and trimmed to its latest 100; other endpoints keep theirs. */
    method RecordEndpoint(endpoint: string, duration: real, statusCode: int, now: real)
      requires Valid()
      modifies this
      ensures Valid()
      ensures var before := if endpoint in old(endpointTimes) then old(endpointTimes)[endpoint] else [];
        endpointTimes == old(endpointTimes)[endpoint := KeepLast(before + [EndpointCall(duration, statusCode, now)], MaxEndpointCalls)]
      ensures apiCallTimes == old(apiCallTimes) && errorCounts == old(errorCounts)
    {
      if endpoint !in endpointTimes {
        endpointTimes := endpointTimes[endpoint := []];
      }
      var calls := endpointTimes[endpoint] + [EndpointCall(duration, statusCode, now)];
      if |calls| > MaxEndpointCalls {
        calls := calls[|calls| - MaxEndpointCalls..];
      }
      endpointTimes := endpointTimes[endpoint := calls];
    }

    /** `record_error`: bump one counter. */
    method RecordError(errorType: string)
      requires Valid()
      modifies this
      ensures Valid()
      ensures errorCounts == Bump(old(errorCounts), errorType)
      ensures CountOf(errorCounts, errorType) == CountOf(old(errorCounts), errorType) + 1
      ensures forall k | k != errorType :: CountOf(errorCounts, k) == CountOf(old(errorCounts), k)
      ensures Total(errorCounts) == Total(old(errorCounts)) + 1
      ensures apiCallTimes == old(apiCallTimes) && endpointTimes == old(endpointTimes)
    {
      BumpCounts(errorCounts, errorType);
      BumpTotal(errorCounts, errorType);
      errorCounts := Bump(errorCounts, errorType);
    }

    /** `get_stats`, which reads the metrics and changes none of them. */
    function GetStats(): (s: Stats)
      reads this
      ensures s.totalApiCalls == |apiCallTimes|
      ensures s.totalErrors == Total(errorCounts) && s.errorBreakdown == errorCounts
      ensures s.apiBreakdown.Some? ==> forall a | a in s.apiBreakdown.value ::
        s.apiBreakdown.value[a] == SuccessCount(apiCallTimes, a) && s.apiBreakdown.value[a] > 0
      ensures forall api | SuccessCount(apiCallTimes, api) > 0 ::
        s.apiBreakdown.Some? && api in s.apiBreakdown.value && s.apiBreakdown.value[api] == SuccessCount(apiCallTimes, api)
      ensures s.endpointCounts.Some? <==> endpointTimes != map[]
      ensures s.endpointCounts.Some? ==>
        forall e :: (e in s.endpointCounts.value <==> e in endpointTimes)
      ensures s.endpointCounts.Some? ==>
        forall e | e in endpointTimes :: s.endpointCounts.value[e] == |endpointTimes[e]|
    {
      var breakdown := ApiBreakdown(apiCallTimes);
      BreakdownPositive(apiCallTimes);
      Stats(|apiCallTimes|, Total(errorCounts), errorCounts, breakdown,
            if endpointTimes != map[] then Some(map e | e in endpointTimes :: |endpointTimes[e]|) else None)
    }
  }

  /** Every api listed in the breakdown has at least one successful call. */
  lemma BreakdownPositive(calls: seq<ApiCall>)
    ensures var b := ApiBreakdown(calls);
      b.Some? ==> forall a | a in b.value :: b.value[a] == SuccessCount(calls, a) > 0
  {
    var b := ApiBreakdown(calls);
    if b.Some? {
      forall a | a in b.value ensures SuccessCount(calls, a) > 0 {
        var c :| c in calls && c.success && c.api == a;
        SuccessfulCallCounted(calls, c);
      }
    }
  }

  /** A stored successful call makes its api's count positive. */
  lemma {:induction false} SuccessfulCallCounted(calls: seq<ApiCall>, c: ApiCall)
    requires c in calls && c.success
    ensures SuccessCount(calls, c.api) > 0
    decreases |calls|
  {
    var n := |calls| - 1;
    if calls[n] != c {
      assert c in calls[..n] by {
        var i :| 0 <= i < |calls| && calls[i] == c;
        assert calls[..n][i] == c;
      }
      SuccessfulCallCounted(calls[..n], c);
    }
  }

  // ---------------------------------------------------------------------------
  // The decorator

  /** What the wrapped function did: returned a value or raised. */
  datatype Outcome<T, E> = Returned(value: T) | Raised(error: E)

  /** `track_api_call(api)(func)`: one entry per invocation, with the time
      between `start` and `end`, success iff the function returned; the
      outcome, value or exception, passes through unchanged. */
  method TrackApiCall<T, E>(m: PerformanceMetrics, api: string, outcome: Outcome<T, E>, start: real, end: real)
    returns (r: Outcome<T, E>)
    requires m.Valid()
    modifies m
    ensures m.Valid()
    ensures r == outcome
    ensures m.apiCallTimes == KeepLast(old(m.apiCallTimes) + [ApiCall(api, end - start, outcome.Returned?, end)], MaxApiCalls)
    ensures m.endpointTimes == old(m.endpointTimes) && m.errorCounts == old(m.errorCounts)
  {
    m.RecordApiCall(api, end - start, outcome.Returned?, end);
    r := outcome;
  }
}
