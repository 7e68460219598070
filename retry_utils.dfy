/** `retry_with_backoff` and its two presets: a decorated function is called
    again after a retryable exception, sleeping between attempts with a
    capped exponential delay. What each call does is an input: the k-th
    entry of `outcomes` is what the k-th call returns or raises. Sleeping and
    the `on_retry` callback are recorded, in order, in the trace. */
module RetryUtils {
  import opened Common

  /** The exception classes of `requests` the decorators name. */
  datatype ErrorClass = RequestException | Timeout | ConnectionError

  /** The concrete exception raised, as far as its class matters:
      `ConnectTimeout` is both a `Timeout` and a `ConnectionError`, and every
      one of these but `NotRequest` is a `RequestException`. */
  datatype ErrorKind = ReadTimeoutKind | ConnectTimeoutKind | ConnectionKind | OtherRequestKind | NotRequestKind

  datatype Error = Error(kind: ErrorKind, message: string)

  /** `isinstance(e, c)` */
  predicate IsInstance(e: Error, c: ErrorClass) {
    match c
    case RequestException => e.kind != NotRequestKind
    case Timeout => e.kind == ReadTimeoutKind || e.kind == ConnectTimeoutKind
    case ConnectionError => e.kind == ConnectionKind || e.kind == ConnectTimeoutKind
  }

  /** `except retryable_exceptions`: an instance of one of the classes. */
  predicate Catches(classes: seq<ErrorClass>, e: Error) {
    exists c | c in classes :: IsInstance(e, c)
  }

  /** The decorator's arguments; `onRetry` says whether a callback was given. */
  datatype Config = Config(
    maxRetries: int,
    initialDelay: real,
    maxDelay: real,
    base: real,
    retryable: seq<ErrorClass>,
    onRetry: bool)

  /** `retry_with_backoff()` with its default arguments. */
  function DefaultConfig(onRetry: bool): Config {
    Config(3, 1.0, 60.0, 2.0, [RequestException, Timeout, ConnectionError], onRetry)
  }

  const DefaultTimeoutRetries := 2
  const DefaultConnectionRetries := 3

  /** `retry_on_timeout(max_retries)` */
  function RetryOnTimeout(maxRetries: int): Config {
    Config(maxRetries, 2.0, 60.0, 2.0, [Timeout, ConnectionError], false)
  }

  /** `retry_on_connection_error(max_retries)` */
  function RetryOnConnectionError(maxRetries: int): Config {
    Config(maxRetries, 1.0, 60.0, 2.0, [ConnectionError], false)
  }

  /** The timeout preset starts at two seconds, and retries timeouts and
      connection errors but no other request exception. */
  lemma TimeoutPreset(maxRetries: int, e: Error)
    ensures RetryOnTimeout(maxRetries).initialDelay == 2.0
    ensures RetryOnTimeout(maxRetries).maxRetries == maxRetries
    ensures Catches(RetryOnTimeout(maxRetries).retryable, e) <==> IsInstance(e, Timeout) || IsInstance(e, ConnectionError)
  {
    if IsInstance(e, Timeout) {
      assert RetryOnTimeout(maxRetries).retryable[0] == Timeout;
    } else if IsInstance(e, ConnectionError) {
      assert RetryOnTimeout(maxRetries).retryable[1] == ConnectionError;
    }
  }

  /** The connection preset retries connection errors only. */
  lemma ConnectionPreset(maxRetries: int, e: Error)
    ensures Catches(RetryOnConnectionError(maxRetries).retryable, e) <==> IsInstance(e, ConnectionError)
  {
    if IsInstance(e, ConnectionError) {
      assert RetryOnConnectionError(maxRetries).retryable[0] == ConnectionError;
    }
  }

  /** The defaults retry every request exception and nothing else. */
  lemma DefaultsRetryRequestExceptions(onRetry: bool, e: Error)
    ensures Catches(DefaultConfig(onRetry).retryable, e) <==> IsInstance(e, RequestException)
  {
    if IsInstance(e, RequestException) {
      assert DefaultConfig(onRetry).retryable[0] == RequestException;
    }
  }

  // ---------------------------------------------------------------------------
  // The wrapper

  datatype CallResult<T> = Returned(value: T) | Raised(error: Error)

  /** How the wrapper ends: with the function's value, by re-raising, or by
      falling off the end (which only an empty attempt range reaches). */
  datatype Final<T> = Value(value: T) | Reraised(error: Error) | NoneResult

  /** `on_retry(attempt, e, delay)` */
  datatype Notice = Notice(attempt: nat, error: Error, delay: real)

  datatype Trace<T> = Trace(final: Final<T>, calls: nat, sleeps: seq<real>, notices: seq<Notice>)

  function Min(x: real, y: real): real {
    if x <= y then x else y
  }

  /** The delay after one more backoff step. */
  function Next(cfg: Config, delay: real): real {
    Min(delay * cfg.base, cfg.maxDelay)
  }

  /** The number of attempts `range(max_retries + 1)` makes room for. */
  function Attempts(cfg: Config): nat {
    if cfg.maxRetries < 0 then 0 else cfg.maxRetries + 1
  }

  /** The attempts from `attempt` on, with `delay` the current delay. The
      function is called at most `max_retries + 1` times in all, and not at
      all when that range is empty; every call but the last is followed by
      one sleep, and `on_retry` is called at most once per sleep. */
  function Run<T>(cfg: Config, outcomes: seq<CallResult<T>>, attempt: nat, delay: real): (t: Trace<T>)
    requires |outcomes| >= Attempts(cfg) && attempt <= Attempts(cfg)
    ensures t.calls <= Attempts(cfg) - attempt
    ensures t.calls == 0 <==> attempt == Attempts(cfg)
    ensures t.calls > 0 ==> |t.sleeps| == t.calls - 1
    ensures |t.notices| <= |t.sleeps|
    decreases Attempts(cfg) - attempt
  {
    if attempt == Attempts(cfg) then Trace(NoneResult, 0, [], [])
    else
      match outcomes[attempt]
      case Returned(v) => Trace(Value(v), 1, [], [])
      case Raised(e) =>
        if !Catches(cfg.retryable, e) || attempt >= cfg.maxRetries then Trace(Reraised(e), 1, [], [])
        else
          var rest := Run(cfg, outcomes, attempt + 1, Next(cfg, delay));
          Trace(rest.final, rest.calls + 1, [delay] + rest.sleeps,
                (if cfg.onRetry then [Notice(attempt + 1, e, delay)] else []) + rest.notices)
  }

  /** `rest` preceded by the calls, sleeps and notices already made. */
  function After<T>(calls: nat, sleeps: seq<real>, notices: seq<Notice>, rest: Trace<T>): Trace<T> {
    Trace(rest.final, calls + rest.calls, sleeps + rest.sleeps, notices + rest.notices)
  }

  /** One retried attempt moves a call, a sleep and a notice from the rest of
      the run to what has been done. */
  lemma RetryStep<T>(cfg: Config, outcomes: seq<CallResult<T>>, attempt: nat, delay: real,
                     calls: nat, sleeps: seq<real>, notices: seq<Notice>)
    requires |outcomes| >= Attempts(cfg) && attempt < Attempts(cfg)
    requires outcomes[attempt].Raised? && Catches(cfg.retryable, outcomes[attempt].error) && attempt < cfg.maxRetries
    ensures var notice := if cfg.onRetry then [Notice(attempt + 1, outcomes[attempt].error, delay)] else [];
      After(calls, sleeps, notices, Run(cfg, outcomes, attempt, delay))
      == After(calls + 1, sleeps + [delay], notices + notice, Run(cfg, outcomes, attempt + 1, Next(cfg, delay)))
  {
    var rest := Run(cfg, outcomes, attempt + 1, Next(cfg, delay));
    assert sleeps + ([delay] + rest.sleeps) == (sleeps + [delay]) + rest.sleeps;
  }

  /** `retry_with_backoff(...)(func)(...)`: the loop over attempts. */
  method RetryWithBackoff<T>(cfg: Config, outcomes: seq<CallResult<T>>) returns (t: Trace<T>)
    requires |outcomes| >= Attempts(cfg)
    ensures t == Run(cfg, outcomes, 0, cfg.initialDelay)
  {
    var delay := cfg.initialDelay;
    var lastException: Option<Error> := None;
    var calls: nat := 0;
    var sleeps: seq<real> := [];
    var notices: seq<Notice> := [];
    var attempt: nat := 0;
    while attempt < Attempts(cfg)
      invariant attempt <= Attempts(cfg) && calls == attempt
      invariant lastException.None? <==> attempt == 0
      invariant attempt > 0 ==> attempt <= cfg.maxRetries
      invariant Run(cfg, outcomes, 0, cfg.initialDelay) == After(calls, sleeps, notices, Run(cfg, outcomes, attempt, delay))
    {
      var outcome := outcomes[attempt];
      calls := calls + 1;
      if outcome.Returned? {
        return Trace(Value(outcome.value), calls, sleeps, notices);
      }
      var e := outcome.error;
      lastException := Some(e);
      if !Catches(cfg.retryable, e) {
        return Trace(Reraised(e), calls, sleeps, notices);
      }
      if attempt < cfg.maxRetries {
        var notice: seq<Notice> := [];
        if cfg.onRetry {
          notice := [Notice(attempt + 1, e, delay)];
        }
        RetryStep(cfg, outcomes, attempt, delay, calls - 1, sleeps, notices);
        notices := notices + notice;
        sleeps := sleeps + [delay];
        delay := Next(cfg, delay);
      } else {
        return Trace(Reraised(e), calls, sleeps, notices);
      }
      attempt := attempt + 1;
    }
    // The last attempt always returns or raises, so only an empty range of
    // attempts gets here, and `raise last_exception` is never reached.
    assert lastException.None?;
    t := Trace(NoneResult, calls, sleeps, notices);
  }

  // ---------------------------------------------------------------------------
  // What the trace says

  /** The delay before the k-th sleep counted from `delay`. */
  function DelayAfter(cfg: Config, delay: real, k: nat): real
    decreases k
  {
    if k == 0 then delay else DelayAfter(cfg, Next(cfg, delay), k - 1)
  }

  /** Every call before the last raised a retryable exception: a value is
      returned from the first call that succeeds, and a non-retryable
      exception ends the run at once. */
  lemma {:induction false} EarlierCallsRetried<T>(cfg: Config, outcomes: seq<CallResult<T>>, attempt: nat, delay: real)
    requires |outcomes| >= Attempts(cfg) && attempt <= Attempts(cfg)
    ensures var t := Run(cfg, outcomes, attempt, delay);
      forall k | attempt <= k < attempt + t.calls - 1 ::
        outcomes[k].Raised? && Catches(cfg.retryable, outcomes[k].error)
    ensures var t := Run(cfg, outcomes, attempt, delay);
      t.calls > 0 ==> match t.final
        case Value(v) => outcomes[attempt + t.calls - 1] == Returned(v)
        case Reraised(e) => outcomes[attempt + t.calls - 1] == Raised(e)
        case NoneResult => false
    decreases Attempts(cfg) - attempt
  {
    if attempt < Attempts(cfg) && outcomes[attempt].Raised? && Catches(cfg.retryable, outcomes[attempt].error)
       && attempt < cfg.maxRetries {
      EarlierCallsRetried(cfg, outcomes, attempt + 1, Next(cfg, delay));
    }
  }

  /** The k-th sleep lasts the k-th backoff step from `delay`, and `on_retry`,
      when given, is called before each sleep with the attempt number, the
      exception and that delay. */
  lemma {:induction false} SleepSchedule<T>(cfg: Config, outcomes: seq<CallResult<T>>, attempt: nat, delay: real)
    requires |outcomes| >= Attempts(cfg) && attempt <= Attempts(cfg)
    ensures var t := Run(cfg, outcomes, attempt, delay);
      forall k | 0 <= k < |t.sleeps| :: t.sleeps[k] == DelayAfter(cfg, delay, k)
    ensures var t := Run(cfg, outcomes, attempt, delay);
      cfg.onRetry ==> (
        && |t.notices| == |t.sleeps|
        && forall k | 0 <= k < |t.notices| ::
          && t.notices[k].attempt == attempt + k + 1
          && t.notices[k].delay == t.sleeps[k]
          && outcomes[attempt + k] == Raised(t.notices[k].error))
    ensures !cfg.onRetry ==> Run(cfg, outcomes, attempt, delay).notices == []
    decreases Attempts(cfg) - attempt
  {
    var t := Run(cfg, outcomes, attempt, delay);
    if attempt < Attempts(cfg) && outcomes[attempt].Raised? && Catches(cfg.retryable, outcomes[attempt].error)
       && attempt < cfg.maxRetries {
      var rest := Run(cfg, outcomes, attempt + 1, Next(cfg, delay));
      SleepSchedule(cfg, outcomes, attempt + 1, Next(cfg, delay));
      forall k | 0 <= k < |t.sleeps| ensures t.sleeps[k] == DelayAfter(cfg, delay, k) {
        if k > 0 {
          assert t.sleeps[k] == rest.sleeps[k - 1];
        }
      }
      if cfg.onRetry {
        forall k | 0 <= k < |t.notices|
          ensures && t.notices[k].attempt == attempt + k + 1
                  && t.notices[k].delay == t.sleeps[k]
                  && outcomes[attempt + k] == Raised(t.notices[k].error)
        {
          if k > 0 {
            assert t.notices[k] == rest.notices[k - 1];
            assert t.sleeps[k] == rest.sleeps[k - 1];
          }
        }
      }
    }
  }

  /** Every sleep after the first is capped at `max_delay`. */
  lemma DelayCapped(cfg: Config, delay: real, k: nat)
    requires k > 0
    ensures DelayAfter(cfg, delay, k) <= cfg.maxDelay
    decreases k
  {
    if k > 1 {
      DelayCapped(cfg, Next(cfg, delay), k - 1);
    }
  }

  /** When every attempt raises a retryable exception, the function is called
      `max_retries + 1` times, there are `max_retries` sleeps, and the last
      exception is re-raised. */
  lemma {:induction false} AllFail<T>(cfg: Config, outcomes: seq<CallResult<T>>, attempt: nat, delay: real)
    requires cfg.maxRetries >= 0
    requires |outcomes| >= Attempts(cfg) && attempt < Attempts(cfg)
    requires forall k | attempt <= k < Attempts(cfg) :: outcomes[k].Raised? && Catches(cfg.retryable, outcomes[k].error)
    ensures var t := Run(cfg, outcomes, attempt, delay);
      && t.calls == Attempts(cfg) - attempt
      && |t.sleeps| == cfg.maxRetries - attempt
      && t.final == Reraised(outcomes[cfg.maxRetries].error)
    decreases Attempts(cfg) - attempt
  {
    if attempt < cfg.maxRetries {
      AllFail(cfg, outcomes, attempt + 1, Next(cfg, delay));
    }
  }
}
