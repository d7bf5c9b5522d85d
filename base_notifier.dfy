/** The shared part of every notification channel
    (agents-monitor/lib/notifiers/base-notifier.js): option defaults, the
    `enabled` check, the retry loop with exponential backoff, and the errors
    the notifiers raise.

    A call that may throw is a `CallResult`; the k-th attempt of the retried
    operation is `fn(k)`. Sleeping is not modelled: the loop reports the
    delays it would have waited, in order. */
module NotifierBase {
  import opened Common
  import opened Text

  /** Everything a notifier can throw, one constructor per distinct message. */
  datatype NotifierError =
    | NotEnabled
    | NotImplemented
    | NoRecipients
    | WebhookNotConfigured
    | InvalidWebhookUrl
    | RepoNotConfigured
    | InvalidRepoFormat
    | RetriesExhausted(context: string, attempts: nat, lastMessage: string)
      /** With no attempt made, `lastError.message` reads a property of
          `undefined`, which throws a TypeError. */
    | NoAttemptMade

  /** The text of each error, as thrown. */
  function ErrorMessage(e: NotifierError): string {
    match e
    case NotEnabled => "Notifier is not enabled"
    case NotImplemented => "send() must be implemented by subclass"
    case NoRecipients => "Email notifier: no recipients configured"
    case WebhookNotConfigured => "Slack notifier: webhookUrl not configured"
    case InvalidWebhookUrl => "Invalid Slack webhook URL"
    case RepoNotConfigured => "GitHub notifier: repo not configured (format: owner/repo)"
    case InvalidRepoFormat => "Invalid repo format. Use: owner/repo"
    case RetriesExhausted(context, attempts, last) =>
      context + " failed after " + NatText(attempts) + " attempts: " + last
    case NoAttemptMade => "Cannot read properties of undefined (reading 'message')"
  }

  /** The outcome of one attempt of a retried operation. */
  datatype CallResult<+T> = Ok(value: T) | Thrown(message: string)

  function Pow2(k: nat): (p: nat)
    ensures p >= 1
  {
    if k == 0 then 1 else 2 * Pow2(k - 1)
  }

  /** `retryWithBackoff(fn, context)` with `retryAttempts` = `attempts` and
      `retryDelay` = `delay`: at most `attempts` calls, the first success is
      returned at once, a failed attempt other than the last is followed by a
      wait of `delay * 2^k`, and exhaustion throws one error naming the
      context, the attempt count and the last error's message. */
  method RetryWithBackoff<T>(attempts: int, delay: int, fn: nat -> CallResult<T>, context: string)
    returns (r: Result<T, NotifierError>, calls: nat, delays: seq<int>)
    ensures calls <= Max(attempts, 0)
    ensures r.Success? <==> exists k :: 0 <= k < attempts && fn(k).Ok?
    ensures r.Success? ==> 1 <= calls && fn(calls - 1) == Ok(r.value)
    ensures r.Success? ==> forall k :: 0 <= k < calls - 1 ==> fn(k).Thrown?
    ensures r.Failure? ==> calls == Max(attempts, 0) && forall k :: 0 <= k < calls ==> fn(k).Thrown?
    ensures r.Failure? && attempts > 0 ==> r.error == RetriesExhausted(context, attempts, fn(attempts - 1).message)
    ensures r.Failure? && attempts <= 0 ==> r.error == NoAttemptMade
    ensures |delays| == if r.Success? then calls - 1 else Max(attempts - 1, 0)
    ensures forall i :: 0 <= i < |delays| ==> delays[i] == delay * Pow2(i)
  {
    calls := 0;
    delays := [];
    var attempt: nat := 0;
    while attempt < attempts
      invariant attempt <= Max(attempts, 0)
      invariant calls == attempt
      invariant forall k :: 0 <= k < attempt ==> fn(k).Thrown?
      invariant |delays| == Min(attempt, Max(attempts - 1, 0))
      invariant forall i :: 0 <= i < |delays| ==> delays[i] == delay * Pow2(i)
    {
      var outcome := fn(attempt);
      calls := calls + 1;
      if outcome.Ok? {
        return Success(outcome.value), calls, delays;
      }
      if attempt < attempts - 1 {
        delays := delays + [delay * Pow2(attempt)];
      }
      attempt := attempt + 1;
    }
    if attempts > 0 {
      r := Failure(RetriesExhausted(context, attempts, fn(attempts - 1).message));
    } else {
      r := Failure(NoAttemptMade);
    }
  }

  /** A `send` that fails twice and then succeeds is called exactly three
      times, with waits of `retryDelay` and `2 * retryDelay` in between. */
  method ThirdAttemptSucceeds(delay: int) returns (r: Result<nat, NotifierError>, calls: nat, delays: seq<int>)
    ensures r == Success(2) && calls == 3 && delays == [delay, 2 * delay]
  {
    var flaky := (k: nat) => if k < 2 then Thrown("timeout") else Ok(k);
    r, calls, delays := RetryWithBackoff(3, delay, flaky, "operation");
    assert flaky(2).Ok?;
    assert |delays| == 2;
    assert delays[1] == delay * Pow2(1);
  }

  /** The options every notifier accepts. */
  datatype NotifierOptions = NotifierOptions(enabled: Option<bool>, retryAttempts: Option<int>, retryDelay: Option<int>)

  /** `options.enabled !== false`. */
  function EnabledOption(o: NotifierOptions): (b: bool)
    ensures b <==> o.enabled != Some(false)
  {
    !(o.enabled.Some? && !o.enabled.value)
  }

  /** `options.retryAttempts || 3`. */
  function AttemptsOption(o: NotifierOptions): (n: int)
    ensures o.retryAttempts.None? || o.retryAttempts == Some(0) ==> n == 3
    ensures o.retryAttempts.Some? && o.retryAttempts.value != 0 ==> n == o.retryAttempts.value
  {
    NumberOr(o.retryAttempts, 3)
  }

  /** `options.retryDelay || 1000`. */
  function DelayOption(o: NotifierOptions): (n: int)
    ensures o.retryDelay.None? || o.retryDelay == Some(0) ==> n == 1000
    ensures o.retryDelay.Some? && o.retryDelay.value != 0 ==> n == o.retryDelay.value
  {
    NumberOr(o.retryDelay, 1000)
  }

  /** The base check shared by every `validate()`: it fails exactly when the
      notifier is disabled. */
  function ValidateEnabled(enabled: bool): (o: Outcome<NotifierError>)
    ensures o.Pass? <==> enabled
    ensures o.Fail? ==> o.error == NotEnabled
  {
    if enabled then Pass else Fail(NotEnabled)
  }

  /** `BaseNotifier` itself, whose `send` is abstract. */
  class BaseNotifier {
    var enabled: bool
    var retryAttempts: int
    var retryDelay: int

    constructor(options: NotifierOptions)
      ensures enabled == EnabledOption(options)
      ensures retryAttempts == AttemptsOption(options)
      ensures retryDelay == DelayOption(options)
    {
      enabled := EnabledOption(options);
      retryAttempts := AttemptsOption(options);
      retryDelay := DelayOption(options);
    }

    /** `validate()`. */
    function Validate(): (o: Outcome<NotifierError>)
      reads this
      ensures o.Pass? <==> enabled
      ensures o.Fail? ==> o.error == NotEnabled
    {
      ValidateEnabled(enabled)
    }

    /** `send(alert)` always rejects, whatever the alert. */
    method Send<A>(alert: A) returns (r: Result<A, NotifierError>)
      ensures r == Failure(NotImplemented)
    {
      r := Failure(NotImplemented);
    }
  }
}
