/** The e-mail channel (agents-monitor/lib/notifiers/email-notifier.js): a
    recipient list kept free of duplicates, a validation that needs at least
    one recipient, and a send that, the transport being a placeholder in the
    source, succeeds on its first attempt. */
module EmailNotifiers {
  import opened Common
  import opened NotifierBase

  datatype EmailOptions = EmailOptions(
    base: NotifierOptions,
    recipients: Option<seq<string>>,
    provider: Option<string>,
    smtpConfig: Option<map<string, string>>)

  /** What a successful send resolves to. */
  datatype EmailReceipt = EmailReceipt(recipients: seq<string>, alertId: string)

  predicate NoDuplicates(s: seq<string>) {
    forall i, j :: 0 <= i < j < |s| ==> s[i] != s[j]
  }

  /** The list after `addRecipient(email)`. */
  function WithRecipient(rs: seq<string>, email: string): seq<string> {
    if email in rs then rs else rs + [email]
  }

  /** The list after `removeRecipient(email)`. */
  function WithoutRecipient(rs: seq<string>, email: string): seq<string> {
    Filter(rs, (r: string) => r != email)
  }

  /** Adding a recipient: the address is then present, the others are kept in
      order, the list grows by one exactly when the address was absent, and a
      list without duplicates stays without duplicates. */
  lemma AddRecipientProperties(rs: seq<string>, email: string)
    ensures email in WithRecipient(rs, email)
    ensures WithRecipient(rs, email)[..|rs|] == rs
    ensures |WithRecipient(rs, email)| == if email in rs then |rs| else |rs| + 1
    ensures NoDuplicates(rs) ==> NoDuplicates(WithRecipient(rs, email))
  {
    var r := WithRecipient(rs, email);
    if email !in rs {
      assert r[..|rs|] == rs;
      assert r[|rs|] == email;
    }
  }

  /** Removing a recipient drops every occurrence of the address and nothing
      else; the others keep their order and multiplicity. */
  lemma RemoveRecipientProperties(rs: seq<string>, email: string)
    ensures email !in WithoutRecipient(rs, email)
    ensures forall x :: x != email ==> multiset(WithoutRecipient(rs, email))[x] == multiset(rs)[x]
    ensures email !in rs ==> WithoutRecipient(rs, email) == rs
    ensures NoDuplicates(rs) ==> NoDuplicates(WithoutRecipient(rs, email))
  {
    var p := (r: string) => r != email;
    if email !in rs {
      FilterKeepsAll(rs, p);
    }
    if NoDuplicates(rs) {
      NoDuplicatesFilter(rs, p);
    }
  }

  /** Filtering keeps a list free of duplicates. */
  lemma {:induction false} NoDuplicatesFilter(rs: seq<string>, p: string -> bool)
    requires NoDuplicates(rs)
    ensures NoDuplicates(Filter(rs, p))
  {
    if rs != [] {
      var x, tail := rs[0], rs[1..];
      NoDuplicatesTail(rs);
      NoDuplicatesFilter(tail, p);
      var rest := Filter(tail, p);
      assert rs == [x] + tail;
      if p(x) {
        assert Filter(rs, p) == [x] + rest;
        assert x !in tail by {
          forall j | 0 <= j < |tail|
            ensures tail[j] != x
          {
            assert tail[j] == rs[j + 1];
          }
        }
        NoDuplicatesCons(x, rest);
      } else {
        assert Filter(rs, p) == rest;
      }
    }
  }

  /** Dropping the first element keeps a list free of duplicates. */
  lemma NoDuplicatesTail(rs: seq<string>)
    requires rs != [] && NoDuplicates(rs)
    ensures NoDuplicates(rs[1..])
  {
    var tail := rs[1..];
    forall i, j | 0 <= i < j < |tail|
      ensures tail[i] != tail[j]
    {
      assert tail[i] == rs[i + 1] && tail[j] == rs[j + 1];
    }
  }

  /** An element absent from a duplicate-free list can go in front of it. */
  lemma NoDuplicatesCons(x: string, rs: seq<string>)
    requires x !in rs && NoDuplicates(rs)
    ensures NoDuplicates([x] + rs)
  {
    var r := [x] + rs;
    forall i, j | 0 <= i < j < |r|
      ensures r[i] != r[j]
    {
      assert r[j] == rs[j - 1];
      if i > 0 {
        assert r[i] == rs[i - 1];
      }
    }
  }

  /** Adding an absent address and removing it again restores the list. */
  lemma AddThenRemove(rs: seq<string>, email: string)
    requires email !in rs
    ensures WithoutRecipient(WithRecipient(rs, email), email) == rs
  {
    var p := (r: string) => r != email;
    FilterAppend(rs, [email], p);
    FilterKeepsAll(rs, p);
    assert Filter([email], p) == [];
  }

  /** The e-mail validation: disabled first, then an empty recipient list. */
  function ValidateEmail(enabled: bool, recipients: seq<string>): (o: Outcome<NotifierError>)
    ensures o.Pass? <==> enabled && recipients != []
    ensures !enabled ==> o == Fail(NotEnabled)
    ensures enabled && recipients == [] ==> o == Fail(NoRecipients)
  {
    if !enabled then Fail(NotEnabled)
    else if recipients == [] then Fail(NoRecipients)
    else Pass
  }

  class EmailNotifier {
    var enabled: bool
    var retryAttempts: int
    var retryDelay: int
    var recipients: seq<string>
    var provider: string
    var smtpConfig: map<string, string>

    /** `new EmailNotifier(options)`: the base defaults, no recipients unless
        given, provider `smtp` unless a non-empty one is given, and an empty
        SMTP configuration unless given. */
    constructor(options: EmailOptions)
      ensures enabled == EnabledOption(options.base)
      ensures retryAttempts == AttemptsOption(options.base)
      ensures retryDelay == DelayOption(options.base)
      ensures recipients == options.recipients.GetOr([])
      ensures provider == StringOr(options.provider, "smtp")
      ensures smtpConfig == options.smtpConfig.GetOr(map[])
    {
      enabled := EnabledOption(options.base);
      retryAttempts := AttemptsOption(options.base);
      retryDelay := DelayOption(options.base);
      recipients := options.recipients.GetOr([]);
      provider := StringOr(options.provider, "smtp");
      smtpConfig := options.smtpConfig.GetOr(map[]);
    }

    /** `validate()`. */
    function Validate(): (o: Outcome<NotifierError>)
      reads this
      ensures o.Pass? <==> enabled && recipients != []
      ensures o.Fail? ==> o.error == (if !enabled then NotEnabled else NoRecipients)
    {
      ValidateEmail(enabled, recipients)
    }

    /** `send(alert)` for the alert with id `alertId`: a failed validation
        rejects before any attempt; otherwise the placeholder transport
        succeeds on the first attempt with the recipient list and the alert
        id (a non-positive attempt count makes no attempt at all). */
    method Send(alertId: string) returns (r: Result<EmailReceipt, NotifierError>, calls: nat)
      ensures Validate().Fail? ==> r == Failure(Validate().error) && calls == 0
      ensures Validate().Pass? && retryAttempts >= 1 ==> r == Success(EmailReceipt(recipients, alertId)) && calls == 1
      ensures Validate().Pass? && retryAttempts < 1 ==> r == Failure(NoAttemptMade) && calls == 0
    {
      var v := Validate();
      if v.Fail? {
        return Failure(v.error), 0;
      }
      // The source's second emptiness check repeats the one in `validate()`.
      if recipients == [] {
        assert false;
      }
      var rs := recipients;
      var deliver := (k: nat) => Ok(EmailReceipt(rs, alertId));
      var delays;
      r, calls, delays := RetryWithBackoff(retryAttempts, retryDelay, deliver, "Email send");
      if retryAttempts >= 1 {
        assert deliver(0).Ok?;
      }
    }

    /** `addRecipient(email)`. */
    method AddRecipient(email: string)
      modifies this
      ensures recipients == WithRecipient(old(recipients), email)
      ensures NoDuplicates(old(recipients)) ==> NoDuplicates(recipients)
      ensures enabled == old(enabled) && retryAttempts == old(retryAttempts) && retryDelay == old(retryDelay)
      ensures provider == old(provider) && smtpConfig == old(smtpConfig)
    {
      AddRecipientProperties(recipients, email);
      if email !in recipients {
        recipients := recipients + [email];
      }
    }

    /** `removeRecipient(email)`. */
    method RemoveRecipient(email: string)
      modifies this
      ensures recipients == WithoutRecipient(old(recipients), email)
      ensures email !in recipients
      ensures enabled == old(enabled) && retryAttempts == old(retryAttempts) && retryDelay == old(retryDelay)
      ensures provider == old(provider) && smtpConfig == old(smtpConfig)
    {
      recipients := WithoutRecipient(recipients, email);
    }

    /** `setSmtpConfig(config)` replaces the configuration wholesale. */
    method SetSmtpConfig(config: map<string, string>)
      modifies this
      ensures smtpConfig == config
      ensures enabled == old(enabled) && retryAttempts == old(retryAttempts) && retryDelay == old(retryDelay)
      ensures recipients == old(recipients) && provider == old(provider)
    {
      smtpConfig := config;
    }
  }
}
