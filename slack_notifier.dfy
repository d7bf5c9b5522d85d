/** The Slack channel (agents-monitor/lib/notifiers/slack-notifier.js): the
    message payload with its severity colour and four fields, the webhook
    check, and a send that, the HTTP call being a placeholder in the source,
    succeeds on its first attempt. */
module SlackNotifiers {
  import opened Common
  import opened Text
  import opened AlertHistory
  import opened NotifierBase

  const WebhookPrefix: string := "https://hooks.slack.com"
  const DefaultColor: string := "#95A5A6"

  /** The colour of a severity: red, orange and blue for the three known
      levels, grey for anything else. */
  function SeverityColor(severity: string): string {
    if severity == "critical" then "#E74C3C"
    else if severity == "warning" then "#F39C12"
    else if severity == "info" then "#3498DB"
    else DefaultColor
  }

  /** The three known severities have three different colours, and exactly the
      unknown severities are grey. */
  lemma SeverityColorsDiffer(severity: string)
    ensures SeverityColor(severity) == DefaultColor <==> severity !in {"critical", "warning", "info"}
    ensures SeverityColor("critical") != SeverityColor("warning")
    ensures SeverityColor("warning") != SeverityColor("info")
    ensures SeverityColor("critical") != SeverityColor("info")
  {
  }

  /** A field value: plain text, the alert message, or the alert time (shown
      as an ISO-8601 string, a rendering not modelled). */
  datatype FieldValue = Text(s: string) | MessageValue(m: AlertMessage) | TimeValue(millis: int)

  datatype Field = Field(title: string, value: FieldValue, short: bool)

  datatype Attachment = Attachment(color: string, fields: seq<Field>)

  datatype SlackMessage = SlackMessage(text: string, attachments: seq<Attachment>)

  /** `formatSlackMessage(alert)`. */
  function FormatSlackMessage(a: Alert): SlackMessage {
    SlackMessage(
      Upper(a.severity) + ": " + a.name,
      [Attachment(SeverityColor(a.severity), [
        Field("Agent", Text(a.agentName), true),
        Field("Severity", Text(Upper(a.severity)), true),
        Field("Message", MessageValue(a.message), false),
        Field("Time", TimeValue(a.timestamp), false)])])
  }

  /** The payload has one attachment coloured by severity, whose four fields
      are Agent, Severity, Message and Time, the first two short, holding the
      agent name, the upper-cased severity, the message and the alert time;
      the text is the upper-cased severity, a colon and a space, then the
      rule name. */
  lemma SlackMessageShape(a: Alert)
    ensures var msg := FormatSlackMessage(a);
      && |msg.attachments| == 1
      && msg.attachments[0].color == SeverityColor(a.severity)
      && |msg.attachments[0].fields| == 4
      && (forall i :: 0 <= i < 4 ==> (msg.attachments[0].fields[i].short <==> i < 2))
      && msg.attachments[0].fields[0].title == "Agent"
      && msg.attachments[0].fields[0].value == Text(a.agentName)
      && msg.attachments[0].fields[1].title == "Severity"
      && msg.attachments[0].fields[1].value == Text(Upper(a.severity))
      && msg.attachments[0].fields[2].title == "Message"
      && msg.attachments[0].fields[2].value == MessageValue(a.message)
      && msg.attachments[0].fields[3].title == "Time"
      && msg.attachments[0].fields[3].value == TimeValue(a.timestamp)
      && StartsWith(msg.text, Upper(a.severity) + ": ")
      && |msg.text| == |a.severity| + 2 + |a.name|
      && msg.text[|a.severity| + 2..] == a.name
  {
    var msg := FormatSlackMessage(a);
    var lead := Upper(a.severity) + ": ";
    assert msg.text == lead + a.name;
    assert |lead| == |a.severity| + 2;
    assert (lead + a.name)[|lead|..] == a.name;
  }

  datatype SlackOptions = SlackOptions(base: NotifierOptions, webhookUrl: Option<string>)

  /** What a successful send resolves to. */
  datatype SlackReceipt = SlackReceipt(channel: string, alertId: string, payload: SlackMessage)

  /** The Slack validation: disabled first, then a missing or empty webhook. */
  function ValidateSlack(enabled: bool, webhookUrl: Option<string>): (o: Outcome<NotifierError>)
    ensures o.Pass? <==> enabled && StringGiven(webhookUrl)
    ensures !enabled ==> o == Fail(NotEnabled)
    ensures enabled && !StringGiven(webhookUrl) ==> o == Fail(WebhookNotConfigured)
  {
    if !enabled then Fail(NotEnabled)
    else if !StringGiven(webhookUrl) then Fail(WebhookNotConfigured)
    else Pass
  }

  class SlackNotifier {
    var enabled: bool
    var retryAttempts: int
    var retryDelay: int
    var webhookUrl: Option<string>

    /** `new SlackNotifier(options)`: the base defaults and the given webhook,
        unchecked. */
    constructor(options: SlackOptions)
      ensures enabled == EnabledOption(options.base)
      ensures retryAttempts == AttemptsOption(options.base)
      ensures retryDelay == DelayOption(options.base)
      ensures webhookUrl == options.webhookUrl
    {
      enabled := EnabledOption(options.base);
      retryAttempts := AttemptsOption(options.base);
      retryDelay := DelayOption(options.base);
      webhookUrl := options.webhookUrl;
    }

    /** `validate()`. */
    function Validate(): (o: Outcome<NotifierError>)
      reads this
      ensures o.Pass? <==> enabled && StringGiven(webhookUrl)
      ensures o.Fail? ==> o.error == (if !enabled then NotEnabled else WebhookNotConfigured)
    {
      ValidateSlack(enabled, webhookUrl)
    }

    /** `send(alert)`: a failed validation rejects before any attempt;
        otherwise the first attempt succeeds, reporting channel `alerts`, the
        alert id and the formatted payload. */
    method Send(a: Alert) returns (r: Result<SlackReceipt, NotifierError>, calls: nat)
      ensures Validate().Fail? ==> r == Failure(Validate().error) && calls == 0
      ensures Validate().Pass? && retryAttempts >= 1 ==>
        r == Success(SlackReceipt("alerts", a.id, FormatSlackMessage(a))) && calls == 1
      ensures Validate().Pass? && retryAttempts < 1 ==> r == Failure(NoAttemptMade) && calls == 0
    {
      var v := Validate();
      if v.Fail? {
        return Failure(v.error), 0;
      }
      var post := (k: nat) => Ok(SlackReceipt("alerts", a.id, FormatSlackMessage(a)));
      var delays;
      r, calls, delays := RetryWithBackoff(retryAttempts, retryDelay, post, "Slack send");
      if retryAttempts >= 1 {
        assert post(0).Ok?;
      }
    }

    /** `setWebhookUrl(url)`: only a URL beginning with the Slack hooks host is
        accepted; a rejected URL throws and leaves the webhook as it was. */
    method SetWebhookUrl(url: string) returns (o: Outcome<NotifierError>)
      modifies this
      ensures o.Pass? <==> StartsWith(url, WebhookPrefix)
      ensures o.Pass? ==> webhookUrl == Some(url)
      ensures o.Fail? ==> o.error == InvalidWebhookUrl && webhookUrl == old(webhookUrl)
      ensures enabled == old(enabled) && retryAttempts == old(retryAttempts) && retryDelay == old(retryDelay)
    {
      if !StartsWith(url, WebhookPrefix) {
        return Fail(InvalidWebhookUrl);
      }
      webhookUrl := Some(url);
      o := Pass;
    }
  }

  /** Once a webhook has been accepted, validation fails only if the notifier
      is disabled. */
  lemma AcceptedWebhookValidates(enabled: bool, url: string)
    requires StartsWith(url, WebhookPrefix)
    ensures ValidateSlack(enabled, Some(url)) == ValidateEnabled(enabled)
  {
    assert url[..|WebhookPrefix|] == WebhookPrefix;
  }
}
