/** The Teams incoming-webhook notifier, teams-webhook-notifier.js: it
    builds a MessageCard for the outcome of a credit load and posts it to
    the configured webhook URL once, with no retries. Any failure is caught
    and reported as workflow outputs, never thrown.

    The post is one network attempt, a parameter; the card is returned as
    what was posted. The utility object the notifier is given is the
    Actions one (github-actions-utils.js), whose `setOutput` records
    workflow commands. */
module TeamsWebhook {
  import opened Js
  import opened Http
  import opened Axios
  import opened GitHubActionsUtils

  /** One `{name, value}` entry of the card's facts. */
  datatype Fact = Fact(name: string, value: string)
  /** One `{os, uri}` target of an action. */
  datatype Target = Target(os: string, uri: string)
  /** The card's one action: an `OpenUri` button. */
  datatype Action = OpenUri(name: string, targets: seq<Target>)
  /** The card's one section. */
  datatype Section = Section(
    activityTitle: string,
    activitySubtitle: string,
    activityImage: string,
    facts: seq<Fact>,
    markdown: bool)
  /** The JSON body posted to the webhook; `kind` is `@type` and `context`
      is `@context`. */
  datatype MessageCard = MessageCard(
    kind: string,
    context: string,
    themeColor: string,
    summary: string,
    sections: seq<Section>,
    potentialAction: seq<Action>)

  const SuccessMark := "\U{2705}"
  const FailureMark := "\U{274C}"
  const Shekel := "\U{20AA}"
  const SiteUri := "https://www.10bis.co.il"

  /** How one call of `sendNotification` ends: skipped by the guard,
      delivered, answered with a status the notifier counts as a failure
      without throwing, or in the catch block with the error's message.
      Only the Graph notifier ends `Rejected` (a 2xx other than 201); the
      webhook notifier reports every non-200 answer as an error. */
  datatype Delivery = Skipped | Delivered | Rejected(status: nat) | Errored(message: string)

  /** `status === 'success'`. */
  predicate IsSuccess(status: string) {
    status == "success"
  }

  /** The word both notifiers show for the outcome. */
  function StatusText(status: string): string {
    if IsSuccess(status) then "Success" else "Failed"
  }

  function Emoji(status: string): string {
    if IsSuccess(status) then SuccessMark else FailureMark
  }

  /** `!isSuccess && error`: an error is shown only for a failure, and only
      when it is a non-empty string (`null` is None). */
  predicate ErrorShown(status: string, error: Option<string>) {
    !IsSuccess(status) && error.Some? && Truthy(error.value)
  }

  /** The facts list: amount, time and status, then the error when shown. */
  function CardFacts(status: string, amount: string, timestamp: string, error: Option<string>): (facts: seq<Fact>)
    ensures |facts| == (if ErrorShown(status, error) then 4 else 3)
    ensures facts[0].name == "Amount" && facts[1].name == "Time" && facts[2].name == "Status"
    ensures facts[2].value == (if IsSuccess(status) then "Success" else "Failed")
    ensures (exists f :: f in facts && f.name == "Error") <==> ErrorShown(status, error)
  {
    [Fact("Amount", Shekel + amount), Fact("Time", timestamp + " (Israel Time)"), Fact("Status", StatusText(status))]
    + (if ErrorShown(status, error) then [Fact("Error", error.value)] else [])
  }

  /** `formatWebhookMessage(status, amount, timestamp, error)`. */
  function FormatWebhookMessage(status: string, amount: string, timestamp: string, error: Option<string>): (card: MessageCard)
    ensures card.kind == "MessageCard" && card.context == "http://schema.org/extensions"
    ensures |card.sections| == 1 && |card.potentialAction| == 1
    // the facts: amount and time always, the error exactly when shown
    ensures var facts := card.sections[0].facts;
      && (|facts| == 4 <==> ErrorShown(status, error))
      && |facts| >= 3
      && facts[0] == Fact("Amount", Shekel + amount)
      && facts[1] == Fact("Time", timestamp + " (Israel Time)")
      && (ErrorShown(status, error) ==> facts[3] == Fact("Error", error.value))
    // the outcome reads the same everywhere on the card
    ensures var section := card.sections[0];
      && card.summary == "10bis Credit Loading " + StatusText(status)
      && section.activitySubtitle == "Credit Loading " + StatusText(status)
      && section.facts[2] == Fact("Status", StatusText(status))
      && (StatusText(status) == "Success" <==> IsSuccess(status))
      && (card.themeColor == "#28a745" <==> IsSuccess(status))
      && |section.activityTitle| > 0
      && (section.activityTitle[0] == SuccessMark[0] <==> IsSuccess(status))
    ensures card.potentialAction[0] == OpenUri("Open 10bis", [Target("default", SiteUri)])
  {
    var isSuccess := IsSuccess(status);
    var section := Section(
      Emoji(status) + " 10bis Bot",
      "Credit Loading " + StatusText(status),
      "https://www.10bis.co.il/favicon.ico",
      CardFacts(status, amount, timestamp, error),
      true);
    assert (Emoji(status) + " 10bis Bot")[0] == Emoji(status)[0];
    MessageCard(
      "MessageCard",
      "http://schema.org/extensions",
      if isSuccess then "#28a745" else "#dc3545",
      "10bis Credit Loading " + StatusText(status),
      [section],
      [OpenUri("Open 10bis", [Target("default", SiteUri)])])
  }

  /** `!this.webhookUrl || this.webhookUrl.trim() === ''`. */
  predicate UrlMissing(webhookUrl: Option<string>) {
    webhookUrl.None? || IsBlank(webhookUrl.value)
  }

  /** The message thrown for a 2xx answer other than 200. */
  function UnexpectedStatusMessage(status: nat): string {
    "Webhook returned status " + NatToString(status)
  }

  /** How `sendNotification` ends when the post meets `reply`: skipped
      without a URL, delivered on 200, an error otherwise. */
  function WebhookDelivery(webhookUrl: Option<string>, reply: Attempt): (delivery: Delivery)
    ensures delivery.Skipped? <==> UrlMissing(webhookUrl)
    ensures delivery.Delivered? <==> !UrlMissing(webhookUrl) && reply.Answered? && reply.response.status == 200
    ensures !delivery.Rejected?
    ensures delivery.Errored? && reply.Raised? ==> delivery.message == reply.message
  {
    if UrlMissing(webhookUrl) then Skipped
    else
      match Post(reply)
      case Err(message) => Errored(message)
      case Ok(response) =>
        if response.status == 200 then Delivered
        else Errored(UnexpectedStatusMessage(response.status))
  }

  /** The outputs `sendNotification` sets inside Actions. */
  function WebhookOutputs(delivery: Delivery): seq<Command> {
    match delivery
    case Skipped => []
    case Delivered => [Output("teams_notification", "sent_webhook")]
    case Rejected(_) => []  // never reached: WebhookDelivery is never Rejected
    case Errored(message) => [Output("teams_notification", "failed"), Output("teams_error", message)]
  }

  class TeamsWebhookNotifier {
    const webhookUrl: Option<string>
    const utils: ActionsUtils

    constructor (url: Option<string>, actionsUtils: ActionsUtils)
      ensures webhookUrl == url && utils == actionsUtils
    {
      webhookUrl := url;
      utils := actionsUtils;
    }

    /** `sendNotification(status, amount, timestamp, error)`: returns the
        card it posted, if any. It returns normally whatever the network
        does. */
    method SendNotification(status: string, amount: string, timestamp: string, error: Option<string>, reply: Attempt)
      returns (posted: Option<MessageCard>)
      modifies utils`commands
      ensures var delivery := WebhookDelivery(webhookUrl, reply);
        && posted == (if delivery.Skipped? then None else Some(FormatWebhookMessage(status, amount, timestamp, error)))
        && utils.commands == old(utils.commands) + Emit(utils.env, WebhookOutputs(delivery))
    {
      if webhookUrl.None? || IsBlank(webhookUrl.value) {
        return None;
      }
      var message := FormatWebhookMessage(status, amount, timestamp, error);
      posted := Some(message);
      var answer := Post(reply);
      var failure: string;
      if answer.Ok? {
        if answer.value.status == 200 {
          utils.SetOutput("teams_notification", "sent_webhook");
          return;
        }
        failure := UnexpectedStatusMessage(answer.value.status);
      } else {
        failure := answer.error;
      }
      utils.SetOutput("teams_notification", "failed");
      utils.SetOutput("teams_error", failure);
      EmitExtend(utils.env, old(utils.commands), [Output("teams_notification", "failed")], [Output("teams_error", failure)]);
    }
  }

  // ----- properties of a delivery -----

  /** Nothing is posted and nothing is reported exactly when the URL is
      missing or blank. */
  lemma WebhookSkipsIffNoUrl(webhookUrl: Option<string>, reply: Attempt)
    ensures WebhookDelivery(webhookUrl, reply).Skipped? <==> UrlMissing(webhookUrl)
    ensures WebhookDelivery(webhookUrl, reply).Skipped? ==> WebhookOutputs(WebhookDelivery(webhookUrl, reply)) == []
  {
  }

  /** The notification counts as sent exactly when the webhook answered 200;
      it is never left unreported otherwise. */
  lemma WebhookDeliveredIff200(webhookUrl: Option<string>, reply: Attempt)
    ensures var delivery := WebhookDelivery(webhookUrl, reply);
      && (delivery == Delivered <==> !UrlMissing(webhookUrl) && reply.Answered? && reply.response.status == 200)
      && !delivery.Rejected?
      && (!UrlMissing(webhookUrl) && delivery != Delivered ==> delivery.Errored?)
  {
  }

  /** Any answer other than 200 is reported as an error: the notifier's
      own message for another 2xx status, axios's message otherwise. Both
      end in the status number. */
  lemma WebhookErrorNamesStatus(webhookUrl: Option<string>, reply: Attempt)
    requires !UrlMissing(webhookUrl)
    requires reply.Answered? && reply.response.status != 200
    ensures var delivery := WebhookDelivery(webhookUrl, reply);
      var status := reply.response.status;
      && delivery.Errored?
      && (IsSuccessStatus(status) ==> delivery.message == UnexpectedStatusMessage(status))
      && (!IsSuccessStatus(status) ==> delivery.message == StatusFailure(status))
  {
  }

  /** The status can be read back from the notifier's own message. */
  lemma UnexpectedStatusReadsBack(status: nat)
    ensures var message := UnexpectedStatusMessage(status);
      var prefix := "Webhook returned status ";
      && |prefix| <= |message|
      && message[..|prefix|] == prefix
      && DigitsValue(message[|prefix|..]) == status
  {
    var message := UnexpectedStatusMessage(status);
    assert message[|"Webhook returned status "|..] == NatToString(status);
    NatToStringRoundTrip(status);
  }

  /** A success card never carries an error fact, whatever error is passed. */
  lemma SuccessCardHasNoError(amount: string, timestamp: string, error: Option<string>)
    ensures var facts := FormatWebhookMessage("success", amount, timestamp, error).sections[0].facts;
      |facts| == 3 && forall f :: f in facts ==> f.name != "Error"
  {
  }
}
