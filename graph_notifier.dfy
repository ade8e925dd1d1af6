/** The Microsoft Graph notifier, github-teams-notifier.js: it sends the
    outcome of a credit load as a one-on-one Teams chat message. It takes
    an app token with the client-credentials grant and caches it in the
    object, creates (or finds) the chat with the user, then posts an HTML
    message into it. Any failure is caught and reported as workflow
    outputs, never thrown.

    Each of the three posts is one network attempt, a parameter; the posts
    made are returned in order. The token cache is the object's one
    mutable field. */
module TeamsGraph {
  import opened Js
  import opened Http
  import opened Axios
  import opened GitHubActionsUtils
  import opened TeamsWebhook

  /** The body of a post: the token form, the new-chat request naming the
      user, or the chat message with its HTML content. */
  datatype GraphBody =
    | TokenForm(clientId: string, clientSecret: string, scope: string, grantType: string)
    | NewChat(userBinding: string)
    | ChatMessage(htmlContent: string)

  /** One `axios.post`: where to, the Authorization header (none for the
      token request) and the body. */
  datatype GraphPost = GraphPost(url: string, authorization: Option<string>, body: GraphBody)

  /** How a notification went: how it ended, the posts it made, and the
      token cache afterwards. */
  datatype GraphRun = GraphRun(delivery: Delivery, posts: seq<GraphPost>, cache: Option<string>)

  /** How a token lookup went: the token or the error, the cache
      afterwards, and the posts it made. */
  datatype TokenLookup = TokenLookup(result: Result<Option<string>, string>, cache: Option<string>, posts: seq<GraphPost>)

  const GraphScope := "https://graph.microsoft.com/.default"
  const ChatsUrl := "https://graph.microsoft.com/v1.0/chats"

  /** A value interpolated into a template literal: `undefined` when absent. */
  function Rendered(value: Option<string>): string {
    if value.Some? then value.value else "undefined"
  }

  /** A property used as a boolean: absent or empty is falsy. */
  predicate Present(value: Option<string>) {
    value.Some? && Truthy(value.value)
  }

  function TokenUrl(tenantId: Option<string>): string {
    "https://login.microsoftonline.com/" + Rendered(tenantId) + "/oauth2/v2.0/token"
  }

  function UserBinding(userId: Option<string>): string {
    "https://graph.microsoft.com/v1.0/users('" + Rendered(userId) + "')"
  }

  /** `response.data[key]`: `undefined` when the key is absent, and also
      when the body is empty (axios gives `""`, whose properties are all
      undefined). */
  function Property(data: Option<map<string, string>>, key: string): Option<string> {
    if data.Some? && key in data.value then Some(data.value[key]) else None
  }

  /** `chatResponse.data.id` as interpolated into the messages URL. */
  function ChatIdOf(data: Option<map<string, string>>): string {
    Rendered(Property(data, "id"))
  }

  function MessagesUrl(chatId: string): string {
    ChatsUrl + "/" + chatId + "/messages"
  }

  /** One item of the HTML list: `<li><strong>name:</strong> value</li>`. */
  function ListItem(name: string, value: string): string {
    "<li><strong>" + name + ":</strong> " + value + "</li>"
  }

  // The fixed text of the template, whitespace included, around the
  // interpolated color, emoji and status word.
  const HeadBorder := "\n            <div style=\"border-left: 4px solid "
  const HeadTitleStyle := "; padding-left: 12px; margin: 8px 0;\">\n                <h3 style=\"margin: 0; color: "
  const HeadTitle := ";\">"
  const HeadSubtitle := " 10bis Bot</h3>\n                <p style=\"margin: 4px 0; font-size: 14px;\">\n                    <strong>Credit Loading "
  const HeadListOpen := "</strong>\n                </p>\n                <ul style=\"margin: 8px 0; padding-left: 20px; font-size: 13px;\">"
  const ItemIndent := "\n                    "
  const ErrorIndent := "\n        "
  const HtmlTail := "\n                </ul>\n            </div>\n        "

  /** The HTML before the list items. */
  function HtmlHead(color: string, emoji: string, statusText: string): string {
    HeadBorder + color + HeadTitleStyle + color + HeadTitle + emoji + HeadSubtitle + statusText + HeadListOpen
  }

  /** `formatMessage(status, amount, timestamp, error).htmlContent`. */
  function FormatMessage(status: string, amount: string, timestamp: string, error: Option<string>): string {
    var isSuccess := IsSuccess(status);
    var color := if isSuccess then "#00FF00" else "#FF0000";
    var statusText := if isSuccess then "Success" else "Failed";
    var errorItem := if !isSuccess && error.Some? && Truthy(error.value) then ListItem("Error", error.value) else "";
    HtmlHead(color, Emoji(status), statusText)
    + ItemIndent + ListItem("Amount", Shekel + amount)
    + ItemIndent + ListItem("Time", timestamp + " (Israel Time)")
    + ItemIndent + ListItem("Status", statusText)
    + ErrorIndent + errorItem
    + HtmlTail
  }

  /** `getAccessToken()` with the cache holding `cached`: a truthy cached
      token is returned without a request; otherwise the token endpoint is
      asked once and whatever `access_token` it returns, even none, is
      cached. */
  function TokenStep(cached: Option<string>, tenantId: Option<string>, clientId: Option<string>,
                     clientSecret: Option<string>, reply: Attempt): (lookup: TokenLookup)
    ensures Present(cached) ==> lookup == TokenLookup(Ok(cached), cached, [])
    ensures !Present(cached) ==>
      && |lookup.posts| == 1 && lookup.posts[0].url == TokenUrl(tenantId) && lookup.posts[0].authorization == None
      && (lookup.result.Ok? <==> reply.Answered? && IsSuccessStatus(reply.response.status))
      && (lookup.result.Ok? ==> lookup.cache == lookup.result.value)
      && (lookup.result.Err? ==> lookup.cache == cached)
  {
    if Present(cached) then TokenLookup(Ok(cached), cached, [])
    else
      var post := GraphPost(TokenUrl(tenantId), None,
        TokenForm(Rendered(clientId), Rendered(clientSecret), GraphScope, "client_credentials"));
      match Post(reply)
      case Err(message) => TokenLookup(Err(message), cached, [post])
      case Ok(response) =>
        var token := Property(response.data, "access_token");
        TokenLookup(Ok(token), token, [post])
  }

  /** The try block of `sendNotification` once a token is known: create
      (or find) the chat with the user, then post `html` into it. */
  function ChatStage(lookup: TokenLookup, userId: Option<string>, html: string,
                     chatReply: Attempt, messageReply: Attempt): (run: GraphRun)
    requires lookup.result.Ok?
    ensures run.cache == lookup.cache && !run.delivery.Skipped?
    ensures |lookup.posts| < |run.posts| <= |lookup.posts| + 2 && run.posts[..|lookup.posts|] == lookup.posts
    ensures run.posts[|lookup.posts|]
      == GraphPost(ChatsUrl, Some("Bearer " + Rendered(lookup.result.value)), NewChat(UserBinding(userId)))
    ensures |run.posts| == |lookup.posts| + 2 <==> chatReply.Answered? && IsSuccessStatus(chatReply.response.status)
  {
    var bearer := Some("Bearer " + Rendered(lookup.result.value));
    var posts := lookup.posts + [GraphPost(ChatsUrl, bearer, NewChat(UserBinding(userId)))];
    match Post(chatReply)
    case Err(message) => GraphRun(Errored(message), posts, lookup.cache)
    case Ok(chat) =>
      var allPosts := posts + [GraphPost(MessagesUrl(ChatIdOf(chat.data)), bearer, ChatMessage(html))];
      match Post(messageReply)
      case Err(message) => GraphRun(Errored(message), allPosts, lookup.cache)
      case Ok(response) =>
        if response.status == 201 then GraphRun(Delivered, allPosts, lookup.cache)
        else GraphRun(Rejected(response.status), allPosts, lookup.cache)
  }

  /** `sendNotification(status, amount, timestamp, error)` with the cache
      holding `cached`, meeting the three replies in turn; `html` is the
      formatted message. */
  function GraphSend(tenantId: Option<string>, clientId: Option<string>, clientSecret: Option<string>,
                     userId: Option<string>, cached: Option<string>, html: string,
                     tokenReply: Attempt, chatReply: Attempt, messageReply: Attempt): (run: GraphRun)
    ensures run.delivery.Skipped? <==> !(Present(tenantId) && Present(clientId) && Present(clientSecret) && Present(userId))
    ensures run.delivery.Skipped? ==> run.posts == [] && run.cache == cached
    ensures |run.posts| <= 3
  {
    if !(Present(tenantId) && Present(clientId) && Present(clientSecret) && Present(userId)) then
      GraphRun(Skipped, [], cached)
    else
      var lookup := TokenStep(cached, tenantId, clientId, clientSecret, tokenReply);
      if lookup.result.Err? then GraphRun(Errored(lookup.result.error), lookup.posts, lookup.cache)
      else ChatStage(lookup, userId, html, chatReply, messageReply)
  }

  /** The outputs `sendNotification` sets inside Actions. */
  function GraphOutputs(delivery: Delivery): seq<Command> {
    match delivery
    case Skipped => []
    case Delivered => [Output("teams_notification", "sent")]
    case Rejected(_) => [Output("teams_notification", "failed")]
    case Errored(message) => [Output("teams_notification", "error"), Output("teams_error", message)]
  }

  class GitHubTeamsNotifier {
    const tenantId: Option<string>
    const clientId: Option<string>
    const clientSecret: Option<string>
    /** The user the direct message goes to. */
    const userId: Option<string>
    const utils: ActionsUtils
    /** The cached Graph token; None is `null` or `undefined`. */
    var accessToken: Option<string>

    constructor (tenant: Option<string>, client: Option<string>, secret: Option<string>,
                 user: Option<string>, actionsUtils: ActionsUtils)
      ensures tenantId == tenant && clientId == client && clientSecret == secret && userId == user
      ensures utils == actionsUtils && accessToken == None
    {
      tenantId := tenant;
      clientId := client;
      clientSecret := secret;
      userId := user;
      utils := actionsUtils;
      accessToken := None;
    }

    /** `getAccessToken()`: the token (or the error it rethrows) and the
        posts it made; the cache is updated as TokenStep says. */
    method GetAccessToken(reply: Attempt) returns (token: Result<Option<string>, string>, posts: seq<GraphPost>)
      modifies this`accessToken
      ensures var lookup := TokenStep(old(accessToken), tenantId, clientId, clientSecret, reply);
        token == lookup.result && posts == lookup.posts && accessToken == lookup.cache
      ensures Present(old(accessToken)) ==> token == Ok(old(accessToken)) && posts == [] && accessToken == old(accessToken)
    {
      if accessToken.Some? && accessToken.value != "" {
        return Ok(accessToken), [];
      }
      var post := GraphPost(TokenUrl(tenantId), None,
        TokenForm(Rendered(clientId), Rendered(clientSecret), GraphScope, "client_credentials"));
      posts := [post];
      var answer := Post(reply);
      if answer.Err? {
        return Err(answer.error), posts;
      }
      accessToken := Property(answer.value.data, "access_token");
      token := Ok(accessToken);
    }

    /** `sendNotification(status, amount, timestamp, error)`: the posts it
        made, in order. It returns normally whatever the network does. */
    method SendNotification(status: string, amount: string, timestamp: string, error: Option<string>,
                            tokenReply: Attempt, chatReply: Attempt, messageReply: Attempt)
      returns (posts: seq<GraphPost>)
      modifies this`accessToken, utils`commands
      ensures var run := GraphSend(tenantId, clientId, clientSecret, userId, old(accessToken),
                                   FormatMessage(status, amount, timestamp, error), tokenReply, chatReply, messageReply);
        && posts == run.posts
        && accessToken == run.cache
        && utils.commands == old(utils.commands) + Emit(utils.env, GraphOutputs(run.delivery))
    {
      if !(Present(tenantId) && Present(clientId) && Present(clientSecret) && Present(userId)) {
        return [];
      }
      var token;
      token, posts := GetAccessToken(tokenReply);
      var delivery: Delivery;
      if token.Err? {
        delivery := Errored(token.error);
      } else {
        var html := FormatMessage(status, amount, timestamp, error);
        delivery, posts := CreateChatAndPost(TokenLookup(token, accessToken, posts), html, chatReply, messageReply);
      }
      ReportDelivery(delivery);
    }

    /** The chat creation and the message post, with the token `lookup`
        found. */
    method CreateChatAndPost(lookup: TokenLookup, html: string, chatReply: Attempt, messageReply: Attempt)
      returns (delivery: Delivery, posts: seq<GraphPost>)
      requires lookup.result.Ok?
      ensures ChatStage(lookup, userId, html, chatReply, messageReply) == GraphRun(delivery, posts, lookup.cache)
    {
      var bearer := Some("Bearer " + Rendered(lookup.result.value));
      posts := lookup.posts + [GraphPost(ChatsUrl, bearer, NewChat(UserBinding(userId)))];
      var chat := Post(chatReply);
      if chat.Err? {
        return Errored(chat.error), posts;
      }
      posts := posts + [GraphPost(MessagesUrl(ChatIdOf(chat.value.data)), bearer, ChatMessage(html))];
      var answer := Post(messageReply);
      if answer.Err? {
        return Errored(answer.error), posts;
      }
      if answer.value.status == 201 {
        return Delivered, posts;
      }
      return Rejected(answer.value.status), posts;
    }

    /** The outputs of the end of `sendNotification`. */
    method ReportDelivery(delivery: Delivery)
      modifies utils`commands
      ensures utils.commands == old(utils.commands) + Emit(utils.env, GraphOutputs(delivery))
    {
      match delivery {
        case Skipped =>
        case Delivered => utils.SetOutput("teams_notification", "sent");
        case Rejected(_) => utils.SetOutput("teams_notification", "failed");
        case Errored(message) =>
          utils.SetOutput("teams_notification", "error");
          utils.SetOutput("teams_error", message);
          EmitExtend(utils.env, old(utils.commands), [Output("teams_notification", "error")], [Output("teams_error", message)]);
      }
    }
  }

  // ----- properties of a notification -----

  /** Nothing is posted, cached or reported exactly when one of the four
      settings is missing. */
  lemma GraphSkipsIffIncomplete(tenantId: Option<string>, clientId: Option<string>, clientSecret: Option<string>,
                                userId: Option<string>, cached: Option<string>, html: string,
                                tokenReply: Attempt, chatReply: Attempt, messageReply: Attempt)
    ensures var run := GraphSend(tenantId, clientId, clientSecret, userId, cached, html, tokenReply, chatReply, messageReply);
      && (run.delivery.Skipped? <==> !(Present(tenantId) && Present(clientId) && Present(clientSecret) && Present(userId)))
      && (run.delivery.Skipped? ==> run.posts == [] && run.cache == cached && GraphOutputs(run.delivery) == [])
  {
  }

  /** With a truthy cached token no token request is made, the cache stays,
      and every post carries that token. */
  lemma CachedTokenReused(tenantId: Option<string>, clientId: Option<string>, clientSecret: Option<string>,
                          userId: Option<string>, cached: Option<string>, html: string,
                          tokenReply: Attempt, chatReply: Attempt, messageReply: Attempt)
    requires Present(cached)
    ensures var run := GraphSend(tenantId, clientId, clientSecret, userId, cached, html, tokenReply, chatReply, messageReply);
      && run.cache == cached
      && forall i :: 0 <= i < |run.posts| ==>
           !run.posts[i].body.TokenForm? && run.posts[i].authorization == Some("Bearer " + cached.value)
  {
  }

  /** A token fetched by one notification is reused by the next: the second
      call makes no token request, whatever its token reply would be. */
  lemma TokenFetchedOnce(tenantId: Option<string>, clientId: Option<string>, clientSecret: Option<string>,
                         userId: Option<string>, cached: Option<string>, html: string,
                         first: (Attempt, Attempt, Attempt), second: (Attempt, Attempt, Attempt))
    ensures var run1 := GraphSend(tenantId, clientId, clientSecret, userId, cached, html, first.0, first.1, first.2);
      var run2 := GraphSend(tenantId, clientId, clientSecret, userId, run1.cache, html, second.0, second.1, second.2);
      Present(run1.cache) ==> run2.cache == run1.cache && forall p :: p in run2.posts ==> !p.body.TokenForm?
  {
    var run1 := GraphSend(tenantId, clientId, clientSecret, userId, cached, html, first.0, first.1, first.2);
    if Present(run1.cache) {
      CachedTokenReused(tenantId, clientId, clientSecret, userId, run1.cache, html, second.0, second.1, second.2);
    }
  }

  /** The message counts as sent exactly when the settings are complete,
      the token lookup did not throw, the chat post answered 2xx and the
      message post answered 201; a 2xx other than 201 counts as failed
      without an error. */
  lemma GraphDeliveredIff201(tenantId: Option<string>, clientId: Option<string>, clientSecret: Option<string>,
                             userId: Option<string>, cached: Option<string>, html: string,
                             tokenReply: Attempt, chatReply: Attempt, messageReply: Attempt)
    ensures var run := GraphSend(tenantId, clientId, clientSecret, userId, cached, html, tokenReply, chatReply, messageReply);
      run.delivery == Delivered <==>
        && Present(tenantId) && Present(clientId) && Present(clientSecret) && Present(userId)
        && TokenStep(cached, tenantId, clientId, clientSecret, tokenReply).result.Ok?
        && chatReply.Answered? && IsSuccessStatus(chatReply.response.status)
        && messageReply.Answered? && messageReply.response.status == 201
    ensures var run := GraphSend(tenantId, clientId, clientSecret, userId, cached, html, tokenReply, chatReply, messageReply);
      run.delivery.Rejected? ==>
        && messageReply.Answered?
        && run.delivery.status == messageReply.response.status
        && IsSuccessStatus(run.delivery.status) && run.delivery.status != 201
  {
  }

  /** When the message is posted it is the last post, it carries `html`,
      it goes to the chat the chat post returned, and with the same token. */
  lemma MessageGoesToCreatedChat(tenantId: Option<string>, clientId: Option<string>, clientSecret: Option<string>,
                                 userId: Option<string>, cached: Option<string>, html: string,
                                 tokenReply: Attempt, chatReply: Attempt, messageReply: Attempt)
    ensures var run := GraphSend(tenantId, clientId, clientSecret, userId, cached, html, tokenReply, chatReply, messageReply);
      var n := |run.posts|;
      (n >= 2 && run.posts[n - 1].body.ChatMessage?) ==>
        && run.posts[n - 1].body == ChatMessage(html)
        && run.posts[n - 2] == GraphPost(ChatsUrl, run.posts[n - 1].authorization, NewChat(UserBinding(userId)))
        && chatReply.Answered? && IsSuccessStatus(chatReply.response.status)
        && run.posts[n - 1].url == MessagesUrl(ChatIdOf(chatReply.response.data))
  {
    if Present(tenantId) && Present(clientId) && Present(clientSecret) && Present(userId) {
      var lookup := TokenStep(cached, tenantId, clientId, clientSecret, tokenReply);
      TokenStepPosts(cached, tenantId, clientId, clientSecret, tokenReply);
      if lookup.result.Ok? {
        assert GraphSend(tenantId, clientId, clientSecret, userId, cached, html, tokenReply, chatReply, messageReply)
          == ChatStage(lookup, userId, html, chatReply, messageReply);
        StageMessageGoesToChat(lookup, userId, html, chatReply, messageReply);
      }
    }
  }

  /** A token lookup makes at most one post, the token request. */
  lemma TokenStepPosts(cached: Option<string>, tenantId: Option<string>, clientId: Option<string>,
                       clientSecret: Option<string>, reply: Attempt)
    ensures var lookup := TokenStep(cached, tenantId, clientId, clientSecret, reply);
      && |lookup.posts| <= 1
      && (forall p :: p in lookup.posts ==> p.body.TokenForm? && p.url == TokenUrl(tenantId))
      && (lookup.posts == [] <==> Present(cached))
  {
  }

  /** MessageGoesToCreatedChat for the stage after the token. */
  lemma StageMessageGoesToChat(lookup: TokenLookup, userId: Option<string>, html: string,
                               chatReply: Attempt, messageReply: Attempt)
    requires lookup.result.Ok?
    requires forall p :: p in lookup.posts ==> p.body.TokenForm?
    ensures var run := ChatStage(lookup, userId, html, chatReply, messageReply);
      var n := |run.posts|;
      (n >= 2 && run.posts[n - 1].body.ChatMessage?) ==>
        && run.posts[n - 1].body == ChatMessage(html)
        && run.posts[n - 2] == GraphPost(ChatsUrl, run.posts[n - 1].authorization, NewChat(UserBinding(userId)))
        && chatReply.Answered? && IsSuccessStatus(chatReply.response.status)
        && run.posts[n - 1].url == MessagesUrl(ChatIdOf(chatReply.response.data))
  {
    var run := ChatStage(lookup, userId, html, chatReply, messageReply);
    var n := |run.posts|;
    if n >= 2 && run.posts[n - 1].body.ChatMessage? {
      assert run.posts[n - 1] !in lookup.posts;
    }
  }

  /** With an empty token body and an empty chat body the run goes on
      with `undefined` in their place: the token `undefined` is cached,
      the chat is created with `Bearer undefined`, and the message goes to
      the chat called `undefined`; a 201 there still counts as sent. */
  lemma EmptyBodiesReadUndefined(tenantId: Option<string>, clientId: Option<string>, clientSecret: Option<string>,
                                 userId: Option<string>, cached: Option<string>, html: string,
                                 tokenReply: Attempt, chatReply: Attempt, messageReply: Attempt)
    requires Present(tenantId) && Present(clientId) && Present(clientSecret) && Present(userId)
    requires !Present(cached)
    requires tokenReply.Answered? && IsSuccessStatus(tokenReply.response.status) && tokenReply.response.data.None?
    requires chatReply.Answered? && IsSuccessStatus(chatReply.response.status) && chatReply.response.data.None?
    ensures var run := GraphSend(tenantId, clientId, clientSecret, userId, cached, html, tokenReply, chatReply, messageReply);
      && run.cache == None
      && |run.posts| == 3
      && run.posts[1] == GraphPost(ChatsUrl, Some("Bearer undefined"), NewChat(UserBinding(userId)))
      && run.posts[2] == GraphPost(ChatsUrl + "/undefined/messages", Some("Bearer undefined"), ChatMessage(html))
      && (run.delivery == Delivered <==> messageReply.Answered? && messageReply.response.status == 201)
  {
    assert "Bearer " + Rendered(None) == "Bearer undefined";
    assert MessagesUrl(ChatIdOf(None)) == ChatsUrl + "/undefined/messages";
  }

  // ----- the two notifiers say the same thing -----

  /** `a + x + b` contains `x`. */
  lemma ContainsMiddle(a: string, x: string, b: string)
    ensures Contains(a + x + b, x)
  {
    assert (a + x + b)[|a|..|a| + |x|] == x;
    assert OccursAt(a + x + b, x, |a|);
  }

  /** Each item of a list laid out like the message's contains is in it. */
  lemma ItemsInList(head: string, amountItem: string, timeItem: string, statusItem: string, errorItem: string)
    ensures var html := head + ItemIndent + amountItem + ItemIndent + timeItem + ItemIndent + statusItem
                        + ErrorIndent + errorItem + HtmlTail;
      && Contains(html, amountItem) && Contains(html, timeItem)
      && Contains(html, statusItem) && Contains(html, errorItem)
  {
    var a := head + ItemIndent;
    var b := a + amountItem + ItemIndent;
    var c := b + timeItem + ItemIndent;
    var d := c + statusItem + ErrorIndent;
    var html := d + errorItem + HtmlTail;
    var rest := ErrorIndent + errorItem + HtmlTail;
    assert html == c + statusItem + rest;
    assert html == b + timeItem + (ItemIndent + statusItem + rest);
    assert html == a + amountItem + (ItemIndent + timeItem + ItemIndent + statusItem + rest);
    ContainsMiddle(a, amountItem, ItemIndent + timeItem + ItemIndent + statusItem + rest);
    ContainsMiddle(b, timeItem, ItemIndent + statusItem + rest);
    ContainsMiddle(c, statusItem, rest);
    ContainsMiddle(d, errorItem, HtmlTail);
  }

  /** The message's list, item by item: the three fixed items, then the
      error item when the error is shown. */
  lemma MessageItems(status: string, amount: string, timestamp: string, error: Option<string>)
    ensures var html := FormatMessage(status, amount, timestamp, error);
      && Contains(html, ListItem("Amount", Shekel + amount))
      && Contains(html, ListItem("Time", timestamp + " (Israel Time)"))
      && Contains(html, ListItem("Status", StatusText(status)))
      && (ErrorShown(status, error) ==> Contains(html, ListItem("Error", error.value)))
  {
    var statusText := StatusText(status);
    var head := HtmlHead(if IsSuccess(status) then "#00FF00" else "#FF0000", Emoji(status), statusText);
    var errorItem := if ErrorShown(status, error) then ListItem("Error", error.value) else "";
    ItemsInList(head, ListItem("Amount", Shekel + amount), ListItem("Time", timestamp + " (Israel Time)"),
      ListItem("Status", statusText), errorItem);
  }

  /** The error item is the only part of the message the error decides:
      without a shown error the message is the error-free one, and with
      one it is the error-free message with the error item added as the
      last item of the list. */
  lemma MessageErrorItem(status: string, amount: string, timestamp: string, error: Option<string>)
    ensures var base := FormatMessage(status, amount, timestamp, None);
      var html := FormatMessage(status, amount, timestamp, error);
      && (!ErrorShown(status, error) ==> html == base)
      && (ErrorShown(status, error) ==>
            html == base[..|base| - |HtmlTail|] + ListItem("Error", error.value) + HtmlTail)
  {
    var base := FormatMessage(status, amount, timestamp, None);
    var statusText := StatusText(status);
    var front := HtmlHead(if IsSuccess(status) then "#00FF00" else "#FF0000", Emoji(status), statusText)
      + ItemIndent + ListItem("Amount", Shekel + amount)
      + ItemIndent + ListItem("Time", timestamp + " (Israel Time)")
      + ItemIndent + ListItem("Status", statusText)
      + ErrorIndent;
    assert base == front + "" + HtmlTail;
    assert base[..|base| - |HtmlTail|] == front;
  }

  /** Appending to `a` keeps its first `n` characters. */
  lemma FrontSlice(a: string, b: string, n: nat)
    requires n <= |a|
    ensures (a + b)[..n] == a[..n]
  {
  }

  /** Two strings that agree on their first `n + m` characters agree on
      the first `n` and on the `m` after them. */
  lemma SamePrefix(x: string, y: string, n: nat, m: nat)
    requires n + m <= |x| && n + m <= |y| && x[..n + m] == y[..n + m]
    ensures x[..n] == y[..n] && x[n..n + m] == y[n..n + m]
  {
    assert x[..n] == x[..n + m][..n] && y[..n] == y[..n + m][..n];
    assert x[n..n + m] == x[..n + m][n..] && y[n..n + m] == y[..n + m][n..];
  }

  /** HtmlHead opens with the border and puts the colour right after it. */
  lemma HeadColour(color: string, emoji: string, statusText: string, body: string)
    ensures var html := HtmlHead(color, emoji, statusText) + body;
      && |HeadBorder| + |color| <= |html| && html[..|HeadBorder|] == HeadBorder
      && html[|HeadBorder|..|HeadBorder| + |color|] == color
  {
    var html := HtmlHead(color, emoji, statusText) + body;
    var front := HeadBorder + color;
    assert html == front + (HeadTitleStyle + color + HeadTitle + emoji + HeadSubtitle + statusText + HeadListOpen + body);
    assert html[..|front|] == front;
  }

  /** The message opens with HtmlHead: the border, then its colour. */
  lemma MessageOpensWithHead(status: string, amount: string, timestamp: string, error: Option<string>)
    ensures var html := FormatMessage(status, amount, timestamp, error);
      && |HeadBorder| + 7 <= |html| && html[..|HeadBorder|] == HeadBorder
      && html[|HeadBorder|..|HeadBorder| + 7] == (if IsSuccess(status) then "#00FF00" else "#FF0000")
  {
    var color := if IsSuccess(status) then "#00FF00" else "#FF0000";
    var statusText := StatusText(status);
    var errorItem := if ErrorShown(status, error) then ListItem("Error", error.value) else "";
    var head := HtmlHead(color, Emoji(status), statusText);
    HeadColour(color, Emoji(status), statusText, "");
    assert head + "" == head;
    var n := |HeadBorder| + 7;
    var p1 := head + ItemIndent + ListItem("Amount", Shekel + amount);
    var p2 := p1 + ItemIndent + ListItem("Time", timestamp + " (Israel Time)");
    var p3 := p2 + ItemIndent + ListItem("Status", statusText);
    var p4 := p3 + ErrorIndent + errorItem;
    var html := p4 + HtmlTail;
    FrontSlice(head, ItemIndent, n);
    FrontSlice(head + ItemIndent, ListItem("Amount", Shekel + amount), n);
    FrontSlice(p1, ItemIndent, n);
    FrontSlice(p1 + ItemIndent, ListItem("Time", timestamp + " (Israel Time)"), n);
    FrontSlice(p2, ItemIndent, n);
    FrontSlice(p2 + ItemIndent, ListItem("Status", statusText), n);
    FrontSlice(p3, ErrorIndent, n);
    FrontSlice(p3 + ErrorIndent, errorItem, n);
    FrontSlice(p4, HtmlTail, n);
    assert html == FormatMessage(status, amount, timestamp, error);
    SamePrefix(html, head, |HeadBorder|, 7);
  }

  /** The message's border is green exactly for a success and red
      otherwise, and the list is closed at the message's end. */
  lemma MessageColour(status: string, amount: string, timestamp: string, error: Option<string>)
    ensures var html := FormatMessage(status, amount, timestamp, error);
      && |HeadBorder| + 7 <= |html| && html[..|HeadBorder|] == HeadBorder
      && (html[|HeadBorder|..|HeadBorder| + 7] == "#00FF00" <==> IsSuccess(status))
      && (!IsSuccess(status) ==> html[|HeadBorder|..|HeadBorder| + 7] == "#FF0000")
      && |HtmlTail| <= |html| && html[|html| - |HtmlTail|..] == HtmlTail
  {
    MessageOpensWithHead(status, amount, timestamp, error);
    assert "#FF0000" != "#00FF00" by { assert "#FF0000"[1] != "#00FF00"[1]; }
  }


  /** Every fact on the webhook card (CardFacts, the card's facts list)
      is an item of the Graph message's list, worded the same way. */
  lemma HtmlListsCardFacts(status: string, amount: string, timestamp: string, error: Option<string>)
    ensures var facts := CardFacts(status, amount, timestamp, error);
      var html := FormatMessage(status, amount, timestamp, error);
      && 3 <= |facts| <= 4
      && Contains(html, ListItem(facts[0].name, facts[0].value))
      && Contains(html, ListItem(facts[1].name, facts[1].value))
      && Contains(html, ListItem(facts[2].name, facts[2].value))
      && (|facts| == 4 ==> Contains(html, ListItem(facts[3].name, facts[3].value)))
  {
    var facts := CardFacts(status, amount, timestamp, error);
    assert facts[0] == Fact("Amount", Shekel + amount) && facts[1] == Fact("Time", timestamp + " (Israel Time)");
    assert facts[2] == Fact("Status", StatusText(status));
    assert |facts| == 4 ==> ErrorShown(status, error) && facts[3] == Fact("Error", error.value);
    MessageItems(status, amount, timestamp, error);
  }
}
