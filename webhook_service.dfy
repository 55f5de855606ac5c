/** Webhook payloads and send decisions (app/services/webhook_service.py).
    The HTTP POST is an oracle `post(url, payload)` that reports how the
    request ended; everything else is pure. */
module WebhookService {
  import opened Common
  import opened Store

  // ---------------------------------------------------------------------------
  // Payloads

  /** The `markdown` object of a payload: title and text (generic and
      DingTalk), or a single `content` field (WeCom). */
  datatype MarkdownBody = Titled(title: string, text: string) | ContentOnly(content: string)

  datatype Payload = Payload(msgtype: string, markdown: MarkdownBody)

  const MSGTYPE_MARKDOWN := "markdown"
  const LINK_LABEL := "[查看原文]("

  /** `**title**` followed by a blank line and the content. */
  function MessageHead(title: string, content: string): (r: string)
    ensures OccursAt(r, title, 2) && OccursAt(r, content, |title| + 6)
    ensures |r| == |title| + |content| + 6
  {
    var r := "**" + title + "**\n\n" + content;
    assert r[2..2 + |title|] == title;
    assert r[|title| + 6..|title| + 6 + |content|] == content;
    r
  }

  /** The link appended to the generic message. */
  function LinkSuffix(url: string): (r: string)
    ensures OccursAt(r, url, |LINK_LABEL| + 2)
    ensures |r| == |url| + |LINK_LABEL| + 3
  {
    var r := "\n\n" + LINK_LABEL + url + ")";
    assert r[|LINK_LABEL| + 2..|LINK_LABEL| + 2 + |url|] == url;
    r
  }

  /** `build_webhook_message`: a markdown payload whose text is the head,
      with the link suffix exactly when a non-empty url is given. */
  function BuildWebhookMessage(title: string, content: string, url: Option<string>): (p: Payload)
    ensures p.msgtype == MSGTYPE_MARKDOWN && p.markdown.Titled? && p.markdown.title == title
    ensures |p.markdown.text| >= |MessageHead(title, content)|
    ensures p.markdown.text[..|MessageHead(title, content)|] == MessageHead(title, content)
    ensures Truthy(url) ==> p.markdown.text[|MessageHead(title, content)|..] == LinkSuffix(url.value)
    ensures !Truthy(url) ==> p.markdown.text == MessageHead(title, content)
  {
    var head := MessageHead(title, content);
    var text := if Truthy(url) then head + LinkSuffix(url.value) else head;
    assert text[..|head|] == head;
    Payload(MSGTYPE_MARKDOWN, Titled(title, text))
  }

  /** Different contents under the same title and url give different
      messages: the content is recoverable from the payload. */
  lemma BuildWebhookMessageInjective(title: string, c1: string, c2: string, url: Option<string>)
    requires BuildWebhookMessage(title, c1, url) == BuildWebhookMessage(title, c2, url)
    ensures c1 == c2
  {
    var t := BuildWebhookMessage(title, c1, url).markdown.text;
    var h1 := MessageHead(title, c1);
    var h2 := MessageHead(title, c2);
    assert |t| == |h1| + (if Truthy(url) then |LinkSuffix(url.value)| else 0);
    assert |t| == |h2| + (if Truthy(url) then |LinkSuffix(url.value)| else 0);
    assert h1 == t[..|h1|] == h2;
    assert c1 == h1[|title| + 6..] == c2;
  }

  /** The link part of the WeCom card; empty without a url. */
  function WecomLinkPart(url: Option<string>): (r: string)
    ensures r == [] <==> !Truthy(url)
    ensures Truthy(url) ==> OccursAt(r, url.value, |"<div class=\"normal\">"| + |LINK_LABEL|)
  {
    if Truthy(url) then
      var r := "<div class=\"normal\">" + LINK_LABEL + url.value + ")</div>";
      assert r[|"<div class=\"normal\">"| + |LINK_LABEL|..|"<div class=\"normal\">"| + |LINK_LABEL| + |url.value|] == url.value;
      r
    else ""
  }

  /** The WeCom payload of `send_enterprise_wechat_notification`. */
  function WecomPayload(title: string, content: string, url: Option<string>): (p: Payload)
    ensures p.msgtype == MSGTYPE_MARKDOWN && p.markdown.ContentOnly?
    ensures var pre := "<div class=\"gray\">Briefly 摘要</div>\n<div class=\"normal\">";
      OccursAt(p.markdown.content, title, |pre|)
  {
    var pre := "<div class=\"gray\">Briefly 摘要</div>\n<div class=\"normal\">";
    var c := pre + title + "</div>\n<div class=\"quote\">" + content + "</div>\n" + WecomLinkPart(url) + "\n";
    assert c[|pre|..|pre| + |title|] == title;
    Payload(MSGTYPE_MARKDOWN, ContentOnly(c))
  }

  /** The link part of the DingTalk message; empty without a url. */
  function DingtalkLinkPart(url: Option<string>): (r: string)
    ensures r == [] <==> !Truthy(url)
    ensures Truthy(url) ==> OccursAt(r, url.value, |LINK_LABEL|)
  {
    if Truthy(url) then
      var r := LINK_LABEL + url.value + ")";
      assert r[|LINK_LABEL|..|LINK_LABEL| + |url.value|] == url.value;
      r
    else ""
  }

  /** The DingTalk payload of `send_dingtalk_notification`. */
  function DingtalkPayload(title: string, content: string, url: Option<string>): (p: Payload)
    ensures p.msgtype == MSGTYPE_MARKDOWN && p.markdown.Titled? && p.markdown.title == title
    ensures OccursAt(p.markdown.text, title, 3)
  {
    var t := "## " + title + "\n\n" + content + "\n\n" + DingtalkLinkPart(url) + "\n";
    assert t[3..3 + |title|] == title;
    Payload(MSGTYPE_MARKDOWN, Titled(title, t))
  }

  // ---------------------------------------------------------------------------
  // Sending

  /** How the POST ended: a 2xx response, an httpx timeout, a connection
      error, a non-2xx status, or any other exception. */
  datatype PostReply = Posted | PostTimeout | PostConnectError(detail: string) | PostHttpStatus(code: nat) | PostOther

  /** A `WebhookSendError` with its message, or an exception that is not a
      `WebhookError` and propagates. */
  datatype SendFailure = WebhookSendError(message: string) | Unhandled

  /** Where `send_webhook_notification` posts, or None when it returns
      False without a request. */
  function SendTarget(env: AppSettings, webhookUrl: Option<string>): (r: Option<string>)
    ensures r.Some? ==> r.value != []
    ensures r.Some? <==> Truthy(webhookUrl) || (env.webhookEnabled && env.webhookUrl != [])
    ensures Truthy(webhookUrl) ==> r == webhookUrl
  {
    if !env.webhookEnabled && !Truthy(webhookUrl) then None
    else
      var target := OrElse(webhookUrl, env.webhookUrl);
      if target == [] then None else Some(target)
  }

  /** The message of the `WebhookSendError` raised for a failed POST. */
  function SendErrorMessage(reply: PostReply): (r: string)
    requires reply.PostTimeout? || reply.PostConnectError? || reply.PostHttpStatus?
    ensures reply.PostHttpStatus? ==> |r| >= |"HTTP 错误: "| && r[|"HTTP 错误: "|..] == DecimalString(reply.code)
  {
    match reply
    case PostTimeout => "请求超时"
    case PostConnectError(d) => "连接失败: " + d
    case PostHttpStatus(code) =>
      var r := "HTTP 错误: " + DecimalString(code);
      assert r[|"HTTP 错误: "|..] == DecimalString(code);
      r
  }

  /** `send_webhook_notification`: False exactly when no request is made;
      True exactly when the POST succeeds; every failed POST raises. */
  function SendWebhookNotification(env: AppSettings, title: string, content: string, url: Option<string>,
                                   webhookUrl: Option<string>, post: (string, Payload) -> PostReply)
    : (r: Result<bool, SendFailure>)
    ensures r == Ok(false) <==> SendTarget(env, webhookUrl).None?
    ensures r == Ok(true) <==>
      SendTarget(env, webhookUrl).Some? &&
      post(SendTarget(env, webhookUrl).value, BuildWebhookMessage(title, content, url)) == Posted
    ensures r == Err(Unhandled) <==>
      SendTarget(env, webhookUrl).Some? &&
      post(SendTarget(env, webhookUrl).value, BuildWebhookMessage(title, content, url)) == PostOther
  {
    match SendTarget(env, webhookUrl)
    case None => Ok(false)
    case Some(target) =>
      var reply := post(target, BuildWebhookMessage(title, content, url));
      if reply == Posted then Ok(true)
      else if reply == PostOther then Err(Unhandled)
      else Err(WebhookSendError(SendErrorMessage(reply)))
  }

  /** `send_enterprise_wechat_notification`: posts the WeCom payload to the
      configured url; every exception becomes False. */
  function SendEnterpriseWechatNotification(env: AppSettings, title: string, content: string, url: Option<string>,
                                            post: (string, Payload) -> PostReply): (r: bool)
    ensures r <==> env.webhookUrl != [] && post(env.webhookUrl, WecomPayload(title, content, url)) == Posted
  {
    if env.webhookUrl == [] then false
    else post(env.webhookUrl, WecomPayload(title, content, url)) == Posted
  }

  /** `send_dingtalk_notification`, the same shape with the DingTalk payload. */
  function SendDingtalkNotification(env: AppSettings, title: string, content: string, url: Option<string>,
                                    post: (string, Payload) -> PostReply): (r: bool)
    ensures r <==> env.webhookUrl != [] && post(env.webhookUrl, DingtalkPayload(title, content, url)) == Posted
  {
    if env.webhookUrl == [] then false
    else post(env.webhookUrl, DingtalkPayload(title, content, url)) == Posted
  }

  // ---------------------------------------------------------------------------
  // test_webhook_connection

  datatype TestReport = TestReport(success: bool, message: string)

  const NOT_CONFIGURED := "Webhook 未配置"
  const TEST_SENT := "测试通知发送成功"
  const TEST_NOT_SENT := "测试通知发送失败"
  const TEST_TITLE := "Briefly 测试通知"
  const TEST_CONTENT := "这是一条测试通知，用于验证 Webhook 配置是否正确。"

  /** `test_webhook_connection`; an Err is an exception other than a
      `WebhookError`, which escapes. */
  function TestWebhookConnection(env: AppSettings, post: (string, Payload) -> PostReply): (r: Result<TestReport, SendFailure>)
    ensures !env.webhookEnabled || env.webhookUrl == [] ==> r == Ok(TestReport(false, NOT_CONFIGURED))
    ensures r.Ok? && r.value.success <==>
      env.webhookEnabled && env.webhookUrl != [] && post(env.webhookUrl, BuildWebhookMessage(TEST_TITLE, TEST_CONTENT, None)) == Posted
    ensures r == Err(Unhandled) <==>
      env.webhookEnabled && env.webhookUrl != [] && post(env.webhookUrl, BuildWebhookMessage(TEST_TITLE, TEST_CONTENT, None)) == PostOther
  {
    if !env.webhookEnabled || env.webhookUrl == [] then Ok(TestReport(false, NOT_CONFIGURED))
    else
      match SendWebhookNotification(env, TEST_TITLE, TEST_CONTENT, None, None, post)
      case Ok(success) => Ok(TestReport(success, if success then TEST_SENT else TEST_NOT_SENT))
      case Err(WebhookSendError(m)) => Ok(TestReport(false, m))
      case Err(Unhandled) => Err(Unhandled)
  }

  /** Under the default settings (webhook disabled, no url) the test reports
      "not configured" and makes no request, whatever the network does. */
  lemma DefaultTestWebhookConnection(post: (string, Payload) -> PostReply)
    ensures TestWebhookConnection(DEFAULT_SETTINGS, post) == Ok(TestReport(false, NOT_CONFIGURED))
  {
  }

  /** Once the guard passes, the send always has a target, so the
      "send failed" report is unreachable. */
  lemma TestNeverReportsNotSent(env: AppSettings, post: (string, Payload) -> PostReply)
    ensures TestWebhookConnection(env, post) != Ok(TestReport(false, TEST_NOT_SENT))
  {
    if env.webhookEnabled && env.webhookUrl != [] {
      assert SendTarget(env, None) == Some(env.webhookUrl);
      var reply := post(env.webhookUrl, BuildWebhookMessage(TEST_TITLE, TEST_CONTENT, None));
      if reply != Posted && reply != PostOther {
        assert SendErrorMessage(reply)[0] != TEST_NOT_SENT[0];
      }
    }
  }
}
