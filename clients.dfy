/** The channel adapters of alerting/clients.py: how each constructor checks
    its arguments, and what each send_alert hands to its backend (the Slack
    and Telegram text, the Mailgun endpoint and recipient list, the SendGrid
    mail). The backend calls themselves are not modelled. */
module Clients {
  import opened Objects
  import opened Text

  // ---------------------------------------------------------------------
  // Argument checks shared by the constructors
  // ---------------------------------------------------------------------

  /** Python's two asserts on one argument, `v is not None` and then
      `isinstance(v, str)`; the second message reports the type of `shown`,
      which the code sometimes takes from a different argument. */
  function StrCheck(v: Value, nullMessage: string, typeMessage: string, shown: Value): (e: Option<Error>)
    ensures e.None? <==> v.Str?
    ensures shown == v && e.Some? ==> e == Some(Complaint(v, nullMessage, typeMessage))
  {
    if v.PyNone? then Some(AssertionError(nullMessage))
    else if !v.Str? then Some(AssertionError(typeMessage + TypeRepr(shown)))
    else None
  }

  /** The rejection of `v` when it is None or not of the expected type,
      reporting the type of `v` itself. */
  function Complaint(v: Value, nullMessage: string, typeMessage: string): Error {
    AssertionError(if v.PyNone? then nullMessage else typeMessage + TypeRepr(v))
  }

  /** The index of the first item that is not a str, or `|items|`. */
  function FirstNonStr(items: seq<Value>): (k: nat)
    ensures k <= |items|
    ensures forall i :: 0 <= i < k ==> items[i].Str?
    ensures k < |items| ==> !items[k].Str?
  {
    if items == [] || !items[0].Str? then 0 else 1 + FirstNonStr(items[1..])
  }

  /** A recipient argument accepted by Mailgun: a str, or a list of str. */
  predicate ValidTarget(v: Value) {
    v.Str? || (v.List? && forall i :: 0 <= i < |v.items| ==> v.items[i].Str?)
  }

  /** Mailgun's asserts on `target_email`: not None, a str or a list (the
      message reporting the type of `shown`), and each list element a str. */
  function TargetCheck(v: Value, nullMessage: string, typeMessage: string, shown: Value, itemMessage: string): (e: Option<Error>)
    ensures e.None? <==> ValidTarget(v)
    ensures v.List? && e.Some? ==>
              var k := FirstNonStr(v.items);
              k < |v.items| && e == Some(AssertionError(itemMessage + TypeRepr(v.items[k])))
  {
    if v.PyNone? then Some(AssertionError(nullMessage))
    else if !v.Str? && !v.List? then Some(AssertionError(typeMessage + TypeRepr(shown)))
    else if v.List? && FirstNonStr(v.items) < |v.items| then
      Some(AssertionError(itemMessage + TypeRepr(v.items[FirstNonStr(v.items)])))
    else None
  }

  // ---------------------------------------------------------------------
  // The text format shared by Slack and Telegram
  // ---------------------------------------------------------------------

  const TitleLabel := "Title: "

  /** An alert as the channel adapters' send_alert receives it. */
  datatype Alert = Alert(title: string, message: string)

  /** The text Slack and Telegram post: the label, the title, a newline and
      the message. */
  function AlertText(title: string, message: string): (text: string)
    ensures |text| == |TitleLabel| + |title| + 1 + |message|
    ensures text[..|TitleLabel|] == TitleLabel
    ensures text[|TitleLabel|..|TitleLabel| + |title|] == title
    ensures text[|TitleLabel| + |title|] == '\n'
    ensures text[|TitleLabel| + |title| + 1..] == message
  {
    TitleLabel + title + "\n" + message
  }

  /** Reads an alert text back: the title ends at the first newline. */
  function SplitAlertText(text: string): (a: Option<Alert>)
    ensures a.Some? ==> '\n' !in a.value.title
  {
    if |text| < |TitleLabel| || text[..|TitleLabel|] != TitleLabel then None
    else
      var body := text[|TitleLabel|..];
      var k := NewlineIndex(body);
      if k == |body| then None else Some(Alert(body[..k], body[k + 1..]))
  }

  /** A title without a newline and the message can be read back from the
      text exactly. */
  lemma AlertTextRoundTrip(title: string, message: string)
    requires '\n' !in title
    ensures SplitAlertText(AlertText(title, message)) == Some(Alert(title, message))
  {
    var body := AlertText(title, message)[|TitleLabel|..];
    assert body == title + "\n" + message;
    var k := NewlineIndex(body);
    assert body[|title|] == '\n';
    assert k == |title|;
    assert body[..k] == title && body[k + 1..] == message;
  }

  /** Every text that reads back as an alert is the text of that alert. */
  lemma SplitAlertTextInverse(text: string)
    requires SplitAlertText(text).Some?
    ensures AlertText(SplitAlertText(text).value.title, SplitAlertText(text).value.message) == text
  {
    var body := text[|TitleLabel|..];
    var k := NewlineIndex(body);
    assert body == body[..k] + "\n" + body[k + 1..];
    assert text == TitleLabel + body;
  }

  /** With a newline in the title the format is ambiguous: two different
      alerts give the same text. */
  lemma AlertTextAmbiguousForMultilineTitles()
    ensures AlertText("a\nb", "c") == AlertText("a", "b\nc")
    ensures Alert("a\nb", "c") != Alert("a", "b\nc")
  {
  }

  // ---------------------------------------------------------------------
  // AlertingSlackClient
  // ---------------------------------------------------------------------

  const SlackNullToken := "Null bot user oauth provided for slack client"
  const SlackNullChannel := "Null channel provided for slack client"

  /** The Slack constructor asserts only that its two required arguments are not None. */
  function SlackArgsError(botUserOauth: Value, targetChannel: Value): (e: Option<Error>)
    ensures e.None? <==> !botUserOauth.PyNone? && !targetChannel.PyNone?
    ensures botUserOauth.PyNone? ==> e == Some(AssertionError(SlackNullToken))
    ensures !botUserOauth.PyNone? && targetChannel.PyNone? ==> e == Some(AssertionError(SlackNullChannel))
  {
    if botUserOauth.PyNone? then Some(AssertionError(SlackNullToken))
    else if targetChannel.PyNone? then Some(AssertionError(SlackNullChannel))
    else None
  }

  /** The `chat.postMessage` call Slack's send_alert makes. */
  datatype SlackPost = SlackPost(apiMethod: string, channel: Value, text: string)

  class AlertingSlackClient {
    const botUserOauth: Value
    const targetChannel: Value
    const userAccessToken: Value
    /** Whether construction starts the command watcher: it does when a user access token is given. */
    const watches: bool

    constructor (botUserOauth: Value, targetChannel: Value, userAccessToken: Value)
      ensures this.botUserOauth == botUserOauth && this.targetChannel == targetChannel
      ensures this.userAccessToken == userAccessToken && watches == !userAccessToken.PyNone?
    {
      this.botUserOauth := botUserOauth;
      this.targetChannel := targetChannel;
      this.userAccessToken := userAccessToken;
      this.watches := !userAccessToken.PyNone?;
    }

    /** `AlertingSlackClient(bot_user_oauth, target_channel, user_access_token)`. */
    static method Create(botUserOauth: Value, targetChannel: Value, userAccessToken: Value)
      returns (r: Result<AlertingSlackClient>)
      ensures r.Failure? <==> SlackArgsError(botUserOauth, targetChannel).Some?
      ensures r.Failure? ==> SlackArgsError(botUserOauth, targetChannel) == Some(r.error)
      ensures r.Success? ==> fresh(r.value) && r.value.botUserOauth == botUserOauth &&
                             r.value.targetChannel == targetChannel &&
                             r.value.userAccessToken == userAccessToken &&
                             r.value.watches == !userAccessToken.PyNone?
    {
      if botUserOauth.PyNone? {
        return Failure(AssertionError(SlackNullToken));
      }
      if targetChannel.PyNone? {
        return Failure(AssertionError(SlackNullChannel));
      }
      var c := new AlertingSlackClient(botUserOauth, targetChannel, userAccessToken);
      return Success(c);
    }

    /** What `send_alert(title, message)` posts: the alert text, to the
        configured channel, from which the alert can be read back. */
    function Request(title: string, message: string): (p: SlackPost)
      ensures p.apiMethod == "chat.postMessage" && p.channel == targetChannel
      ensures p.text == AlertText(title, message)
      ensures '\n' !in title ==> SplitAlertText(p.text) == Some(Alert(title, message))
    {
      var text := AlertText(title, message);
      assert '\n' !in title ==> SplitAlertText(text) == Some(Alert(title, message)) by {
        if '\n' !in title { AlertTextRoundTrip(title, message); }
      }
      SlackPost("chat.postMessage", targetChannel, text)
    }
  }

  // ---------------------------------------------------------------------
  // AlertingMailGunClient
  // ---------------------------------------------------------------------

  const MgNullKey := "Null api key passed for MailGun Client"
  const MgBadKey := "Invalid api key passed for MailGun Client, needed str but found "
  const MgNullDomain := "Null domain passed for MailGun Client"
  const MgBadDomain := "Invalid domain passed for MailGun Client, needed str but found "
  const MgNullFrom := "Null from email passed for MailGun Client"
  const MgBadFrom := "Invalid from email passed for MailGun Client, needed str but found "
  const MgNullTarget := "Null target email passed for MailGun Client"
  const MgBadTarget := "Invalid target email passed for MailGun client, needed str but found "
  const MgBadItem := "Invalid email passed to MailGun Client, needed str but found "

  /** The Mailgun constructor's asserts as written: the domain message
      reports the type of `api_key`, and the target message the type of
      `from_email`. */
  function MailGunArgsErrorAsWritten(apiKey: Value, domain: Value, fromEmail: Value, targetEmail: Value): (e: Option<Error>)
    ensures e.None? <==> apiKey.Str? && domain.Str? && fromEmail.Str? && ValidTarget(targetEmail)
    ensures !apiKey.Str? ==> e == Some(Complaint(apiKey, MgNullKey, MgBadKey))
    ensures apiKey.Str? && domain.PyNone? ==> e == Some(AssertionError(MgNullDomain))
    ensures apiKey.Str? && !domain.PyNone? && !domain.Str? ==> e == Some(AssertionError(MgBadDomain + "<class 'str'>"))
    ensures apiKey.Str? && domain.Str? && !fromEmail.Str? ==> e == Some(Complaint(fromEmail, MgNullFrom, MgBadFrom))
    ensures apiKey.Str? && domain.Str? && fromEmail.Str? && targetEmail.PyNone? ==>
              e == Some(AssertionError(MgNullTarget))
    ensures apiKey.Str? && domain.Str? && fromEmail.Str? && !targetEmail.PyNone? && !targetEmail.Str? && !targetEmail.List? ==>
              e == Some(AssertionError(MgBadTarget + "<class 'str'>"))
    ensures apiKey.Str? && domain.Str? && fromEmail.Str? && targetEmail.List? && e.Some? ==>
              var k := FirstNonStr(targetEmail.items);
              k < |targetEmail.items| && e == Some(AssertionError(MgBadItem + TypeRepr(targetEmail.items[k])))
  {
    assert apiKey.Str? ==> TypeRepr(apiKey) == "<class 'str'>";
    assert fromEmail.Str? ==> TypeRepr(fromEmail) == "<class 'str'>";
    StrCheck(apiKey, MgNullKey, MgBadKey, apiKey)
      .OrElse(StrCheck(domain, MgNullDomain, MgBadDomain, apiKey))
      .OrElse(StrCheck(fromEmail, MgNullFrom, MgBadFrom, fromEmail))
      .OrElse(TargetCheck(targetEmail, MgNullTarget, MgBadTarget, fromEmail, MgBadItem))
  }

  /** The Mailgun constructor's asserts, each message reporting the type of
      the argument it rejects: the first invalid argument alone decides the
      error. */
  function MailGunArgsError(apiKey: Value, domain: Value, fromEmail: Value, targetEmail: Value): (e: Option<Error>)
    ensures e.None? <==> apiKey.Str? && domain.Str? && fromEmail.Str? && ValidTarget(targetEmail)
    ensures !apiKey.Str? ==> e == Some(Complaint(apiKey, MgNullKey, MgBadKey))
    ensures apiKey.Str? && !domain.Str? ==> e == Some(Complaint(domain, MgNullDomain, MgBadDomain))
    ensures apiKey.Str? && domain.Str? && !fromEmail.Str? ==> e == Some(Complaint(fromEmail, MgNullFrom, MgBadFrom))
    ensures apiKey.Str? && domain.Str? && fromEmail.Str? && !targetEmail.Str? && !targetEmail.List? ==>
              e == Some(Complaint(targetEmail, MgNullTarget, MgBadTarget))
    ensures apiKey.Str? && domain.Str? && fromEmail.Str? && targetEmail.List? && e.Some? ==>
              var k := FirstNonStr(targetEmail.items);
              k < |targetEmail.items| && e == Some(AssertionError(MgBadItem + TypeRepr(targetEmail.items[k])))
  {
    StrCheck(apiKey, MgNullKey, MgBadKey, apiKey)
      .OrElse(StrCheck(domain, MgNullDomain, MgBadDomain, domain))
      .OrElse(StrCheck(fromEmail, MgNullFrom, MgBadFrom, fromEmail))
      .OrElse(TargetCheck(targetEmail, MgNullTarget, MgBadTarget, targetEmail, MgBadItem))
  }

  /** A domain of the wrong type is reported with the api key's type. */
  lemma MailGunDomainMessageReportsApiKeyType()
    ensures MailGunArgsErrorAsWritten(Str("key"), Other("int"), Str("a@example.com"), Str("b@example.com"))
            == Some(AssertionError(MgBadDomain + "<class 'str'>"))
    ensures MailGunArgsError(Str("key"), Other("int"), Str("a@example.com"), Str("b@example.com"))
            == Some(AssertionError(MgBadDomain + "<class 'int'>"))
  {
    assert TypeRepr(Str("key")) == "<class 'str'>";
    assert TypeRepr(Other("int")) == "<class 'int'>";
  }

  /** A recipient of the wrong type is reported with the sender's type. */
  lemma MailGunTargetMessageReportsFromEmailType()
    ensures MailGunArgsErrorAsWritten(Str("key"), Str("example.com"), Str("a@example.com"), Other("int"))
            == Some(AssertionError(MgBadTarget + "<class 'str'>"))
    ensures MailGunArgsError(Str("key"), Str("example.com"), Str("a@example.com"), Other("int"))
            == Some(AssertionError(MgBadTarget + "<class 'int'>"))
  {
    assert TypeRepr(Str("a@example.com")) == "<class 'str'>";
    assert TypeRepr(Other("int")) == "<class 'int'>";
  }

  const MailGunApiRoot := "https://api.mailgun.net/v3/"
  const MessagesPath := "/messages"

  /** Reads the domain back out of a Mailgun messages endpoint. */
  function EndpointDomain(url: string): Option<string> {
    if |url| >= |MailGunApiRoot| + |MessagesPath| &&
       url[..|MailGunApiRoot|] == MailGunApiRoot &&
       url[|url| - |MessagesPath|..] == MessagesPath
    then Some(url[|MailGunApiRoot|..|url| - |MessagesPath|])
    else None
  }

  /** The messages endpoint of a Mailgun domain: the API root, the domain,
      then the messages path; the domain can be read back from it. */
  function MailGunEndpoint(domain: string): (url: string)
    ensures |url| == |MailGunApiRoot| + |domain| + |MessagesPath|
    ensures EndpointDomain(url) == Some(domain)
  {
    var url := MailGunApiRoot + domain + MessagesPath;
    assert url[..|MailGunApiRoot|] == MailGunApiRoot;
    assert url[|url| - |MessagesPath|..] == MessagesPath;
    assert url[|MailGunApiRoot|..|url| - |MessagesPath|] == domain;
    url
  }

  /** Every url that reads back as a domain is that domain's endpoint. */
  lemma EndpointDomainInverse(url: string)
    requires EndpointDomain(url).Some?
    ensures MailGunEndpoint(EndpointDomain(url).value) == url
  {
    var d := EndpointDomain(url).value;
    assert url == url[..|MailGunApiRoot|] + d + url[|url| - |MessagesPath|..];
  }

  /** The `to` field Mailgun posts: the target list itself, or a string
      target wrapped in a one-element list. For an accepted target every
      recipient is a str. */
  function ToField(target: Value): (to: Value)
    ensures to.List?
    ensures target.List? ==> to == target
    ensures !target.List? ==> to.items == [target]
    ensures ValidTarget(target) ==> forall i :: 0 <= i < |to.items| ==> to.items[i].Str?
  {
    if target.List? then target else List([target])
  }

  /** The form Mailgun's send_alert posts. */
  datatype MailGunPost = MailGunPost(url: string, auth: (string, string), fromEmail: string, to: Value, subject: string, text: string)

  class AlertingMailGunClient {
    const apiKey: string
    const domain: string
    const fromEmail: string
    const targetEmail: Value

    constructor (apiKey: string, domain: string, fromEmail: string, targetEmail: Value)
      ensures this.apiKey == apiKey && this.domain == domain
      ensures this.fromEmail == fromEmail && this.targetEmail == targetEmail
    {
      this.apiKey := apiKey;
      this.domain := domain;
      this.fromEmail := fromEmail;
      this.targetEmail := targetEmail;
    }

    /** `AlertingMailGunClient(api_key, domain, from_email, target_email)`:
        the asserts in source order, with the list of targets checked
        element by element. */
    static method Create(apiKey: Value, domain: Value, fromEmail: Value, targetEmail: Value)
      returns (r: Result<AlertingMailGunClient>)
      ensures r.Failure? <==> MailGunArgsError(apiKey, domain, fromEmail, targetEmail).Some?
      ensures r.Failure? ==> MailGunArgsError(apiKey, domain, fromEmail, targetEmail) == Some(r.error)
      ensures r.Success? ==> fresh(r.value) && apiKey == Str(r.value.apiKey) && domain == Str(r.value.domain) &&
                             fromEmail == Str(r.value.fromEmail) && r.value.targetEmail == targetEmail &&
                             ValidTarget(targetEmail)
    {
      if apiKey.PyNone? {
        return Failure(AssertionError(MgNullKey));
      }
      if !apiKey.Str? {
        return Failure(AssertionError(MgBadKey + TypeRepr(apiKey)));
      }
      if domain.PyNone? {
        return Failure(AssertionError(MgNullDomain));
      }
      if !domain.Str? {
        return Failure(AssertionError(MgBadDomain + TypeRepr(domain)));
      }
      if fromEmail.PyNone? {
        return Failure(AssertionError(MgNullFrom));
      }
      if !fromEmail.Str? {
        return Failure(AssertionError(MgBadFrom + TypeRepr(fromEmail)));
      }
      if targetEmail.PyNone? {
        return Failure(AssertionError(MgNullTarget));
      }
      if !targetEmail.Str? && !targetEmail.List? {
        return Failure(AssertionError(MgBadTarget + TypeRepr(targetEmail)));
      }
      if targetEmail.List? {
        var targets := targetEmail.items;
        for i := 0 to |targets|
          invariant forall j :: 0 <= j < i ==> targets[j].Str?
        {
          if !targets[i].Str? {
            assert FirstNonStr(targets) == i;
            return Failure(AssertionError(MgBadItem + TypeRepr(targets[i])));
          }
        }
      }
      var c := new AlertingMailGunClient(apiKey.s, domain.s, fromEmail.s, targetEmail);
      return Success(c);
    }

    /** What `send_alert(title, message)` posts: to the domain's messages
        endpoint, with the api key, the sender, the normalised recipients,
        the title as subject and the message as text. */
    function Request(title: string, message: string): (p: MailGunPost)
      ensures EndpointDomain(p.url) == Some(domain)
      ensures p.auth == ("api", apiKey) && p.fromEmail == fromEmail && p.to == ToField(targetEmail)
      ensures p.subject == title && p.text == message
    {
      MailGunPost(MailGunEndpoint(domain), ("api", apiKey), fromEmail, ToField(targetEmail), title, message)
    }
  }

  // ---------------------------------------------------------------------
  // AlertingSendGridClient
  // ---------------------------------------------------------------------

  const SgNullKey := "Null api key passed for SendGrid Client"
  const SgBadKey := "Invalid api key passed for SendGrid Client, needed str but found "
  const SgNullFrom := "Null from email passed for SendGrid Client"
  const SgBadFrom := "Invalid from email passed for SendGrid Client, needed str but found "
  const SgNullTarget := "Null target email passed for SendGrid Client"
  const SgBadTarget := "Invalid target email passed for SendGrid client, needed str but found "

  /** The SendGrid constructor's asserts as written: the target message
      reports the type of `from_email`. */
  function SendGridArgsErrorAsWritten(apiKey: Value, fromEmail: Value, targetEmail: Value): (e: Option<Error>)
    ensures e.None? <==> apiKey.Str? && fromEmail.Str? && targetEmail.Str?
    ensures !apiKey.Str? ==> e == Some(Complaint(apiKey, SgNullKey, SgBadKey))
    ensures apiKey.Str? && !fromEmail.Str? ==> e == Some(Complaint(fromEmail, SgNullFrom, SgBadFrom))
    ensures apiKey.Str? && fromEmail.Str? && targetEmail.PyNone? ==> e == Some(AssertionError(SgNullTarget))
    ensures apiKey.Str? && fromEmail.Str? && !targetEmail.PyNone? && !targetEmail.Str? ==>
              e == Some(AssertionError(SgBadTarget + "<class 'str'>"))
  {
    assert fromEmail.Str? ==> TypeRepr(fromEmail) == "<class 'str'>";
    StrCheck(apiKey, SgNullKey, SgBadKey, apiKey)
      .OrElse(StrCheck(fromEmail, SgNullFrom, SgBadFrom, fromEmail))
      .OrElse(StrCheck(targetEmail, SgNullTarget, SgBadTarget, fromEmail))
  }

  /** The SendGrid constructor's asserts, each message reporting the type of
      the argument it rejects. */
  function SendGridArgsError(apiKey: Value, fromEmail: Value, targetEmail: Value): (e: Option<Error>)
    ensures e.None? <==> apiKey.Str? && fromEmail.Str? && targetEmail.Str?
    ensures !apiKey.Str? ==> e == Some(Complaint(apiKey, SgNullKey, SgBadKey))
    ensures apiKey.Str? && !fromEmail.Str? ==> e == Some(Complaint(fromEmail, SgNullFrom, SgBadFrom))
    ensures apiKey.Str? && fromEmail.Str? && !targetEmail.Str? ==> e == Some(Complaint(targetEmail, SgNullTarget, SgBadTarget))
  {
    StrCheck(apiKey, SgNullKey, SgBadKey, apiKey)
      .OrElse(StrCheck(fromEmail, SgNullFrom, SgBadFrom, fromEmail))
      .OrElse(StrCheck(targetEmail, SgNullTarget, SgBadTarget, targetEmail))
  }

  /** A recipient of the wrong type is reported with the sender's type. */
  lemma SendGridTargetMessageReportsFromEmailType()
    ensures SendGridArgsErrorAsWritten(Str("key"), Str("a@example.com"), Other("int"))
            == Some(AssertionError(SgBadTarget + "<class 'str'>"))
    ensures SendGridArgsError(Str("key"), Str("a@example.com"), Other("int"))
            == Some(AssertionError(SgBadTarget + "<class 'int'>"))
  {
    assert TypeRepr(Str("a@example.com")) == "<class 'str'>";
    assert TypeRepr(Other("int")) == "<class 'int'>";
  }

  /** The mail SendGrid's send_alert submits. */
  datatype SendGridMail = SendGridMail(fromEmail: string, toEmails: string, subject: string, htmlContent: string)

  class AlertingSendGridClient {
    const apiKey: string
    const fromEmail: string
    const targetEmail: string

    constructor (apiKey: string, fromEmail: string, targetEmail: string)
      ensures this.apiKey == apiKey && this.fromEmail == fromEmail && this.targetEmail == targetEmail
    {
      this.apiKey := apiKey;
      this.fromEmail := fromEmail;
      this.targetEmail := targetEmail;
    }

    /** `AlertingSendGridClient(api_key, from_email, target_email)`. */
    static method Create(apiKey: Value, fromEmail: Value, targetEmail: Value)
      returns (r: Result<AlertingSendGridClient>)
      ensures r.Failure? <==> SendGridArgsError(apiKey, fromEmail, targetEmail).Some?
      ensures r.Failure? ==> SendGridArgsError(apiKey, fromEmail, targetEmail) == Some(r.error)
      ensures r.Success? ==> fresh(r.value) && apiKey == Str(r.value.apiKey) &&
                             fromEmail == Str(r.value.fromEmail) && targetEmail == Str(r.value.targetEmail)
    {
      if apiKey.PyNone? {
        return Failure(AssertionError(SgNullKey));
      }
      if !apiKey.Str? {
        return Failure(AssertionError(SgBadKey + TypeRepr(apiKey)));
      }
      if fromEmail.PyNone? {
        return Failure(AssertionError(SgNullFrom));
      }
      if !fromEmail.Str? {
        return Failure(AssertionError(SgBadFrom + TypeRepr(fromEmail)));
      }
      if targetEmail.PyNone? {
        return Failure(AssertionError(SgNullTarget));
      }
      if !targetEmail.Str? {
        return Failure(AssertionError(SgBadTarget + TypeRepr(targetEmail)));
      }
      var c := new AlertingSendGridClient(apiKey.s, fromEmail.s, targetEmail.s);
      return Success(c);
    }

    /** The mail `send_alert(title, message)` submits: from the sender to
        the one recipient, the title as subject and the message as HTML
        content. */
    function Request(title: string, message: string): (m: SendGridMail)
      ensures m.fromEmail == fromEmail && m.toEmails == targetEmail
      ensures m.subject == title && m.htmlContent == message
    {
      SendGridMail(fromEmail, targetEmail, title, message)
    }
  }

  // ---------------------------------------------------------------------
  // AlertingTelegramClient
  // ---------------------------------------------------------------------

  const TgNullToken := "Null token passed for Telegram Client"
  const TgBadToken := "Invalid token passed for Telegram Client, needed str but found "
  const TgNullChat := "Null chat id passed for Telegram Client"
  const TgBadChat := "Invalid chat id passed for Telegram Client, needed str but found "

  /** The Telegram constructor's asserts: token, then chat id, each not None and a str. */
  function TelegramArgsError(token: Value, chatId: Value): (e: Option<Error>)
    ensures e.None? <==> token.Str? && chatId.Str?
    ensures !token.Str? ==> e == Some(Complaint(token, TgNullToken, TgBadToken))
    ensures token.Str? && !chatId.Str? ==> e == Some(Complaint(chatId, TgNullChat, TgBadChat))
  {
    StrCheck(token, TgNullToken, TgBadToken, token).OrElse(StrCheck(chatId, TgNullChat, TgBadChat, chatId))
  }

  /** The message Telegram's send_alert sends. */
  datatype TelegramMessage = TelegramMessage(token: string, chatId: string, text: string)

  class AlertingTelegramClient {
    const token: string
    const chatId: string

    constructor (token: string, chatId: string)
      ensures this.token == token && this.chatId == chatId
    {
      this.token := token;
      this.chatId := chatId;
    }

    /** `AlertingTelegramClient(token, chat_id)`. */
    static method Create(token: Value, chatId: Value) returns (r: Result<AlertingTelegramClient>)
      ensures r.Failure? <==> TelegramArgsError(token, chatId).Some?
      ensures r.Failure? ==> TelegramArgsError(token, chatId) == Some(r.error)
      ensures r.Success? ==> fresh(r.value) && token == Str(r.value.token) && chatId == Str(r.value.chatId)
    {
      if token.PyNone? {
        return Failure(AssertionError(TgNullToken));
      }
      if !token.Str? {
        return Failure(AssertionError(TgBadToken + TypeRepr(token)));
      }
      if chatId.PyNone? {
        return Failure(AssertionError(TgNullChat));
      }
      if !chatId.Str? {
        return Failure(AssertionError(TgBadChat + TypeRepr(chatId)));
      }
      var c := new AlertingTelegramClient(token.s, chatId.s);
      return Success(c);
    }

    /** What `send_alert(title, message)` sends: the alert text, with the
        bot token, to the configured chat; the alert can be read back. */
    function Request(title: string, message: string): (m: TelegramMessage)
      ensures m.token == token && m.chatId == chatId
      ensures m.text == AlertText(title, message)
      ensures '\n' !in title ==> SplitAlertText(m.text) == Some(Alert(title, message))
    {
      var text := AlertText(title, message);
      assert '\n' !in title ==> SplitAlertText(text) == Some(Alert(title, message)) by {
        if '\n' !in title { AlertTextRoundTrip(title, message); }
      }
      TelegramMessage(token, chatId, text)
    }
  }
}
