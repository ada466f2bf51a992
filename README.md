# alerting — a Dafny model

A model of the `alerting` Python library, which sends one alert to several
notification channels. Two parts are modelled, and the proofs are about them:

- **The dispatcher `Alerting`** (`alerting/__init__.py`). Its constructor
  refuses `None`, anything that is not a list, and any element that is not an
  `AlertingClient`. It checks every element before it stores the list.
  `send_alert(message)` refuses a message that is `None` or not a `str`, and
  then calls `client.send_alert(message)` on each client in list order.
  Nothing is caught: the first client that raises ends the loop, its exception
  propagates, and later clients are not called.
- **The channel adapters** (`alerting/clients.py`). This part covers:
  - the argument checks in each constructor, with their exact assertion
    messages;
  - the `"Title: " + title + "\n" + message` text that Slack and Telegram
    send;
  - Mailgun's endpoint URL, and its `to` field, which is always a list;
  - the mail that SendGrid builds;
  - the pure helpers of the Slack command watcher. These are the
    `^<@(|[WU].+?)>(.*)` mention matcher, the first-match search over RTM
    events, and the calls that handling a command makes, with messages
    deleted in reverse order.

Each Python object is a `Value` (`objects.dfy`), tagged with what
`is None` and `isinstance` can tell apart: `PyNone`, `Bool`, `Str`, `List`,
an `AlertingClient` object, or any other object with its class name.
`str(type(v))` is `TypeRepr`. Exceptions are `Error` values. An operation
that can raise returns a `Result`, or an `Outcome` when it returns no value.

Python constructors that can fail are modelled as static `Create` methods.
Each one runs the asserts in source order and returns `Failure(AssertionError(...))`
or a fresh object. The Dafny constructor only stores fields that have already
been checked. The client objects never change after construction, so their
fields are `const`.

`Alerting.send_alert` (`alerting/__init__.py:25-29`) takes only `message`
and passes only `message` on to each client. Each of the four adapters declares
`send_alert(self, title, message)`. The base class `AlertingClient.send_alert`
always raises `NotImplementedError`. So when the dispatcher calls any of the
library's own clients, Python raises (a missing `message` argument, or
`NotImplementedError`). `Alerting.SendOutcome` models this. `Alerting.OnlyCustomClientsReturn`
proves that a dispatch returns normally only when every client is a
user-defined subclass with a one-argument `send_alert`. The Telegram
adapter takes only a token and a chat id; it has no proxy parameter.

`str.strip()` removes the characters for which Python's `str.isspace()`
holds. These are U+0009–U+000D, U+001C–U+0020, U+0085, U+00A0, U+1680,
U+2000–U+200A, U+2028, U+2029, U+202F, U+205F and U+3000 (`Text.IsSpace`).

## Model

| member | source | states |
|---|---|---|
| `Alerting.SendOutcome` | alerting/__init__.py:9-10 | a client called with the message alone returns normally only if it is a user-defined subclass; the base class raises NotImplementedError and the four adapters raise for the missing `message` argument |
| `Alerting.FirstNonClient` | alerting/__init__.py:21-22 | the index of the first element that is not an AlertingClient: all before it are clients |
| `Alerting.ClientsError` | alerting/__init__.py:19-22 | construction is refused exactly when the argument is not a list of AlertingClient objects; None is reported first, then a non-list with its type, then the first non-client element with its type |
| `Alerting.Alerting.Create` | alerting/__init__.py:18-23 | fails with exactly the error `ClientsError` names, after checking every element; on success the new object holds the given clients, in the same order |
| `Objects.TypeRepr` | alerting/__init__.py:20 | `str(type(v))`: the class name between `<class '` and `'>`; a str gives `<class 'str'>` |
| `Alerting.Fanout` | alerting/__init__.py:28-29 | the loop calls a prefix of the clients, in order, with the message unchanged; a raising outcome is the last called client's own exception, and a normal return means every client was called |
| `Alerting.FirstFailure` | alerting/__init__.py:28-29 | the index of the first client whose send raises: all before it return normally |
| `Alerting.FanoutStopsAtFirstFailure` | alerting/__init__.py:28-29 | the clients are called once each, in list order, with the message unchanged, up to and including the first that raises; that exception is the outcome and no later client is called; if none raises, all are called and the dispatch returns |
| `Alerting.OnlyCustomClientsReturn` | alerting/__init__.py:29 | a dispatch that returns normally called every client, and every client was a user-defined subclass |
| `Alerting.Alerting.SendAlert` | alerting/__init__.py:25-29 | a None or non-str message is refused with its assertion message before any client is called (empty trace); otherwise the calls and the outcome are those of the ordered fan-out; the client list is only read |
| `Text.FirstLine` | alerting/clients.py:53 | the part of a string that `.*` matches: a newline-free prefix, followed by a newline or the end |
| `Text.IsSpace` | alerting/clients.py:55 | the characters `str.strip()` removes: those for which Python's `str.isspace()` holds |
| `Text.Strip` | alerting/clients.py:55 | the stripped text neither starts nor ends with whitespace |
| `Text.StripRemovesOnlySpaces` | alerting/clients.py:55 | the stripped text is a slice of the input, and everything before and after that slice is whitespace |
| `Clients.StrCheck` | alerting/clients.py:118-119 | the None-then-str assert pair passes exactly for a str; when it reports the argument's own type, the error names that type |
| `Clients.FirstNonStr` | alerting/clients.py:126-128 | the index of the first list element that is not a str: all before it are str |
| `Clients.TargetCheck` | alerting/clients.py:124-128 | a Mailgun recipient is accepted exactly when it is a str or a list of str; a bad list is reported by its first non-str element |
| `Clients.AlertText` | alerting/clients.py:35 | the text is laid out as the `Title: ` label, the title, a newline, then the message |
| `Clients.SplitAlertText` | alerting/clients.py:181 | a title read back from a text never holds a newline |
| `Clients.AlertTextRoundTrip` | alerting/clients.py:35 | for a title without a newline, the title and message are read back from the text exactly |
| `Clients.SplitAlertTextInverse` | alerting/clients.py:181 | every text that reads back as an alert is that alert's text |
| `Clients.AlertTextAmbiguousForMultilineTitles` | alerting/clients.py:35 | with a newline in the title, two different alerts produce the same text |
| `Clients.SlackArgsError` | alerting/clients.py:18-19 | the Slack constructor is refused exactly when the bot token or the channel is None, the token first |
| `Clients.AlertingSlackClient.Create` | alerting/clients.py:17-29 | fails with exactly the error `SlackArgsError` names; on success it stores the arguments, and starts the watcher exactly when a user access token is given |
| `Clients.AlertingSlackClient.Request` | alerting/clients.py:31-36 | posts `chat.postMessage` to the configured channel; the text is exactly the alert text of the title and message, from which a newline-free title and the message are read back |
| `Clients.MailGunArgsErrorAsWritten` | alerting/clients.py:118-128 | the Mailgun asserts as written refuse exactly what the corrected ones refuse, in the same order and with the same messages, except that a domain or a target of the wrong type is always reported as `<class 'str'>` |
| `Clients.MailGunArgsError` | alerting/clients.py:118-128 | Mailgun construction succeeds exactly when api key, domain and sender are str and the target is a str or a list of str; otherwise the first invalid argument alone decides the error, which names that argument's type |
| `Clients.MailGunDomainMessageReportsApiKeyType` | alerting/clients.py:121 | as written, a domain of type int is reported as `<class 'str'>`, the api key's type |
| `Clients.MailGunTargetMessageReportsFromEmailType` | alerting/clients.py:125 | as written, a recipient of type int is reported as `<class 'str'>`, the sender's type |
| `Clients.AlertingMailGunClient.Create` | alerting/clients.py:117-133 | fails with exactly the error `MailGunArgsError` names, checking a target list element by element; on success it stores the checked arguments |
| `Clients.MailGunEndpoint` | alerting/clients.py:137 | the endpoint is the API root, the domain and `/messages`, and the domain reads back from it |
| `Clients.EndpointDomainInverse` | alerting/clients.py:137 | every URL that reads back as a domain is that domain's endpoint |
| `Clients.ToField` | alerting/clients.py:140 | the `to` field is always a list: the target list unchanged, or a single target wrapped; for an accepted target every element is a str |
| `Clients.AlertingMailGunClient.Request` | alerting/clients.py:135-142 | posts to the endpoint of the configured domain, with the api key, the sender, the normalised recipients, the title as subject and the message as text |
| `Clients.SendGridArgsErrorAsWritten` | alerting/clients.py:147-152 | the SendGrid asserts as written refuse exactly what the corrected ones refuse, in the same order and with the same messages, except that a target of the wrong type is always reported as `<class 'str'>` |
| `Clients.SendGridArgsError` | alerting/clients.py:147-152 | SendGrid construction succeeds exactly when all three arguments are str; otherwise the first invalid one decides the error, which names its type |
| `Clients.SendGridTargetMessageReportsFromEmailType` | alerting/clients.py:152 | as written, a recipient of type int is reported as `<class 'str'>`, the sender's type |
| `Clients.AlertingSendGridClient.Create` | alerting/clients.py:146-156 | fails with exactly the error `SendGridArgsError` names; on success it stores the checked arguments |
| `Clients.AlertingSendGridClient.Request` | alerting/clients.py:158-166 | the mail goes from the sender to the one recipient, with the title as subject and the message as HTML content |
| `Clients.TelegramArgsError` | alerting/clients.py:171-174 | Telegram construction succeeds exactly when token and chat id are str; otherwise the first invalid one decides the error |
| `Clients.AlertingTelegramClient.Create` | alerting/clients.py:170-177 | fails with exactly the error `TelegramArgsError` names; on success it stores the checked arguments |
| `Clients.AlertingTelegramClient.Request` | alerting/clients.py:179-184 | sends to the configured chat with the bot token; the text is exactly the alert text of the title and message, from which a newline-free title and the message are read back |
| `SlackWatcher.ScanClose` | alerting/clients.py:53 | a lazy `.+?>` stops at the first `>` or newline, or at the end |
| `SlackWatcher.Remainder` | alerting/clients.py:55 | the stripped group 2: it holds no newline and neither starts nor ends with whitespace |
| `SlackWatcher.MentionLength` | alerting/clients.py:53 | a match found is a mention the pattern's group 1 can match |
| `SlackWatcher.MentionLengthIsLazyMatch` | alerting/clients.py:53 | a mention is found exactly when the text opens with one group 1 can match, and the one found is the shortest (the empty id when the text opens with `<@>`) |
| `SlackWatcher.MentionLengthExamples` | alerting/clients.py:53 | `<@U>>x` gives the id `U>`, and `<@U>x` does not match |
| `SlackWatcher.ParseDirectMention` | alerting/clients.py:48-55 | (None, None) unless the lazy match succeeds; the id is empty exactly when the text opens with `<@>`, otherwise it has length at least 2, starts with W or U and holds no newline; `<@` + id + `>` opens the text; the second component is the stripped rest of the first line |
| `SlackWatcher.EventCommand` | alerting/clients.py:63-67 | an event without "type" raises KeyError; one that is not a plain message is skipped; a plain message without "text" raises KeyError, one whose text is not a str raises TypeError, and one whose text does not mention the bot is skipped; a plain message mentioning the bot raises KeyError without "channel" and otherwise yields the mention's stripped rest and its channel |
| `SlackWatcher.FirstCommand` | alerting/clients.py:63-68 | the early-return loop as a recursion; a result other than "no command" means some event was not skipped |
| `SlackWatcher.Decisive` | alerting/clients.py:63-68 | the index of the first event that is not skipped: every event before it is skipped |
| `SlackWatcher.FirstCommandIsFirstDecisive` | alerting/clients.py:57-68 | parse_bot_commands yields what the first non-skipped event yields, or no command when every event is skipped |
| `SlackWatcher.LaterEventsNotExamined` | alerting/clients.py:63-67 | once an event has decided the result, appending later events changes nothing |
| `SlackWatcher.ParseBotCommands` | alerting/clients.py:57-68 | the early-return loop computes the first-match result |
| `SlackWatcher.Deletions` | alerting/clients.py:89-96 | one deletion per timestamp, in the channel, the last listed first |
| `SlackWatcher.CommandCalls` | alerting/clients.py:70-104 | the clearing path is taken exactly when the command is `clear`, `clear_channel` or `clear channel`. It acknowledges, fetches 1000 history entries, then deletes the history timestamps in reverse order, or none when "ok" is not the value True. Any other command gets the default reply only |
| `SlackWatcher.HandleCommand` | alerting/clients.py:70-104 | the two loops (collect the timestamps, walk them backwards) make exactly the calls `CommandCalls` describes |
| `SlackWatcher.PollOnce` | alerting/clients.py:106-110 | a parse error propagates; a command is handled exactly when one is found and it is non-empty, and then the calls are those `CommandCalls` gives for that command and its channel |

## Findings

| source | as written | input that shows it | evidently intended | confidence | as-written member | corrected member |
|---|---|---|---|---|---|---|
| alerting/clients.py:121 | the "Invalid domain" message embeds `str(type(api_key))` | `AlertingMailGunClient("key", 42, "a@example.com", "b@example.com")` says `found <class 'str'>` (`Clients.MailGunDomainMessageReportsApiKeyType`) | report the domain's own type, `<class 'int'>` | not executed; high | `Clients.MailGunArgsErrorAsWritten` | `Clients.MailGunArgsError` |
| alerting/clients.py:125 | the "Invalid target email" message embeds `str(type(from_email))` | `AlertingMailGunClient("key", "example.com", "a@example.com", 42)` says `found <class 'str'>` (`Clients.MailGunTargetMessageReportsFromEmailType`) | report the target's own type, `<class 'int'>` | not executed; high | `Clients.MailGunArgsErrorAsWritten` | `Clients.MailGunArgsError` |
| alerting/clients.py:152 | the "Invalid target email" message embeds `str(type(from_email))` | `AlertingSendGridClient("key", "a@example.com", 42)` says `found <class 'str'>` (`Clients.SendGridTargetMessageReportsFromEmailType`) | report the target's own type, `<class 'int'>` | not executed; high | `Clients.SendGridArgsErrorAsWritten` | `Clients.SendGridArgsError` |

The `Create` methods use the corrected messages (see "## Left out"). The cases the checks accept
and refuse are the same for both versions.

## Left out

- Clients.AlertingMailGunClient.Create: reports a domain or target of the wrong type with that argument's own type, where `alerting/clients.py:121` and `:125` report `<class 'str'>`; it follows the corrected messages of the findings below, and `Clients.MailGunArgsErrorAsWritten` states the messages as written.
- Clients.AlertingSendGridClient.Create: reports a target of the wrong type with its own type, where `alerting/clients.py:152` reports `<class 'str'>`; `Clients.SendGridArgsErrorAsWritten` states the message as written.
- The backend calls are not modelled: `requests.post`, `SendGridAPIClient`/`Mail`/`sg.send`, `telegram.Bot.send_message`, and Slack's `api_call`, `rtm_connect` and `rtm_read`. Their request and response formats belong to the services. The model stops at the values handed to them (`Request`, `SlackCall`).
- The watcher thread, the endless `while True` loop and `time.sleep` are not modelled, because they exist only for concurrency and never end. `PollOnce` models one pass of the loop.
- The `auth.test` lookups are not modelled: the bot id is a parameter. The `print` on a failed connection is not modelled either.
- `SlackWatcher.HandleCommand` takes the `channels.history` answer as a parameter: its "ok" value, plus the "ts" of each message. A KeyError from a missing "ok", "messages" or "ts" key is not modelled. The answers to the post and delete calls are ignored, as the code ignores them.
- `Alerting.Alerting.Create` copies the client sequence. Python stores the caller's list object itself, so the caller could add elements later that were never checked. That aliasing is not modelled.
- `Alerting.SendOutcome` gives each client one fixed outcome. A real client can behave differently from call to call.
- Running Python with `-O` removes every `assert`, and with them all the checks modelled here. The model assumes assertions are enabled.
- `isinstance` is modelled on the `Value` tags, so subclasses of `str` and `list` are not modelled.
- The text of Python's own TypeErrors is not modelled: a missing positional argument, or a non-str passed to `re.search`. They are `MissingArgument("message")` and `TypeError`.
- In the adapters, `title` and `message` are strings, so the TypeError that `'Title: ' + title` raises for a non-str title is not modelled.
- setup.py is packaging metadata, and is not part of this model.
