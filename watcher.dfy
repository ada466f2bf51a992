/** The pure helpers of the Slack command watcher (alerting/clients.py,
    `AlertingSlackClient.start_watching`): reading a direct mention of the
    bot, finding the first command in a batch of events, and what handling a
    command asks of the Slack API. The polling loop itself runs forever and
    is modelled only as one step. */
module SlackWatcher {
  import opened Objects
  import opened Text

  // ---------------------------------------------------------------------
  // parse_direct_mention: the pattern ^<@(|[WU].+?)>(.*)
  // ---------------------------------------------------------------------

  /** A direct mention: the user id of group 1 and the stripped group 2. */
  datatype Mention = NoMention | Mention(userId: string, rest: string)

  /** Whether `text` opens with `<@`, an id of length `n` and `>`, where the
      id is one group 1 can match: empty, or `W` or `U` followed by at least
      one character other than a newline (a `>` included). */
  predicate OpensWithMention(text: string, n: nat) {
    n + 3 <= |text| && text[0] == '<' && text[1] == '@' && text[n + 2] == '>' &&
    (n == 0 || (n >= 2 && (text[2] == 'W' || text[2] == 'U') &&
                forall i :: 3 <= i < n + 2 ==> text[i] != '\n'))
  }

  /** Where a lazy `.+?>` that has consumed text up to index `j` stops:
      at the first `>` or newline from `j` on, or at the end. */
  function ScanClose(text: string, j: nat): (k: nat)
    requires j <= |text|
    ensures j <= k <= |text|
    ensures forall i :: j <= i < k ==> text[i] != '>' && text[i] != '\n'
    ensures k < |text| ==> text[k] == '>' || text[k] == '\n'
    decreases |text| - j
  {
    if j == |text| || text[j] == '>' || text[j] == '\n' then j else ScanClose(text, j + 1)
  }

  /** Group 2, `(.*)`, stripped: the rest of the first line without the
      whitespace around it. */
  function Remainder(s: string): (r: string)
    ensures '\n' !in r
    ensures r != [] ==> !IsSpace(r[0]) && !IsSpace(r[|r| - 1])
  {
    var line := FirstLine(s);
    assert '\n' !in Strip(line) by {
      StripRemovesOnlySpaces(line);
      var a := LeadingSpaces(line);
      assert Strip(line) == line[a..a + |Strip(line)|];
    }
    Strip(line)
  }

  /** The length of the id group 1 matches, if the pattern matches at all.
      The empty alternative of group 1 is tried first, so text opening with
      `<@>` gives the empty id; otherwise `W` or `U` is followed by the
      lazy `.+?`, which stops at the first `>` after at least one character,
      and fails at a newline or the end of the text. */
  function MentionLength(text: string): (n: Option<nat>)
    ensures n.Some? ==> OpensWithMention(text, n.value)
  {
    if |text| < 3 || text[0] != '<' || text[1] != '@' then None
    else if text[2] == '>' then Some(0)
    else if (text[2] != 'W' && text[2] != 'U') || |text| < 4 || text[3] == '\n' then None
    else
      var k := ScanClose(text, 4);
      if k < |text| && text[k] == '>' then Some(k - 2) else None
  }

  /** `MentionLength` agrees with the regular expression: it finds a mention
      exactly when the text opens with one group 1 can match, and then it
      picks the empty id if that matches and the shortest id otherwise, as
      the lazy `.+?` does. */
  lemma MentionLengthIsLazyMatch(text: string)
    ensures MentionLength(text).Some? <==> exists n :: OpensWithMention(text, n)
    ensures MentionLength(text).Some? ==> forall n :: OpensWithMention(text, n) ==> MentionLength(text).value <= n
  {
  }

  /** `parse_direct_mention(message_text)`: the id of group 1 and the
      stripped group 2, or no mention. The id is empty exactly when the text
      opens with `<@>`; otherwise it has at least two characters, starts with
      `W` or `U` and holds no newline. */
  function ParseDirectMention(text: string): (m: Mention)
    ensures m.Mention? <==> MentionLength(text).Some?
    ensures m.Mention? ==> |m.userId| == MentionLength(text).value && "<@" + m.userId + ">" <= text
    ensures m.Mention? ==> (m.userId == "" <==> text[2] == '>')
    ensures m.Mention? && m.userId != "" ==>
              |m.userId| >= 2 && (m.userId[0] == 'W' || m.userId[0] == 'U') && '\n' !in m.userId
    ensures m.Mention? ==> m.rest == Remainder(text[|m.userId| + 3..])
  {
    match MentionLength(text)
    case None => NoMention
    case Some(n) =>
      var id := text[2..n + 2];
      assert text[..n + 3] == [text[0], text[1]] + id + [text[n + 2]];
      assert "<@" + id + ">" == text[..n + 3];
      Mention(id, Remainder(text[n + 3..]))
  }

  /** Two examples of the lazy match: a `>` right after the id's first
      character belongs to the id, and an id of one character is no id. */
  lemma MentionLengthExamples()
    ensures MentionLength("<@U>>x") == Some(2)
    ensures MentionLength("<@U>x") == None
  {
    assert ScanClose("<@U>>x", 4) == 4;
    assert ScanClose("<@U>x", 4) == 5;
  }

  // ---------------------------------------------------------------------
  // parse_bot_commands
  // ---------------------------------------------------------------------

  /** An RTM event: a dict from keys to values. */
  type Event = map<string, Value>

  /** A command for the bot and the channel it came from, or none. */
  datatype Command = NoCommand | Command(text: string, channel: Value)

  /** An ordinary user message: of type "message" and without a subtype. */
  predicate IsUserMessage(event: Event) {
    "type" in event && event["type"] == Str("message") && "subtype" !in event
  }

  /** A user message whose text opens with a direct mention of `botId`. */
  predicate AddressesBot(event: Event, botId: string) {
    IsUserMessage(event) && "text" in event && event["text"].Str? &&
    var m := ParseDirectMention(event["text"].s);
    m.Mention? && m.userId == botId
  }

  /** What the loop body of parse_bot_commands does with one event: skip it,
      return its command, or raise (a missing key, or a text that is not a
      str given to the regular expression). */
  function EventCommand(event: Event, botId: string): (r: Result<Command>)
    ensures "type" !in event ==> r == Failure(KeyError("type"))
    ensures "type" in event && !IsUserMessage(event) ==> r == Success(NoCommand)
    ensures IsUserMessage(event) && "text" !in event ==> r == Failure(KeyError("text"))
    ensures IsUserMessage(event) && "text" in event && !event["text"].Str? ==> r == Failure(TypeError)
    ensures IsUserMessage(event) && "text" in event && event["text"].Str? && !AddressesBot(event, botId) ==>
              r == Success(NoCommand)
    ensures AddressesBot(event, botId) && "channel" !in event ==> r == Failure(KeyError("channel"))
    ensures r.Success? && r.value.Command? <==> AddressesBot(event, botId) && "channel" in event
    ensures r.Success? && r.value.Command? ==>
              r.value == Command(ParseDirectMention(event["text"].s).rest, event["channel"])
  {
    if "type" !in event then Failure(KeyError("type"))
    else if event["type"] != Str("message") || "subtype" in event then Success(NoCommand)
    else if "text" !in event then Failure(KeyError("text"))
    else if !event["text"].Str? then Failure(TypeError)
    else
      var m := ParseDirectMention(event["text"].s);
      if m.Mention? && m.userId == botId then
        if "channel" in event then Success(Command(m.rest, event["channel"]))
        else Failure(KeyError("channel"))
      else Success(NoCommand)
  }

  /** parse_bot_commands as a recursion: the first event that does not yield
      NoCommand decides the result. */
  function FirstCommand(events: seq<Event>, botId: string): (r: Result<Command>)
    ensures r != Success(NoCommand) ==> Decisive(events, botId) < |events|
  {
    if events == [] then Success(NoCommand)
    else
      var r := EventCommand(events[0], botId);
      if r == Success(NoCommand) then FirstCommand(events[1..], botId) else r
  }

  /** The index of the first event that does not yield NoCommand, or `|events|`. */
  function Decisive(events: seq<Event>, botId: string): (k: nat)
    ensures k <= |events|
    ensures forall i :: 0 <= i < k ==> EventCommand(events[i], botId) == Success(NoCommand)
    ensures k < |events| ==> EventCommand(events[k], botId) != Success(NoCommand)
  {
    if events == [] || EventCommand(events[0], botId) != Success(NoCommand) then 0
    else 1 + Decisive(events[1..], botId)
  }

  /** parse_bot_commands returns what the first decisive event yields, and
      NoCommand when every event is skipped. */
  lemma {:induction false} FirstCommandIsFirstDecisive(events: seq<Event>, botId: string)
    ensures var k := Decisive(events, botId);
            FirstCommand(events, botId) == if k < |events| then EventCommand(events[k], botId) else Success(NoCommand)
  {
    if events != [] && EventCommand(events[0], botId) == Success(NoCommand) {
      FirstCommandIsFirstDecisive(events[1..], botId);
      var k := Decisive(events[1..], botId);
      if k < |events| - 1 {
        assert events[1..][k] == events[k + 1];
      }
    }
  }

  /** Once an event has decided the result, later events are not examined:
      appending events changes nothing. */
  lemma {:induction false} LaterEventsNotExamined(events: seq<Event>, later: seq<Event>, botId: string)
    requires FirstCommand(events, botId) != Success(NoCommand)
    ensures FirstCommand(events + later, botId) == FirstCommand(events, botId)
  {
    var all := events + later;
    assert all[0] == events[0];
    var first := EventCommand(events[0], botId);
    if first == Success(NoCommand) {
      assert all[1..] == events[1..] + later;
      LaterEventsNotExamined(events[1..], later, botId);
      assert FirstCommand(all, botId) == FirstCommand(all[1..], botId);
    } else {
      assert FirstCommand(all, botId) == first;
    }
  }

  /** `parse_bot_commands(slack_events)`: a loop over the events that
      returns at the first one addressing the bot, or at the first error. */
  method ParseBotCommands(events: seq<Event>, botId: string) returns (r: Result<Command>)
    ensures r == FirstCommand(events, botId)
  {
    for i := 0 to |events|
      invariant FirstCommand(events, botId) == FirstCommand(events[i..], botId)
    {
      assert events[i..][1..] == events[i + 1..];
      var e := EventCommand(events[i], botId);
      if e != Success(NoCommand) {
        return e;
      }
    }
    assert events[|events|..] == [];
    return Success(NoCommand);
  }

  // ---------------------------------------------------------------------
  // handle_command
  // ---------------------------------------------------------------------

  const ClearCommands: seq<string> := ["clear", "clear_channel", "clear channel"]
  const Affirmative := "Affirmative, cleaning channel messages..."
  const NotUnderstood := "Not sure what you mean. Try *clear*."
  const HistoryCount := 1000

  /** A Slack API call made while handling a command. */
  datatype SlackCall =
    | PostMessage(channel: Value, text: string)
    | FetchHistory(channel: Value, count: nat)
    | DeleteMessage(channel: Value, ts: Value)

  /** The answer to `channels.history`: its "ok" value and the "ts" of each
      message, in the order given. */
  datatype History = History(ok: Value, timestamps: seq<Value>)

  /** The deletions of the clearing path: one per timestamp, the last
      listed first. */
  function Deletions(channel: Value, ts: seq<Value>): (d: seq<SlackCall>)
    ensures |d| == |ts|
    ensures forall i :: 0 <= i < |ts| ==> d[i] == DeleteMessage(channel, ts[|ts| - 1 - i])
  {
    if ts == [] then []
    else [DeleteMessage(channel, ts[|ts| - 1])] + Deletions(channel, ts[..|ts| - 1])
  }

  /** The calls `handle_command(command, channel)` makes, given what the
      history request answers. A clear command is acknowledged, the history
      is fetched, and when "ok" is the value True the messages are deleted in
      reverse order; any other command gets the default reply and nothing
      else. */
  function CommandCalls(command: string, channel: Value, history: History): (calls: seq<SlackCall>)
    ensures calls != [] && calls[0].PostMessage? && calls[0].channel == channel
    ensures calls[0].text == Affirmative <==> command in ClearCommands
    ensures command !in ClearCommands ==> calls == [PostMessage(channel, NotUnderstood)]
    ensures command in ClearCommands ==>
              var ts := if history.ok == Bool(true) then history.timestamps else [];
              |calls| == 2 + |ts| &&
              calls[0] == PostMessage(channel, Affirmative) &&
              calls[1] == FetchHistory(channel, HistoryCount) &&
              forall i :: 0 <= i < |ts| ==> calls[2..][i] == DeleteMessage(channel, ts[|ts| - 1 - i])
  {
    if command in ClearCommands then
      var ts := if history.ok == Bool(true) then history.timestamps else [];
      [PostMessage(channel, Affirmative), FetchHistory(channel, HistoryCount)] + Deletions(channel, ts)
    else [PostMessage(channel, NotUnderstood)]
  }

  /** `handle_command(command, channel)`, with `history` standing for what
      the history request answers: it collects the timestamps, then deletes
      them walking the list backwards. */
  method HandleCommand(command: string, channel: Value, history: History) returns (calls: seq<SlackCall>)
    ensures calls == CommandCalls(command, channel, history)
  {
    if command in ClearCommands {
      calls := [PostMessage(channel, Affirmative), FetchHistory(channel, HistoryCount)];
      var allTs: seq<Value> := [];
      if history.ok == Bool(true) {
        for i := 0 to |history.timestamps|
          invariant allTs == history.timestamps[..i]
        {
          allTs := allTs + [history.timestamps[i]];
        }
        assert allTs == history.timestamps;
      }
      var n := |allTs|;
      for i := 0 to n
        invariant |calls| == 2 + i
        invariant calls[..2] == [PostMessage(channel, Affirmative), FetchHistory(channel, HistoryCount)]
        invariant forall j :: 0 <= j < i ==> calls[2..][j] == DeleteMessage(channel, allTs[n - 1 - j])
      {
        var delete := DeleteMessage(channel, allTs[n - 1 - i]);
        assert (calls + [delete])[2..] == calls[2..] + [delete];
        assert (calls + [delete])[..2] == calls[..2];
        calls := calls + [delete];
      }
      assert calls[2..] == Deletions(channel, allTs);
      assert calls == calls[..2] + calls[2..];
    } else {
      calls := [PostMessage(channel, NotUnderstood)];
    }
  }

  // ---------------------------------------------------------------------
  // One step of the polling loop
  // ---------------------------------------------------------------------

  /** One pass of the watcher's loop: parse a batch of events and handle the
      command found, unless it is missing or empty; an exception from parsing
      propagates. */
  method PollOnce(events: seq<Event>, botId: string, history: History) returns (r: Result<seq<SlackCall>>)
    ensures FirstCommand(events, botId).Failure? ==> r == Failure(FirstCommand(events, botId).error)
    ensures FirstCommand(events, botId).Success? ==> r.Success?
    ensures r.Success? && r.value != [] <==>
              FirstCommand(events, botId).Success? && FirstCommand(events, botId).value.Command? &&
              FirstCommand(events, botId).value.text != ""
    ensures r.Success? && r.value != [] ==>
              var c := FirstCommand(events, botId).value;
              r.value == CommandCalls(c.text, c.channel, history)
  {
    var parsed := ParseBotCommands(events, botId);
    if parsed.Failure? {
      return Failure(parsed.error);
    }
    if parsed.value.Command? && parsed.value.text != "" {
      var calls := HandleCommand(parsed.value.text, parsed.value.channel, history);
      return Success(calls);
    }
    return Success([]);
  }
}
