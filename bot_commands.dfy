/**
 * The decision logic of the extension's Telegram command handlers: setting
 * defaults, the chat-id check, the argument of `/ask` and `/cmd`, and the
 * three-step fallback of `sendToAgentChat`. Replies, the terminal run and
 * the screenshot capture are effects named by the `Action` and `Effect`
 * values, not performed; the progress notification after `/ask` and the
 * full-screen screenshot fallback are not modelled.
 */
module BotCommands {
  import opened Wrappers
  import opened Text

  const DefaultDebuggingPort: int := 9222

  /**
   * `get<string>(key) || undefined`, as `getToken` and `getAllowedChatId`
   * read their settings: an empty string counts as unset.
   */
  function ConfiguredString(setting: Option<string>): (r: Option<string>)
    ensures r.Some? <==> Truthy(setting)
    ensures r.Some? ==> r == setting
  {
    if Truthy(setting) then setting else None
  }

  /** `get<number>('debuggingPort') ?? 9222`: only a missing setting falls back to 9222. */
  function DebuggingPort(setting: Option<int>): (port: int)
    ensures setting.None? ==> port == DefaultDebuggingPort
    ensures setting.Some? ==> port == setting.value
  {
    if setting.Some? then setting.value else DefaultDebuggingPort
  }

  /** `allowedChatId && ctx.chat.id.toString() !== allowedChatId` */
  predicate IsRejected(allowedChatId: Option<string>, chatId: int) {
    Truthy(allowedChatId) && IntToString(chatId) != allowedChatId.value
  }

  /** With the chat-id setting read as `getAllowedChatId` reads it, a message is rejected iff a non-empty id is configured and differs from the chat's. */
  lemma RejectedIff(setting: Option<string>, chatId: int)
    ensures IsRejected(ConfiguredString(setting), chatId)
            <==> setting.Some? && setting.value != "" && setting.value != IntToString(chatId)
  {
  }

  /** When a chat id is configured, at most one chat gets through. */
  lemma OnlyOneChatAccepted(allowedChatId: Option<string>, a: int, b: int)
    requires Truthy(allowedChatId)
    requires !IsRejected(allowedChatId, a) && !IsRejected(allowedChatId, b)
    ensures a == b
  {
    IntToStringInjective(a, b);
  }

  /** The configured chat itself is accepted. */
  lemma ConfiguredChatAccepted(chatId: int)
    ensures !IsRejected(ConfiguredString(Some(IntToString(chatId))), chatId)
  {
  }

  /** Reference for the argument of `/ask` and `/cmd`: the text after the first space, trimmed. */
  function CommandArgument(text: string): string {
    Trim(AfterFirst(text, ' '))
  }

  /**
   * The handlers' extraction: `text.split(' ')`, `parts.shift()` drops the
   * command token, `parts.join(' ').trim()`.
   */
  method ExtractArgument(text: string) returns (arg: string)
    ensures arg == CommandArgument(text)
  {
    var parts := Split(text, {' '});
    parts := parts[1..];
    arg := Trim(Join(parts, " "));
    JoinSplitTail(text, ' ');
  }

  lemma {:induction false} AfterFirstIsSuffix(s: string, c: char)
    ensures |AfterFirst(s, c)| <= |s| && AfterFirst(s, c) == s[|s| - |AfterFirst(s, c)|..]
  {
    if |s| > 0 && s[0] != c {
      AfterFirstIsSuffix(s[1..], c);
    }
  }

  /** The argument is a piece of the message text with no whitespace at either end. */
  lemma ArgumentIsTrimmedPieceOfText(text: string)
    ensures Contains(text, CommandArgument(text))
    ensures CommandArgument(text) == [] ||
            (!IsJsSpace(CommandArgument(text)[0]) && !IsJsSpace(CommandArgument(text)[|CommandArgument(text)| - 1]))
  {
    var tail := AfterFirst(text, ' ');
    assert Contains(text, Trim(tail)) by {
      TrimOccurs(tail);
      AfterFirstIsSuffix(text, ' ');
      var before := text[..|text| - |tail|];
      assert text == before + tail;
      ContainsPrepend(before, tail, Trim(tail));
    }
    TrimSpec(tail);
  }

  /** The argument is empty exactly when nothing but whitespace follows the first space (or there is no space). */
  lemma ArgumentEmptyIff(text: string)
    ensures CommandArgument(text) == [] <==> AllJsSpace(AfterFirst(text, ' '))
  {
    TrimEmptyIff(AfterFirst(text, ' '));
  }

  lemma {:induction false} AfterFirstAbsent(s: string, c: char)
    requires c !in s
    ensures AfterFirst(s, c) == ""
  {
    if |s| > 0 {
      assert s[0] != c && c !in s[1..];
      AfterFirstAbsent(s[1..], c);
    }
  }

  lemma {:induction false} AfterFirstAt(p: string, c: char, q: string)
    requires c !in p
    ensures AfterFirst(p + [c] + q, c) == q
  {
    if |p| == 0 {
      assert p + [c] + q == [c] + q;
    } else {
      assert (p + [c] + q)[1..] == p[1..] + [c] + q;
      assert c !in p[1..];
      AfterFirstAt(p[1..], c, q);
    }
  }

  /** Only a space separates the command: a message with no space has no argument, whatever line breaks it holds. */
  lemma NoSpaceGivesNoArgument(text: string)
    requires ' ' !in text
    ensures CommandArgument(text) == ""
  {
    AfterFirstAbsent(text, ' ');
  }

  /** A line break after the command is not a separator: the text up to the first space is dropped with it. */
  lemma LineBreakDropsTextBeforeFirstSpace()
    ensures CommandArgument("/ask\nhello world") == "world"
  {
    var head := "/ask\nhello";
    var tail := "world";
    assert ' ' !in head by {
      forall k | 0 <= k < |head| ensures head[k] != ' ' { }
    }
    AfterFirstAt(head, ' ', tail);
    assert head + [' '] + tail == "/ask\nhello world";
    assert !IsJsSpace(tail[0]) && !IsJsSpace(tail[|tail| - 1]);
    assert TrimStart(tail) == tail;
    assert TrimEnd(tail) == tail;
  }

  /** What a handler does with one incoming message. */
  datatype Action =
    | ReplyUnauthorized
    | ReplyUsage(usage: string)
    | AskAgent(query: string)
    | RunInTerminal(command: string)
    | CaptureScreenshot
    | ShowInformation(message: string)
    | Ignore

  const AskUsage := "Usage: /ask <nội dung cần hỏi agent>"
  const CmdUsage := "Usage: /cmd <lệnh>"

  /** The `/ask` handler: reject, reply with usage for an empty query, or send the query to the agent. */
  function HandleAsk(allowedChatId: Option<string>, chatId: int, text: string): (a: Action)
    ensures a == ReplyUnauthorized <==> IsRejected(allowedChatId, chatId)
    ensures a.AskAgent? <==> !IsRejected(allowedChatId, chatId) && CommandArgument(text) != ""
    ensures a.AskAgent? ==> a.query == CommandArgument(text)
    ensures a.ReplyUsage? ==> a.usage == AskUsage
    ensures a.ReplyUnauthorized? || a.ReplyUsage? || a.AskAgent?
  {
    if IsRejected(allowedChatId, chatId) then ReplyUnauthorized
    else
      var query := CommandArgument(text);
      if query == "" then ReplyUsage(AskUsage) else AskAgent(query)
  }

  /** The `/cmd` handler: reject, reply with usage for an empty command, or run the command in a terminal. */
  function HandleCmd(allowedChatId: Option<string>, chatId: int, text: string): (a: Action)
    ensures a == ReplyUnauthorized <==> IsRejected(allowedChatId, chatId)
    ensures a.RunInTerminal? <==> !IsRejected(allowedChatId, chatId) && CommandArgument(text) != ""
    ensures a.RunInTerminal? ==> a.command == CommandArgument(text)
    ensures a.ReplyUsage? ==> a.usage == CmdUsage
    ensures a.ReplyUnauthorized? || a.ReplyUsage? || a.RunInTerminal?
  {
    if IsRejected(allowedChatId, chatId) then ReplyUnauthorized
    else
      var command := CommandArgument(text);
      if command == "" then ReplyUsage(CmdUsage) else RunInTerminal(command)
  }

  /** The `/screenshot` handler: reject, or capture. */
  function HandleScreenshot(allowedChatId: Option<string>, chatId: int): (a: Action)
    ensures a == ReplyUnauthorized <==> IsRejected(allowedChatId, chatId)
    ensures a == CaptureScreenshot <==> !IsRejected(allowedChatId, chatId)
  {
    if IsRejected(allowedChatId, chatId) then ReplyUnauthorized else CaptureScreenshot
  }

  /** Plain text: silently ignored from other chats, otherwise shown as an information message. */
  function HandleText(allowedChatId: Option<string>, chatId: int, text: string): (a: Action)
    ensures a == Ignore <==> IsRejected(allowedChatId, chatId)
    ensures a != Ignore ==> a == ShowInformation("[Telegram] " + text)
  {
    if IsRejected(allowedChatId, chatId) then Ignore else ShowInformation("[Telegram] " + text)
  }

  /**
   * None of the four checked handlers acts for a rejected chat: the only
   * answer it then gives is `Unauthorized.` or silence. (`/start` and `/help`
   * have no check and answer every chat.)
   */
  lemma RejectedChatsGetNothingDone(allowedChatId: Option<string>, chatId: int, text: string)
    requires IsRejected(allowedChatId, chatId)
    ensures HandleAsk(allowedChatId, chatId, text) == ReplyUnauthorized
    ensures HandleCmd(allowedChatId, chatId, text) == ReplyUnauthorized
    ensures HandleScreenshot(allowedChatId, chatId) == ReplyUnauthorized
    ensures HandleText(allowedChatId, chatId, text) == Ignore
  {
  }

  /**
   * Without a chat id (missing or empty) nobody is rejected: every chat's
   * `/ask` reaches the agent and every chat's `/cmd` runs in the terminal.
   */
  lemma NoChatIdAcceptsEveryChat(setting: Option<string>, chatId: int, text: string)
    requires !Truthy(setting)
    ensures !IsRejected(ConfiguredString(setting), chatId)
    ensures CommandArgument(text) != "" ==>
              HandleAsk(ConfiguredString(setting), chatId, text) == AskAgent(CommandArgument(text)) &&
              HandleCmd(ConfiguredString(setting), chatId, text) == RunInTerminal(CommandArgument(text))
  {
  }

  // ---- sendToAgentChat ----

  /** The calls `sendToAgentChat` makes, in the order it makes them. */
  datatype Effect =
    | TryCdp(text: string, port: int)
    | OpenChatWithQuery(query: string)
    | WriteClipboard(contents: string)
    | OpenChat

  /** The calls made and how the returned promise settles. */
  datatype Delivery = Delivery(effects: seq<Effect>, outcome: Outcome)

  const ClipboardNotice := "\n\nNội dung đã copy vào clipboard — nhấn Ctrl+V trong chat."

  /** Every call `sendToAgentChat` may make, in order. */
  function FallbackOrder(text: string, port: int): seq<Effect> {
    [TryCdp(text, port), OpenChatWithQuery(text), WriteClipboard(text), OpenChat]
  }

  /**
   * `sendToAgentChat(text)`, given the `debuggingPort` setting and how each
   * step it may reach turns out: `cdp` is `sendViaCDP`, `chatOpen` the
   * `workbench.action.chat.open` call with the query, `clipboard` the
   * clipboard write. The last plain `chat.open` is attempted and its failure
   * swallowed.
   */
  function SendToAgentChat(text: string, portSetting: Option<int>, cdp: Outcome, chatOpen: Outcome, clipboard: Outcome): (d: Delivery)
    ensures 1 <= |d.effects| && d.effects <= FallbackOrder(text, DebuggingPort(portSetting))
    ensures |d.effects| == if cdp.Pass? then 1 else if chatOpen.Pass? then 2 else if clipboard.Fail? then 3 else 4
    ensures d.outcome.Pass? <==> cdp.Pass? || chatOpen.Pass?
    ensures cdp.Pass? ==> d.effects == [TryCdp(text, DebuggingPort(portSetting))]
    ensures WriteClipboard(text) in d.effects <==> cdp.Fail? && chatOpen.Fail?
    ensures cdp.Fail? && chatOpen.Fail? && clipboard.Pass? ==>
              d.outcome == Fail("CDP: " + cdp.error + ClipboardNotice)
    ensures cdp.Fail? && chatOpen.Fail? && clipboard.Fail? ==> d.outcome == clipboard
  {
    var first := TryCdp(text, DebuggingPort(portSetting));
    if cdp.Pass? then
      Delivery([first], Pass)
    else if chatOpen.Pass? then
      Delivery([first, OpenChatWithQuery(text)], Pass)
    else if clipboard.Fail? then
      Delivery([first, OpenChatWithQuery(text), WriteClipboard(text)], clipboard)
    else
      Delivery(FallbackOrder(text, DebuggingPort(portSetting)), Fail("CDP: " + cdp.error + ClipboardNotice))
  }
}
