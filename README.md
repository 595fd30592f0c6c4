# Antigravity Telegram control: a Dafny model of the chat bridge

The extension runs a Telegram bot inside the IDE. Messages from the
configured chat, or from every chat when no chat id is set, are forwarded to
the IDE's agent chat. `/ask <text>` sends the
text to the agent chat, `/cmd <command>` runs a command in a terminal, and
plain text shows up as a notification.

To reach the chat input, `sendViaCDP` uses the Chrome DevTools Protocol. It
reads the `/json` target list of the remote-debugging port and picks the
workbench window. It then evaluates a script in that window: the script looks
up the chat input through an ordered list of CSS selectors, types the text and
presses Enter. When CDP fails, `sendToAgentChat` falls back to the built-in
chat command. When that also fails, it falls back to the clipboard.

The model follows the code:

- `findWorkbenchTarget` returns one target. `sendViaCDP` tries that one
  window and no other.
- Every `cdpSend` call opens its own socket and always uses message id 1.
- The timeout is 8 seconds. The socket's `close` event only clears the timer,
  so a socket that closes before any reply (and without an `error` event)
  leaves the call pending for good (`CdpProtocol.PendingAfterEarlyClose`).
- Targets are filtered by `type === 'page'`, a `workbench.html` URL and a
  non-empty `webSocketDebuggerUrl`. There is no exclusion of `devtools://`
  URLs.
- Among those pages the first whose title does not contain `Extension
  Development Host` is preferred (src/cdp_chat.ts:73). The doc comment at
  src/cdp_chat.ts:54 also promises "not Launchpad", but no title or URL test
  excludes a Launchpad window, and the model excludes none either.

Modules:

- `Wrappers` holds `Option`, `Result`, `Outcome` and JavaScript truthiness for
  optional strings.
- `Text` holds the JavaScript string built-ins the code relies on: `includes`,
  `split`, `join`, `trim`, integer `toString` and `JSON.stringify` of a string
  array.
- `TemplateEscape` holds the backslash/backtick/dollar escape chain. It also
  reads a template literal's body as ECMA-262 cooks it.
- `InjectedScript` holds the selector loop and the diagnostic list of the
  injected script, over a `Page` that answers `querySelector`.
- `CdpProtocol` holds `cdpSend`: response classification and correlation by
  id, plus the socket event handlers as methods of the class `CdpCall`.
- `CdpChat` holds `findWorkbenchTarget`, the reading of the `Runtime.evaluate`
  result, and the outcome of `sendViaCDP`.
- `BotCommands` holds the setting defaults, the chat-id check, the argument of
  `/ask` and `/cmd`, the handlers' decisions and the fallback order of
  `sendToAgentChat`.
- `BotLifecycle` holds the module-level `bot` as the class `Extension`, with
  `startBot`, `stopBot` and the settings panel's save.

## Model

| member | source | states |
|---|---|---|
| Text.JoinSplit | src/extension.ts:102-104 | Splitting a message on `' '` and joining the pieces with `' '` gives the message back. |
| Text.JoinSplitTail | src/extension.ts:102-104 | After `shift()` removes the first piece, joining the rest gives exactly the text after the first space. |
| Text.TrimStart | src/extension.ts:104 | The result is a suffix. Everything removed is ECMAScript whitespace. The result does not start with whitespace. |
| Text.TrimEnd | src/extension.ts:104 | The result is a prefix. Everything removed is whitespace. The result does not end with whitespace. |
| Text.TrimSpec | src/extension.ts:104 | `trim()` keeps a contiguous slice of the text, with no whitespace at either end. |
| Text.TrimOccurs | src/extension.ts:104 | The trimmed text occurs in the original text. |
| Text.TrimEmptyIff | src/extension.ts:104-105 | A trimmed text is empty exactly when the text is all whitespace. |
| Text.ParseNatToString | src/extension.ts:101 | The decimal text of a chat id reads back as the same number. |
| Text.IntToStringInjective | src/extension.ts:101 | Different chat ids have different `toString()` texts. |
| Text.JoinContainsEach | src/cdp_chat.ts:68 | Each joined label can be found in the joined listing. |
| TemplateEscape.EscapeIsOnePass | src/cdp_chat.ts:82-85 | The contract of `Escape`: the three `replace` passes, in the code's order, equal one pass that puts a backslash before each `\`, `` ` `` and `$`. |
| TemplateEscape.EscapeRoundTrip | src/cdp_chat.ts:82-85 | Removing one level of backslash escaping from the escaped text gives the original text. |
| TemplateEscape.EscapeLength | src/cdp_chat.ts:82-85 | The escaped text is longer by exactly the number of special characters. |
| TemplateEscape.BackslashMustComeFirst | src/cdp_chat.ts:82-85 | Escaping backslashes after backticks would break the literal. This shows why the chain starts with `\`. |
| TemplateEscape.EmbeddedTextNormalisesLineEnds | src/cdp_chat.ts:82-90 | Any text, once escaped and placed between backticks, is one whole template literal (no early end, no `${` substitution) whose value is the text with every CR LF and every lone CR turned into LF, because CR is not escaped. |
| TemplateEscape.NormaliseWithoutCr | src/cdp_chat.ts:82-90 | Line-end normalisation leaves text without CR unchanged. |
| TemplateEscape.EmbeddedTextSurvives | src/cdp_chat.ts:82-90 | Corollary: text without CR reaches the page exactly as sent. |
| InjectedScript.Diagnostics | src/cdp_chat.ts:157-160 | The list holds exactly the first `min(10, n)` inputs in document order, each described as `class \| placeholder=<value or null>`. |
| InjectedScript.SearchFrom | src/cdp_chat.ts:133-162 | The result is ok exactly when some remaining selector yields an input. It reports the first such selector's method with no error. Otherwise it is the `none` report with the diagnostics. |
| InjectedScript.MethodForIff | src/cdp_chat.ts:133-154 | The contract of `MethodFor`: a selector yields its own name exactly when its first match is a TEXTAREA or INPUT, and `monaco:` plus its name exactly when the match is an `inputarea` element of another tag. |
| InjectedScript.TextareaInputAreaHasNoPrefix | src/cdp_chat.ts:139-153 | The tag test runs first, so a `<textarea>` with class `inputarea` is reported without the `monaco:` prefix. |
| InjectedScript.SearchReportsFirstMatch | src/cdp_chat.ts:133-155 | The contract of `Search`: when selector `i` is the first to yield an input, the script reports exactly that selector's method, ok and without error. |
| InjectedScript.RunSelectorLoop | src/cdp_chat.ts:116-162 | The loop over the ten selectors returns what `Search` specifies. It succeeds exactly when some selector yields an input. It reports the first such selector, with the `monaco:` prefix for an `inputarea` element that is neither TEXTAREA nor INPUT. Otherwise it reports `none` with `No selector matched. Found inputs: ` and the JSON array. |
| CdpProtocol.Classify | src/cdp_chat.ts:35-45 | A message counts exactly when its id is 1. With an `error` it rejects with `CDP error: <message>`, where a missing message prints `undefined`. Without an error it resolves with `result`. |
| CdpProtocol.Settle | src/cdp_chat.ts:37-48 | A settled promise keeps its first settlement. |
| CdpProtocol.Correlate | src/cdp_chat.ts:35-45 | A message stream settles the call exactly when it holds an id-1 message. The settlement is that of the first such message. |
| CdpProtocol.CorrelateSnoc | src/cdp_chat.ts:35-45 | One more message can settle the call only while the call is pending. |
| CdpProtocol.CorrelateIgnoresOtherIds | src/cdp_chat.ts:36-37 | Removing a message with another id from the stream leaves the outcome unchanged. |
| CdpProtocol.CdpCall.constructor | src/cdp_chat.ts:26-48 | A new call has request id 1, nothing sent, no settlement and its timer of `TimeoutMs` (8000 ms) armed. |
| CdpProtocol.CdpCall.OnOpen | src/cdp_chat.ts:31-33 | Opening the socket sends the one request frame. |
| CdpProtocol.CdpCall.OnMessage | src/cdp_chat.ts:35-45 | An id-1 message requests close and settles the call as `Classify` says, unless it is already settled. Any other message changes nothing. |
| CdpProtocol.CdpCall.OnSocketError | src/cdp_chat.ts:47 | A socket error requests close and rejects with the socket's error. |
| CdpProtocol.CdpCall.OnTimeout | src/cdp_chat.ts:48 | The timer fires only while armed. It requests close and rejects with `CDP timeout after 8s`. |
| CdpProtocol.CdpCall.Valid | src/cdp_chat.ts:35-49 | The call's invariant, kept by the constructor and every handler: close is only requested once the promise has settled. |
| CdpProtocol.CdpCall.OnMessages | src/cdp_chat.ts:35-45 | Messages delivered one by one to a pending call settle it as `Correlate` says, and close is requested exactly when a reply with id 1 came (a pending call has not requested close, by `Valid`). |
| CdpProtocol.CdpCall.OnClose | src/cdp_chat.ts:49 | Closing clears the timer and settles nothing. |
| CdpProtocol.PendingAfterEarlyClose | src/cdp_chat.ts:31-49 | A socket that opens and closes without a reply leaves the call sent, unsettled and without a timer, so nothing can settle it any more. |
| CdpChat.WorkbenchPages | src/cdp_chat.ts:60-65 | The filtered list holds exactly the targets that are pages on `workbench.html` with a non-empty socket URL. |
| CdpChat.WorkbenchPagesAppend | src/cdp_chat.ts:61-65 | Filtering keeps the list's order: the filter of a concatenation is the concatenation of the filters. |
| CdpChat.WorkbenchPagesSingle | src/cdp_chat.ts:61-65 | A single target is kept exactly when it is a workbench page. |
| CdpChat.ListingNamesEveryTarget | src/cdp_chat.ts:67-70 | The "no workbench page" error names every target as `title (type)`. |
| CdpChat.FirstNonDevHost | src/cdp_chat.ts:72-73 | The index found is the first page not titled `Extension Development Host`. None means every page is one. |
| CdpChat.FindWorkbenchTarget | src/cdp_chat.ts:56-75 | It fails exactly when no workbench page exists, with `No workbench page found.` and the listing. Otherwise it returns a workbench page from the list. That page is the first one that is not the development host, or the first page when all of them are. |
| CdpChat.Interpret | src/cdp_chat.ts:172-177 | An exception gives `exception` with the description, falling back to `text`. A missing result gives `no_result`. Otherwise the script's report is returned unchanged, ok or not; an ok answer is the script's own clean report. |
| CdpChat.BeginInjection | src/cdp_chat.ts:166-170 | `injectIntoChat` starts one pending call: `Runtime.evaluate` with id 1, the script as expression, `awaitPromise` and `returnByValue` set, the 8 s timer armed. |
| CdpChat.InjectIntoChat | src/cdp_chat.ts:166-177 | A rejected `cdpSend` propagates its reason. A resolved one is read by `Interpret`. |
| CdpChat.SendViaCdpOutcome | src/cdp_chat.ts:183-196 | The contract of `SendViaCdp`: sending succeeds exactly when a workbench page exists and the reply is resolved and ok. Each failure carries the failing step's message. The missing-socket-URL branch never fires, because the filter already requires the URL. |
| CdpChat.SendSucceedsIffInputFound | src/cdp_chat.ts:133-196 | When the script runs normally, sending succeeds exactly when some selector yields an input. |
| CdpChat.NoInputErrorListsInputs | src/cdp_chat.ts:157-195 | When no selector yields an input, the thrown message is `CDP: ô chat không tìm thấy (method=none)` followed by `Debug:` and the input list. |
| CdpChat.ThrownScriptFails | src/cdp_chat.ts:172-195 | A script that threw gives `method=exception`. The debug line appears only when the exception message is non-empty. |
| BotCommands.ConfiguredString | src/extension.ts:22-28 | The token and chat-id settings are present exactly when they are non-empty. An empty string counts as unset. |
| BotCommands.DebuggingPort | src/extension.ts:35-37 | The port defaults to 9222 only when the setting is missing. A configured value, 0 included, is kept. |
| BotCommands.NoChatIdAcceptsEveryChat | src/extension.ts:26-28 | With the chat-id setting missing or empty no chat is rejected: any chat's non-empty `/ask` reaches the agent and any chat's non-empty `/cmd` runs in the terminal. |
| BotCommands.RejectedIff | src/extension.ts:101 | The contract of `IsRejected` on the setting as read: a message is rejected exactly when a non-empty chat id is configured and differs from the chat's id. |
| BotCommands.OnlyOneChatAccepted | src/extension.ts:101 | With a chat id configured, any two accepted chats are the same chat. |
| BotCommands.ConfiguredChatAccepted | src/extension.ts:101 | The configured chat itself is accepted. |
| BotCommands.ExtractArgument | src/extension.ts:102-104 | The split/shift/join/trim sequence yields exactly `CommandArgument`, the trimmed text after the first space. |
| BotCommands.ArgumentIsTrimmedPieceOfText | src/extension.ts:102-104 | The argument occurs in the message and has no whitespace at either end. |
| BotCommands.ArgumentEmptyIff | src/extension.ts:102-105 | The argument is empty, so the usage reply is given, exactly when only whitespace follows the first space. |
| BotCommands.NoSpaceGivesNoArgument | src/extension.ts:102-105 | Only a space separates the command: a message with no space at all has an empty argument (so `/ask` or `/cmd` get the usage reply), whatever line breaks it holds. |
| BotCommands.LineBreakDropsTextBeforeFirstSpace | src/extension.ts:102-105 | A line break is not a separator: for `/ask` + LF + `hello world` the query is `world`; the text up to the first space goes with the command token. |
| BotCommands.HandleAsk | src/extension.ts:100-107 | The handler rejects exactly the unauthorised chats. It sends to the agent exactly when the argument is non-empty, and sends that argument. Otherwise it replies with the `/ask` usage. |
| BotCommands.HandleCmd | src/extension.ts:130-138 | The same as `/ask`, but the argument runs in a terminal and the usage is that of `/cmd`. |
| BotCommands.HandleScreenshot | src/extension.ts:142-148 | Unauthorised chats are rejected. All others get a capture. |
| BotCommands.HandleText | src/extension.ts:166-168 | Text from other chats is silently ignored. Otherwise it is shown as `[Telegram] <text>`. |
| BotCommands.RejectedChatsGetNothingDone | src/extension.ts:100-169 | For a rejected chat, none of the four checked handlers (`/ask`, `/cmd`, `/screenshot`, text) does anything but reply `Unauthorized.` or stay silent. `/start` and `/help` (lines 87-98) have no check and answer every chat. |
| BotCommands.SendToAgentChat | src/extension.ts:39-65 | The calls made are a prefix of: CDP on the configured port, then chat.open with the query, then the clipboard write, then plain chat.open. Exactly one call is made when CDP succeeds, two when chat.open succeeds, three when the clipboard write fails, and all four otherwise. Delivery succeeds exactly when CDP or chat.open succeeds. The clipboard is written only when both fail. The final error carries the CDP message and the clipboard notice, or the clipboard's own error. |
| BotLifecycle.Extension.constructor | src/extension.ts:10 | At load there is no bot. |
| BotLifecycle.Extension.StartBot | src/extension.ts:69-186 | Without a token, or with a bot running, nothing changes. Otherwise a bot is created for the token and the chat id read at start. A synchronous setup failure resets `bot` to none. A running bot always has a non-empty token. |
| BotLifecycle.Extension.StopBot | src/extension.ts:188-193 | Without a bot it only warns. Otherwise it stops the bot and clears `bot`, except when `stop` throws, which leaves `bot` set. |
| BotLifecycle.Extension.SaveSettings | src/extension.ts:218-224 | Saving stops and restarts the bot. `stopped` reports `NotRunning` exactly when no bot was running and `Stopped` exactly when one was and its stop did not throw. When stopping throws, `startBot` is not reached and the old bot stays. Otherwise the start reports `MissingToken` for an empty token, `SetupFailed` for a setup throw and `Launched` otherwise, and a launched bot is the one for the new token and chat id. |

## Left out

- HTTP and JSON: `httpGet` and `JSON.parse` of the `/json` list and of socket frames are not modelled. Targets and messages arrive parsed, so an unreachable endpoint or malformed JSON is not modelled.
- Socket and timer transport: `CdpCall` receives the socket events as method calls. The order events arrive in is up to the caller. The real socket's close-then-`close` event sequence is not modelled.
- The injected script's DOM effects are not modelled: focus, `setNativeValue`, the input/change events, the key events and the 100/150 ms delays. The DOM is an oracle (`Page`). The script's source text is represented by `Search` and by `TemplateEscape.Cook` on the embedded text.
- `InjectedScript.IsMonacoInput` does not model `classList` beyond the tokens of the `class` attribute (no SVG `className` objects).
- `waitForAgentResponse` and `captureAgentScreenshot` are not part of this model. Neither are the full-screen screenshot fallback of `/screenshot` or the progress notification after `/ask`.
- The Telegram and VS Code glue is not modelled: reply texts other than `Unauthorized.` and the two usage lines, `/start` and `/help`, terminal selection (`activeTerminal ?? createTerminal`), `registerSlashCommands` (whose failure is only logged), `activate` and `deactivate`.
- `settings_view.ts`, `settings_provider.ts` and the `screenshot-desktop` type declarations are not part of this model.
- Text.IntToStringInjective: chat ids are unbounded integers. `Number#toString` beyond 2^53 and exponent notation are not modelled.
- TemplateEscape.EmbeddedTextSurvives: stated only for text without CR, as a corollary of `EmbeddedTextNormalisesLineEnds`, which covers all text. `Cook` models only the escapes the chain produces; other escape sequences read as `None`.
- BotLifecycle.Extension.StartBot: `bot.launch()` is not awaited. An asynchronous launch failure therefore leaves `bot` set. Only a synchronous setup throw (`setupThrows`) resets it.
- BotLifecycle.Extension.StartBot: it runs in one step. The real `startBot` sets `bot` (line 83), then awaits `registerSlashCommands` (line 173), then calls `bot.launch()` on whatever `bot` holds after the await (line 179). A `stopBot` or a settings save that runs during that await is not modelled, including stopping a bot that was never launched.
- BotLifecycle.Extension.SaveSettings: the new token and chat id are taken to be what `getToken` and `getAllowedChatId` read back after `cfg.update(..., Global)`. A workspace-scope value that overrides the global one is not modelled.
- CdpChat.SendViaCdp: takes the settlement of its `cdpSend` as a parameter, so it always returns. A `cdpSend` that never settles (see `PendingAfterEarlyClose`) leaves `sendViaCDP` (src/cdp_chat.ts:190) and `sendToAgentChat` (src/extension.ts:45) waiting for good: no fallback runs and `/ask` never replies.
- BotCommands.SendToAgentChat: `cdpErr.message` is taken to be the message of an `Error`. A thrown non-`Error` value, which would give `undefined`, is not modelled.
