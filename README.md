# picoclaw agent core, modelled in Dafny

This project models the core of picoclaw, a personal AI agent written in Go. Users talk to it over Telegram, and the model answers by calling tools. The Dafny files cover these parts:

- **Agent context** (`agent_context.dfy`). Builds what the language model is sent:
  - the system prompt: identity, bootstrap documents, skills and memory;
  - the session and summary footers;
  - the multimodal user message;
  - the history sanitiser. It enforces the provider's pairing rule: every assistant message with tool calls is followed by tool messages that answer all of them.
- **Telegram channel** (`telegram_text.dfy`, `telegram_channel.dfy`, `telegram_collision.dfy`):
  - message splitting, HTML escaping and the Markdown-to-HTML rewrite with its code-block placeholders;
  - the image-URL and code detectors and the PDF text limit;
  - sending a reply: the "thinking" indicator and placeholder, and the fall-backs from media to voice to HTML to plain text;
  - normalising an inbound update;
  - the reconnect back-off.
- **Council** (`council.dfy`, `council_tool.dfy`). Several model "members" answer a question in turn, each seeing the previous answers, until a deadline. Each answer is posted to a group chat, with truncation and a retry. The council tool validates the question, notifies the chat and formats the transcript.
- **Google tools**:
  - `gmail.dfy`: search, read (the body extraction and the header filter), send and reply (raw RFC 5322 message construction and threading), and labels;
  - `calendar.dfy`: list, create, update (a field-by-field merge on an event object), delete, and the list of calendars;
  - `gdrive.dfy`: list, search (query wrapping), read (export choice, size limit, truncation), upload, folder creation and sharing.
- **HTTP request tool** (`http_request.dfy`):
  - the SSRF screen. Go's address classification is proved equal to the reserved blocks of section 3.2.1.3 of RFC 1122, section 3 of RFC 1918, RFC 3927, section 3 of RFC 4193 and sections 2.5.6 and 2.7 of RFC 4291;
  - argument checks, the timeout clamp, the response body limit and the report.
- **Host exec tool** (`host_exec.dfy`): the deny-pattern guard, the working-directory wrap, the timeout cap, output assembly and truncation.

Shared string helpers (`common.dfy`) and the tool argument map and tool result (`tool_args.dfy`) support all of them.

Everything outside the process is an input to the model, never an assumption about it:
- remote APIs (the Telegram bot API, the Google services, the HTTP client, the LLM provider);
- the file system and clocks;
- regular-expression matchers, `url.Parse`, `net.ParseIP` and `%q`.

Where the Go code works by mutation, the model is imperative:
- loops are methods, with invariants, proved equal to a recursive specification function;
- objects whose fields change are classes with `modifies` frames.

## Model

| member | source | states |
|---|---|---|
| AgentContext.RunEnd | pkg/agent/context.go:287-293 | the lookahead stops at the first non-tool message or the end of the history, and every message it passes is a tool message |
| AgentContext.ExpectedIDs | pkg/agent/context.go:281-284 | the expected map holds exactly the declared call ids, each marked not found |
| AgentContext.LookAhead | pkg/agent/context.go:286-293 | walks exactly the tool run after the opener; an id is marked found iff some tool message of that run answers it, and no key is added |
| AgentContext.AllFound | pkg/agent/context.go:295-302 | the map scan answers true iff every entry is marked found, whatever order the map yields |
| AgentContext.AllFoundMeansAllAnswered | pkg/agent/context.go:295-302 | the map answer agrees with "every declared call is answered in the run" |
| AgentContext.CheckBlock | pkg/agent/context.go:279-302 | the block check returns the end of the tool run and whether every declared call is answered in it |
| AgentContext.AppendBlock | pkg/agent/context.go:304-310 | appends the opener and its whole tool run, in order |
| AgentContext.SanitizeHistory | pkg/agent/context.go:259-326 | the imperative scan returns exactly the sanitised history of the recursive specification (an empty history comes back unchanged) |
| AgentContext.ValidIsFixedPoint | pkg/agent/context.go:255-258 | a history that already satisfies the pairing rule passes the sanitiser unchanged |
| AgentContext.SanitizedFromHead | pkg/agent/context.go:270-276 | the output never starts with a tool message |
| AgentContext.SanitizedIsValid | pkg/agent/context.go:255-258 | the output satisfies the pairing rule: each tool message follows a tool message or a kept block opener, and every kept opener has all its calls answered in the run after it |
| AgentContext.PrependBlock | pkg/agent/context.go:304-310 | a plain message or a complete block in front of a valid history that does not start with a tool message keeps it valid |
| AgentContext.SanitizedIsSubsequence | pkg/agent/context.go:264-325 | the output is a subsequence of the input in original order, so it is never longer |
| AgentContext.PlainMessagesPreserved | pkg/agent/context.go:320-322 | user, system and tool-free assistant messages all survive, unchanged and in order |
| AgentContext.SanitizeIdempotent | pkg/agent/context.go:259-326 | sanitising twice is sanitising once |
| AgentContext.OrphanToolDropped | pkg/agent/context.go:271-276 | a lone tool message is dropped: `[tool(x)]` becomes `[]` |
| AgentContext.UnansweredBlockDropped | pkg/agent/context.go:311-317 | `[user, assistant(A,B), tool(A)]` becomes `[user]`: the opener and its whole run go when a call is unanswered |
| AgentContext.AnsweredBlockKept | pkg/agent/context.go:304-310 | a block whose calls are all answered, in any order, is kept verbatim |
| AgentContext.UndeclaredReplyKept | pkg/agent/context.go:287-310 | `[assistant(A), tool(A), tool(Z)]` is kept whole: a complete block keeps a reply to the undeclared id Z |
| AgentContext.BootstrapEmptyIffNoFiles | pkg/agent/context.go:150-167 | the bootstrap text is empty exactly when none of the four documents exists |
| AgentContext.ImageParts | pkg/agent/context.go:223-233 | every image part carries a `data:image/` URL with detail "auto", and there are never more parts than media entries |
| AgentContext.ImagePartsAreImageMedia | pkg/agent/context.go:223-233 | the image URLs are media entries; all-image media gives one part each, media without images gives none |
| AgentContext.ImagePartsAppend | pkg/agent/context.go:223-233 | one more media entry adds one image part exactly when it has the `data:image/` prefix, at the end |
| AgentContext.ContextBuilder.constructor | pkg/agent/context.go:33-45 | a new builder serves the given workspace, with no model name and no tool registry |
| AgentContext.ContextBuilder.SetToolsRegistry | pkg/agent/context.go:48-50 | replaces the registry and nothing else |
| AgentContext.ContextBuilder.SetModel | pkg/agent/context.go:53-55 | replaces the model name and nothing else |
| AgentContext.ContextBuilder.BuildToolsSection | pkg/agent/context.go:96-116 | the tools section is the header plus one line per summary, and is empty iff there is no registry or it has no summaries |
| AgentContext.ContextBuilder.LoadBootstrapFiles | pkg/agent/context.go:150-167 | one section per existing document in the fixed order AGENTS, SOUL, USER, IDENTITY; empty iff none exists |
| AgentContext.ContextBuilder.BuildSystemPrompt | pkg/agent/context.go:118-148 | identity, bootstrap, skills and memory in that order, empty sections left out, joined by the `---` separator |
| AgentContext.ContextBuilder.BuildMessages | pkg/agent/context.go:169-240 | the system message (prompt, then the session footer only when channel and chat id are both set, then the summary footer), then the sanitised history, then exactly one user message |
| AgentContext.BuildUserMessage | pkg/agent/context.go:212-235 | the user message carries the current text; its parts exist only when media came along, text first, then the image parts |
| AgentContext.PromptStartsWithIdentity | pkg/agent/context.go:118-122 | the system prompt always opens with the identity block |
| AgentContext.PromptIdentityOnly | pkg/agent/context.go:118-148 | with no bootstrap, skills or memory text the prompt is the identity block alone |
| AgentContext.PromptEndsWithMemory | pkg/agent/context.go:140-147 | with memory text the prompt ends with the separator and the memory section |
| TelegramText.SplitPoint | pkg/channels/telegram.go:721-731 | the cut is within the limit; a cut before the limit is at a line break at or past a quarter of it; the last blank line is taken when it lies in the second half |
| TelegramText.FindSplit | pkg/channels/telegram.go:721-731 | the split-point computation of one iteration agrees with the specification of the cut |
| TelegramText.SplitMessage | pkg/channels/telegram.go:709-738 | the loop that reassigns the remaining text returns exactly the specified chunks |
| TelegramText.FitsWhole | pkg/channels/telegram.go:710-712 | a text within the limit is returned as its only chunk |
| TelegramText.SplitFits | pkg/channels/telegram.go:709-738 | every chunk fits the limit |
| TelegramText.SplitKeepsText | pkg/channels/telegram.go:733-734 | splitting drops only whitespace at chunk boundaries: the chunks carry the same non-space characters as the text, in order |
| TelegramText.SplitHardCut | pkg/channels/telegram.go:728-731 | a long text with no line break in the window is cut at exactly the limit |
| TelegramText.EscapeIsPerCharacter | pkg/channels/telegram.go:855-860 | the three passes replace each `&`, `<` and `>` by its entity and keep every other character |
| TelegramText.EscapedHasNoBrackets | pkg/channels/telegram.go:855-860 | escaped text contains no angle brackets |
| TelegramText.EscapeRoundTrip | pkg/channels/telegram.go:855-860 | because `&` is escaped first, unescaping `&lt;`, `&gt;`, `&amp;` gives back the original text |
| TelegramText.BlockAt | pkg/channels/telegram.go:39 | a fenced-block match starts and ends with a fence, captures the text before the first closing fence after the tag, and there is none when no closing fence follows |
| TelegramText.InlineAt | pkg/channels/telegram.go:30 | an inline-code match is a backtick, at least one non-backtick character, and the next backtick; there is none exactly when no such span starts there |
| TelegramText.NextMatch | pkg/channels/telegram.go:814 | the leftmost match at or after a position: no match starts between that position and it |
| TelegramText.FindAll | pkg/channels/telegram.go:814 | the successive matches lie within the text, in increasing order |
| TelegramText.Codes | pkg/channels/telegram.go:816-819 | the captured codes, one per match, in match order |
| TelegramText.Placeholder | pkg/channels/telegram.go:823 | a placeholder is NUL, the two-letter tag, the decimal number, NUL |
| TelegramText.PlaceholderUnique | pkg/channels/telegram.go:823 | a text that starts with one placeholder starts with no other of the same kind |
| TelegramText.TextLayout | pkg/channels/telegram.go:813-829 | the original text is the text between matches woven with the matched texts |
| TelegramText.ExtractedLayout | pkg/channels/telegram.go:821-826 | the extracted text is the same gaps woven with placeholders numbered in match order, so the i-th placeholder stands where the i-th match was |
| TelegramText.ScanCoversMatches | pkg/channels/telegram.go:814 | the scan misses nothing: wherever the pattern matches, a found match covers that position |
| TelegramText.MarkdownToTelegramHTML | pkg/channels/telegram.go:760-806 | the two reinsertion loops compute the as-written conversion; an empty text gives "" |
| TelegramText.ExpandRestores | pkg/channels/telegram.go:795-803 | single-pass reinsertion puts the HTML of the i-th code exactly where the i-th placeholder was, when the text around them has no NUL |
| TelegramText.ExtractThenExpand | pkg/channels/telegram.go:813-829 | for input without NUL, extraction then single-pass reinsertion puts the i-th HTML where the i-th match was and keeps the text between matches |
| TelegramText.ExtractRoundTrip | pkg/channels/telegram.go:813-829 | extraction followed by reinsertion of the matched texts gives back the input |
| TelegramText.IsImageURL | pkg/channels/telegram.go:741-752 | the loop answers true iff the URL is a `data:image/` URI or its lower-cased form ends with a known extension or has one right before a query |
| TelegramText.ImageURLCaseInsensitive | pkg/channels/telegram.go:745-749 | only the letter case differs, so the extension test gives the same answer |
| TelegramText.UpperCaseExtension | pkg/channels/telegram.go:745-749 | `x.PNG` is an image URL |
| TelegramText.ExtensionBeforeQuery | pkg/channels/telegram.go:747 | `a.jpg?w=1` is an image URL |
| TelegramText.OtherExtension | pkg/channels/telegram.go:746 | `a.txt` is not |
| TelegramText.InlineScanComplete | pkg/channels/telegram.go:30 | the scanner finds an inline span exactly when one exists |
| TelegramText.ContainsCodeIff | pkg/channels/telegram.go:354-356 | `containsCode` holds iff a fence occurs or an inline-code span exists |
| TelegramText.PdfExcerpt | pkg/channels/telegram.go:618-639 | a failed extraction gives ""; otherwise the trimmed output, cut to 15000 characters plus the note when longer, never longer than the limit plus the note |
| TelegramCollision.ExtractedInput | pkg/channels/telegram.go:813-829 | the three blocks of the example input become placeholders 0, 1, 2 with the letters `CB0` left between the second and third |
| TelegramCollision.CollisionAsWritten | pkg/channels/telegram.go:800-803 | as written, the conversion of the example input leaks a NUL and `CB1`, shows block a twice and loses blocks b and c |
| TelegramCollision.CollisionFixed | pkg/channels/telegram.go:800-803 | with single-pass reinsertion every block is back once in its place and the letters `CB0` are kept |
| Telegram.VoiceMarker | pkg/channels/telegram.go:452-471 | the line recorded for a voice note is never empty, whether transcription is unavailable, failed or succeeded |
| Telegram.DocumentMarker | pkg/channels/telegram.go:506-526 | the line recorded for a document (PDF text, failed PDF, or other file) is never empty |
| Telegram.Normalise | pkg/channels/telegram.go:393-532 | the collected content and media equal the specification's `InboundContent` and `InboundMedia`: text, caption, photo, voice, audio and document lines joined by newlines, `[empty message]` when nothing is present |
| Telegram.AddLineJoins | pkg/channels/telegram.go:413-418 | appending a part with the "add a newline when content is non-empty" rule gives the newline join of all parts so far |
| Telegram.InboundNeverEmpty | pkg/channels/telegram.go:530-532 | the content handed to the bus is never empty |
| Telegram.TextFirst | pkg/channels/telegram.go:409-411 | when the message has text, the content starts with that text |
| Telegram.PdfNotMedia | pkg/channels/telegram.go:506-526 | a PDF document never joins the media list, and when saved its line is part of the content |
| Telegram.TextSendsOkIff | pkg/channels/telegram.go:287-302 | the chunk loop succeeds iff every remaining chunk goes through as HTML or, failing that, as plain text |
| Telegram.TextSendsOnlyText | pkg/channels/telegram.go:287-300 | the chunk loop only ever sends text messages to the same chat |
| Telegram.TextSendsInOrder | pkg/channels/telegram.go:287-300 | the HTML texts sent are a prefix of the chunks, in order |
| Telegram.MediaSuccessEndsSend | pkg/channels/telegram.go:225-267 | when the first media item goes through, exactly that one call is made and the send succeeds without touching the voice flag |
| Telegram.OnlyFirstMedia | pkg/channels/telegram.go:225-267 | only the first media item is ever attempted (the loop breaks or returns on it), with the content as caption; no media call when there is no media |
| Telegram.VoiceOnlyWhenAsked | pkg/channels/telegram.go:269-281 | a voice reply is attempted iff media did not succeed, the user spoke, and the stripped text is non-empty, at most 300 characters and free of code |
| Telegram.DeliverOkIff | pkg/channels/telegram.go:225-302 | the send succeeds iff media went through, or the voice reply went through, or every text chunk went through as HTML or plain text |
| Telegram.VoiceFlagConsumed | pkg/channels/telegram.go:270 | the voice flag is consumed iff the send gets past the media step |
| Telegram.SenderID | pkg/channels/telegram.go:369-373 | the sender id starts with the numeric user id and equals it iff the user has no username |
| Telegram.Routing | pkg/channels/telegram.go:358-391 | a message that is not dropped comes from a user, whose sender id is recorded |
| Telegram.RoutingIff | pkg/channels/telegram.go:358-391 | a message is handled iff it has a sender admitted by id or by `id|username`; it is published iff in addition it is not the bare `/model` command |
| Telegram.NextBackoff | pkg/channels/telegram.go:178-181 | the next wait doubles the current one, capped at five minutes, and never decreases below the cap |
| Telegram.BackoffBounds | pkg/channels/telegram.go:160-181 | every wait lies between two seconds and five minutes, and waits never shrink |
| Telegram.BackoffClosedForm | pkg/channels/telegram.go:160-181 | the k-th wait is 2^(k+1) seconds, capped at five minutes |
| Telegram.BackoffSaturates | pkg/channels/telegram.go:160-181 | from the ninth attempt on the wait is five minutes |
| Telegram.FirstSettled | pkg/channels/telegram.go:163-185 | the index of the first attempt that does not fail: all earlier ones failed |
| Telegram.ReconnectWaits | pkg/channels/telegram.go:159-186 | the loop waits once per attempt up to the first that does not fail, the i-th wait is the capped doubling, and it reports connected iff that attempt connected |
| Telegram.ScheduleAt | pkg/channels/telegram.go:160-181 | the i-th wait of the loop's schedule is the i-th capped doubling |
| Telegram.SettledAt | pkg/channels/telegram.go:163-185 | the first non-failing attempt is unique: any index with only failures before it and a non-failure at it is that index |
| Telegram.TelegramChannel.constructor | pkg/channels/telegram.go:73-105 | a new channel is not running and all its per-chat tables are empty |
| Telegram.TelegramChannel.Start | pkg/channels/telegram.go:111-129 | the channel runs after a start whose polling connected |
| Telegram.TelegramChannel.ReconnectPolling | pkg/channels/telegram.go:159-186 | waits follow the capped doubling, and the channel runs afterwards iff it ran before or an attempt connected |
| Telegram.TelegramChannel.Stop | pkg/channels/telegram.go:188-192 | the channel no longer runs |
| Telegram.TelegramChannel.Send | pkg/channels/telegram.go:197-303 | refuses when stopped or for a bad chat id, changing nothing; otherwise cancels and removes the thinking indicator, deletes the placeholder, makes exactly the delivery calls, with the reply converted by `markdownToTelegramHTML` as written, and reports success iff the delivery succeeded |
| Telegram.TelegramChannel.DeliverReply | pkg/channels/telegram.go:224-302 | the calls and result are those of the delivery, and the voice flag is cleared iff the media step did not end the send |
| Telegram.TelegramChannel.ReplyAfterMedia | pkg/channels/telegram.go:269-302 | after the media step the voice flag is always cleared and the calls are those of the voice-or-text step |
| Telegram.TelegramChannel.SendReplyText | pkg/channels/telegram.go:283-302 | the text reply splits the HTML into 4096-character chunks and makes the chunk loop's calls |
| Telegram.TelegramChannel.StopThinking | pkg/channels/telegram.go:207-222 | the chat's thinking indicator is cancelled and forgotten, and its placeholder message is deleted and forgotten |
| Telegram.TelegramChannel.SendChunks | pkg/channels/telegram.go:287-302 | appends exactly the chunk loop's calls and returns its result |
| Telegram.TelegramChannel.HandleMessage | pkg/channels/telegram.go:358-575 | dropped messages change nothing; `/model` records the chat and shows the menu; other admitted messages record the chat, set or clear the voice flag, send typing and the thinking message, replace the thinking indicator, and publish the normalised message |
| Telegram.TelegramChannel.Accept | pkg/channels/telegram.go:437-575 | the new state after an admitted message: voice flag, the two calls, the replaced indicator, the placeholder, and the published message |
| Telegram.TelegramChannel.RememberVoice | pkg/channels/telegram.go:437-444 | the chat's voice flag is set iff the message carries voice or audio |
| Telegram.TelegramChannel.StartThinking | pkg/channels/telegram.go:548-575 | a previous indicator for the chat is cancelled, a fresh one is stored, and a sent placeholder is remembered |
| Telegram.ChunkCalls | pkg/channels/telegram.go:287-302 | the loop's calls and result equal the specification of the chunk loop |
| Council.MemberFrom | pkg/council/council.go:68-78 | a member keeps its configured name and the loaded personality text, and uses its own model or else the default model |
| Council.SurvivorsAppend | pkg/council/council.go:49-79 | the members kept from a concatenation of configurations are the members kept from each part, in order |
| Council.SurvivorsEmptyIff | pkg/council/council.go:50-83 | no member survives iff no configuration got both its bot and its personality file |
| Council.SurvivorsAllLoaded | pkg/council/council.go:50-79 | when every configuration loads, every configuration becomes a member, in order |
| Council.NewCouncil | pkg/council/council.go:43-91 | a group id that does not parse is refused; no surviving member is refused; otherwise the council holds exactly the surviving members, the group id and the default model |
| Council.SystemPrompt | pkg/council/council.go:110-114 | a member's system prompt starts with its personality and ends with the deliberation instructions |
| Council.UserContentGrows | pkg/council/council.go:116-122 | the first member sees only the question; the earlier-answers heading appears once, and each later response adds exactly its own block |
| Council.BuildUserContent | pkg/council/council.go:116-122 | the loop's text equals the specification of the user message |
| Council.Clip | pkg/council/council.go:157-160 | a post never exceeds 4096 characters, is unchanged when it fits, and otherwise keeps the first 4093 characters followed by `...` |
| Council.PostToGroup | pkg/council/council.go:154-179 | one HTML post to the group when it succeeds, else a second plain post; every post goes to the group and fits the limit |
| Council.Responses | pkg/council/council.go:100-148 | one response per member that took a turn |
| Council.Prompts | pkg/council/council.go:124-129 | one prompt per member that took a turn |
| Council.TurnsTaken | pkg/council/council.go:102-107 | members take turns until all have spoken or the deadline stops the loop, whichever is first |
| Council.Deliberate | pkg/council/council.go:95-151 | the loop's responses, prompts, group posts and error equal the specification of a deliberation |
| Council.Turn | pkg/council/council.go:109-147 | one member's turn: its prompt sees the earlier responses, its entry is the trimmed reply or `[Error: …]`, and it posts only on success |
| Council.ResponsesShape | pkg/council/council.go:130-144 | the k-th response belongs to the k-th member and is that member's reply or error |
| Council.ResponsesPrefix | pkg/council/council.go:100-148 | responses only grow: the first k after n turns are those after k turns |
| Council.PromptAt | pkg/council/council.go:116-129 | the k-th member is prompted with exactly the responses of the members before it |
| Council.PromptsSeePrior | pkg/council/council.go:116-129 | every prompt includes all and only the earlier responses |
| Council.PostingsFaithful | pkg/council/council.go:146-147 | every group post belongs to a member that took a turn and is that member's own post |
| Council.PostingsOrdered | pkg/council/council.go:102-148 | group posts appear in member order |
| Council.PostingsComplete | pkg/council/council.go:140-147 | every member that answered before the deadline posted to the group |
| Council.PostingForShape | pkg/council/council.go:130-147 | a member posts nothing iff its model call failed, and posts its trimmed reply otherwise |
| Council.NoDeadlineEveryoneAnswers | pkg/council/council.go:100-150 | without a deadline every member answers in order and no error is returned |
| Council.DeadlineStops | pkg/council/council.go:103-106 | a deadline stops the loop with the context error, keeping the responses gathered so far and no later post |
| CouncilTools.SectionsAppend | pkg/tools/council.go:80-82 | the transcript sections of concatenated responses are the sections of each part |
| CouncilTools.FormatTranscript | pkg/tools/council.go:76-83 | the builder's text equals the specification of the transcript |
| CouncilTools.MissingQuestionRefused | pkg/tools/council.go:57-60 | a missing or empty question is an error result, not silent |
| CouncilTools.DeadlineIsError | pkg/tools/council.go:71-74 | a deliberation that hits the deadline is reported as an error with the failure lead |
| CouncilTools.CompletedIsTranscript | pkg/tools/council.go:76-88 | a completed deliberation returns a silent transcript that has one section per member, in order |
| CouncilTools.CouncilTool.constructor | pkg/tools/council.go:20-22 | a new tool holds the council and no callback or default chat |
| CouncilTools.CouncilTool.SetContext | pkg/tools/council.go:47-50 | the default channel and chat are replaced |
| CouncilTools.CouncilTool.SetSendCallback | pkg/tools/council.go:52-54 | the callback is set or cleared |
| CouncilTools.CouncilTool.Execute | pkg/tools/council.go:56-89 | the result is the specification's outcome, and a start notice is sent iff the question is present and a callback, channel and chat are all set |
| Gmail.FirstHtml | pkg/tools/gmail.go:201-209 | the HTML fall-back is absent iff no direct child decodes as HTML, and otherwise is the first child that does |
| Gmail.PartsAsWrittenNone | pkg/tools/gmail.go:187-199 | as written, the loop over the remaining children finds nothing iff each of them is passed over (not plain text, and no children or an empty nested result) |
| Gmail.PartsAsWrittenFirst | pkg/tools/gmail.go:187-193 | as written, the first child that decodes as plain text, after children that are all passed over, is the loop's result |
| Gmail.PartsAsWrittenNested | pkg/tools/gmail.go:194-197 | as written, the first multipart child with a non-empty nested result, after children that are all passed over, is the loop's result |
| Gmail.DirectPlainWins | pkg/tools/gmail.go:178-184 | a payload that is itself decodable plain text gives its own text, as written and as corrected |
| Gmail.WrittenFirstPlainChild | pkg/tools/gmail.go:187-193 | as written, otherwise the first decodable plain-text child, after children passed over, is the body |
| Gmail.WrittenNestedWins | pkg/tools/gmail.go:194-197 | as written, a multipart child whose nested result is non-empty, after children passed over, gives the body, even when that result is `(no readable body)` |
| Gmail.WrittenHtmlFallback | pkg/tools/gmail.go:201-211 | as written, when every child is passed over, the body is the first HTML child marked `[HTML content]`, or `(no readable body)` |
| Gmail.SearchPartsNone | pkg/tools/gmail.go:187-199 | with the fix, the search over the remaining children finds nothing iff each of them is skipped |
| Gmail.SearchPartsFirst | pkg/tools/gmail.go:187-193 | with the fix, the first child that decodes as plain text, after children that are all skipped, is the result |
| Gmail.FirstPlainChild | pkg/tools/gmail.go:187-193 | with the fix, the first decodable plain-text child, after skipped children, is the body |
| Gmail.HtmlFallback | pkg/tools/gmail.go:201-211 | with the fix, when no child yields text, the body is the first HTML child marked `[HTML content]`, or `(no readable body)` |
| Gmail.SearchNonEmpty | pkg/tools/gmail.go:194-197 | when decoding keeps content, the corrected search never returns an empty text, so "nothing found" and "found text" cannot be confused |
| Gmail.PlainIsFound | pkg/tools/gmail.go:186-199 | with the fix, a message holding decodable plain text anywhere in its tree always gets a readable body (plain text, or an HTML part met first), never `(no readable body)` |
| Gmail.FlatPayloadAgrees | pkg/tools/gmail.go:177-212 | on messages whose children have no children the as-written and corrected bodies agree |
| Gmail.NestedSentinelShadowsPlain | pkg/tools/gmail.go:194-199 | as written, a nested part whose only child is an image returns `(no readable body)`, which is non-empty and so hides the plain text `hi` in a later sibling; the corrected body finds it |
| Gmail.LastValueSnoc | pkg/tools/gmail.go:129-139 | scanning headers, a later header with the name overrides earlier ones |
| Gmail.LastValueAbsent | pkg/tools/gmail.go:129 | a header that never occurs reads as empty |
| Gmail.LastValueIsLast | pkg/tools/gmail.go:129-139 | the value read is that of the last header with the name |
| Gmail.LastValues | pkg/tools/gmail.go:129-139 | the header loop reads, for each wanted name, the value of the last header with that name |
| Gmail.ShownHeadersAppend | pkg/tools/gmail.go:162-167 | the shown header lines of concatenated headers are those of each part |
| Gmail.Kept | pkg/tools/gmail.go:162-167 | exactly the From, To, Cc, Subject and Date headers are shown, in order, never more than there are |
| Gmail.ShownAreKept | pkg/tools/gmail.go:162-167 | the header text is one `name: value` line per kept header |
| Gmail.FormatRead | pkg/tools/gmail.go:159-174 | the read text is the shown header lines, an empty line and the body |
| Gmail.RawStartsWithFirstHeader | pkg/tools/gmail.go:224-225 | the raw message starts with its first header line |
| Gmail.RawEndsWithBody | pkg/tools/gmail.go:230-232 | the raw message ends with an empty line and the body, which follows the header block exactly |
| Gmail.HeaderBlockEndsInCrlf | pkg/tools/gmail.go:224-231 | every header block ends in CRLF |
| Gmail.SendCc | pkg/tools/gmail.go:225-231 | a Cc header is present iff a Cc was given and then carries it; the headers are To, optional Cc, Subject, MIME-Version, Content-Type in that order |
| Gmail.ReplySubjectIdempotent | pkg/tools/gmail.go:275-277 | a reply subject starts with `re:` in any case, ends with the original subject, and is not prefixed twice |
| Gmail.ReferencesExtend | pkg/tools/gmail.go:279-285 | the references chain ends with the original message id and extends existing references after a space |
| Gmail.ReplyThreads | pkg/tools/gmail.go:246-299 | a reply stays in the original thread, goes to the original sender, carries In-Reply-To the original id and a references chain ending in it, has a `Re:` subject and ends with the body |
| Gmail.EntriesAppend | pkg/tools/gmail.go:122-143 | search entries over concatenated ids are the entries of each part with numbering continued |
| Gmail.EntriesNumbered | pkg/tools/gmail.go:122-143 | the k-th id is listed with number k+1, between the entries before and after it |
| Gmail.FailedLookupsStillCounted | pkg/tools/gmail.go:120-127 | when every lookup fails, the header still counts all messages and no entry follows |
| Gmail.FormatEntry | pkg/tools/gmail.go:123-142 | one entry: nothing for a failed lookup, else the numbered id, sender, subject and date |
| Gmail.FormatSearch | pkg/tools/gmail.go:119-145 | the builder's text equals the specification of the search listing |
| Gmail.LabelLinesAppend | pkg/tools/gmail.go:317-319 | label lines of concatenated labels are the lines of each part |
| Gmail.FormatLabels | pkg/tools/gmail.go:315-321 | the listing is `Labels:` followed by one `- name (ID: id)` line per label |
| Gmail.ServiceErrorFirst | pkg/tools/gmail.go:78-81 | a service that cannot be created gives an error and nothing is sent, whatever the action |
| Gmail.UnknownAction | pkg/tools/gmail.go:94-95 | an unknown action is an error naming the action, and nothing is sent |
| Gmail.SendsOnlyWhenComplete | pkg/tools/gmail.go:214-307 | a message is sent only by `send` with recipient, subject and body, or by `reply` with id and body whose original was found |
| Gmail.SendComposes | pkg/tools/gmail.go:214-243 | `send` transmits the composed raw message, with a Cc line iff a Cc was given, ending in the body, and reports an error iff the transmission failed |
| Gmail.SearchAction | pkg/tools/gmail.go:99-146 | the search result equals the specification: query required, default of ten results, list failure, "No messages found." or the listing |
| Gmail.ReadAction | pkg/tools/gmail.go:148-175 | the read result equals the specification: the kept headers, then the body extracted as written |
| Gmail.ReplyAction | pkg/tools/gmail.go:246-307 | the reply result and the message sent equal the specification |
| Gmail.ListLabels | pkg/tools/gmail.go:309-322 | the label result equals the specification |
| Gmail.Execute | pkg/tools/gmail.go:75-97 | the tool's result and the message sent equal the specification's outcome for every action |
| Calendar.CalendarIDChoice | pkg/tools/calendar.go:115-120 | the calendar is the given `calendar_id` when non-empty and `primary` otherwise, so never empty |
| Calendar.Cleaned | pkg/tools/calendar.go:211-216 | the attendee list keeps only trimmed, non-empty addresses and never grows |
| Calendar.CleanedAppend | pkg/tools/calendar.go:211-216 | cleaning concatenated pieces cleans each part |
| Calendar.CleanedOfClean | pkg/tools/calendar.go:211-216 | pieces that are already trimmed and non-empty are kept as they are |
| Calendar.AttendeesRoundTrip | pkg/tools/calendar.go:210-216 | a comma list of clean addresses parses to its pieces, and joining them with commas gives the list back |
| Calendar.CleanedEmpty | pkg/tools/calendar.go:211-216 | no attendee is added iff every piece is blank |
| Calendar.ParseAttendees | pkg/tools/calendar.go:210-217 | the loop's attendee list equals the specification of the parsed list |
| Calendar.MergeWithoutUpdates | pkg/tools/calendar.go:241-265 | an update with no non-empty field leaves the event as fetched |
| Calendar.MergeIdempotent | pkg/tools/calendar.go:241-265 | applying the same update twice is the same as applying it once |
| Calendar.MergeLaterWins | pkg/tools/calendar.go:241-265 | the id and link are never changed; a later non-empty summary or attendee list replaces the earlier one, and an empty one keeps it |
| Calendar.Event.constructor | pkg/tools/calendar.go:236 | the fetched event holds the data the service returned |
| Calendar.Event.Apply | pkg/tools/calendar.go:241-265 | the event after the updates is the merge of the old event with the arguments |
| Calendar.Event.ApplyText | pkg/tools/calendar.go:242-250 | summary, description and location are each replaced by a non-empty argument and kept otherwise |
| Calendar.Event.ApplyTimes | pkg/tools/calendar.go:251-256 | start and end are each replaced by a non-empty argument, as a date-time, and kept otherwise |
| Calendar.Event.ApplyAttendees | pkg/tools/calendar.go:257-265 | a non-empty attendee argument replaces the list with the parsed addresses; otherwise the list is kept |
| Calendar.CreateAgreesWithUpdate | pkg/tools/calendar.go:198-217 | a created event is a fixed point of the update with the same arguments |
| Calendar.CreatedShape | pkg/tools/calendar.go:190-217 | a created event has the given non-empty summary, the given start and end as date-times, and clean attendees |
| Calendar.BuildEvent | pkg/tools/calendar.go:190-217 | the event built equals the specification: none without summary, start and end |
| Calendar.ClipDescriptionBounds | pkg/tools/calendar.go:174-178 | a description longer than 200 characters is cut to its first 200 plus `...`; a shorter one is shown whole |
| Calendar.EventEntriesAppend | pkg/tools/calendar.go:159-182 | event entries of concatenated lists are the entries of each part with numbering continued |
| Calendar.EventEntriesSnoc | pkg/tools/calendar.go:159-182 | the i-th event is listed with number i+1 after the earlier ones |
| Calendar.FormatEvent | pkg/tools/calendar.go:160-181 | one entry: number, summary, id, start and end (date-time or all-day date), location and clipped description only when present |
| Calendar.FormatEvents | pkg/tools/calendar.go:156-184 | the builder's text equals the specification of the event listing |
| Calendar.CalendarLinesAppend | pkg/tools/calendar.go:298-304 | calendar lines of concatenated lists are the lines of each part |
| Calendar.FormatCalendars | pkg/tools/calendar.go:296-306 | the listing is `Calendars:` followed by one line per calendar, marked `(primary)` when it is |
| Calendar.DeleteRules | pkg/tools/calendar.go:275-288 | `delete_event` refuses an empty event id, reports a failed deletion with the service error, otherwise confirms the id, and submits no event |
| Calendar.UnknownAction | pkg/tools/calendar.go:110-111 | an unknown action is an error naming it and nothing is submitted |
| Calendar.SubmittedEvents | pkg/tools/calendar.go:187-273 | an event is submitted only by create, as requested, or by update, as the fetched event merged with the arguments |
| Calendar.ListQuery | pkg/tools/calendar.go:123-139 | the listing window defaults to now and a week later, given bounds are used, and the result count is positive, 10 by default |
| Calendar.ListEvents | pkg/tools/calendar.go:122-185 | the listing result equals the specification |
| Calendar.CreateEvent | pkg/tools/calendar.go:187-225 | the creation result and event submitted equal the specification |
| Calendar.UpdateEvent | pkg/tools/calendar.go:227-273 | the update result and event submitted equal the specification |
| Calendar.ListCalendars | pkg/tools/calendar.go:290-307 | the calendar listing result equals the specification |
| Calendar.Execute | pkg/tools/calendar.go:91-113 | the tool's result and event submitted equal the specification's outcome for every action, including delete |
| Drive.SearchQueryWraps | pkg/tools/gdrive.go:165-168 | a query with an operator is sent unchanged; a plain query is wrapped as a name search on non-trashed files; the result always has an operator, so wrapping twice changes nothing |
| Drive.FolderLabel | pkg/tools/gdrive.go:143-146 | an entry is labelled `folder` iff its type is the Drive folder type, and `file` otherwise |
| Drive.FormatFiles | pkg/tools/gdrive.go:139-151 | the builder's text equals the specification of the file listing |
| Drive.FormatResults | pkg/tools/gdrive.go:183-191 | the builder's text equals the specification of the search listing |
| Drive.TruncatedBounds | pkg/tools/gdrive.go:251-254 | content of at most 50000 characters is kept whole; longer content keeps its first 50000 and ends with the truncation note |
| Drive.UnknownAction | pkg/tools/gdrive.go:108-109 | an unknown action is an error naming it and no request is made |
| Drive.ReadLimits | pkg/tools/gdrive.go:194-257 | Docs and Slides export as plain text, Sheets as CSV, other files download only up to 1 MB and are refused above it, and the text shown is bounded by the truncation |
| Drive.UploadDefaults | pkg/tools/gdrive.go:259-279 | an upload carries the name and content, plain text by default, and a parent iff a folder is given |
| Drive.FolderDefaults | pkg/tools/gdrive.go:292-305 | a new folder has the folder type, no content, and a parent iff one is given |
| Drive.ShareDefaults | pkg/tools/gdrive.go:315-334 | sharing creates a user permission for the given address, with the reader role by default |
| Drive.ChangesNeedArguments | pkg/tools/gdrive.go:259-340 | a request that changes the drive comes only from upload, create_folder or share, with their required arguments present |
| Drive.ListFiles | pkg/tools/gdrive.go:113-152 | the listing result equals the specification: `root` and 20 by default, error, "No files found." or the listing |
| Drive.Search | pkg/tools/gdrive.go:154-192 | the search result equals the specification |
| Drive.Read | pkg/tools/gdrive.go:194-257 | the read result and the request made equal the specification |
| Drive.Execute | pkg/tools/gdrive.go:87-111 | the tool's result and request equal the specification's outcome for every action |
| HttpRequest.InV4Bytes | pkg/tools/http_request.go:167 | membership of an IPv4 prefix of 8, 12, 16 or 24 bits reads off the leading bytes of the mapped address |
| HttpRequest.LoopbackIsBlock | pkg/tools/http_request.go:167 | the loopback test holds exactly for 127.0.0.0/8 and ::1 |
| HttpRequest.PrivateIsBlock | pkg/tools/http_request.go:167 | the private test holds exactly for 10.0.0.0/8, 172.16.0.0/12, 192.168.0.0/16 and fc00::/7 |
| HttpRequest.LinkLocalIsBlock | pkg/tools/http_request.go:167 | the link-local unicast test holds exactly for 169.254.0.0/16 and fe80::/10 |
| HttpRequest.LinkLocalMulticastIsBlock | pkg/tools/http_request.go:167 | the link-local multicast test holds exactly for 224.0.0.0/24 and the IPv6 multicast addresses with link-local scope |
| HttpRequest.BlockedIsReserved | pkg/tools/http_request.go:166-170 | an address is refused by the four tests iff it lies in one of the reserved blocks |
| HttpRequest.HostToCheck | pkg/tools/http_request.go:148-162 | a host is checked further iff the URL parses, its scheme is http or https, and its host is not one of the four literal local names; it is the URL's host |
| HttpRequest.ValidateURL | pkg/tools/http_request.go:147-162 | a URL that does not parse, a scheme other than http or https, and a literal local host are each refused with their message |
| HttpRequest.ValidateURLAccepts | pkg/tools/http_request.go:147-173 | as written, a URL is accepted iff it parses with an http or https scheme, its host is not a literal local name, and a host that is an address lies in no reserved block |
| HttpRequest.ReservedRefused | pkg/tools/http_request.go:164-170 | an http or https URL whose host is an address in a reserved block is refused |
| HttpRequest.ValidateURLFixedAccepts | pkg/tools/http_request.go:147-173 | with the fix, a URL is accepted iff it is accepted as written and a host that is an address is also not the unspecified address |
| HttpRequest.ValidateURLRefines | pkg/tools/http_request.go:164-170 | the corrected check refuses everything the code as written refuses, and differs only on hosts that parse to the unspecified address |
| HttpRequest.UnspecifiedNotBlocked | pkg/tools/http_request.go:164-170 | the IPv6 unspecified address `::` passes all four of Go's address tests |
| HttpRequest.UnspecifiedSlipsThrough | pkg/tools/http_request.go:159-170 | as written, `http://[::]/` passes the check although `0.0.0.0` is refused; the corrected check refuses it |
| HttpRequest.Timeout | pkg/tools/http_request.go:72-82 | the timeout is 30 seconds by default, and any given value is clamped into 1 to 120 seconds |
| HttpRequest.RequestHeaders | pkg/tools/http_request.go:95-102 | exactly the string-valued entries of a `headers` object are set on the request, each with its value |
| HttpRequest.Received | pkg/tools/http_request.go:114-117 | at most 50001 bytes of the body are read, as a prefix, and all of it when shorter |
| HttpRequest.ClippedBody | pkg/tools/http_request.go:114-127 | the body shown is the first 50000 bytes of the response, and truncation is flagged iff the response was longer |
| HttpRequest.HeaderLinesComplete | pkg/tools/http_request.go:129-135 | every selected header with a non-empty value is listed as `name: value` |
| HttpRequest.HeaderLinesSound | pkg/tools/http_request.go:129-135 | every listed line is a selected header with its non-empty value |
| HttpRequest.HeaderLinesPrefix | pkg/tools/http_request.go:129-135 | header lines come in the order of the selected names |
| HttpRequest.ReportShape | pkg/tools/http_request.go:136-141 | the report holds the body right after the status and header lead, and ends with the truncation note iff truncated |
| HttpRequest.MethodAndUrlRequired | pkg/tools/http_request.go:61-63 | a missing method or URL is an error and nothing is sent |
| HttpRequest.SentRequests | pkg/tools/http_request.go:65-108 | a request is sent only for a URL the source's `validateURL` accepts, with the upper-cased method, a clamped timeout, and a body iff one was given |
| HttpRequest.ReservedNeverContacted | pkg/tools/http_request.go:164-170 | a URL whose host is an address in a reserved block is never contacted and gives an error |
| HttpRequest.UnspecifiedContacted | pkg/tools/http_request.go:57-108 | the tool does send a request to `http://[::]/` whenever the request can be built |
| HttpRequest.ResponseReported | pkg/tools/http_request.go:108-143 | a response that is read whole is reported silently with its status, its selected header lines and its body clipped to 50000 bytes |
| HttpRequest.ParseTimeout | pkg/tools/http_request.go:72-82 | the clamping steps give the specified timeout, within 1 to 120 seconds |
| HttpRequest.SelectHeaders | pkg/tools/http_request.go:129-135 | the loop's header lines equal the specification of the selected lines |
| HttpRequest.FormatResponse | pkg/tools/http_request.go:114-141 | the text built equals the specification of the report |
| HttpRequest.Execute | pkg/tools/http_request.go:57-144 | the tool's result and the request sent equal the specification's outcome |
| HostExec.NewHostExecTool | pkg/tools/host_exec.go:21-34 | a new tool has the 60-second default timeout and the given deny patterns |
| HostExec.GuardCommand | pkg/tools/host_exec.go:136-146 | the guard returns the blocked message iff some deny pattern matches the trimmed, lower-cased command, and the empty text otherwise |
| HostExec.GuardIgnoresBlanks | pkg/tools/host_exec.go:137 | surrounding blanks never change the guard's verdict |
| HostExec.ShellCommand | pkg/tools/host_exec.go:77-81 | the command runs as given, or after `cd` into the quoted working directory when one is given |
| HostExec.Timeout | pkg/tools/host_exec.go:83-90 | a positive timeout is used, capped at 300 seconds; otherwise the tool's default, which lies in range |
| HostExec.Assembled | pkg/tools/host_exec.go:113-122 | the assembled output is never empty |
| HostExec.AssembledParts | pkg/tools/host_exec.go:113-122 | output is empty before the fall-back iff the run printed nothing and succeeded, giving `(no output)`; otherwise it starts with stdout, has stderr after its marker, and ends with the exit status |
| HostExec.TruncatedKeepsPrefix | pkg/tools/host_exec.go:124-127 | output of at most 10000 characters is kept; longer output keeps its first 10000 followed by the cut note |
| HostExec.CutNoteCounts | pkg/tools/host_exec.go:126 | the number in the cut note plus 10000 is the full output length |
| HostExec.BlockedNeverRuns | pkg/tools/host_exec.go:73-75 | a command matched by a deny pattern is refused with the blocked message and never runs |
| HostExec.RunsWhenAllowed | pkg/tools/host_exec.go:67-134 | a command runs iff one is given and no deny pattern matches, with the wrapped command and the chosen timeout; the result is an error iff the run failed |
| HostExec.ReportedOutput | pkg/tools/host_exec.go:113-133 | unless the deadline killed it, the run's result shows the same truncated output to the model and the user, never empty, whole when short |
| HostExec.AssembleOutput | pkg/tools/host_exec.go:113-127 | the steps give the truncated assembled output |
| HostExec.Execute | pkg/tools/host_exec.go:67-134 | the tool's result and the run made equal the specification's outcome |
| ToolArgs.StringArg | pkg/tools/host_exec.go:68-71 | a string argument is present iff the key holds a JSON string, and then is that string |
| ToolArgs.StringOr | pkg/tools/gmail.go:76 | the `v, _ := args[k].(string)` idiom: the string when the key holds one, else the empty string |
| ToolArgs.NonEmptyArg | pkg/tools/calendar.go:129-131 | the `ok && v != ""` idiom: present iff the key holds a non-empty string |
| ToolArgs.NumberArg | pkg/tools/http_request.go:74-76 | a number argument is present iff the key holds a JSON number, and then is that number |
| ToolArgs.PositiveOr | pkg/tools/gmail.go:105-108 | a positive number argument replaces the default; anything else keeps it |

## Left out

- Go's regular expressions are not modelled. The Markdown rewrites and `stripMarkdown` (pkg/channels/telegram.go:28-40, 339-351, 771-793) are function parameters, assumed to leave NUL-delimited placeholders alone; the deny patterns of pkg/tools/host_exec.go:22-28 are a parameter sequence of predicates. Only the two code-extraction patterns are modelled concretely, with leftmost-first matching.
- `url.Parse`, `net.ParseIP`, `strconv.ParseInt` (`parseChatID`, the council group id), base64 encoding and decoding, and `%q` quoting are parameters of the model, not definitions.
- Remote services are oracles whose outcomes are inputs: the Telegram Bot API (`c.bot.*`, member bots), the Gmail, Calendar and Drive services, the `net/http` client, and the LLM provider.
- External processes are oracles too: edge-tts and ffmpeg (`sendVoice`), pdftotext (`extractPDFText` up to its output), nsenter (host exec), and the Groq transcriber.
- Downloads and file reads are inputs: photo, voice, audio and document downloads, the bootstrap files, the personality files and the memory file. Temp-file clean-up is not modelled.
- pkg/tools/google_client.go is not part of this model. It only builds OAuth clients.
- The long-polling goroutine (pkg/channels/telegram.go:121-157) is not modelled; `Start` and `ReconnectPolling` take the polling outcomes as inputs.
- Concurrency is not modelled. `sync.Map` entries and the unsynchronised `chatIDs` write are plain sequential maps and sets.
- Clocks and contexts become inputs. `time.Now` appears in the identity block and the calendar window. The four-minute council context becomes a count of members that start before the deadline; the command deadline becomes a flag on the run.
- JSON numbers are integers. Go receives `float64`, so fractional values and their truncation (`int(t)`, `int64(n)`, `time.Duration(secs)`) are not modelled.
- Strings are ASCII character sequences. Byte-based `len` and slicing agree with that, but Unicode-aware `TrimSpace` and `ToLower` are reduced to ASCII.
- `sendModelMenu`, `handleCallbackQuery`, `SetTranscriber`, `getGlobalConfigDir` and all logging are left out. They are API calls, configuration and logs.
- `GetSkillsInfo` (pkg/agent/context.go:243-253) is left out. It only lists the names the skills loader returns, and the loader is not part of this model.
- Telegram.TelegramChannel.ReconnectPolling: the Go loop is unbounded; the model takes a finite list of attempt outcomes and stops when it runs out.
- HttpRequest.RequestHeaders: `req.Header.Set` canonicalises header names and iterates Go's map in random order. The model keeps names as given, so two names that canonicalise alike are not merged.
- HttpRequest.HeaderLines: `resp.Header.Get` is a case-insensitive lookup. The response headers are modelled as a function from the four names to values.
- HostExec.Timeout: does not model the int64 overflow of `time.Duration(secs) * time.Second` for timeouts above about 9.2e9 seconds. Go wraps such a value to a negative duration, and the command then times out at once.
- Gmail.ReplyAction and Gmail.Execute: the raw message is compared before base64 URL encoding. The encoding is a parameter.
- AgentContext.SanitizedIsValid: states the pairing rule the code enforces. Every declared id is answered at least once in the run. The comment at pkg/agent/context.go:256-258 promises more: every tool message follows the assistant that requested it. The code does not filter a complete block's run, so replies to undeclared ids and duplicate replies are kept (UndeclaredReplyKept).
- Council.Deliberate: a provider error is given as its `%v` text. How Go formats the error value is not modelled.

## Findings

The operations (`Send`, the Gmail `read` action, the HTTP tool's `Execute`) model the code as written. Each corrected definition sits beside them with its intended property proved: `ToHTMLFixed`, `ExtractBody` and `ValidateURLFixed`.

| source | as written | input that shows it | evidently intended | confidence | as-written member | corrected member |
|---|---|---|---|---|---|---|
| pkg/channels/telegram.go:800-803 | code blocks are put back one placeholder at a time with `strings.ReplaceAll`, so the text of one block can complete the placeholder of another | the message "```\na``````\nb```CB0```\nc```": a NUL and `CB1` leak into the HTML, block a appears twice, and blocks b and c are lost | every code block comes back exactly once, in its own place, and user text is kept | high, not executed | TelegramCollision.CollisionAsWritten | TelegramCollision.CollisionFixed |
| pkg/tools/gmail.go:194-199 | a nested part without plain text returns the non-empty `(no readable body)`, which the caller takes as a found body | a multipart/mixed message whose first child is a multipart/related part holding only an image/png part, and whose second child is text/plain "hi" | a nested part with nothing readable does not stop the search, so a message holding plain text anywhere always gets a readable body | medium, not executed | Gmail.NestedSentinelShadowsPlain | Gmail.PlainIsFound |
| pkg/tools/http_request.go:159-170 | the literal host `0.0.0.0` is refused, but the IPv6 unspecified address passes every address test | `http://[::]/`: the host `::` parses to the all-zero address, which is not loopback, private or link-local, so the request goes out | the unspecified address is refused in both forms, like `0.0.0.0` | medium, not executed | HttpRequest.UnspecifiedSlipsThrough | HttpRequest.ValidateURLFixedAccepts |
