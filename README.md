# Mission Control (bourbon-hq) — a Dafny model of its logic

Mission Control is a local web dashboard. It forwards chat messages, quick actions, cron
requests and file reads to a local assistant gateway, and it keeps an index of API keys
next to the macOS keychain. This project models the parts of it that decide something:

- **The streaming chat aggregator** (`chatCompletions`, module `Gateway`).
  - It reads decoded text chunks and keeps the unterminated tail in a buffer.
  - It handles `data:` lines, stops at `[DONE]`, and skips malformed payloads.
  - It fires the `onToken`, `onComplete` and `onError` callbacks, modelled as an event trace.
  - The imperative read loop is proved to produce exactly the trace of a pure specification
    over the concatenated text. That specification's properties are proved as lemmas: chunk
    invariance, the sentinel, ignored lines, the discarded tail, and the token/complete shape
    of every trace.
- **The API routes as the server sees them.**
  - `KeysRoute`: the key index (a sequence) and the keychain (a map), with masking, the
    shell quoting of the index file, and POST, DELETE and GET.
  - `ActionsRoute`: the action→prompt dispatch and the reply text.
  - `CronRoute`: the run/toggle guard.
  - `ArtifactsReadRoute`: the path prefix check and the reply shaping.
  - `ArtifactsRoute`: the file list with today's and yesterday's memory files. Its date
    arithmetic lives in `Calendar`: day number → `YYYY-MM-DD` as `toISOString` writes it,
    with a parser proving the text round-trips.
- **The client components' state rules.**
  - Classes `ChatPanel.Panel`, `KeysManager.Manager` and `QuickActions.Panel` hold the
    component state and have one method per handler. A handler that awaits is split at the
    await into a method that sends and a method that receives.
  - `CronPanel`, `ArtifactsPanel`, `ApiKeysPanel` and `StatusBar` are pure functions.

Shared modules:

- `Js`: JSON values with `undefined`, JavaScript truthiness, property access that can throw,
  optional chaining and `String(v)`.
- `Text`: `startsWith`, `trim`, decimal numerals.
- `Lines`: splitting on `\n` into complete lines and a tail.
- `Seqs`: filtering and subsequences.
- `Wrappers`: `Option`.

The boundaries are parameters, not effects:

- Gateway calls are parameter functions, given either as a reply value or as a function
  from request to reply. "The gateway is not called" is proved as "the result does not
  depend on the gateway".
- `JSON.parse` is a parameter `string -> Option<Value>`, where `None` means it threw.
- `Date.now()` is a parameter in milliseconds.
- Whether each keychain command (store on POST, delete on DELETE) succeeded is a boolean parameter.

## Model

| member | source | states |
|---|---|---|
| Gateway.AuthHeader | src/lib/gateway.ts:8-10 | the header is `Bearer ` followed by the password when that is non-empty, otherwise by the token |
| Gateway.InvokeTool | src/lib/gateway.ts:21-64 | an OK reply is passed through unchanged; non-OK gives `http_error` with `HTTP <status>: <body text, or status text when empty>`; a thrown error gives `network_error` with its message (`Unknown error` for a non-Error) |
| Gateway.ReplyContent | src/lib/gateway.ts:182-186 | reading `data.choices` succeeds exactly when `data` is not null/undefined |
| Gateway.ChatSimple | src/lib/gateway.ts:155-193 | non-OK gives `HTTP <status>: <text>` with no status-text fallback; OK gives the first choice's content, or `No response` when that is falsy, so a successful result is always truthy; an OK reply whose JSON is null or undefined fails with the TypeError message of reading `choices`; a thrown error gives its message |
| Gateway.PayloadKind | src/lib/gateway.ts:133-142 | a payload is malformed exactly when it is null or undefined (reading `choices` throws); it carries a token exactly when `choices[0].delta.content` is truthy, and the token is that value converted to a string; otherwise it has no content |
| Gateway.Classify | src/lib/gateway.ts:127-142 | a line is ignored exactly when it does not start with `data: `; it is the terminator exactly when its payload (the line minus 6 characters) is `[DONE]`; it carries a token exactly when it is a data line other than the terminator whose payload parses to one that carries a token |
| Gateway.Step | src/lib/gateway.ts:127-142 | one line adds at most one callback and retracts none; once the sentinel has been handled the state no longer changes |
| Gateway.ChatCompletions | src/lib/gateway.ts:78-152 | the callbacks fired are those of the pure specification applied to the concatenated chunks; a failed request reads no chunk; every chunk before the sentinel is read and none after it |
| Gateway.ReadStream | src/lib/gateway.ts:115-147 | the loop over the chunks fires exactly the callbacks of the pure specification applied to their concatenation, and it reads every chunk up to the one that brings the sentinel and none after it |
| Gateway.ReadChunk | src/lib/gateway.ts:122-144 | one chunk appended to the buffer leaves its unterminated tail as the new buffer, and the complete lines are handled in order from the current state, reporting whether the sentinel came |
| Gateway.ChunkAdvance | src/lib/gateway.ts:118-145 | after one more chunk the loop state is that of the specification on the longer prefix; at the sentinel the trace is already the whole stream's trace |
| Gateway.ChunkStep | src/lib/gateway.ts:122-126 | handling the lines of the next chunk (with the previous tail prepended) continues the run over the longer prefix, and the new tail is the tail of that prefix |
| Gateway.NoSentinelUpTo | src/lib/gateway.ts:118-131 | when no prefix read so far held the sentinel, none of the shorter prefixes did either |
| Gateway.HandleLines | src/lib/gateway.ts:126-144 | the inner line loop leaves exactly the state the specification gives for those lines, and reports done exactly when the sentinel finished the stream |
| Gateway.DoneLine | src/lib/gateway.ts:129-132 | the sentinel line appends `onComplete(fullResponse)` and nothing after it in the chunk has an effect |
| Gateway.NextChunk | src/lib/gateway.ts:122-126 | after a chunk, the complete lines are the old ones followed by those of `buffer + chunk`, and the new buffer is the text after the last newline |
| Gateway.SentinelStops | src/lib/gateway.ts:129-132 | once the sentinel is among the lines read, later chunks and the way the source ends do not change the callbacks |
| Gateway.RunAppend | src/lib/gateway.ts:126-144 | handling lines in two batches is the same as handling them all at once |
| Gateway.Run | src/lib/gateway.ts:126-144 | handling the lines in order keeps the callbacks fired so far as a prefix and adds at most one per line; a finished run stays finished |
| Gateway.Aggregate | src/lib/gateway.ts:115-147 | the whole stream fires the callbacks of its complete lines, then, unless the sentinel came, exactly one more callback, which is `onComplete` or `onError` and never a token |
| Gateway.ChatEvents | src/lib/gateway.ts:102-151 | a fetch that threw, a non-OK reply or a missing body fires exactly one callback, `onError` |
| Gateway.FinishedStays | src/lib/gateway.ts:129-132 | after the sentinel no line has any effect |
| Gateway.SentinelEndsStream | src/lib/gateway.ts:118-147 | no text after the sentinel is ever handled, and a read failure after it is never reported |
| Gateway.TrailingFragmentIgnored | src/lib/gateway.ts:119-124 | a trailing piece with no newline is discarded unparsed, even a complete `data: [DONE]` |
| Gateway.SkippedLineInvisible | src/lib/gateway.ts:127-142 | a non-data line, a malformed payload or a payload without content can be removed from the stream without changing the result |
| Gateway.RunShape | src/lib/gateway.ts:135-139 | while reading, every callback so far is `onToken` and `fullResponse` is their concatenation; a finished run ends with one `onComplete` of exactly that text |
| Gateway.StepShape | src/lib/gateway.ts:129-139 | handling one line keeps that shape: a token is appended to both the trace and `fullResponse`, and the sentinel adds one `onComplete` of the text so far |
| Gateway.StreamTrace | src/lib/gateway.ts:118-151 | every stream fires its tokens and then exactly one terminal callback: `onComplete` with all tokens concatenated, or `onError` when the read failed before the sentinel; `onComplete` never follows a failure |
| Gateway.OnlyDataLinesMatter | src/lib/gateway.ts:127-128 | keeping only the lines that start with `data: ` gives the same result |
| Gateway.DataLines | src/lib/gateway.ts:127-128 | every line kept starts with `data: ` |
| Lines.Split | src/lib/gateway.ts:123 | `split('\n')` yields at least one piece and no piece contains a newline |
| Lines.JoinSplit | src/lib/gateway.ts:123 | joining the pieces with `\n` gives back the text |
| Lines.SplitNoNewline | src/lib/gateway.ts:123 | text without a newline splits into itself |
| Lines.SplitAppend | src/lib/gateway.ts:123 | splitting a concatenation glues the last piece of the first text to the first piece of the second |
| Lines.Tail | src/lib/gateway.ts:124 | the kept buffer (`lines.pop()`) has no newline |
| Lines.LinesCoverText | src/lib/gateway.ts:123-124 | the complete lines and the buffer together are the whole text |
| Lines.AppendLines | src/lib/gateway.ts:122-124 | the lines of `a + b` are those of `a` followed by those of `tail(a) + b`, with the same final tail |
| Lines.FragmentAddsNoLine | src/lib/gateway.ts:124 | appending text without a newline completes no new line |
| Lines.ConcatAppend | src/lib/gateway.ts:122 | concatenating chunks distributes over appending chunk lists |
| KeysRoute.MaskKey | src/app/api/keys/route.ts:68-71 | a key of at most 8 characters gives eight `•`; longer keys give the first 4 characters, eight `•` and the last 4, 16 characters in all |
| KeysRoute.MaskRevealsOnlyEnds | src/app/api/keys/route.ts:68-71 | two keys have the same mask exactly when both are short, or both are long with the same first 4 and last 4 characters |
| KeysRoute.EscapeQuotes | src/app/api/keys/route.ts:30 | a string without `'` is left unchanged |
| KeysRoute.EchoArgumentIsJson | src/app/api/keys/route.ts:30 | the shell reads the quoted, escaped argument back as exactly the original JSON: a POSIX word decoder inverts the escaping |
| KeysRoute.QuotedRoundTrip | src/app/api/keys/route.ts:30 | inside single quotes, the escaped text followed by a closing quote decodes to the original text |
| KeysRoute.Listing | src/app/api/keys/route.ts:80-87 | a listed key copies id, name, service and createdAt from the index and has location `keychain` |
| KeysRoute.NotFoundIffNoValue | src/app/api/keys/route.ts:84 | `maskedValue` is `(not found)` exactly when the keychain has no value or an empty one, otherwise it is the mask of the value |
| KeysRoute.WithoutIdSpec | src/app/api/keys/route.ts:141-142 | the filtered index has no entry with the id, keeps every other entry, is a subsequence of the old index (order kept), and is as long as the number of entries with another id, so every kept entry appears as often as before |
| KeysRoute.KeyStore.constructor | src/app/api/keys/route.ts:75 | the store starts from the given index and keychain |
| KeysRoute.KeyStore.List | src/app/api/keys/route.ts:74-92 | one listed entry per index entry, in index order, each built from that entry and its keychain value |
| KeysRoute.KeyStore.Add | src/app/api/keys/route.ts:95-123 | a missing or empty name, service or value gives 400 and changes nothing; a keychain failure gives 500 and leaves the index unchanged; on success the id is `service-<now>`, the keychain maps it to the value and the index gains exactly one entry at its end |
| KeysRoute.KeyStore.Remove | src/app/api/keys/route.ts:126-146 | a missing id gives 400 and changes nothing; otherwise the index loses every entry with the id and the reply is ok, whether or not the keychain delete succeeded; the keychain loses the id only when it did |
| ActionsRoute.FixedPrompt | src/app/api/actions/route.ts:7-12 | exactly the four fixed actions have a prompt |
| ActionsRoute.Dispatch | src/app/api/actions/route.ts:53-76 | fixed actions get their `ACTION_PROMPTS` string; `research` needs a truthy topic (else `Topic required`) and gets `Research: <topic>. Give me a concise but comprehensive summary.`; `compose-email` needs a truthy prompt (else `Prompt required`) and gets `Compose an email: <prompt>`; anything else is `Unknown action` |
| ActionsRoute.DispatchAccepts | src/app/api/actions/route.ts:53-76 | a prompt is built exactly for a fixed action, for `research` with a truthy topic, or for `compose-email` with a truthy prompt |
| ActionsRoute.ResearchPromptKeepsTopic | src/app/api/actions/route.ts:62-67 | the research prompt is the fixed prefix, the topic's text and the fixed suffix |
| ActionsRoute.RequestFor | src/app/api/actions/route.ts:16-29 | the chat request uses `Bearer <password>`, agent `main`, model `clawdbot:main`, user `bourbon-hq-actions`, and the prompt as the one user message |
| ActionsRoute.RequestAuthorization | src/app/api/actions/route.ts:20 | the route always sends the password, even an empty one, and never falls back to the token as `AUTH_HEADER` does |
| ActionsRoute.ExecuteChat | src/app/api/actions/route.ts:14-47 | non-OK gives `HTTP <status>: <text>`; OK gives `choices[0].message.content`, or `No response` when falsy; an OK reply whose JSON is null or undefined fails with the TypeError message of reading `choices`; a thrown error gives its message |
| ActionsRoute.ExecuteChatIsChatSimple | src/app/api/actions/route.ts:14-47 | `executeChat` shapes replies exactly as `chatSimple` does |
| ActionsRoute.Post | src/app/api/actions/route.ts:49-80 | a rejected dispatch gives 400 with its error; otherwise the reply is `executeChat` on the gateway's answer to the request for that prompt |
| ActionsRoute.RejectedIgnoresGateway | src/app/api/actions/route.ts:55-76 | when the dispatch is rejected the reply does not depend on the gateway |
| CronRoute.Route | src/app/api/cron/route.ts:9-24 | `run` with a truthy job id runs that job; `toggle` with job id and enabled both not `undefined` toggles; nothing else is accepted |
| CronRoute.Post | src/app/api/cron/route.ts:9-24 | an accepted request is forwarded and the gateway's answer returned; every other request gives 400 `Invalid action` |
| CronRoute.Get | src/app/api/cron/route.ts:4-7 | the reply is the `listCronJobs` result unchanged |
| CronRoute.ToggleAcceptsFalsyValues | src/app/api/cron/route.ts:13-21 | job id `''` is refused for `run` but accepted for `toggle`, and `enabled: false` is accepted |
| CronRoute.InvalidIgnoresGateway | src/app/api/cron/route.ts:23 | an invalid request gives `Invalid action` whatever the gateway would answer |
| ArtifactsReadRoute.Guard | src/app/api/artifacts/read/route.ts:9-16 | a missing or empty path gives 400 `Path required`; a path outside the prefix gives 403 `Access denied`; the request proceeds exactly when the path starts with `/Users/bourbon/clawd` |
| ArtifactsReadRoute.Shape | src/app/api/artifacts/read/route.ts:31-44 | content is returned exactly when `data.ok` is truthy and `result !== undefined`; otherwise the error is `data.error.message` or `Failed to read file`; a failed call or a null body gives `Network error` |
| ArtifactsReadRoute.Get | src/app/api/artifacts/read/route.ts:6-45 | the guard's reply when it refuses, otherwise the shaped gateway reply; the request is refused exactly when the path is missing or outside the prefix |
| ArtifactsReadRoute.RefusedIgnoresGateway | src/app/api/artifacts/read/route.ts:9-16 | a refused path gets the same reply whatever the gateway would answer |
| ArtifactsReadRoute.PrefixIsNotContainment | src/app/api/artifacts/read/route.ts:14 | the plain prefix test accepts `/Users/bourbon/clawdX/...` and `..` after the prefix |
| ArtifactsRoute.MemoryFile | src/app/api/artifacts/route.ts:20-22 | a memory file is named `<date>.md`, lives under `/Users/bourbon/clawd/memory/` and has type `memory` |
| ArtifactsRoute.TodayMemoryFile | src/app/api/artifacts/route.ts:16-24 | the date is the part of the ISO time string before `T`, which is the calendar date of the day `now` falls in |
| ArtifactsRoute.YesterdayMemoryFile | src/app/api/artifacts/route.ts:27-36 | the date is that of the day before today's |
| ArtifactsRoute.WithIds | src/app/api/artifacts/route.ts:44-47 | entry `i` gets id `String(i)` and keeps path, name and type |
| ArtifactsRoute.FileList | src/app/api/artifacts/route.ts:38-50 | the list has 10 entries: today, yesterday, then the eight workspace files unchanged, in order |
| ArtifactsRoute.Get | src/app/api/artifacts/route.ts:38-50 | the reply lists ten files whose ids are their positions, and its first two are two different memory files |
| ArtifactsRoute.IdsDistinct | src/app/api/artifacts/route.ts:44-47 | ids follow list position, so no two entries share one |
| ArtifactsRoute.MemoryFilesDistinct | src/app/api/artifacts/route.ts:16-36 | in the UTC day-number model, today's and yesterday's files differ; neither is one of the workspace files |
| ArtifactsRoute.NotWorkspace | src/app/api/artifacts/route.ts:4-13 | no dated memory file coincides with a workspace file |
| Calendar.YearOf | src/app/api/artifacts/route.ts:18 | a day count splits into a year and a day within it |
| Calendar.MonthOf | src/app/api/artifacts/route.ts:18 | a day within a year splits into a month and a day within it |
| Calendar.DateOf | src/app/api/artifacts/route.ts:18 | every day number has a valid calendar date |
| Calendar.DateOfInjective | src/app/api/artifacts/route.ts:18 | distinct days have distinct dates |
| Calendar.Padded | src/app/api/artifacts/route.ts:18 | a zero-padded numeral is all digits and has the padded width |
| Calendar.PaddedValue | src/app/api/artifacts/route.ts:18 | padding with zeros keeps the number's value |
| Calendar.IsoDate | src/app/api/artifacts/route.ts:18 | the date text has `-` before the month and the day, is at least ten characters long and contains no `T` |
| Calendar.DateText | src/app/api/artifacts/route.ts:18 | the text of a valid date is its year text followed by `-MM-DD`, with no `T` |
| Calendar.FourDigitYear | src/app/api/artifacts/route.ts:18 | for the years 0 to 9999 the text is exactly `YYYY-MM-DD` |
| Calendar.ParseIsoDateRoundTrip | src/app/api/artifacts/route.ts:18 | parsing the date text gives back the date |
| Calendar.ParseDateText | src/app/api/artifacts/route.ts:18 | parsing the text of any valid date gives back that date |
| Calendar.ParseYearText | src/app/api/artifacts/route.ts:18 | the year text, four digits or a sign and six digits, reads back as the year |
| Calendar.IsoDateInjective | src/app/api/artifacts/route.ts:18 | distinct days give distinct date texts, hence distinct memory file names |
| Calendar.BeforeTOf | src/app/api/artifacts/route.ts:18 | `split('T')[0]` of `date + "T" + time` is the date when the date has no `T` |
| Calendar.DatePart | src/app/api/artifacts/route.ts:18 | the part of the ISO time string before `T` is the date of its day |
| ChatPanel.SetStatus | src/components/ChatPanel.tsx:75-81 | only messages with that id get the new status; every other field and message is unchanged, and the length is kept |
| ChatPanel.SetStatusOverwrites | src/components/ChatPanel.tsx:75-100 | a second status update replaces the first |
| ChatPanel.SetStatusKeepsMessages | src/components/ChatPanel.tsx:75-81 | ids, roles and contents are kept, and an unknown id changes nothing |
| ChatPanel.AssistantContent | src/components/ChatPanel.tsx:88-90 | a string result is shown as it is; otherwise `result.response` when truthy, else `Message received`; the content is never falsy |
| ChatPanel.Verdict | src/components/ChatPanel.tsx:72-100 | the user message becomes `sent` exactly when a reply arrived and `data.ok` is truthy, otherwise `error` |
| ChatPanel.Answer | src/components/ChatPanel.tsx:83-94 | one assistant message is appended exactly when `data.ok` and `data.result` are both truthy, with id `String(later + 1)` and the selected content |
| ChatPanel.Settle | src/components/ChatPanel.tsx:72-100 | the new list is the old one with the status set, followed by at most the one assistant message |
| ChatPanel.FailureAppendsNothing | src/components/ChatPanel.tsx:95-100 | on failure only the status changes and nothing is appended |
| ChatPanel.Panel.constructor | src/components/ChatPanel.tsx:14-22 | the panel starts with the single welcome message, empty input and not typing |
| ChatPanel.Panel.Send | src/components/ChatPanel.tsx:51-64 | blank input changes nothing and sends nothing; otherwise one user message with status `sending` is appended, the input is cleared, typing is on, and the untrimmed input is sent |
| ChatPanel.Panel.Receive | src/components/ChatPanel.tsx:72-103 | the messages become the settled list for the reply, and typing is off in every case |
| KeysManager.WithKey | src/components/KeysManager.tsx:79 | the name maps to the new entry, overwriting any old one; every other entry is kept |
| KeysManager.WithoutKey | src/components/KeysManager.tsx:85-88 | exactly the named entry is removed; every other entry is kept |
| KeysManager.AddThenDelete | src/components/KeysManager.tsx:79-88 | adding a name not already in the map and then deleting it restores the map |
| KeysManager.Toggled | src/components/KeysManager.tsx:91-98 | membership of that name flips and no other name changes |
| KeysManager.ToggleTwice | src/components/KeysManager.tsx:91-98 | toggling twice restores the set |
| KeysManager.KeyNames | src/components/KeysManager.tsx:68 | the names listed are exactly the map's keys, each once |
| KeysManager.Manager.constructor | src/components/KeysManager.tsx:12-19 | the manager starts locked with no password, no keys, no error, the form hidden and blank, and no key shown |
| KeysManager.Manager.AddKey | src/components/KeysManager.tsx:77-83 | an empty name or value does nothing; otherwise the map with the new entry is sent and the form is reset and hidden, while the shown keys wait for the save |
| KeysManager.Manager.DeleteKey | src/components/KeysManager.tsx:85-89 | the map without that name is sent |
| KeysManager.Manager.FinishSave | src/components/KeysManager.tsx:55-75 | a truthy `data.ok` commits the sent map and lists exactly its names; otherwise keys are unchanged and the error is `data.error`, or `Failed to save`, or `Network error` when the call threw |
| KeysManager.Manager.ToggleVisibility | src/components/KeysManager.tsx:91-99 | the visible set becomes the toggled set and nothing else changes |
| KeysManager.Manager.Lock | src/components/KeysManager.tsx:169 | locked again with an empty password; nothing else changes |
| CronPanel.ToggleJob | src/components/CronPanel.tsx:45-51 | the job with that id has `enabled` negated; every other field and job is unchanged, and length and order are kept |
| CronPanel.ToggleTwice | src/components/CronPanel.tsx:45-51 | toggling the same id twice is the identity |
| CronPanel.ToggleUnknown | src/components/CronPanel.tsx:47-49 | an unknown id leaves the list unchanged |
| CronPanel.TogglesCommute | src/components/CronPanel.tsx:45-51 | toggles of two ids can be applied in either order |
| CronPanel.ToggleExpanded | src/components/CronPanel.tsx:99 | clicking the expanded job collapses it; clicking any other job expands that one alone |
| CronPanel.ExpandTwice | src/components/CronPanel.tsx:99 | clicking the same job twice restores the expanded state exactly when no job or that same job was expanded before; with another job expanded, it leaves none expanded |
| CronPanel.SwitchFlipsOneJob | src/components/CronPanel.tsx:14-51 | the initial mock jobs have distinct ids, so the switch of each card flips the `enabled` of its own job and of no other |
| QuickActions.ModalParams | src/components/QuickActions.tsx:108-110 | `research` gets `{topic: input}` and every other modal action `{prompt: input}` |
| QuickActions.ParamsValue | src/components/QuickActions.tsx:80 | the params object has one string member per parameter, in order |
| QuickActions.Success | src/components/QuickActions.tsx:83-90 | the recorded success is `data.ok`, or `false` when the call threw |
| QuickActions.Panel.constructor | src/components/QuickActions.tsx:65-68 | nothing is loading, no modal is open, the input is empty and there is no last result |
| QuickActions.Panel.Begin | src/components/QuickActions.tsx:70-82 | loading is the action's id, the last result is cleared, and the request carries the action id and params |
| QuickActions.Panel.Finish | src/components/QuickActions.tsx:83-94 | the last result is the action's name with its success, and loading is cleared |
| QuickActions.Panel.HandleClick | src/components/QuickActions.tsx:97-104 | an action that needs input opens the modal with an empty input and sends nothing; any other action runs at once with no params; every request sent is one the actions route accepts |
| QuickActions.Panel.HandleInputSubmit | src/components/QuickActions.tsx:106-115 | with no modal or blank input nothing happens; otherwise the modal action runs with its params, and the modal is closed and the input cleared; every request sent is one the actions route accepts |
| QuickActions.Panel.Submit | src/components/QuickActions.tsx:108-114 | a non-blank submission starts the modal action with its parameter, which the actions route accepts, then closes the modal and clears its input |
| QuickActions.FixedActionsAccepted | src/components/QuickActions.tsx:102-103 | every action that needs no input has a fixed prompt in the actions route |
| QuickActions.ModalActionsAccepted | src/components/QuickActions.tsx:106-111 | every modal action with non-blank input gets the parameter the actions route requires |
| ArtifactsPanel.Filtered | src/components/ArtifactsPanel.tsx:62-64 | with no selected type the list is unchanged; otherwise every artifact kept has that type |
| ArtifactsPanel.FilteredIsTypeSubsequence | src/components/ArtifactsPanel.tsx:62-63 | the filtered list holds exactly the artifacts of that type, in their original order, and is as long as the number of them, so each appears as often as in the list |
| ArtifactsPanel.SelectType | src/components/ArtifactsPanel.tsx:81 | clicking the selected type deselects it; clicking another type selects it |
| ArtifactsPanel.SelectTwice | src/components/ArtifactsPanel.tsx:81 | clicking a type twice from no selection deselects it |
| ArtifactsPanel.ButtonsFilter | src/components/ArtifactsPanel.tsx:78-81 | every filter button's type is non-empty, so selecting it does filter |
| ArtifactsPanel.ButtonsShowArtifacts | src/components/ArtifactsPanel.tsx:13-81 | on the initial mock list, every filter button selects at least one artifact |
| ApiKeysPanel.SaveMatchesGuard | src/components/ApiKeysPanel.tsx:39 | Save is enabled exactly when `addKey` proceeds, exactly when the route's own name/service/value check passes |
| ApiKeysPanel.Fragments | src/components/ApiKeysPanel.tsx:118-125 | each icon condition holds exactly for its service, and the key icon's exactly for an unlisted service |
| ApiKeysPanel.ServiceIcon | src/components/ApiKeysPanel.tsx:118-125 | a row shows the key icon exactly when its service is none of the seven listed ones |
| ApiKeysPanel.ExactlyOneIcon | src/components/ApiKeysPanel.tsx:118-125 | exactly one icon is rendered for any service, and it is the mapped icon |
| ApiKeysPanel.IconsDistinct | src/components/ApiKeysPanel.tsx:118-124 | the seven listed services get seven distinct icons, none of them the key |
| ApiKeysPanel.UnlistedServices | src/components/ApiKeysPanel.tsx:125 | `resend`, `other` and the empty service get the key icon |
| ApiKeysPanel.Badge | src/components/ApiKeysPanel.tsx:133-137 | green for `keychain`, blue for `env`, gray otherwise |
| StatusBar.SkipSpace | src/components/StatusBar.tsx:36-37 | `\s*` consumes the longest run of white space |
| StatusBar.NameEnd | src/components/StatusBar.tsx:36-37 | the captured run stops at the first white space or stop character |
| StatusBar.SkipSpaceTo | src/components/StatusBar.tsx:36-37 | skipping white space from a position stops exactly at the first non-space character |
| StatusBar.NameEndAt | src/components/StatusBar.tsx:36-37 | the captured run ends exactly at the first character that is white space or the stop character |
| StatusBar.MatchAtSound | src/components/StatusBar.tsx:36-37 | a match found at a position satisfies the pattern at that position |
| StatusBar.MatchAt | src/components/StatusBar.tsx:36-37 | a capture found at a position follows the key there and is a non-empty run of name characters |
| StatusBar.MatchAtComplete | src/components/StatusBar.tsx:36-37 | any way the pattern matches at a position is the one found there |
| StatusBar.FirstMatch | src/components/StatusBar.tsx:36-37 | the position found is the leftmost one where the pattern matches |
| StatusBar.Extract | src/components/StatusBar.tsx:36-37 | a capture is a non-empty run of characters that are neither white space nor the stop character |
| StatusBar.ExtractIsLeftmostMatch | src/components/StatusBar.tsx:36-37 | the capture is that of the leftmost match, as `String.prototype.match` returns it |
| StatusBar.ExtractNone | src/components/StatusBar.tsx:36-37 | no capture means the pattern matches nowhere |
| StatusBar.StatusText | src/components/StatusBar.tsx:35 | the status text is `details.statusText`, else `content[0].text`, else `''` |
| StatusBar.ModelName | src/components/StatusBar.tsx:36-39 | the capture after `Model:`, else `result.model`, else `opus`; never falsy |
| StatusBar.SessionName | src/components/StatusBar.tsx:37-40 | the capture after `Session:`, else `details.sessionKey`, else `main`; never falsy |
| StatusBar.FetchStatus | src/components/StatusBar.tsx:29-49 | with `ok && result` truthy, a string status text connects with the extracted model and session and no error, while a non-string one fails at `.match` and gives `Network error`; otherwise the old model and session are kept, connected is false and the error is `data.error?.message`; a thrown call or null body gives `Network error`; the bar is connected only on that first path |
| StatusBar.FailedPollsKeepInitial | src/components/StatusBar.tsx:13-46 | starting from the initial state, a run of polls none of which connects leaves the display at model `unknown` and session `main`, not connected |
| StatusBar.Polls | src/components/StatusBar.tsx:29-49 | after at least one poll, a connected bar shows no error |
| StatusBar.NamesAreWords | src/components/StatusBar.tsx:36-37 | a captured model contains no `·` and a captured session no `•` |
| StatusBar.ExampleStatusLine | src/components/StatusBar.tsx:36 | `Model: opus · Session: main•x` yields the model `opus` |
| StatusBar.MatchesAtZero | src/components/StatusBar.tsx:36 | the pattern matches that line at its start, capturing `opus` |
| StatusBar.KeyBlankName | src/components/StatusBar.tsx:36-37 | a key, then white space, then a non-empty run of name characters that the next character ends, is a match capturing that run |
| Text.TrimEmptyIffBlank | src/components/ChatPanel.tsx:52 | `s.trim()` is empty exactly when `s` is all white space |
| Text.Trim | src/components/ChatPanel.tsx:52 | the trimmed text neither starts nor ends with white space |
| Text.DecimalRoundTrip | src/app/api/artifacts/route.ts:44 | reading back `String(n)` gives `n` |
| Text.DecimalInjective | src/app/api/artifacts/route.ts:44 | distinct numbers have distinct numerals |
| Seqs.FilterSpec | src/app/api/keys/route.ts:142 | `filter` yields a subsequence with one element per kept element |
| Seqs.FilterMembers | src/app/api/keys/route.ts:142 | an element is kept exactly when it is in the list and passes the test |
| Js.Member | src/lib/gateway.ts:135 | a property read throws exactly on `null` and `undefined` |
| Js.Lookup | src/lib/gateway.ts:135 | a present key reads as the value of its last binding; an absent key reads as `undefined` |
| Js.OptMember | src/components/StatusBar.tsx:35 | `v?.key` is `undefined` on a nullish `v` and the member otherwise |

## Left out

- HTTP and `fetch`, `response.text()`/`json()`, `TextDecoder`: gateway replies are inputs, the stream is a sequence of already-decoded text chunks, and UTF-8 splitting across reads is not modelled.
- `JSON.parse` is a parameter. `JSON.stringify` of requests is not modelled; requests are built as values.
- Numbers in JSON are integers; floating point is not modelled.
- Named properties of arrays and strings (such as `length`) read as `undefined`.
- String lengths and slices count Unicode code points, not the UTF-16 units JavaScript counts, so `maskKey` of a key with characters outside the basic plane differs.
- The stream loop has no cancellation, as in the code, so the model has no cancelled outcome.
- Callbacks that throw are not modelled; the trace records them firing.
- Gateway.PayloadKind: `onToken` receives the raw `content` value (gateway.ts:138), which may be a number or another non-string JSON value; the trace records `String(content)`, which is what `fullResponse += token` appends.
- `child_process.exec`, the macOS `security` commands and the `~/.bourbon-hq-keys.json` file: the keychain is a map, whether each command succeeded is a parameter, and the index is a sequence.
- KeysRoute.EchoArgumentIsJson: proves the single-quote escaping against a POSIX word decoder only; `echo`'s own handling of backslashes and the double-quoted `${value}` and `${id}` in the keychain commands are not modelled.
- `getStoredKeys`' fallback to an empty index when the file is missing or corrupt is not modelled; the index is always given.
- `Promise.all` in the keys `GET` is modelled as a sequential loop, since the output follows index order.
- KeysRoute.KeyStore.Add: a body that is `null` or not JSON makes `request.json()` or the destructuring of route.ts:96-97 throw, so the handler fails with a 500. The model takes the fields as given and has no such outcome.
- ActionsRoute.Post: likewise, a `null` or unparseable body throws at actions/route.ts:50-51 (a 500); the model takes `action` and `params` as given.
- CronRoute.Post: likewise, a `null` or unparseable body throws at cron/route.ts:10-11 (a 500); the model takes `action`, `jobId` and `enabled` as given.
- KeysRoute.KeyStore.Add: the request body's `name`, `service` and `value` are taken as optional strings; non-string JSON values there are not modelled.
- `Date.now()` and `new Date().toISOString()`: the id's timestamp and `createdAt` are parameters, and the two `new Date()` calls of the artifacts route are one instant `now`.
- ArtifactsRoute.YesterdayMemoryFile: `setDate(getDate() - 1)` works in local time; the model subtracts one day of milliseconds in UTC, as the ISO string does.
- ArtifactsRoute.MemoryFilesDistinct: holds only for the one-day-in-UTC model above. In the code, where yesterday is computed in local time, a daylight-saving change can give both entries the same file. For example, in America/New_York at 2026-03-08 19:30 EDT both ISO dates are `2026-03-08`, since 19:30 EST on the previous local day is 00:30 UTC on March 8.
- Calendar.IsoDate: times beyond the JavaScript date range, where `toISOString` throws, are not excluded.
- Object key order: `Object.keys` is modelled as some order of the map's keys without duplicates, not as insertion order.
- KeysManager: the unlock request, the first-time check on mount and `isFirstTime` are not modelled. They use an encrypted-store protocol (a password header, a `locked` field) that the keys route in this repository does not provide: that route's POST demands name, service and value, so `saveKeys`' `{keys}` body would be refused. The reply to a save is therefore taken as an input.
- ChatPanel: a reply whose body is `null` is treated as the catch path, because reading `data.ok` throws inside the queued state updater; exactly when React runs that updater is not modelled.
- ApiKeysPanel: `fetchKeys`, `deleteKey` with `confirm`, and the form's state updates are rendering and I/O; only the guard, the icon and the badge are modelled.
- React rendering, JSX, `useEffect`, `setInterval` polling, scrolling, the clipboard, `alert` and `confirm`.
- The chat and status proxy routes (`src/app/api/chat/route.ts`, `src/app/api/status/route.ts`), the `keys/[id]` route, `page.tsx` and `layout.tsx` are not part of this model.
- The convenience wrappers and the `listFiles` command string of `src/lib/gateway.ts` are constant argument builders and are not modelled.
- StatusBar: the two regular expressions are written out as extractors; no general regular-expression engine is modelled.
