# RecallIO chat with memory — a Dafny model of the conversation turn

This project models the core of a small chat application. A language-model
completion service (OpenAI) answers the user, and an external memory service
(RecallIO) stores what the user says and brings back related earlier
statements. Two entry points run the same turn. One is a desktop window
(`chat_gui.py`, its Send handler `ChatApp.send_message`). The other is an
HTTP endpoint (`server.py`, the `POST /chat` handler `chat`). A turn goes:

1. strip the input and ignore or reject it when it is blank;
2. write the user's text to memory, with consent set;
3. recall with fixed parameters and take the first record as the summary;
4. build the prompt: an optional system message `Recalled Summary: …`,
   then one user message;
5. ask for a completion.

A failed write aborts the turn. A `RecallioAPIError` during recall gives an
empty summary and the turn goes on. Any other recall exception aborts the
turn. A failed completion aborts the turn. Nothing writes the assistant's
reply back to memory.

The three remote calls are replaced by outcome values (`WriteOutcome`,
`RecallOutcome`, `GenOutcome`). A turn reports the calls it issued, in order,
so ordering, short-circuiting and prompt shape are all stated and proved.

Modules:

- `Wrappers` (wrappers.dfy): `Option` and `Result`.
- `Json` (json.dfy): decoded configuration values, and Python truthiness on them.
- `Text` (text.dfy): Python's `str.strip()`, using CPython's set of
  whitespace characters. Includes its characterisation, uniqueness and
  idempotence. Also Python's substring test `sub in s`.
- `Config` (config.dfy): both copies of `load_config`. They are checked
  against one reference rule, `Accepted`. The module also reads `user_id`,
  which defaults to `default_user`, and `project_id`.
- `Services` (services.dfy): the requests, the outcomes, the prompt builder,
  and a decoder that proves the builder produces exactly the well-formed
  prompts.
- `Pipeline` (pipeline.dfy): the turn, written once as `RunTurn` and
  parameterised by `Variant` (`Desktop` or `Http`). The two copies differ in
  only two places:
  - summary extraction: the desktop reads `content`, then falls back to
    `summary`; the server reads only `content`;
  - reply handling: the desktop strips the reply, and a `None` content
    aborts its turn; the server passes the content through unchanged.
- `ChatGui` (chat_gui.dfy): class `ChatApp`. Its state is the entry text,
  the chat log (a sequence of (sender, text) lines) and the recall panel
  text. `SendMessage` is an imperative method proved against `RunTurn`.
- `Server` (server.dfy): `Chat`, a pure function from the
  request's `message` and the three outcomes to a status, a JSON body and the
  call trace.

Three facts about the code that shape the model:
- Nothing writes the assistant's reply back to memory. The turn ends with
  the reply at `chat_gui.py:113` and `server.py:81`. See
  `Pipeline.WriteRecordsUserTextOnly`.
- Only `RecallioAPIError` degrades to an empty summary. Any other recall
  exception aborts the turn in both files (`chat_gui.py:96-98`,
  `server.py:67-68`).
- `server.py:63` reads `summary.content` as a plain attribute and has no
  fallback to `summary`. A record without a `content` attribute therefore
  raises inside the recall `try`. The handler then takes the
  generic-exception path and answers 500. See `Pipeline.HttpSummaryRule`.

Two smaller source facts the model keeps:
- In the desktop client, a completion whose content is `None` makes
  `.strip()` raise inside the generation `try`, so an error line is logged.
  The server returns that content as `null` with status 200.
- The two `load_config` copies accept exactly the same configurations and
  raise the same kind of error on every JSON object. Their messages differ;
  see "Left out".

## Model

| member | source | states |
|---|---|---|
| Config.GuiLoadConfig | chat_gui.py:10-18 | accepts exactly when `openai.api_key`, `recallio.api_key` and `recallio.project_id` are present and truthy; then returns the configuration unchanged; the recallio check runs only after the OpenAI key passed |
| Config.ServerLoadConfig | server.py:9-17 | the same acceptance rule and unchanged result, through the server's `'openai' in config` test and indexing |
| Config.LoadConfigsAgreeOnObjects | server.py:12-16 | on any JSON object both copies give the same result, error kind included |
| Config.LoadConfigsDifferOnArrays | server.py:12 | on a top-level empty array the desktop copy fails on `.get` while the server reports a missing OpenAI key |
| Config.UserIdOf | chat_gui.py:28 | `user_id` is the configured value when present and `default_user` otherwise |
| Config.ProjectIdOf | server.py:39 | the project id of an accepted configuration is truthy |
| Text.Strip | chat_gui.py:65 | the stripped input is empty exactly when every character is whitespace |
| Text.ContainsText | server.py:12 | Python's `'openai' in config` on a string: true exactly when the text occurs at some index |
| Text.TrimStartSuffix | chat_gui.py:65 | removing leading whitespace leaves the suffix starting at the first non-space character, with only whitespace before it |
| Text.TrimEndPrefix | chat_gui.py:109 | removing trailing whitespace leaves the prefix ending at the last non-space character, with only whitespace after it |
| Text.StripSlice | server.py:32 | `strip()` yields a slice of the input with only whitespace outside it and no whitespace at either end |
| Text.StripUnique | server.py:32 | any slice with those properties is the result of `strip()`, so the characterisation is complete |
| Text.StripIdempotent | chat_gui.py:65 | stripping the already stripped text changes nothing |
| Services.BuildPrompt | server.py:70-73 | the prompt is well formed, has two messages exactly when the summary is non-empty, and ends with the user message holding the text |
| Services.PromptRoundTrip | chat_gui.py:102-105 | the summary and the user text can be read back from the built prompt |
| Services.PromptComplete | server.py:70-73 | every well-formed prompt is the one built from the summary and the text it carries |
| Services.WriteRequestFor | chat_gui.py:72-74 | the write carries the user's text and the configured ids with consent set; pinned in the turn by `Pipeline.WriteRecordsUserTextOnly` |
| Services.RecallRequestFor | chat_gui.py:81-89 | the recall queries the user's text with scope `user`, `summarized` set and a positive limit; pinned in the turn by `Pipeline.RecallRequestFixed` |
| Services.ContentOrSummary | chat_gui.py:93 | a non-empty `content` wins; otherwise the text is the `summary` attribute's; it is empty exactly when neither attribute holds a non-empty string; pinned in the turn by `Pipeline.DesktopSummaryRule` |
| Services.ContentAttr | server.py:63-64 | a missing `content` attribute is a failure, and only then; a non-empty result is the `content` string, and an empty one comes from a `None` or empty `content`; pinned in the turn by `Pipeline.HttpSummaryRule` |
| Pipeline.SummaryFrom | chat_gui.py:79-98 | the recall step fails exactly on an exception other than `RecallioAPIError`, or, in the server, on a first record without `content`; `RecallioAPIError` and an empty list give `''`; a non-empty summary comes from the first record; see `Pipeline.DesktopSummaryRule` and `Pipeline.HttpSummaryRule` (server side `server.py:49-68`) |
| Pipeline.Finish | chat_gui.py:109 | the desktop aborts at generation exactly on a `None` content and its reply is empty exactly when the content is all whitespace; the server answers with the content as returned (`server.py:77`); see `Pipeline.ReplyRule` |
| Server.UserText | server.py:32 | the user's text is empty exactly when the `message` is missing, null or all whitespace |
| ChatGui.ClosingLine | chat_gui.py:111-113 | the closing line is never a `You` line; it is an `Assistant` line exactly when the turn answered, and an `Error` line carries the failed stage's text (`chat_gui.py:76`, `chat_gui.py:97`); see `ChatGui.ClosingLineRule` |
| Pipeline.RunTurn | chat_gui.py:64-113 | a turn issues one to three calls, always in the order write, recall, generate; an aborted turn's last call is the stage that failed; an answered turn, or one with a summary, issued all three |
| Pipeline.WriteRecordsUserTextOnly | chat_gui.py:71-77 | the first call writes the user's text with `consentFlag = True`, and no later call is a write, so the reply is never persisted |
| Pipeline.WriteFailureAborts | chat_gui.py:71-77 | a failed write ends the turn after that one call, before recall and generation |
| Pipeline.RecallRequestFixed | server.py:51-59 | after a successful write the recall carries the text as query, scope `user`, `summarized = True`, threshold 0.5 and limit 10, which is positive |
| Pipeline.RecallApiErrorDegrades | chat_gui.py:94-95 | `RecallioAPIError` gives an empty summary, and generation still runs on a prompt holding only the user message |
| Pipeline.RecallOtherErrorAborts | chat_gui.py:96-98 | any other recall exception ends the turn at the recall stage, and generation is never requested |
| Pipeline.GenerationIssuedIff | server.py:42-76 | generation is requested if and only if the write succeeded and the recall step did not end the turn |
| Pipeline.PromptShape | chat_gui.py:102-105 | every prompt sent is well formed, ends with the user's text, and starts with a system message exactly when the turn's summary is non-empty; that message carries the summary |
| Pipeline.DesktopSummaryRule | chat_gui.py:91-93 | desktop summary: the first record's non-empty `content`, otherwise its `summary`; `''` for an empty list; a returned list never aborts |
| Pipeline.HttpSummaryRule | server.py:61-64 | server summary: the first record's `content` only, with no `summary` fallback; `''` for an empty list or a `None` content; a missing attribute aborts at recall |
| Pipeline.FirstRecordOnly | server.py:61-62 | records after the first change nothing in the turn |
| Pipeline.GenerationFailureAborts | server.py:75-79 | a failed completion always ends the turn aborted, and an answered turn had a completion |
| Pipeline.ReplyRule | chat_gui.py:107-112 | the desktop answers with the stripped content and aborts on a `None` content; the server answers with the content as returned |
| Pipeline.CopiesAgree | server.py:61-77 | when the first record's `content` settles the summary, both copies issue the same calls and reach the same summary; an abort is the same in both; where the server answers with a content the desktop answers with it stripped; where the server answers 200 with a `None` content (`null`), the desktop aborts at generation and logs an `OpenAI error` line (`chat_gui.py:109-111`) |
| ChatGui.ClosingLineRule | chat_gui.py:107-113 | the line closing a desktop turn is an `Assistant` line exactly when the completion returned content, and then holds it stripped; otherwise it is an `Error` line for the failed stage |
| ChatGui.ChatApp.constructor | chat_gui.py:22-29 | a window for an accepted configuration has the configured ids, with `user_id` defaulting to `default_user`, and empty widgets |
| ChatGui.ChatApp.AppendChat | chat_gui.py:52-56 | adds exactly one line to the log and changes nothing else |
| ChatGui.ChatApp.UpdateRecall | chat_gui.py:58-62 | replaces the panel text and changes nothing else |
| ChatGui.ChatApp.SendMessage | chat_gui.py:64-113 | blank input changes nothing and issues no call. Otherwise the entry is cleared and the log gains `You: <stripped text>` and then exactly one closing line. The calls are those of the turn. The panel is replaced by the summary when that is non-empty and otherwise keeps its old text |
| Server.Chat | server.py:29-81 | blank or missing `message` gives 400 `message is required` with no call; otherwise the first call writes the stripped text with consent; 200 exactly when the body is a reply; a 500 body names the stage of the last call issued; the calls are those of the server's turn `RunTurn(Http, …)` |
| Server.WriteFailureIs500 | server.py:42-47 | a failed write answers 500 `RecallIO write failed` after that single call |
| Server.RecallApiErrorStillAnswers | server.py:65-66 | `RecallioAPIError` still leads to a completion request with only the user message, and its result is answered |
| Server.RecallOtherErrorIs500 | server.py:67-68 | any other recall exception answers 500 `RecallIO recall failed` without a completion request |
| Server.ReplyPassedThrough | server.py:75-81 | a 200 carries the completion's content exactly as returned, unstripped; a failed completion answers 500 `OpenAI error` |

## Left out

- The remote services `write_memory`, `recall_memory` and
  `chat.completions.create` are foreign libraries. Each call is an outcome
  value given to the turn. The model name and client construction
  (`create_clients`, the `openai.OpenAI` and `RecallioClient` constructors)
  are not modelled.
- Exception messages: an error keeps only its fixed text (`RecallIO write failed`,
  `RecallIO recall failed`, `OpenAI error`), not the `: {e}` suffix.
- `load_config` error messages: a refusal is kept only as its kind
  (`ConfigError`). The texts differ between the copies. The RecallIO message
  reads `RecallIO configuration incomplete in config.json` at
  `chat_gui.py:17` and `RecallIO configuration missing in config.json` at
  `server.py:16`. Both are `RecallioIncomplete` here.
- Tkinter widget building and rendering (`_build_ui`, `mainloop`, the
  `"sender: text\n"` formatting in `append_chat`). The log is a sequence of
  (sender, text) lines.
- ChatGui.ChatApp.SendMessage: states the final state and the call trace. It
  does not state when a widget change happens relative to the calls. The
  entry is cleared and the `You` line logged on every path, including those
  that abort at the first call.
- Flask routing, `request.get_json(force=True)`, `jsonify` and `app.run`. A
  body that is not JSON, not an object, or has a non-string `message` is not
  modelled. The handler's input is the `message` as an optional string.
- File opening and JSON parsing in `load_config`, and JSON floating-point
  numbers (numbers are integers here). `main` in both files is not modelled.
- The similarity threshold is kept as the literal `0.5` and never computed with.
- The desktop summary expression `getattr(…) or getattr(…)` can evaluate
  to `None`. It is modelled as `''` because the source only tests it for truth.
- `frontend/pages/index.js` is not part of this model. It only displays
  what the server returns.
