# AI career advisor: chat page, handlers and history store in Dafny

This project models the logic of a small AI career-advisor web app.

- **The chat page** (`public/script.js`). It keeps a `chatHistory` array mirrored into local storage under `"chatHistory"`, replays it on load, appends user and bot messages on send, exports the history as text, clears it after a confirmation, and flips the `data-bs-theme` attribute, storing `"true"`/`"false"` under `"darkMode"`.
- **The skills-gap form** in the same file. It trims two fields, posts them, and shows the analysis with line feeds turned into `<br>`.
- **The two serverless handlers** (`api/advisor.js`, `api/skills-analysis.js`). Each takes a method, a request body and a provider outcome, and returns a status code and a one-field JSON body.
- **The alternative `appendMessage`** (`public/marked.js`). It renders bot text as markdown and touches the history and storage only when `save` is set.

Modules, one file each:

- `Wrappers`: `Option`, and `Result` for calls that can throw.
- `JsText`: the JavaScript string operations used here (`trim`, `toUpperCase`, `join`, a global `replace` of `\n`).
- `Http`: request bodies, JavaScript truthiness, responses, and the provider as a function from prompt to `Result<string>`.
- `Advisor`, `SkillsAnalysis`: the handlers as pure functions. Each returns the response and the prompt passed to the provider, or `None` when the provider is never called.
- `ScriptModel`: the page state (history, storage, chat-box bubbles, theme attribute) as a value. There is one function per event handler, and lemmas state what the handlers promise.
- `ChatPage`: the page as a class whose methods update `history`, `storage`, `chatBox` and `theme` in place. Each method is proved to end in the state the matching `ScriptModel` function gives. The `load` handler's `forEach` replay is a `while` loop.
- `Marked`: the `marked.js` `appendMessage`, as a function over the same page state and as a method on a `ChatPage.Page`.
- `EndToEnd`: the page and the handlers together. The page posts a request, the handler answers, and the page shows the result.

One behaviour is reproduced as the code has it. During load, each replayed message calls `appendMessage(..., false)` while `chatHistory` is still `[]`. Line 66 of `public/script.js` runs on every call, so a non-empty saved list is overwritten in storage with `[]` before line 17 assigns it to `chatHistory`. The next append restores the stored copy. A second reload without an append shows an empty history (`ScriptModel.ReloadWithoutAppendLosesHistory`).

Behaviour the code has that a reader may not expect:

- The stored history does not always reflect the rendered messages (the load behaviour above).
- `public/script.js` renders every message, bot replies included, as literal text. Only `public/marked.js` renders bot text as markdown.
- Two toggles restore the theme only from `"light"` or `"dark"`. With the attribute absent they end on `"dark"`.
- A missing API key is not detected at start-up. It surfaces as a provider failure, so the handler answers the generic 500.
- A non-2xx answer to the skills form shows the error alert only indirectly. `data.analysis` is undefined, so `text.replace` throws inside the `try`.

## Model

| member | source | states |
|---|---|---|
| JsText.Trim | public/script.js:32 | `trim` keeps the part of the input between its leading and trailing whitespace. What it drops is whitespace only, what it keeps neither starts nor ends with whitespace, and the result is empty exactly when the input is blank |
| JsText.ToUpperCase | public/script.js:71 | upper-casing keeps the length and leaves no lower-case ASCII letter. Each lower-case letter becomes its capital and every other character stays |
| JsText.ToUpperCaseIdempotent | public/script.js:71 | upper-casing twice gives the same text as upper-casing once |
| JsText.ToUpperCaseConcat | public/script.js:71 | upper-casing distributes over concatenation |
| JsText.Join | public/script.js:71 | joining no parts gives "", joining one part gives that part, and otherwise the result starts with the first part. With `JoinSnoc` this defines the join completely |
| JsText.JoinSnoc | public/script.js:71 | joining one more part appends one separator and that part |
| JsText.ReplaceNewlines | public/script.js:140 | the global replace leaves no line feed, is the identity on text without one, and never shortens the text |
| JsText.ReplaceNewlinesChar | public/script.js:140 | a line feed becomes "<br>" and any other character stays. With the distribution lemma this fixes the replacement completely |
| JsText.ReplaceNewlinesConcat | public/script.js:140 | the replacement works character by character: it distributes over concatenation |
| Http.Truthy | api/advisor.js:11 | undefined is falsy; a string is truthy exactly when non-empty; another JSON value has its own truthiness |
| Http.Interpolate | api/advisor.js:19 | `${v}` puts a string in unchanged and another value as its text form. It fails (None) exactly for a value whose conversion throws |
| Http.Respond | api/advisor.js:24-30 | 200 with the provider's text unchanged under the given key exactly when the provider succeeded; otherwise exactly `{error:"Something went wrong"}` with 500 |
| Advisor.Prompt | api/advisor.js:18-22 | the prompt contains the message verbatim between double quotes |
| Advisor.PromptRoundTrip | api/advisor.js:18-22 | the message can be read back from its prompt, so distinct messages give distinct prompts |
| Advisor.Handle | api/advisor.js:3-31 | non-POST gives 405 with no provider call. The provider is called exactly when the method is POST, a body exists, `message` is truthy and `${message}` does not throw, and then with the prompt for that message. A truthy message whose conversion throws gets the generic 500 with no provider call. 200 exactly when the provider succeeded, with `{reply: T}` and T unchanged. A provider failure gives exactly the generic 500. Every other response is one of the three fixed error bodies |
| Advisor.MissingBodyIsServerError | api/advisor.js:8-9 | a POST without a body throws while destructuring inside the `try` and gets 500, not 400, with no provider call |
| Advisor.FalsyMessageRejected | api/advisor.js:11-13 | a falsy `message` gives 400 `{error:"Message is required"}` and no provider call |
| Advisor.UnconvertibleMessageIsServerError | api/advisor.js:19-29 | a truthy message such as `{"toString": 1}`, which a template literal cannot turn into text, throws inside the `try` and gets 500 with no provider call |
| Advisor.WhitespaceMessageAccepted | api/advisor.js:11 | the server does not trim: a whitespace-only message is sent to the provider |
| Advisor.FailureCauseHidden | api/advisor.js:27-30 | any two failing providers give the same response whatever their causes, and it is not a 200 |
| SkillsAnalysis.Prompt | api/skills-analysis.js:20-26 | the prompt contains the skills and the role verbatim, each between double quotes, the skills before the role |
| SkillsAnalysis.Handle | api/skills-analysis.js:3-36 | non-POST gives 405 with no provider call. The provider is called exactly when the method is POST, a body exists, both `skills` and `role` are truthy and neither conversion to text throws. If either conversion throws, the answer is the generic 500 with no provider call. 200 exactly on provider success, with `{analysis: T}` and T unchanged. A provider failure gives exactly the generic 500. Every other response is one of the three fixed error bodies |
| SkillsAnalysis.MissingBodyIsServerError | api/skills-analysis.js:8-9 | a POST without a body gets 500, not 400, with no provider call |
| SkillsAnalysis.FalsyFieldRejected | api/skills-analysis.js:11-13 | either field falsy gives 400 `{error:"Skills and role are required"}` and no provider call |
| SkillsAnalysis.UnconvertibleFieldIsServerError | api/skills-analysis.js:20-35 | when either skills or role cannot be turned into text, the request gets 500 with no provider call |
| SkillsAnalysis.WhitespaceFieldsAccepted | api/skills-analysis.js:11 | whitespace-only skills and role pass the server's check and reach the provider |
| SkillsAnalysis.FailureCauseHidden | api/skills-analysis.js:32-35 | failing providers give the same non-200 response whatever their causes |
| ScriptModel.CssClass | public/script.js:60 | the class is "user-msg" exactly for sender "user" and "bot-msg" for every other sender |
| ScriptModel.Append | public/script.js:57-67 | with save the message is added at the end and earlier entries stay. Without save the history is unchanged. Either way the stored `"chatHistory"` afterwards equals the history, one bubble is added, and other keys and the theme are untouched |
| ScriptModel.Replay | public/script.js:15 | replaying saved messages adds their bubbles and leaves the history as it was. Once there is one message, it overwrites the stored copy with the current history |
| ScriptModel.SavedHistory | public/script.js:14 | a missing key reads as an empty list and a stored list as itself. Parsing fails exactly on stored text that is non-empty |
| ScriptModel.Load | public/script.js:13-23 | an unparsable store changes nothing. Otherwise the history becomes the saved list, and the theme becomes "dark" exactly when `"darkMode"` is `"true"`, else stays as it was |
| ScriptModel.LoadRestoresSaved | public/script.js:14-17 | after load the history equals the saved list in order and the chat box shows one literal bubble per message (`Bubbles`). The stored copy holds the pre-load history when the list was non-empty. The theme is untouched unless dark mode is stored |
| ScriptModel.LoadUnparsableChangesNothing | public/script.js:14 | stored history text that does not parse as an array makes the handler throw before any change, the theme included |
| ScriptModel.LoadBlanksStoredCopy | public/script.js:14-17 | on page load with a non-empty saved list, the history is the list but storage holds `[]`, so the store no longer mirrors the history |
| ScriptModel.ReloadWithoutAppendLosesHistory | public/script.js:14-17 | a second reload with no append in between shows an empty history |
| ScriptModel.LoadAppliesDarkMode | public/script.js:19-22 | a stored `"darkMode"` of `"true"` sets the theme to "dark" on load |
| ScriptModel.AppendAllEffect | public/script.js:65-66 | appending N saved messages extends the history by exactly them, and the store then mirrors it |
| ScriptModel.ReloadRestoresAppended | public/script.js:14-17 | appending N messages and reloading gives back the history with those N messages in order |
| ScriptModel.BotText | public/script.js:49-53 | the bot text is never empty. It is the reply when truthy, "Sorry, no response from AI." when the reply is missing or empty, and "Error connecting to server." when the request threw |
| ScriptModel.SendRequest | public/script.js:32-33 | a message is posted exactly when the input is not blank, and it is the trimmed input |
| ScriptModel.Send | public/script.js:31-55 | a blank input changes nothing. Otherwise the trimmed user message and then exactly one bot message are appended and saved. The store mirrors the history and every other storage key is unchanged |
| ScriptModel.ExportLine | public/script.js:71 | a block is as long as the sender plus 2 plus the text. It starts with the upper-cased sender, then ": ", then the text unchanged |
| ScriptModel.Export | public/script.js:69-71 | nothing is exported exactly when the history is empty; otherwise the file is chat-history.txt. Its content is the blocks of `ExportLines` joined by blank lines, pinned down by the two lemmas below |
| ScriptModel.ExportExample | public/script.js:71 | `[{user,"hi"},{bot,"hello"}]` exports as `"USER: hi\n\nBOT: hello"` |
| ScriptModel.ExportSingle | public/script.js:71 | one message exports as its block alone |
| ScriptModel.ExportAfterAppend | public/script.js:71 | appending a message to a non-empty history appends a blank line and its block to the export |
| ScriptModel.Clear | public/script.js:81-87 | an empty history or a declined confirmation changes nothing. A confirmed clear empties the history and chat box and removes exactly the `"chatHistory"` key |
| ScriptModel.ClearThenReloadIsEmpty | public/script.js:84-85 | after a confirmed clear the next load shows an empty history |
| ScriptModel.ToggledTheme | public/script.js:91-99 | "light" becomes "dark", anything else becomes "light" |
| ScriptModel.Toggle | public/script.js:89-100 | the theme flips and `"darkMode"` stores "true" exactly when the new theme is dark. History and chat box are untouched |
| ScriptModel.ToggleTwiceRestores | public/script.js:91-99 | two toggles from "light" or "dark" restore the attribute and store the flag matching it |
| ScriptModel.ToggleTwiceFromUnset | public/script.js:91-99 | with no attribute, two toggles end on "dark" |
| ScriptModel.DarkThemeSurvivesReload | public/script.js:19-20 | a toggle from light to dark is applied again by the next page load |
| ScriptModel.SkillsFormRequest | public/script.js:109-114 | the form posts exactly when neither field is blank, with both fields trimmed |
| ScriptModel.AnalysisPanel | public/script.js:108-145 | a blank field shows the warning. A card is shown exactly when the answer has an analysis, and its text has every line feed as `<br>`. Every other case shows the error alert |
| ChatPage.Page.constructor | public/script.js:10 | the script starts with an empty `chatHistory` and chat box |
| ChatPage.Page.AppendMessage | public/script.js:57-67 | the page afterwards is `ScriptModel.Append` of the page before |
| ChatPage.Page.Load | public/script.js:13-23 | the loop replays the saved list and the page afterwards is the load of the page before |
| ChatPage.Page.SendMessage | public/script.js:31-55 | returns the message posted (none for a blank input); the page afterwards is `ScriptModel.Send` of the page before |
| ChatPage.Page.ExportChat | public/script.js:69-79 | returns `ScriptModel.Export` of the current history, with the file name and the content the export lemmas state |
| ChatPage.Page.ClearChat | public/script.js:81-87 | the page afterwards is `ScriptModel.Clear` of the page before, for the user's answer |
| ChatPage.Page.ToggleTheme | public/script.js:89-100 | the page afterwards is `ScriptModel.Toggle` of the page before |
| Marked.MarkedBubble | public/marked.js:6-16 | the class is "user-msg" exactly for "user". Bot text goes to the markdown renderer and every other sender's text is literal |
| Marked.Append | public/marked.js:3-25 | with save the message is added at the end and the store mirrors the history, with every other key unchanged. Without save neither history nor storage changes. One bubble is added either way |
| Marked.AppendMessage | public/marked.js:3-25 | the page afterwards is `Marked.Append` of the page before |
| Marked.SameHistoryAsScript | public/marked.js:21-22 | both versions of appendMessage leave the same history |
| Marked.UnsavedAppendDiffersFromScript | public/marked.js:21-24 | without save, on a store that does not mirror the history, the script.js version rewrites storage and this one does not |
| Marked.AppendKeepsMirror | public/marked.js:21-24 | a store that mirrors the history still does after any append of this version |
| Marked.UserTextIsLiteral | public/marked.js:14-16 | text from any sender but "bot" is set as literal text, never parsed as markup |
| EndToEnd.AdvisorAnswerOf | public/script.js:46-49 | `data.reply` is defined exactly when the response body's field is "reply", and is then its value |
| EndToEnd.AnalysisAnswerOf | public/script.js:124-127 | `data.analysis` is defined exactly when the response body's field is "analysis", and is then its value |
| EndToEnd.PostedMessageReachesProvider | public/script.js:32-45 | a message the page posts never gets 400 and reaches the provider verbatim in the prompt |
| EndToEnd.BotMessageFromProvider | public/script.js:46-49 | the bot message is the provider's text when non-empty, otherwise "Sorry, no response from AI.", including when the provider failed |
| EndToEnd.AnalysisFromProvider | public/script.js:118-130 | a request from the form always reaches the provider. Its text is shown in the card with `<br>` for line feeds, and a provider failure ends in the error alert |

## Left out

- The Gemini SDK (client construction, model id, `generateContent`, `response.text()`) and the API-key variable. The provider is a function from prompt to `Result<string>`, and any throw in it is an `Err`.
- `fetch`, `response.json()` and HTTP transport. What the page got back is an input: `data.reply` or `data.analysis` as a string or undefined, or a thrown error.
- The internals of `marked.parse`. A bubble records `Markdown(source)` for "`innerHTML` set to `marked.parse(source)`".
- DOM work: element creation, the constant "message" class, scrolling, the typing indicator, button labels, clearing the input box, the "Analysing" placeholder, the card markup around the analysis text, and `exportAnalysis`.
- Blob and URL download mechanics, `alert`, and `console.error`. The export returns the file name and content. The "No chat to export." alert is `NothingToExport`.
- `confirm()`. The user's answer is a parameter of `ClearChat`.
- Async interleaving of overlapping clicks, and storage races between tabs. Each handler runs as one atomic step. For a send, the answer to the request is an input.
- JSON encoding. Stored history is the message sequence itself. A stored string under `"chatHistory"` stands for text that is empty (read as `[]`) or not the JSON of an array (the handler throws). Malformed message objects inside a parsed array are not modelled.
- Http.JsValue: a non-string JSON field value is given by its truthiness and by its template-literal text (None when the conversion throws). Neither is derived from the value's JSON structure.
- ScriptModel.BotText: a reply that is a non-string JSON value is not modelled. The handler only sends strings.
- JsText.ToUpperCase: maps ASCII letters only. Full Unicode case mapping (for example "ß" to "SS") is not modelled. Senders are "user" and "bot" in practice.
- The initial value of `data-bs-theme` comes from HTML that is not part of this model. It is a parameter of the page.
- A `req.body` that is a non-null primitive is not modelled separately. Destructuring it gives undefined fields, the same as an object without them.
- Which `appendMessage` the running page uses when both scripts are loaded depends on HTML not shown. Both versions are modelled over the same page state.
