/**
 * The chat page of public/script.js as values: the in-memory chatHistory,
 * the browser's local storage, the chat box's message bubbles and the
 * document's data-bs-theme attribute, with one function per event handler
 * giving the page after it ran. The class in chat_page.dfy is proved
 * against these functions; the lemmas here state what the handlers promise.
 */
module ScriptModel {
  import opened Wrappers
  import opened JsText

  /** One chat message, {sender, text}. */
  datatype Message = Message(sender: string, text: string)

  /**
   * A value in local storage. A saved message list is kept as the sequence
   * itself rather than as its JSON text; StoredText is any other string
   * (under the history key: one that is empty or is not the JSON of an array).
   */
  datatype Stored = StoredHistory(messages: seq<Message>) | StoredText(text: string)

  /** What a bubble shows: text set through innerText, or markdown set through innerHTML = marked.parse(source). */
  datatype Content = PlainText(text: string) | Markdown(source: string)

  /** A message div in the chat box: its class besides "message", and its content. */
  datatype Bubble = Bubble(cssClass: string, content: Content)

  /** What the chat handlers read and write; theme is None while the attribute is absent. */
  datatype PageState = PageState(
    history: seq<Message>,
    storage: map<string, Stored>,
    chatBox: seq<Bubble>,
    theme: Option<string>)

  const HistoryKey := "chatHistory"
  const DarkModeKey := "darkMode"
  const NoResponse := "Sorry, no response from AI."
  const ConnectionError := "Error connecting to server."

  /** The bubble class: "user-msg" for the user, "bot-msg" for every other sender. */
  function CssClass(sender: string): (c: string)
    ensures c == "user-msg" <==> sender == "user"
    ensures c == "user-msg" || c == "bot-msg"
  {
    if sender == "user" then "user-msg" else "bot-msg"
  }

  /** The bubble script.js's appendMessage adds: always literal text. */
  function PlainBubble(sender: string, text: string): Bubble {
    Bubble(CssClass(sender), PlainText(text))
  }

  function Bubbles(ms: seq<Message>): (bs: seq<Bubble>)
    ensures |bs| == |ms|
    ensures forall i | 0 <= i < |ms| :: bs[i] == PlainBubble(ms[i].sender, ms[i].text)
  {
    seq(|ms|, i requires 0 <= i < |ms| => PlainBubble(ms[i].sender, ms[i].text))
  }

  /** The stored "chatHistory" is a copy of the in-memory chatHistory. */
  predicate Mirrored(p: PageState) {
    HistoryKey in p.storage && p.storage[HistoryKey] == StoredHistory(p.history)
  }

  /** The page as the script starts: chatHistory = [], an empty chat box, storage as left by earlier visits. */
  function Opened(storage: map<string, Stored>, theme: Option<string>): PageState {
    PageState([], storage, [], theme)
  }

  // ---------------------------------------------------------------- appendMessage

  /**
   * appendMessage(sender, text, save): adds a literal-text bubble, pushes the
   * message when save is set, and then writes chatHistory to storage whether
   * or not it pushed. Afterwards the store mirrors the history; every other
   * key and the theme are untouched.
   */
  function Append(p: PageState, sender: string, text: string, save: bool): (q: PageState)
    ensures q.history == if save then p.history + [Message(sender, text)] else p.history
    ensures Mirrored(q)
    ensures q.chatBox == p.chatBox + [PlainBubble(sender, text)]
    ensures q.theme == p.theme
    ensures q.storage.Keys == p.storage.Keys + {HistoryKey}
    ensures forall k | k in p.storage && k != HistoryKey :: q.storage[k] == p.storage[k]
  {
    var history := if save then p.history + [Message(sender, text)] else p.history;
    PageState(history, p.storage[HistoryKey := StoredHistory(history)], p.chatBox + [PlainBubble(sender, text)], p.theme)
  }

  // ---------------------------------------------------------------- the load handler

  /**
   * JSON.parse(localStorage.getItem("chatHistory") || "[]"): the saved list;
   * [] when the key is missing or holds the empty string; None when parsing
   * throws or yields no array, so that the rest of the handler does not run.
   */
  function SavedHistory(storage: map<string, Stored>): (saved: Option<seq<Message>>)
    ensures HistoryKey !in storage ==> saved == Some([])
    ensures saved.None? <==> HistoryKey in storage && storage[HistoryKey].StoredText? && storage[HistoryKey].text != ""
    ensures HistoryKey in storage && storage[HistoryKey].StoredHistory? ==> saved == Some(storage[HistoryKey].messages)
  {
    if HistoryKey !in storage then Some([])
    else
      match storage[HistoryKey]
      case StoredHistory(ms) => Some(ms)
      case StoredText(t) => if t == "" then Some([]) else None
  }

  /** localStorage.getItem("darkMode") === "true" */
  predicate DarkModeStored(storage: map<string, Stored>) {
    DarkModeKey in storage && storage[DarkModeKey] == StoredText("true")
  }

  /**
   * saved.forEach(msg => appendMessage(msg.sender, msg.text, false)): one
   * bubble per saved message, chatHistory untouched, and (once there is at
   * least one message) the store overwritten with the current chatHistory.
   */
  function Replay(p: PageState, saved: seq<Message>): (q: PageState)
    ensures q.history == p.history && q.theme == p.theme
    ensures q.chatBox == p.chatBox + Bubbles(saved)
    ensures q.storage == if saved == [] then p.storage else p.storage[HistoryKey := StoredHistory(p.history)]
    decreases |saved|
  {
    if saved == [] then p
    else
      var last := saved[|saved| - 1];
      var q := Append(Replay(p, saved[..|saved| - 1]), last.sender, last.text, false);
      assert Bubbles(saved) == Bubbles(saved[..|saved| - 1]) + [PlainBubble(last.sender, last.text)];
      q
  }

  /**
   * The load handler: replay the saved list, then assign it to chatHistory,
   * then apply a stored dark mode.
   */
  function Load(p: PageState): (q: PageState)
    ensures SavedHistory(p.storage).None? ==> q == p
    ensures SavedHistory(p.storage).Some? ==> q.history == SavedHistory(p.storage).value
    ensures SavedHistory(p.storage).Some? ==> q.theme == if DarkModeStored(p.storage) then Some("dark") else p.theme
  {
    match SavedHistory(p.storage)
    case None => p
    case Some(saved) =>
      var q := Replay(p, saved).(history := saved);
      if DarkModeStored(q.storage) then q.(theme := Some("dark")) else q
  }

  /** Load restores the saved list in order and shows one bubble per message. */
  lemma LoadRestoresSaved(p: PageState, saved: seq<Message>)
    requires SavedHistory(p.storage) == Some(saved)
    ensures Load(p).history == saved
    ensures Load(p).chatBox == p.chatBox + Bubbles(saved)
    ensures Load(p).storage == if saved == [] then p.storage else p.storage[HistoryKey := StoredHistory(p.history)]
    ensures !DarkModeStored(p.storage) ==> Load(p).theme == p.theme
  {
  }

  /** When the stored history cannot be parsed the handler throws first and nothing changes, the theme included. */
  lemma LoadUnparsableChangesNothing(p: PageState)
    requires SavedHistory(p.storage).None?
    ensures Load(p) == p
  {
  }

  /**
   * The replay runs while chatHistory is still [], so loading a non-empty
   * saved list leaves [] in the store although the page now holds the list.
   */
  lemma LoadBlanksStoredCopy(storage: map<string, Stored>, theme: Option<string>, saved: seq<Message>)
    requires HistoryKey in storage && storage[HistoryKey] == StoredHistory(saved) && saved != []
    ensures Load(Opened(storage, theme)).history == saved
    ensures Load(Opened(storage, theme)).storage[HistoryKey] == StoredHistory([])
    ensures !Mirrored(Load(Opened(storage, theme)))
  {
    LoadRestoresSaved(Opened(storage, theme), saved);
  }

  /** So reloading the page a second time without appending anything shows an empty history. */
  lemma ReloadWithoutAppendLosesHistory(storage: map<string, Stored>, theme: Option<string>, saved: seq<Message>)
    requires HistoryKey in storage && storage[HistoryKey] == StoredHistory(saved) && saved != []
    ensures Load(Opened(Load(Opened(storage, theme)).storage, theme)).history == []
  {
    LoadBlanksStoredCopy(storage, theme, saved);
    var again := Load(Opened(storage, theme)).storage;
    LoadRestoresSaved(Opened(again, theme), []);
  }

  /** A stored dark mode is applied on load, whatever the page started with. */
  lemma LoadAppliesDarkMode(p: PageState)
    requires SavedHistory(p.storage).Some? && DarkModeStored(p.storage)
    ensures Load(p).theme == Some("dark")
  {
  }

  // ---------------------------------------------------------------- persistence round trip

  /** Appends the messages one after another, each saved. */
  function AppendAll(p: PageState, ms: seq<Message>): PageState
    decreases |ms|
  {
    if ms == [] then p else AppendAll(Append(p, ms[0].sender, ms[0].text, true), ms[1..])
  }

  lemma {:induction false} AppendAllEffect(p: PageState, ms: seq<Message>)
    ensures AppendAll(p, ms).history == p.history + ms
    ensures ms != [] || Mirrored(p) ==> Mirrored(AppendAll(p, ms))
    decreases |ms|
  {
    if ms != [] {
      var q := Append(p, ms[0].sender, ms[0].text, true);
      AppendAllEffect(q, ms[1..]);
      assert q.history + ms[1..] == p.history + ms;
    }
  }

  /**
   * Appending N messages and then reloading the page gives back the history
   * with those N messages in order; the store only has to mirror the history
   * beforehand when N is 0.
   */
  lemma ReloadRestoresAppended(p: PageState, ms: seq<Message>, theme: Option<string>)
    requires ms != [] || Mirrored(p)
    ensures Load(Opened(AppendAll(p, ms).storage, theme)).history == p.history + ms
  {
    AppendAllEffect(p, ms);
    LoadRestoresSaved(Opened(AppendAll(p, ms).storage, theme), p.history + ms);
  }

  // ---------------------------------------------------------------- sendMessage

  /** What the client got back from POST /api/advisor: data.reply (None when undefined), or a thrown error. */
  datatype AdvisorAnswer = Answered(reply: Option<string>) | ConnectionFailed

  /**
   * The bot message's text: the reply when it is truthy, the "no response"
   * text when it is missing or empty, the connection error when fetch or
   * response.json() threw. Never empty.
   */
  function BotText(answer: AdvisorAnswer): (text: string)
    ensures text != ""
    ensures answer.Answered? && answer.reply.Some? && answer.reply.value != "" ==> text == answer.reply.value
    ensures answer.Answered? && (answer.reply.None? || answer.reply.value == "") ==> text == NoResponse
    ensures answer.ConnectionFailed? ==> text == ConnectionError
  {
    match answer
    case Answered(reply) => if reply.Some? && reply.value != "" then reply.value else NoResponse
    case ConnectionFailed => ConnectionError
  }

  /** The message sendMessage posts, or None when it posts nothing. */
  function SendRequest(input: string): (message: Option<string>)
    ensures message.None? <==> Blank(input)
    ensures message.Some? ==> message.value == Trim(input) && message.value != ""
  {
    var message := Trim(input);
    if message == "" then None else Some(message)
  }

  /**
   * sendMessage with input in the text box: a trimmed-empty input changes
   * nothing; otherwise the user's trimmed message and then one bot message
   * are appended, both saved.
   */
  function Send(p: PageState, input: string, answer: AdvisorAnswer): (q: PageState)
    ensures Blank(input) ==> q == p
    ensures !Blank(input) ==> q.history == p.history + [Message("user", Trim(input)), Message("bot", BotText(answer))]
    ensures !Blank(input) ==> q.chatBox == p.chatBox + [PlainBubble("user", Trim(input)), PlainBubble("bot", BotText(answer))]
    ensures !Blank(input) ==> Mirrored(q) && q.theme == p.theme
    ensures !Blank(input) ==> q.storage == p.storage[HistoryKey := StoredHistory(q.history)]
  {
    var message := Trim(input);
    if message == "" then p
    else Append(Append(p, "user", message, true), "bot", BotText(answer), true)
  }

  // ---------------------------------------------------------------- exportChat

  datatype ExportResult = NothingToExport | Download(fileName: string, content: string)

  /** One exported block: the sender upper-cased, a colon, a space, the text. */
  function ExportLine(m: Message): (line: string)
    ensures |line| == |m.sender| + 2 + |m.text|
    ensures line[..|m.sender|] == ToUpperCase(m.sender)
    ensures line[|m.sender|..|m.sender| + 2] == ": "
    ensures line[|m.sender| + 2..] == m.text
  {
    ToUpperCase(m.sender) + ": " + m.text
  }

  function ExportLines(history: seq<Message>): (lines: seq<string>)
    ensures |lines| == |history|
    ensures forall i | 0 <= i < |history| :: lines[i] == ExportLine(history[i])
  {
    seq(|history|, i requires 0 <= i < |history| => ExportLine(history[i]))
  }

  /**
   * exportChat: nothing for an empty history (the "No chat to export." alert);
   * otherwise chat-history.txt holding the blocks separated by blank lines.
   */
  function Export(history: seq<Message>): (r: ExportResult)
    ensures r.NothingToExport? <==> history == []
    ensures r.Download? ==> r.fileName == "chat-history.txt"
  {
    if history == [] then NothingToExport
    else Download("chat-history.txt", Join(ExportLines(history), "\n\n"))
  }

  /** The history [user "hi", bot "hello"] exports as two blocks separated by a blank line. */
  lemma ExportExample()
    ensures Export([Message("user", "hi"), Message("bot", "hello")]) == Download("chat-history.txt", "USER: hi\n\nBOT: hello")
  {
    var h := [Message("user", "hi"), Message("bot", "hello")];
    assert ToUpperCase("user") == "USER";
    assert ToUpperCase("bot") == "BOT";
    assert ExportLine(h[0]) == "USER: hi";
    assert ExportLine(h[1]) == "BOT: hello";
    assert ExportLines(h) == ["USER: hi", "BOT: hello"];
    assert ExportLines(h)[1..] == ["BOT: hello"];
  }

  /** A single message exports as its own block. */
  lemma ExportSingle(m: Message)
    ensures Export([m]) == Download("chat-history.txt", ExportLine(m))
  {
    assert ExportLines([m]) == [ExportLine(m)];
  }

  /** Appending a message to a non-empty history adds a blank line and its block at the end of the export. */
  lemma ExportAfterAppend(history: seq<Message>, m: Message)
    requires history != []
    ensures Export(history + [m]).content == Export(history).content + "\n\n" + ExportLine(m)
  {
    assert ExportLines(history + [m]) == ExportLines(history) + [ExportLine(m)];
    JoinSnoc(ExportLines(history), ExportLine(m), "\n\n");
  }

  // ---------------------------------------------------------------- clearChat

  /**
   * clearChat with the user's answer to the confirmation: with an empty
   * history (where no question is asked) or a refusal nothing changes;
   * otherwise the history, the stored copy and the chat box are emptied.
   */
  function Clear(p: PageState, confirmed: bool): (q: PageState)
    ensures p.history == [] || !confirmed ==> q == p
    ensures p.history != [] && confirmed ==>
      q.history == [] && q.chatBox == [] && q.storage == p.storage - {HistoryKey} && q.theme == p.theme
  {
    if p.history == [] || !confirmed then p
    else p.(history := [], storage := p.storage - {HistoryKey}, chatBox := [])
  }

  /** After a confirmed clear the next page load starts from an empty history. */
  lemma ClearThenReloadIsEmpty(p: PageState, theme: Option<string>)
    requires p.history != []
    ensures HistoryKey !in Clear(p, true).storage
    ensures Load(Opened(Clear(p, true).storage, theme)).history == []
  {
    LoadRestoresSaved(Opened(Clear(p, true).storage, theme), []);
  }

  // ---------------------------------------------------------------- toggleTheme

  /** The attribute after a toggle: "light" becomes "dark", anything else (absent included) becomes "light". */
  function ToggledTheme(theme: Option<string>): (r: Option<string>)
    ensures r == Some("dark") <==> theme == Some("light")
    ensures r == Some("dark") || r == Some("light")
  {
    if theme == Some("light") then Some("dark") else Some("light")
  }

  /** The "darkMode" flag for a theme attribute. */
  function DarkModeFlag(theme: Option<string>): string {
    if theme == Some("dark") then "true" else "false"
  }

  /** toggleTheme: flips the attribute and stores the matching flag; nothing else changes. */
  function Toggle(p: PageState): (q: PageState)
    ensures q.theme == ToggledTheme(p.theme)
    ensures q.storage == p.storage[DarkModeKey := StoredText(DarkModeFlag(q.theme))]
    ensures q.history == p.history && q.chatBox == p.chatBox
  {
    if p.theme == Some("light") then p.(theme := Some("dark"), storage := p.storage[DarkModeKey := StoredText("true")])
    else p.(theme := Some("light"), storage := p.storage[DarkModeKey := StoredText("false")])
  }

  /** Toggling twice from "light" or "dark" restores the attribute and stores the flag that matches it. */
  lemma ToggleTwiceRestores(p: PageState)
    requires p.theme == Some("light") || p.theme == Some("dark")
    ensures Toggle(Toggle(p)).theme == p.theme
    ensures Toggle(Toggle(p)).storage == p.storage[DarkModeKey := StoredText(DarkModeFlag(p.theme))]
  {
  }

  /** Without the attribute, two toggles end on "dark": the round trip needs a starting theme. */
  lemma ToggleTwiceFromUnset(p: PageState)
    requires p.theme.None?
    ensures Toggle(Toggle(p)).theme == Some("dark")
  {
  }

  /** A toggle to dark survives a reload: the next load applies the stored flag. */
  lemma DarkThemeSurvivesReload(p: PageState, theme: Option<string>)
    requires SavedHistory(p.storage).Some? && p.theme == Some("light")
    ensures Load(Opened(Toggle(p).storage, theme)).theme == Some("dark")
  {
    var storage := Toggle(p).storage;
    assert SavedHistory(storage) == SavedHistory(p.storage);
    var saved := SavedHistory(storage).value;
    var replayed := Replay(Opened(storage, theme), saved);
    assert DarkModeStored(replayed.storage);
  }

  // ---------------------------------------------------------------- skills gap form

  datatype SkillsRequest = SkillsRequest(skills: string, role: string)

  /** What the client got back from POST /api/skills-analysis: data.analysis (None when undefined), or a thrown error. */
  datatype AnalysisAnswer = Analysis(analysis: Option<string>) | AnalysisFailed

  /** What the result area ends up showing. */
  datatype Panel = FillBothFields | AnalysisCard(text: string) | ErrorAlert

  /** The request the analyse button posts: both fields trimmed, none when either is empty. */
  function SkillsFormRequest(skillsInput: string, roleInput: string): (r: Option<SkillsRequest>)
    ensures r.None? <==> Blank(skillsInput) || Blank(roleInput)
    ensures r.Some? ==> r.value == SkillsRequest(Trim(skillsInput), Trim(roleInput))
  {
    var skills := Trim(skillsInput);
    var role := Trim(roleInput);
    if skills == "" || role == "" then None else Some(SkillsRequest(skills, role))
  }

  /**
   * renderAnalysis's card text: every line feed of the analysis as <br>. An
   * undefined analysis (an error response) makes text.replace throw inside
   * the try, so the error alert is shown instead.
   */
  function AnalysisPanel(skillsInput: string, roleInput: string, answer: AnalysisAnswer): (panel: Panel)
    ensures panel == FillBothFields <==> Blank(skillsInput) || Blank(roleInput)
    ensures panel.AnalysisCard? <==> !Blank(skillsInput) && !Blank(roleInput) && answer.Analysis? && answer.analysis.Some?
    ensures panel.AnalysisCard? ==> '\n' !in panel.text && panel.text == ReplaceNewlines(answer.analysis.value)
  {
    if SkillsFormRequest(skillsInput, roleInput).None? then FillBothFields
    else
      match answer
      case Analysis(Some(text)) => AnalysisCard(ReplaceNewlines(text))
      case _ => ErrorAlert
  }
}
