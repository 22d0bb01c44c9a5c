/**
 * The chat page of public/script.js as the object it is: module-level state
 * that the event handlers update in place. Each method is proved to leave
 * the page in the state the matching function of ScriptModel gives.
 */
module ChatPage {
  import opened Wrappers
  import opened JsText
  import opened ScriptModel

  class Page {
    /** The module-level chatHistory array. */
    var history: seq<Message>
    /** window.localStorage. */
    var storage: map<string, Stored>
    /** The message divs inside #chat-box. */
    var chatBox: seq<Bubble>
    /** document.body's data-bs-theme attribute. */
    var theme: Option<string>

    ghost function State(): PageState
      reads this
    {
      PageState(history, storage, chatBox, theme)
    }

    /** The script starts on a page whose storage and theme attribute it finds as they are. */
    constructor (storage: map<string, Stored>, theme: Option<string>)
      ensures State() == Opened(storage, theme)
    {
      history := [];
      this.storage := storage;
      chatBox := [];
      this.theme := theme;
    }

    method AppendMessage(sender: string, text: string, save: bool)
      modifies this
      ensures State() == Append(old(State()), sender, text, save)
    {
      chatBox := chatBox + [PlainBubble(sender, text)];
      if save {
        history := history + [Message(sender, text)];
      }
      storage := storage[HistoryKey := StoredHistory(history)];
    }

    /** The window "load" handler. */
    method Load()
      modifies this
      ensures State() == ScriptModel.Load(old(State()))
    {
      var parsed := SavedHistory(storage);
      if parsed.None? {
        return;
      }
      var saved := parsed.value;
      var i := 0;
      while i < |saved|
        invariant 0 <= i <= |saved|
        invariant State() == Replay(old(State()), saved[..i])
      {
        AppendMessage(saved[i].sender, saved[i].text, false);
        assert saved[..i + 1][..i] == saved[..i];
        i := i + 1;
      }
      assert saved[..|saved|] == saved;
      history := saved;
      if DarkModeStored(storage) {
        theme := Some("dark");
      }
    }

    /**
     * sendMessage, with the text box's content and what the request to
     * /api/advisor came back with; returns the message it posted, if any.
     */
    method SendMessage(input: string, answer: AdvisorAnswer) returns (request: Option<string>)
      modifies this
      ensures request == SendRequest(input)
      ensures State() == Send(old(State()), input, answer)
    {
      var message := Trim(input);
      if message == "" {
        return None;
      }
      AppendMessage("user", message, true);
      request := Some(message);
      AppendMessage("bot", BotText(answer), true);
    }

    method ExportChat() returns (r: ExportResult)
      ensures r == Export(history)
    {
      r := Export(history);
    }

    /** clearChat, with the user's answer to the confirmation dialog. */
    method ClearChat(confirmed: bool)
      modifies this
      ensures State() == Clear(old(State()), confirmed)
    {
      if history == [] {
        return;
      }
      if !confirmed {
        return;
      }
      history := [];
      storage := storage - {HistoryKey};
      chatBox := [];
    }

    method ToggleTheme()
      modifies this
      ensures State() == Toggle(old(State()))
    {
      if theme == Some("light") {
        theme := Some("dark");
        storage := storage[DarkModeKey := StoredText("true")];
      } else {
        theme := Some("light");
        storage := storage[DarkModeKey := StoredText("false")];
      }
    }
  }
}
