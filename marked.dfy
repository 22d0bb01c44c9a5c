/**
 * The appendMessage of public/marked.js, run against the same page state as
 * script.js's: bot text is rendered as markdown, and the history is pushed
 * and written to storage only when save is set.
 */
module Marked {
  import opened ScriptModel
  import ChatPage

  /**
   * The bubble marked.js adds: the class depends only on whether the sender
   * is "user"; "bot" text goes through marked.parse, every other sender's
   * text is set as literal text.
   */
  function MarkedBubble(sender: string, text: string): (b: Bubble)
    ensures b.cssClass == "user-msg" <==> sender == "user"
    ensures b.cssClass == "user-msg" || b.cssClass == "bot-msg"
    ensures b.content.Markdown? <==> sender == "bot"
    ensures b.content == PlainText(text) || b.content == Markdown(text)
  {
    Bubble(CssClass(sender), if sender == "bot" then Markdown(text) else PlainText(text))
  }

  /**
   * appendMessage(sender, text, save) of marked.js: with save the message is
   * pushed and the store then mirrors the history; without it neither the
   * history nor the storage changes.
   */
  function Append(p: PageState, sender: string, text: string, save: bool): (q: PageState)
    ensures q.history == if save then p.history + [Message(sender, text)] else p.history
    ensures q.chatBox == p.chatBox + [MarkedBubble(sender, text)]
    ensures save ==> Mirrored(q)
    ensures save ==> q.storage == p.storage[HistoryKey := StoredHistory(q.history)]
    ensures !save ==> q.storage == p.storage
    ensures q.theme == p.theme
  {
    var chatBox := p.chatBox + [MarkedBubble(sender, text)];
    if save then
      var history := p.history + [Message(sender, text)];
      PageState(history, p.storage[HistoryKey := StoredHistory(history)], chatBox, p.theme)
    else
      p.(chatBox := chatBox)
  }

  method AppendMessage(page: ChatPage.Page, sender: string, text: string, save: bool)
    modifies page
    ensures page.State() == Append(old(page.State()), sender, text, save)
  {
    page.chatBox := page.chatBox + [MarkedBubble(sender, text)];
    if save {
      page.history := page.history + [Message(sender, text)];
      page.storage := page.storage[HistoryKey := StoredHistory(page.history)];
    }
  }

  /** Both versions keep the same history; they differ in the bubble and, without save, in storage. */
  lemma SameHistoryAsScript(p: PageState, sender: string, text: string, save: bool)
    ensures Append(p, sender, text, save).history == ScriptModel.Append(p, sender, text, save).history
  {
  }

  /** Without save, script.js still rewrites the stored history and marked.js does not. */
  lemma UnsavedAppendDiffersFromScript(p: PageState, sender: string, text: string)
    requires !Mirrored(p)
    ensures Append(p, sender, text, false).storage != ScriptModel.Append(p, sender, text, false).storage
  {
    assert ScriptModel.Append(p, sender, text, false).storage[HistoryKey] == StoredHistory(p.history);
  }

  /** A store that mirrors the history keeps doing so across any marked.js append. */
  lemma AppendKeepsMirror(p: PageState, sender: string, text: string, save: bool)
    requires Mirrored(p)
    ensures Mirrored(Append(p, sender, text, save))
  {
  }

  /** What the user typed is never handed to the markdown renderer. */
  lemma UserTextIsLiteral(sender: string, text: string)
    requires sender != "bot"
    ensures MarkedBubble(sender, text) == Bubble(CssClass(sender), PlainText(text))
  {
  }
}
