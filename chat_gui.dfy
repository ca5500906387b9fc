/** The desktop chat client: a window holding a chat log, a recalled-summary
    panel and an input entry, whose Send handler runs one turn. The widgets
    are reduced to the state the handler changes: the entry's text, the log
    as a sequence of (sender, text) lines, and the panel's text. */
module ChatGui {
  import opened Wrappers
  import opened Json
  import opened Text
  import opened Config
  import opened Services
  import opened Pipeline

  datatype Sender = You | Assistant | Error

  /** One `sender: text` line of the chat log. */
  datatype ChatLine = ChatLine(sender: Sender, text: string)

  /** The line a finished turn adds after the user's own line: an error line
      naming the failed stage, or the assistant's reply. */
  function ClosingLine(t: Turn): (line: ChatLine)
    requires t.outcome.Answered? ==> t.outcome.reply.Some?
    ensures line.sender != You
    ensures line.sender == Assistant <==> t.outcome.Answered?
    ensures line.sender == Error ==> line.text == StageMessage(t.outcome.stage)
  {
    match t.outcome
    case Aborted(stage) => ChatLine(Error, StageMessage(stage))
    case Answered(reply) => ChatLine(Assistant, reply.value)
  }

  /** In the desktop client a turn that answers always has a reply text, and
      its closing line is an assistant line exactly when the completion
      succeeded with a content, holding that content stripped; otherwise it
      is an error line for the stage that failed. */
  lemma ClosingLineRule(id: Identity, text: string, w: WriteOutcome, r: RecallOutcome, g: GenOutcome)
    ensures var t := RunTurn(Desktop, id, text, w, r, g);
      && (t.outcome.Answered? ==> t.outcome.reply.Some?)
      && (ClosingLine(t).sender == Assistant <==> |t.calls| == 3 && g.Completion? && g.content.Some?)
      && (ClosingLine(t).sender == Assistant ==> ClosingLine(t).text == Strip(g.content.value))
      && (ClosingLine(t).sender != Assistant ==> ClosingLine(t) == ChatLine(Error, StageMessage(t.outcome.stage)))
  {
  }

  class ChatApp {
    /** `user_id` and `project_id`, read once from the configuration. */
    const id: Identity
    /** The text in the input entry. */
    var entry: string
    /** The chat log, oldest line first. */
    var chatLog: seq<ChatLine>
    /** The text of the recalled-summary panel. */
    var recallPanel: string

    /** A window for an accepted configuration, with empty widgets. */
    constructor (cfg: Json)
      requires Accepted(cfg)
      ensures id == Identity(UserIdOf(cfg), ProjectIdOf(cfg))
      ensures entry == "" && chatLog == [] && recallPanel == ""
    {
      id := Identity(UserIdOf(cfg), ProjectIdOf(cfg));
      entry := "";
      chatLog := [];
      recallPanel := "";
    }

    /** `append_chat`: adds one line to the log. */
    method AppendChat(sender: Sender, text: string)
      modifies this
      ensures chatLog == old(chatLog) + [ChatLine(sender, text)]
      ensures entry == old(entry) && recallPanel == old(recallPanel)
    {
      chatLog := chatLog + [ChatLine(sender, text)];
    }

    /** `update_recall`: replaces the panel's text. */
    method UpdateRecall(text: string)
      modifies this
      ensures recallPanel == text
      ensures entry == old(entry) && chatLog == old(chatLog)
    {
      recallPanel := text;
    }

    /** The Send handler. Blank input is ignored; otherwise the entry is
        cleared, the user's line is logged, and the turn runs against the
        given outcomes of the three remote calls. Returns the calls issued. */
    method SendMessage(w: WriteOutcome, r: RecallOutcome, g: GenOutcome) returns (calls: seq<Call>)
      modifies this
      ensures var text := Strip(old(entry));
        text == [] ==>
          && calls == []
          && entry == old(entry) && chatLog == old(chatLog) && recallPanel == old(recallPanel)
      ensures var text := Strip(old(entry)); var t := RunTurn(Desktop, id, text, w, r, g);
        text != [] ==>
          && calls == t.calls
          && entry == ""
          && chatLog == old(chatLog) + [ChatLine(You, text), ClosingLine(t)]
          && recallPanel == (if t.summary != [] then t.summary else old(recallPanel))
    {
      var userText := Strip(entry);
      if userText == [] {
        return [];
      }
      ghost var t := RunTurn(Desktop, id, userText, w, r, g);
      entry := "";
      AppendChat(You, userText);

      calls := [WriteCall(WriteRequest(id.userId, id.projectId, userText, true))];
      if w.WriteErr? {
        assert calls == t.calls && t.outcome == Aborted(WriteStage);
        AppendChat(Error, StageMessage(WriteStage));
        return;
      }

      calls := calls + [RecallCall(RecallRequest(id.projectId, id.userId, userText, UserScope, true, SimilarityThreshold, RecallLimit))];
      var recalled := SummaryFrom(Desktop, r);
      if recalled.None? {
        assert calls == t.calls && t.outcome == Aborted(RecallStage);
        AppendChat(Error, StageMessage(RecallStage));
        return;
      }
      var summaryText := recalled.value;
      if summaryText != [] {
        UpdateRecall(summaryText);
      }

      var messages: seq<Message> := [];
      if summaryText != [] {
        messages := messages + [Message(System, SummaryPrefix + summaryText)];
      }
      messages := messages + [Message(User, userText)];
      assert messages == BuildPrompt(summaryText, userText);

      calls := calls + [GenerateCall(messages)];
      assert calls == t.calls;
      var reply: string;
      match g {
        case GenErr =>
          assert t.outcome == Aborted(GenerateStage);
          AppendChat(Error, StageMessage(GenerateStage));
          return;
        case Completion(content) =>
          if content.None? {
            assert t.outcome == Aborted(GenerateStage);
            AppendChat(Error, StageMessage(GenerateStage));
            return;
          }
          reply := Strip(content.value);
          assert t.outcome == Answered(Some(reply));
      }
      AppendChat(Assistant, reply);
    }
  }
}
