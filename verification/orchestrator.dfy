/** The AI service object: seeding the conversation with the project's
    context (`initializeSession`) and one user turn (`sendMessage`). The
    language model is not modelled; its answer to a turn is a parameter, and
    the chat session is represented by the history it was started with. */
module Orchestrator {
  import opened Values
  import opened Store
  import opened Text
  import opened Dispatcher
  import opened Batch
  import opened Synthesis
  import opened Context

  datatype Role = UserRole | ModelRole

  /** One entry of a chat history: who said it and the text. */
  datatype HistoryEntry = HistoryEntry(role: Role, text: string)

  /** The service's fields: the dispatch state (project, snapshot, remote
      calls), whether the model was set up, the history a new chat starts
      from, and the chat, recorded by the history it was started with. */
  datatype Session = Session(store: State, modelReady: bool, chatHistory: seq<HistoryEntry>, chat: Option<seq<HistoryEntry>>)

  const Acknowledgement := "I understand the current project structure. " + "I can help you create lists and tasks, update them, or answer questions about the project."

  /** `initializeSession`: fetches the project and, when that succeeds,
      replaces the history with the context message and the model's
      acknowledgement. A failed fetch leaves the history as it was. An
      existing chat is not restarted. */
  function InitializeSession(b: Backend, s: Session): (r: Session)
    ensures r.modelReady == s.modelReady && r.chat == s.chat
    ensures r.store.log == s.store.log + [ApiGetProject(s.store.projectUid)]
    ensures b.project(r.store.log).Resolved? ==>
      var p := b.project(r.store.log).value;
      r.chatHistory == [HistoryEntry(UserRole, ContextMessage(p.lists, AllTasks(p.lists))), HistoryEntry(ModelRole, Acknowledgement)]
      && r.store.snapshot == Some(p)
    ensures b.project(r.store.log).Rejected? ==> r.chatHistory == s.chatHistory && r.store.snapshot == s.store.snapshot
  {
    var fetched := GetProjectData(b, s.store);
    if fetched.result.success && fetched.result.data.Some? && fetched.result.data.value.ProjectData? then
      var d := fetched.result.data.value;
      s.(store := fetched.state,
         chatHistory := [HistoryEntry(UserRole, ContextMessage(d.lists, d.tasks)), HistoryEntry(ModelRole, Acknowledgement)])
    else s.(store := fetched.state)
  }

  /** What the model answers to a turn: its text (empty when it has none)
      and the calls it proposes (none when it proposes none or reading them
      fails). */
  datatype ModelTurn = ModelTurn(text: string, calls: seq<FunctionCall>)

  datatype MessageType = UserType | AiType

  /** `AIMessage`: one entry of the assistant's conversation. A reply's
      `id` is the time it was made in milliseconds, rendered in decimal. */
  datatype AIMessage = AIMessage(id: string, content: string, kind: MessageType,
                                 functionCalls: Option<seq<FunctionCall>>, functionResults: Option<seq<CallResult>>)

  datatype SendOutcome = Replied(message: AIMessage) | Threw(error: Thrown)

  datatype Sent = Sent(outcome: SendOutcome, session: Session)

  const NoTextReply := "I processed your request. " + "Let me know if you need anything else!"

  /** `sendMessage`: refuses without a model; otherwise starts the chat if
      there is none, from the history as it is now, and sends the turn. A
      reply with calls runs them in order and summarises their results; one
      without calls is shown as its text, or a fixed text when it is empty.
      A failure of the model rejects with the same error. */
  function SendMessage(b: Backend, s: Session, turn: Reply<ModelTurn>, now: nat): (r: Sent)
    ensures !s.modelReady ==> r == Sent(Threw(ErrorWith("AI model not initialized")), s)
    ensures s.modelReady ==>
      && r.session.chat == Some(if s.chat.Some? then s.chat.value else s.chatHistory)
      && r.session.chatHistory == s.chatHistory && r.session.modelReady
    ensures s.modelReady && turn.Rejected? ==> r.outcome == Threw(turn.thrown) && r.session.store == s.store
    ensures r.outcome.Replied? ==>
      var m := r.outcome.message;
      && s.modelReady && turn.Resolved?
      && m.id == NatText(now) && m.content != "" && m.kind == AiType
      && (m.functionCalls.Some? <==> turn.value.calls != [])
      && (m.functionCalls.Some? ==> m.functionCalls.value == turn.value.calls)
      && (m.functionResults.Some? <==> turn.value.calls != [])
      && (m.functionResults.Some? ==> |m.functionResults.value| == |turn.value.calls|)
    ensures s.modelReady && turn.Resolved? && turn.value.calls == [] ==>
      && r.session.store == s.store && r.outcome.Replied?
      && r.outcome.message.content == (if turn.value.text != "" then turn.value.text else NoTextReply)
    ensures s.modelReady && turn.Resolved? && turn.value.calls != [] ==>
      var ran := DispatchAll(b, s.store, turn.value.calls);
      && r.session.store == ran.1 && r.outcome.Replied?
      && r.outcome.message.functionResults == Some(ran.0)
      && r.outcome.message.content == Summary(ran.0, turn.value.calls)
  {
    if !s.modelReady then Sent(Threw(ErrorWith("AI model not initialized")), s)
    else
      var s := if s.chat.None? then s.(chat := Some(s.chatHistory)) else s;
      match turn
      case Rejected(e) => Sent(Threw(e), s)
      case Resolved(t) =>
        if t.calls != [] then
          var ran := DispatchAll(b, s.store, t.calls);
          Sent(Replied(AIMessage(NatText(now), Summary(ran.0, t.calls), AiType, Some(t.calls), Some(ran.0))), s.(store := ran.1))
        else
          var content := if t.text != "" then t.text else NoTextReply;
          Sent(Replied(AIMessage(NatText(now), content, AiType, None, None)), s)
  }

  /** The chat is seeded once: a session initialised again after the first
      turn keeps talking to the chat started from the old history, so the
      new context never reaches the model. */
  lemma ContextNotRefreshed(b: Backend, s: Session, first: Reply<ModelTurn>, second: Reply<ModelTurn>, now: nat, later: nat)
    requires s.modelReady && s.chat.None?
    ensures var afterFirst := SendMessage(b, s, first, now).session;
            var refreshed := InitializeSession(b, afterFirst);
            SendMessage(b, refreshed, second, later).session.chat == Some(s.chatHistory)
  {
  }

  /** The id of a reply reads back as the time it was made. */
  lemma ReplyIdIsTime(b: Backend, s: Session, turn: Reply<ModelTurn>, now: nat)
    requires SendMessage(b, s, turn, now).outcome.Replied?
    ensures ParseDigits(SendMessage(b, s, turn, now).outcome.message.id) == now
  {
    ParseNatText(now);
  }
}
