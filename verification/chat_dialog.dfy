/** The mentor chat dialog (`DevAIDialog`): named conversations, the history
    a conversation's chat is started from, and the message-list transitions
    of one send. A send works on the conversation and the conversation list
    as they were when it started; the model's answer is a parameter and the
    browser storage is represented by the list last saved to it. */
module ChatDialog {
  import opened Values
  import opened Text
  import opened Store
  import opened Orchestrator

  /** `LocalChatMessage`: its id, the conversation it belongs to, its
      text, who sent it, and whether it is the placeholder of a pending
      answer. */
  datatype ChatMessage = ChatMessage(id: string, conversationUid: string, content: string, kind: MessageType, isLoading: bool)

  /** `LocalChatConversation`: its id, title and messages. */
  datatype Conversation = Conversation(id: string, title: string, messages: seq<ChatMessage>)

  /** The dialog's state: the conversations, the selected one (a copy, as
      React holds it), the messages shown, the input box, the busy flag,
      whether a chat session exists, the name typed for a new chat, and the
      list last written to storage. */
  datatype ChatState = ChatState(conversations: seq<Conversation>, selected: Option<Conversation>, messages: seq<ChatMessage>,
                                 input: string, isLoading: bool, hasChat: bool, newChatName: string,
                                 saved: Option<seq<Conversation>>)

  /** `handleCreateChat` at clock reading `now`: a blank name changes
      nothing; otherwise a conversation with the trimmed name and no
      messages is appended, selected and saved, and the name box cleared. */
  function CreateChat(st: ChatState, now: nat): (r: ChatState)
    ensures Trim(st.newChatName) == "" ==> r == st
    ensures Trim(st.newChatName) != "" ==>
      var c := Conversation(NatText(now), Trim(st.newChatName), []);
      && r.conversations == st.conversations + [c]
      && r.selected == Some(c) && r.saved == Some(r.conversations) && r.newChatName == ""
      && r.messages == st.messages && r.input == st.input && r.isLoading == st.isLoading && r.hasChat == st.hasChat
  {
    var name := Trim(st.newChatName);
    if name == "" then st
    else
      var c := Conversation(NatText(now), name, []);
      var all := st.conversations + [c];
      st.(conversations := all, selected := Some(c), saved := Some(all), newChatName := "")
  }

  /** A new chat's title is already trimmed, so the same name typed again
      gives the same title, and its chat starts from the seed. */
  lemma CreatedChatIsFresh(st: ChatState, now: nat)
    requires Trim(st.newChatName) != ""
    ensures var c := CreateChat(st, now).selected.value;
            && Trim(c.title) == c.title && c.title == Trim(st.newChatName)
            && HistoryFor(c) == Seed
  {
    TrimIdempotent(st.newChatName);
  }

  /** The role a message is replayed under. */
  function RoleOf(kind: MessageType): (role: Role)
    ensures role == UserRole <==> kind == UserType
  {
    if kind == UserType then UserRole else ModelRole
  }

  /** The two turns a chat with no messages is started from. */
  const Seed := [HistoryEntry(UserRole, "Initialize with system prompt"),
                 HistoryEntry(ModelRole, "Hello! I'm DevSprint-AI, " + "your development mentor. I'm here to help you with your learning project and tasks. "
                                         + "What would you like to work on today?")]

  /** The history the chat of a conversation is started with: its messages
      in order, each with its sender's role and its text, or the seed when
      it has none. */
  function HistoryFor(c: Conversation): (h: seq<HistoryEntry>)
    ensures c.messages == [] ==> h == Seed
    ensures c.messages != [] ==> |h| == |c.messages|
    ensures c.messages != [] ==> forall i :: 0 <= i < |h| ==>
      h[i].text == c.messages[i].content && (h[i].role == UserRole <==> c.messages[i].kind == UserType)
  {
    if c.messages == [] then Seed
    else seq(|c.messages|, i requires 0 <= i < |c.messages| => HistoryEntry(RoleOf(c.messages[i].kind), c.messages[i].content))
  }

  /** The guard of `handleSendMessage`; a send in flight does not block
      another. */
  predicate CanChatSend(st: ChatState) {
    Trim(st.input) != "" && st.hasChat && st.selected.Some?
  }

  /** What a send captured when it started: the selected conversation and
      the conversation list as they were, the user message and the
      placeholder. */
  datatype ChatPending = ChatPending(conversation: Conversation, conversations: seq<Conversation>,
                                     user: ChatMessage, placeholder: ChatMessage)

  /** `conversations.map(conv => conv.id === id ? { ...conv, messages } : conv)` */
  function WithMessages(cs: seq<Conversation>, id: string, messages: seq<ChatMessage>): (r: seq<Conversation>)
    ensures |r| == |cs|
    ensures forall i :: 0 <= i < |cs| ==> r[i] == if cs[i].id == id then cs[i].(messages := messages) else cs[i]
  {
    seq(|cs|, i requires 0 <= i < |cs| => if cs[i].id == id then cs[i].(messages := messages) else cs[i])
  }

  /** `setSelectedConversation(prev => prev ? { ...prev, messages } : null)`:
      whatever conversation is selected when the update runs gets the
      messages. */
  function SelectedWith(selected: Option<Conversation>, messages: seq<ChatMessage>): (r: Option<Conversation>)
    ensures r.Some? <==> selected.Some?
    ensures r.Some? ==> r.value == selected.value.(messages := messages)
  {
    if selected.Some? then Some(selected.value.(messages := messages)) else None
  }

  /** The first half of `handleSendMessage`, with its two clock readings: a
      blocked send changes nothing; otherwise the user message and a
      loading placeholder are appended to the selected conversation, in the
      list and in the view, the input is cleared and the dialog is busy. */
  function BeginChatSend(st: ChatState, userTime: nat, placeholderTime: nat): (r: (ChatState, Option<ChatPending>))
    ensures !CanChatSend(st) ==> r == (st, None)
    ensures CanChatSend(st) ==>
      var sel := st.selected.value;
      && r.1.Some? && r.1.value.conversation == sel && r.1.value.conversations == st.conversations
      && r.1.value.user == ChatMessage(NatText(userTime), sel.id, Trim(st.input), UserType, false)
      && r.1.value.placeholder == ChatMessage(NatText(placeholderTime + 1), sel.id, "", AiType, true)
      && r.0.messages == sel.messages + [r.1.value.user, r.1.value.placeholder]
      && r.0.conversations == WithMessages(st.conversations, sel.id, r.0.messages)
      && r.0.selected == Some(sel.(messages := r.0.messages))
      && r.0.input == "" && r.0.isLoading && r.0.saved == st.saved
  {
    if !CanChatSend(st) then (st, None)
    else
      var sel := st.selected.value;
      var user := ChatMessage(NatText(userTime), sel.id, Trim(st.input), UserType, false);
      var placeholder := ChatMessage(NatText(placeholderTime + 1), sel.id, "", AiType, true);
      var pending := sel.messages + [user, placeholder];
      (st.(messages := pending, conversations := WithMessages(st.conversations, sel.id, pending),
           selected := SelectedWith(st.selected, pending), input := "", isLoading := true),
       Some(ChatPending(sel, st.conversations, user, placeholder)))
  }

  /** The second half of `handleSendMessage`, applied to the dialog as it
      is when the answer arrives: the captured conversation's messages
      become its prior messages, the user message and, on success, the
      answer under the placeholder's id; the list is rebuilt from the one
      captured at the start and saved on success only. */
  function FinishChatSend(st: ChatState, p: ChatPending, answer: Reply<string>): (r: ChatState)
    ensures answer.Resolved? ==>
      && r.messages == p.conversation.messages + [p.user, ChatMessage(p.placeholder.id, p.conversation.id, answer.value, AiType, false)]
      && r.saved == Some(r.conversations)
    ensures answer.Rejected? ==> r.messages == p.conversation.messages + [p.user] && r.saved == st.saved
    ensures r.conversations == WithMessages(p.conversations, p.conversation.id, r.messages)
    ensures r.selected == SelectedWith(st.selected, r.messages)
    ensures !r.isLoading && r.input == st.input && r.hasChat == st.hasChat
  {
    match answer
    case Resolved(text) =>
      var reply := ChatMessage(p.placeholder.id, p.conversation.id, text, AiType, false);
      var final := p.conversation.messages + [p.user, reply];
      var all := WithMessages(p.conversations, p.conversation.id, final);
      st.(messages := final, conversations := all, selected := SelectedWith(st.selected, final), saved := Some(all), isLoading := false)
    case Rejected(_) =>
      var kept := p.conversation.messages + [p.user];
      st.(messages := kept, conversations := WithMessages(p.conversations, p.conversation.id, kept),
          selected := SelectedWith(st.selected, kept), isLoading := false)
  }

  /** Rebuilding the list with one conversation's messages leaves every
      other conversation as it was, and keeps the order. */
  lemma OnlySelectedChanges(cs: seq<Conversation>, id: string, messages: seq<ChatMessage>)
    ensures forall i :: 0 <= i < |cs| && cs[i].id != id ==> WithMessages(cs, id, messages)[i] == cs[i]
    ensures forall i :: 0 <= i < |cs| ==> WithMessages(cs, id, messages)[i].id == cs[i].id
    ensures forall i :: 0 <= i < |cs| && cs[i].id == id ==> WithMessages(cs, id, messages)[i].messages == messages
  {
  }

  /** A send followed by its answer: the conversation gains exactly the
      user message and, on success, the answer in the placeholder's place;
      on failure the placeholder is removed. */
  lemma ChatSendRoundTrip(st: ChatState, userTime: nat, placeholderTime: nat, answer: Reply<string>)
    requires CanChatSend(st)
    ensures var (begun, p) := BeginChatSend(st, userTime, placeholderTime);
            var done := FinishChatSend(begun, p.value, answer);
            var prior := st.selected.value.messages;
            var user := ChatMessage(NatText(userTime), st.selected.value.id, Trim(st.input), UserType, false);
            && (answer.Resolved? ==> done.messages == prior + [user, ChatMessage(NatText(placeholderTime + 1), st.selected.value.id, answer.value, AiType, false)])
            && (answer.Rejected? ==> done.messages == prior + [user])
            && done.conversations == WithMessages(st.conversations, st.selected.value.id, done.messages)
            && done.selected == Some(st.selected.value.(messages := done.messages))
  {
  }

  /** After a successful send the conversation's chat history, were it
      started again, is the old one followed by the user's text and the
      answer. */
  lemma HistoryAfterSend(c: Conversation, user: ChatMessage, reply: ChatMessage)
    requires c.messages != [] && user.kind == UserType && reply.kind == AiType
    ensures HistoryFor(c.(messages := c.messages + [user, reply]))
            == HistoryFor(c) + [HistoryEntry(UserRole, user.content), HistoryEntry(ModelRole, reply.content)]
  {
    var after := HistoryFor(c.(messages := c.messages + [user, reply]));
    var expected := HistoryFor(c) + [HistoryEntry(UserRole, user.content), HistoryEntry(ModelRole, reply.content)];
    assert |after| == |expected|;
    forall i | 0 <= i < |after|
      ensures after[i] == expected[i]
    {
      if i < |c.messages| {
        assert (c.messages + [user, reply])[i] == c.messages[i];
      }
    }
  }

  /** The list a send writes back is the one captured when it started: a
      conversation created while the answer was pending is dropped from it
      and from what is saved, and, being selected, is shown with the
      messages of the conversation the send belonged to. */
  lemma CreatedDuringSendIsDropped(st: ChatState, userTime: nat, placeholderTime: nat, createTime: nat, text: string)
    requires CanChatSend(st) && Trim(st.newChatName) != ""
    requires forall i :: 0 <= i < |st.conversations| ==> st.conversations[i].id != NatText(createTime)
    ensures var (begun, p) := BeginChatSend(st, userTime, placeholderTime);
            var created := CreateChat(begun, createTime);
            var done := FinishChatSend(created, p.value, Resolved(text));
            && created.conversations[|created.conversations| - 1].id == NatText(createTime)
            && |done.conversations| == |st.conversations|
            && (forall i :: 0 <= i < |done.conversations| ==> done.conversations[i].id != NatText(createTime))
            && done.saved == Some(done.conversations)
            && done.selected.Some? && done.selected.value.id == NatText(createTime)
            && done.selected.value.messages == done.messages
  {
  }
}
