/** The message list of the assistant dialog (`EnhancedDevAIDialog`): the
    single-flight send guard, the user message and the empty placeholder a
    send appends, and the replacement of the placeholder by the reply or by
    an error text. Rendering, scrolling, toasts and the welcome text are not
    modelled; clock readings are parameters. */
module AssistantDialog {
  import opened Values
  import opened Text
  import opened Store
  import opened Dispatcher
  import opened Synthesis
  import opened Orchestrator

  // ---------------------------------------------------------------------
  // generateUserFriendlyResponse

  /** The message of each result that succeeded and has a non-empty one. */
  function MessageEntries(results: seq<CallResult>): (xs: seq<Option<string>>)
    ensures |xs| == |results|
    ensures forall i :: 0 <= i < |results| ==>
      xs[i] == if results[i].success && results[i].message.Some? && results[i].message.value != "" then results[i].message else None
  {
    seq(|results|, i requires 0 <= i < |results| =>
      if results[i].success && results[i].message.Some? && results[i].message.value != "" then results[i].message else None)
  }

  /** The error of each result that failed and has a non-empty one. */
  function ErrorEntries(results: seq<CallResult>): (xs: seq<Option<string>>)
    ensures |xs| == |results|
    ensures forall i :: 0 <= i < |results| ==>
      xs[i] == if !results[i].success && results[i].error.Some? && results[i].error.value != "" then results[i].error else None
  {
    seq(|results|, i requires 0 <= i < |results| =>
      if !results[i].success && results[i].error.Some? && results[i].error.value != "" then results[i].error else None)
  }

  const AllDone := "✅ " + "Operation completed successfully!"

  /** `mark + parts.join('\n' + mark)`, or nothing for no parts. */
  function Marked(mark: string, parts: seq<string>): string {
    if parts == [] then "" else mark + Join(parts, "\n" + mark)
  }

  /** Every part shows in the marked text behind its mark. */
  lemma MarkedHas(mark: string, parts: seq<string>, k: nat)
    requires k < |parts|
    ensures Contains(Marked(mark, parts), mark + parts[k])
  {
    MarkedJoinHas(mark, parts, k);
  }

  /** The text built from the collected messages: each success prefixed by
      a check mark, then, after a blank line, each error prefixed by a
      cross; the fixed text when nothing was collected. */
  function Friendly(ok: seq<string>, failed: seq<string>): (text: string)
    ensures text != ""
  {
    var successes := Marked("✅ ", ok);
    var text := successes + (if failed != [] && successes != "" then "\n\n" else "") + Marked("❌ ", failed);
    if text == "" then AllDone else text
  }

  /** `generateUserFriendlyResponse(results)` */
  function UserFriendlyResponse(results: seq<CallResult>): (text: string)
    ensures text != ""
  {
    Friendly(Somes(MessageEntries(results)), Somes(ErrorEntries(results)))
  }

  /** When something was collected, the text is the successes, the gap and
      the failures, with no fallback. */
  lemma FriendlyShape(ok: seq<string>, failed: seq<string>)
    requires ok != [] || failed != []
    ensures Friendly(ok, failed) == Marked("✅ ", ok) + Gap(ok, failed) + Marked("❌ ", failed)
  {
    var successes := Marked("✅ ", ok);
    assert ok != [] ==> |successes| >= 2;
    assert failed != [] ==> |Marked("❌ ", failed)| >= 2;
  }

  lemma FriendlyHasSuccess(ok: seq<string>, failed: seq<string>, k: nat)
    requires k < |ok|
    ensures Contains(Friendly(ok, failed), "✅ " + ok[k])
  {
    FriendlyShape(ok, failed);
    MarkedHas("✅ ", ok, k);
    ContainsBefore(Marked("✅ ", ok), Gap(ok, failed), "✅ " + ok[k]);
    ContainsBefore(Marked("✅ ", ok) + Gap(ok, failed), Marked("❌ ", failed), "✅ " + ok[k]);
  }

  lemma FriendlyHasFailure(ok: seq<string>, failed: seq<string>, k: nat)
    requires k < |failed|
    ensures Contains(Friendly(ok, failed), "❌ " + failed[k])
  {
    FriendlyShape(ok, failed);
    MarkedHas("❌ ", failed, k);
    ContainsWithin(Marked("✅ ", ok) + Gap(ok, failed), Marked("❌ ", failed), "", "❌ " + failed[k]);
    assert Marked("✅ ", ok) + Gap(ok, failed) + Marked("❌ ", failed) + "" == Friendly(ok, failed);
  }

  /** Every collected success appears behind a check mark and every
      collected error behind a cross; with nothing collected the text is
      the fixed one. */
  lemma FriendlyReports(ok: seq<string>, failed: seq<string>)
    ensures ok == [] && failed == [] ==> Friendly(ok, failed) == AllDone
    ensures forall k :: 0 <= k < |ok| ==> Contains(Friendly(ok, failed), "✅ " + ok[k])
    ensures forall k :: 0 <= k < |failed| ==> Contains(Friendly(ok, failed), "❌ " + failed[k])
  {
    forall k | 0 <= k < |ok| ensures Contains(Friendly(ok, failed), "✅ " + ok[k]) {
      FriendlyHasSuccess(ok, failed, k);
    }
    forall k | 0 <= k < |failed| ensures Contains(Friendly(ok, failed), "❌ " + failed[k]) {
      FriendlyHasFailure(ok, failed, k);
    }
  }

  /** Each result's message or error that the dialog collects shows in its
      summary with the matching mark. */
  lemma FriendlyMentions(results: seq<CallResult>, i: nat)
    requires i < |results|
    ensures var r := results[i];
            r.success && r.message.Some? && r.message.value != "" ==> Contains(UserFriendlyResponse(results), "✅ " + r.message.value)
    ensures var r := results[i];
            !r.success && r.error.Some? && r.error.value != "" ==> Contains(UserFriendlyResponse(results), "❌ " + r.error.value)
  {
    var ok := Somes(MessageEntries(results));
    var failed := Somes(ErrorEntries(results));
    SomesMembership(MessageEntries(results));
    SomesMembership(ErrorEntries(results));
    FriendlyReports(ok, failed);
  }

  /** The dispatcher's results carry no `message`, so the dialog's summary
      of them collects no success, and says all went well when none
      failed. */
  lemma DispatcherResultsReportFailuresOnly(results: seq<CallResult>)
    requires forall i :: 0 <= i < |results| ==> WellFormed(results[i])
    ensures Somes(MessageEntries(results)) == []
    ensures (forall i :: 0 <= i < |results| ==> results[i].success) ==> UserFriendlyResponse(results) == AllDone
  {
    SomesOfNone(MessageEntries(results));
    if forall i :: 0 <= i < |results| ==> results[i].success {
      SomesOfNone(ErrorEntries(results));
    }
  }

  // ---------------------------------------------------------------------
  // handleSendMessage

  /** The dialog's state: its messages, the input box, whether a send is
      in flight, and whether the service was created. */
  datatype AssistantState = AssistantState(messages: seq<AIMessage>, input: string, isLoading: bool, hasService: bool)

  /** What a send started: the text sent and the id of its placeholder. */
  datatype Pending = Pending(content: string, placeholderId: string)

  /** The guard of `handleSendMessage`. */
  predicate CanSend(st: AssistantState) {
    Trim(st.input) != "" && st.hasService && !st.isLoading
  }

  /** The first half of `handleSendMessage`, with the two clock readings
      it takes: a blocked send changes nothing; otherwise the trimmed input
      is appended as a user message stamped with the first reading, followed
      by an empty placeholder stamped one past the second, the input is
      cleared and the dialog is busy. */
  function BeginSend(st: AssistantState, userTime: nat, placeholderTime: nat): (r: (AssistantState, Option<Pending>))
    ensures !CanSend(st) ==> r == (st, None)
    ensures CanSend(st) ==>
      && r.1 == Some(Pending(Trim(st.input), NatText(placeholderTime + 1)))
      && r.0 == AssistantState(st.messages + [AIMessage(NatText(userTime), Trim(st.input), UserType, None, None),
                                               AIMessage(NatText(placeholderTime + 1), "", AiType, None, None)],
                               "", true, st.hasService)
  {
    if !CanSend(st) then (st, None)
    else
      var user := AIMessage(NatText(userTime), Trim(st.input), UserType, None, None);
      var placeholder := AIMessage(NatText(placeholderTime + 1), "", AiType, None, None);
      (st.(messages := st.messages + [user, placeholder], input := "", isLoading := true), Some(Pending(user.content, placeholder.id)))
  }

  /** `prev.map(msg => msg.id === id ? m : msg)` */
  function ReplaceById(ms: seq<AIMessage>, id: string, m: AIMessage): (r: seq<AIMessage>)
    ensures |r| == |ms|
    ensures forall i :: 0 <= i < |ms| ==> r[i] == if ms[i].id == id then m else ms[i]
  {
    seq(|ms|, i requires 0 <= i < |ms| => if ms[i].id == id then m else ms[i])
  }

  const NoContent := "I processed your request. " + "Please check if the changes were applied."

  /** The content fallbacks: an empty reply with results is summarised from
      them, and one that is still empty gets a fixed text. */
  function FinalContent(m: AIMessage): (content: string)
    ensures content != ""
    ensures m.content != "" ==> content == m.content
    ensures m.content == "" && m.functionResults.Some? && |m.functionResults.value| > 0 ==>
      content == UserFriendlyResponse(m.functionResults.value)
    ensures m.content == "" && (m.functionResults.None? || m.functionResults.value == []) ==> content == NoContent
  {
    var content := if m.content == "" && m.functionResults.Some? && |m.functionResults.value| > 0
                   then UserFriendlyResponse(m.functionResults.value) else m.content;
    if content == "" then NoContent else content
  }

  const TimeoutText := "Sorry, the " + "request took too long to process. " + "The operation might have completed - please check your lists and tasks. "
                       + "If not, please try again with a simpler request."

  const ErrorText := "Sorry, I " + "encountered an error while processing your request. Please try again."

  /** The rejection `Promise.race` yields when the 30-second timer fires
      first. */
  const Timeout := ErrorWith("Message processing timeout after 30 seconds")

  /** Whether an error is reported as a timeout. */
  predicate MentionsTimeout(e: Thrown) {
    e.ErrorWith? && Contains(e.message, "timeout")
  }

  function ErrorContent(e: Thrown): (content: string)
    ensures content == TimeoutText <==> MentionsTimeout(e)
    ensures content == ErrorText <==> !MentionsTimeout(e)
  {
    assert TimeoutText[7] != ErrorText[7];
    if MentionsTimeout(e) then TimeoutText else ErrorText
  }

  /** The outcome of a send: the dialog afterwards and whether the
      project's cached data is invalidated. */
  datatype Settled = Settled(state: AssistantState, invalidate: bool)

  /** The second half of `handleSendMessage`, applied to the dialog as it
      is when the reply (or the error, at clock reading `now`) arrives: the
      placeholder is replaced by the reply with its content fallbacks, or by
      an error text; the cache is invalidated exactly when some result
      succeeded; the dialog is no longer busy. */
  function FinishSend(st: AssistantState, p: Pending, answer: Reply<AIMessage>, now: nat): (r: Settled)
    ensures |r.state.messages| == |st.messages|
    ensures forall i :: 0 <= i < |st.messages| && st.messages[i].id != p.placeholderId ==> r.state.messages[i] == st.messages[i]
    ensures !r.state.isLoading && r.state.input == st.input && r.state.hasService == st.hasService
    ensures r.invalidate <==> answer.Resolved? && answer.value.functionResults.Some?
                               && exists k :: 0 <= k < |answer.value.functionResults.value| && answer.value.functionResults.value[k].success
    ensures answer.Resolved? ==> forall i :: 0 <= i < |st.messages| && st.messages[i].id == p.placeholderId ==>
              r.state.messages[i] == answer.value.(content := FinalContent(answer.value))
    ensures answer.Rejected? ==> forall i :: 0 <= i < |st.messages| && st.messages[i].id == p.placeholderId ==>
              r.state.messages[i] == AIMessage(NatText(now + 2), ErrorContent(answer.thrown), AiType, None, None)
  {
    match answer
    case Resolved(m) =>
      var reply := m.(content := FinalContent(m));
      var invalidate := m.functionResults.Some? && exists k :: 0 <= k < |m.functionResults.value| && m.functionResults.value[k].success;
      Settled(st.(messages := ReplaceById(st.messages, p.placeholderId, reply), isLoading := false), invalidate)
    case Rejected(e) =>
      var shown := AIMessage(NatText(now + 2), ErrorContent(e), AiType, None, None);
      Settled(st.(messages := ReplaceById(st.messages, p.placeholderId, shown), isLoading := false), false)
  }

  /** Distinct clock readings give distinct ids. */
  lemma IdsDistinct(a: nat, b: nat)
    requires a != b
    ensures NatText(a) != NatText(b)
  {
    ParseNatText(a);
    ParseNatText(b);
  }

  /** A send that nothing interrupts: when no earlier message has the
      placeholder's id, the conversation ends with the user message and the
      reply, which takes the placeholder's place. */
  lemma SendRoundTrip(st: AssistantState, userTime: nat, placeholderTime: nat, answer: Reply<AIMessage>, later: nat)
    requires CanSend(st) && userTime != placeholderTime + 1
    requires forall i :: 0 <= i < |st.messages| ==> st.messages[i].id != NatText(placeholderTime + 1)
    ensures var (begun, p) := BeginSend(st, userTime, placeholderTime);
            var done := FinishSend(begun, p.value, answer, later);
            var shown := if answer.Resolved? then answer.value.(content := FinalContent(answer.value))
                         else AIMessage(NatText(later + 2), ErrorContent(answer.thrown), AiType, None, None);
            done.state.messages == st.messages + [AIMessage(NatText(userTime), Trim(st.input), UserType, None, None), shown]
            && !done.state.isLoading && done.state.input == ""
  {
    var (begun, p) := BeginSend(st, userTime, placeholderTime);
    IdsDistinct(userTime, placeholderTime + 1);
    var done := FinishSend(begun, p.value, answer, later);
    var shown := if answer.Resolved? then answer.value.(content := FinalContent(answer.value))
                 else AIMessage(NatText(later + 2), ErrorContent(answer.thrown), AiType, None, None);
    var expected := st.messages + [AIMessage(NatText(userTime), Trim(st.input), UserType, None, None), shown];
    assert |done.state.messages| == |expected|;
    forall i | 0 <= i < |expected|
      ensures done.state.messages[i] == expected[i]
    {
      if i < |st.messages| {
        assert begun.messages[i] == st.messages[i];
      }
    }
  }

  /** A reply produced by the service is shown as it is: its content is
      never empty, so neither fallback applies. */
  lemma ServiceRepliesShownAsIs(b: Backend, s: Session, turn: Reply<ModelTurn>, now: nat)
    requires SendMessage(b, s, turn, now).outcome.Replied?
    ensures var m := SendMessage(b, s, turn, now).outcome.message;
            FinalContent(m) == m.content
  {
  }
}
