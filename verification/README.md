# Project-Nest natural-language command layer, in Dafny

This project models the part of Project-Nest that turns a language model's
proposals into changes to a project, and the backend's configuration
loading. It covers:

- **Action catalog** (`catalog.dfy`). The eight actions the model may
  propose (`FUNCTION_SCHEMAS`), with each action's declared and required
  parameters.
- **Dispatcher** (`dispatcher.dfy`). `executeFunctionCall` and its
  per-action helpers run against an abstract project store. Every remote
  call is appended to a log. The store's answer to each call is a function
  of that log, so any success or failure sequence can be expressed.
- **Batch loop** (`batch.dfy`). The calls of one model turn run strictly in
  order, and each call yields one result.
- **Result synthesiser** (`synthesis.dfy`). `generateResponseFromResults`.
- **Context builder** (`context.dfy`). `buildContextMessage`.
- **AI service** (`orchestrator.dfy`). `initializeSession` and
  `sendMessage`. The model's answer to a turn is an input: its text plus
  the calls it proposes, or an error.
- **Assistant dialog** (`assistant_dialog.dfy`). The send guard,
  placeholder and reply handling of `EnhancedDevAIDialog`, and its
  `generateUserFriendlyResponse`.
- **Mentor chat dialog** (`chat_dialog.dfy`). Conversations, chat history
  and the send transitions of `DevAIDialog`.
- **Retry rules** (`retry.dfy`). The query and mutation retry predicates
  of the frontend's query client.
- **Backend configuration** (`config.dfy`). `getEnv`, `Load` and
  `getCORSOrigins`.
- **Conformance** (`conformance.dfy`). Where the dispatcher agrees with
  the catalog, and the two places where it does not.

Shared definitions live in `values.dfy`:
- JavaScript values and their truthiness;
- `||` defaults;
- thrown values;
- the three shapes a call's arguments can take: `undefined` or `null`, a boolean, number or string, or
  an object.

`text.dfy` has trimming, substring search, join and split, and decimal
rendering. `store.dfy` has the entities, the remote calls and the store
oracle.

Two places where the program's own text and its code part ways, and
the model follows the code:
- The catalog's `create_list` entry says the position defaults to the end
  (`Frontend/src/services/aiFunction.ts:30`). The code sends position 0
  (`Conformance.CreateListDefaultsToFront`).
- The catalog declares `move_task(task_uid, target_list_uid)`
  (`Frontend/src/services/aiFunction.ts:176-189`). The dispatcher reads
  `from_list_uid` and `to_list_uid`
  (`Conformance.MoveTaskSchemaRejected`).

The two dialogs guard a send differently. The assistant dialog's send
handler refuses while a send is pending
(`Frontend/src/components/EnhancedDevAIDialog.tsx:131`). The mentor chat
dialog's handler has no such check
(`Frontend/src/components/DevAIDialog.tsx:279`). There a second send is
blocked only by the input box and the send button, which are disabled
while a send is pending. `ChatDialog.CanChatSend` is the handler's guard.

The frontend's query client retries failed queries up to three times,
except authentication failures, and never retries mutations (`Retry`).

## Model

| member | source | states |
|---|---|---|
| Store.AllTasks | Frontend/src/services/enhancedAI.ts:383 | The project's tasks are exactly those of its lists; every list's tasks are among them |
| Catalog.EightDistinctActions | Frontend/src/services/aiFunction.ts:13-201 | The catalog has eight entries, and no two share a name |
| Catalog.CatalogNames | Frontend/src/services/aiFunction.ts:13-201 | A name is declared iff it is one of the eight action names |
| Catalog.RequiredSets | Frontend/src/services/aiFunction.ts:33-198 | The required set of each of the eight schemas, action by action |
| Conformance.SwitchMatchesCatalog | Frontend/src/services/enhancedAI.ts:301-355 | The dispatcher's switch handles a name iff the catalog declares it |
| Conformance.RequiredAreDeclared | Frontend/src/services/aiFunction.ts:13-201 | Every required parameter of a schema is one of its declared properties |
| Conformance.RequiredChecksMatch | Frontend/src/services/aiFunction.ts:13-167 | For the six list and task actions other than move_task, the arguments pass the dispatcher's checks iff they give a truthy value for every parameter the schema requires |
| Conformance.FromListUndeclared | Frontend/src/services/aiFunction.ts:171-190 | `from_list_uid`, which the dispatcher needs, is not a declared move_task property |
| Conformance.MoveTaskSchemaRejected | Frontend/src/services/enhancedAI.ts:664-671 | Arguments that use only move_task's declared keys never pass the dispatcher's move_task check |
| Conformance.CreateListDefaultsToFront | Frontend/src/services/enhancedAI.ts:423-428 | A list created without a position is requested at position 0, which is not the documented end |
| Dispatcher.Settle | Frontend/src/services/enhancedAI.ts:479-500 | An acknowledged call succeeds with no data; a rejected one fails; the result is well formed |
| Dispatcher.GetProjectData | Frontend/src/services/enhancedAI.ts:367-393 | One fetch is logged. On success the snapshot is the project, returned with its lists and all their tasks. On failure the snapshot is kept and the error is the rejection's message or the fixed text |
| Dispatcher.NewListRequest | Frontend/src/services/enhancedAI.ts:423-428 | The request carries the session's project, the name, the colour or `#3B82F6`, and the position or 0 |
| Dispatcher.CreateList | Frontend/src/services/enhancedAI.ts:395-462 | Non-object arguments or a falsy name fail with no remote call. Otherwise exactly one create is logged, and success iff the store accepts it, returning the created list |
| Dispatcher.PatchOf | Frontend/src/services/enhancedAI.ts:475-477 | The partial body holds exactly the listed keys present in the arguments (`null` included, absent ones left out), each with its given value |
| Dispatcher.UpdateList | Frontend/src/services/enhancedAI.ts:464-501 | No remote call without a truthy `list_uid`. Otherwise one partial update with only name and colour (never position) is logged; success iff it is accepted |
| Dispatcher.DeleteList | Frontend/src/services/enhancedAI.ts:503-536 | No remote call without a truthy `list_uid`; otherwise exactly one delete of that list; success iff it is accepted |
| Dispatcher.NewTaskRequest | Frontend/src/services/enhancedAI.ts:549-557 | List and title as given. Description, status, priority and position are as given or default to `''`, `'todo'`, `'medium'` and 0. A falsy due date is left out |
| Dispatcher.CreateTask | Frontend/src/services/enhancedAI.ts:538-583 | A missing list or title fails with no remote call; otherwise exactly one create; success iff it is accepted, returning the created task |
| Dispatcher.UpdateTask | Frontend/src/services/enhancedAI.ts:585-625 | No remote call without a truthy `task_uid`; otherwise one partial update of the five optional fields that are not undefined |
| Dispatcher.DeleteTask | Frontend/src/services/enhancedAI.ts:627-660 | No remote call without a truthy `task_uid`; otherwise exactly one delete of that task |
| Dispatcher.FindList | Frontend/src/services/enhancedAI.ts:676 | The first list with the uid; none iff no list has it |
| Dispatcher.FindTask | Frontend/src/services/enhancedAI.ts:677 | The first task with the uid; none iff no task has it |
| Dispatcher.Locate | Frontend/src/services/enhancedAI.ts:676-677 | The task is the first one with the uid in the first list with the source uid. There is none when no list has that uid, or that list holds no such task |
| Dispatcher.MovedTaskRequest | Frontend/src/services/enhancedAI.ts:688-698 | The copy goes to the target list with the task's title, status, priority, colour, completion and due date, the description or `''`, and `new_position` or 0 |
| Dispatcher.MoveFoundTask | Frontend/src/services/enhancedAI.ts:686-707 | One delete, then (only if the delete is accepted) one create; success iff both are accepted |
| Dispatcher.MoveTask | Frontend/src/services/enhancedAI.ts:662-720 | Missing uids fail with no remote call. Otherwise the project is fetched first. A task not in the source list fails with "Task not found" and makes no delete or create. A found task is moved by delete then create |
| Dispatcher.Perform | Frontend/src/services/enhancedAI.ts:301-349 | Arguments that fail the helper's checks make no remote call and fail. Passing ones make the action's opening call first: the project fetch for get_project_data and move_task, otherwise the action's own create, update or delete. Every action but move_task makes just that one call, and move_task makes at most three. The project is kept, and only get_project_data can replace the snapshot |
| Dispatcher.Execute | Frontend/src/services/enhancedAI.ts:294-364 | An unknown name fails with `Unknown function: <name>`, with no remote call and the state unchanged. A known name with arguments its helper rejects fails with no remote call. Accepted ones make that action's opening call first, and exactly one call unless the action is move_task |
| Batch.RunAll | Frontend/src/services/enhancedAI.ts:190-205 | One result per call |
| Batch.RunAllAppend | Frontend/src/services/enhancedAI.ts:190-205 | Running two batches in turn equals running their concatenation. A later call depends on earlier ones only through the state they leave, never on whether they failed |
| Batch.RunBatch | Frontend/src/services/enhancedAI.ts:190-205 | The loop pushes one result per call, in order. Call i runs against the state call i-1 left, and the loop agrees with `RunAll` |
| Batch.DispatchAll | Frontend/src/services/enhancedAI.ts:186-208 | The service's batch yields one result per proposed call |
| Batch.DispatchAllFrame | Frontend/src/services/enhancedAI.ts:186-208 | A batch only appends to the log, keeps the project, and yields well-formed results (an error exactly on failure) |
| Synthesis.CallName | Frontend/src/services/enhancedAI.ts:248-250 | The call's name, or `unknown` for a missing call or an empty name; never empty |
| Synthesis.Labelled | Frontend/src/services/enhancedAI.ts:248-250 | Each result is paired with the name of the call at the same index |
| Synthesis.SuccessLine | Frontend/src/services/enhancedAI.ts:252-271 | Every success line starts with a check mark |
| Synthesis.SuccessEntries | Frontend/src/services/enhancedAI.ts:252-271 | Only successes other than get_project_data contribute a line |
| Synthesis.FailureEntries | Frontend/src/services/enhancedAI.ts:272-275 | Exactly the failures contribute a line |
| Synthesis.Bullets | Frontend/src/services/enhancedAI.ts:284 | One bullet per failure, in order |
| Synthesis.Summary | Frontend/src/services/enhancedAI.ts:239-292 | The synthesised text is never empty |
| Synthesis.OpsMembership | Frontend/src/services/enhancedAI.ts:248-276 | The success lines are exactly those of the reported successes. The failure lines are exactly those of the failed results |
| Synthesis.SuccessOpsMarked | Frontend/src/services/enhancedAI.ts:252-271 | Every collected success line is non-empty and starts with a check mark |
| Synthesis.OpsAppend | Frontend/src/services/enhancedAI.ts:248-276 | Lines are collected in call order: the lines of a concatenation are those of each part in turn |
| Synthesis.OpsOfOne | Frontend/src/services/enhancedAI.ts:251-275 | One result contributes its success line if reported, its failure line if failed, and nothing else |
| Synthesis.ComposeFallback | Frontend/src/services/enhancedAI.ts:287-289 | The fallback text is used iff there are no success and no failure lines |
| Synthesis.ComposeHasSuccess | Frontend/src/services/enhancedAI.ts:278-280 | Every success line appears in the text |
| Synthesis.ComposeHasFailure | Frontend/src/services/enhancedAI.ts:282-285 | Every failure appears in the text as a bullet |
| Synthesis.ComposeShape | Frontend/src/services/enhancedAI.ts:278-285 | With a line to report, the text is the success lines joined by newlines, a blank line when both kinds are present, then the heading `❌ Failed operations:` and one bullet per failure; no fallback |
| Synthesis.SummarizeShape | Frontend/src/services/enhancedAI.ts:247-289 | A batch's report is the fallback when it collects no line, and otherwise its success lines in call order, the gap and its failure section |
| Synthesis.SuccessesBeforeFailures | Frontend/src/services/enhancedAI.ts:278-285 | The failure heading sits at a position with every success line before it and every failure's bullet after it |
| Synthesis.FallbackExactly | Frontend/src/services/enhancedAI.ts:266-289 | The text is the fallback iff every result is a successful get_project_data |
| Synthesis.Mentions | Frontend/src/services/enhancedAI.ts:248-285 | Each failed call's bullet and each reported success's line appear in the text |
| Synthesis.CreatedListReport | Frontend/src/services/enhancedAI.ts:253-254 | Creating the list `Testing` is reported as exactly `✅ Created list "Testing"` |
| Synthesis.MixedReport | Frontend/src/services/enhancedAI.ts:278-285 | An updated task followed by a create_task failure with no error gives the success line, a blank line, the heading and `• create_task: Unknown error` |
| Context.TasksOf | Frontend/src/services/enhancedAI.ts:73 | A list's tasks are exactly the tasks that name it, never more than all tasks |
| Context.TasksOfCounts | Frontend/src/services/enhancedAI.ts:73 | Each task naming the list is kept as often as it occurs; no other task is kept |
| Context.ContextMessage | Frontend/src/services/enhancedAI.ts:66-87 | The text starts with the fixed head and ends with the fixed tail. With no lists it is head, "No lists exist yet." and tail; otherwise the head is followed by `Lists (N total):` with N the number of lists |
| Context.ListsAnnounced | Frontend/src/services/enhancedAI.ts:72-74 | Every list's line appears, with the number of tasks that name it |
| Context.TasksShown | Frontend/src/services/enhancedAI.ts:75-79 | Every task that names a list appears as an indented line |
| Context.TasksOfAppend | Frontend/src/services/enhancedAI.ts:73 | Filtering distributes over concatenation |
| Context.OwnTasksRecovered | Frontend/src/services/enhancedAI.ts:383 | On a consistent project, filtering all tasks by a list's uid gives back that list's own tasks, and an unused uid gives none |
| Orchestrator.InitializeSession | Frontend/src/services/enhancedAI.ts:37-64 | One fetch. On success the history becomes the context message and the acknowledgement; on failure it is kept. The chat is not restarted |
| Orchestrator.SendMessage | Frontend/src/services/enhancedAI.ts:133-236 | Without a model it throws "AI model not initialized" and changes nothing. The chat is started once, from the history. A model error is rethrown. A reply has a non-empty content. With calls, the content is the summary of the batch's results, and the calls and results are attached iff there were calls. Without calls, the content is the text or the fixed acknowledgement |
| Orchestrator.ContextNotRefreshed | Frontend/src/services/enhancedAI.ts:143-149 | Re-initialising after the first turn does not reach the chat: it keeps the history it started with |
| Orchestrator.ReplyIdIsTime | Frontend/src/services/enhancedAI.ts:225 | A reply's id reads back as the time it was made |
| AssistantDialog.MessageEntries | Frontend/src/components/EnhancedDevAIDialog.tsx:37-42 | A result contributes its message iff it succeeded with a non-empty message |
| AssistantDialog.ErrorEntries | Frontend/src/components/EnhancedDevAIDialog.tsx:43-47 | A result contributes its error iff it failed with a non-empty error |
| AssistantDialog.UserFriendlyResponse | Frontend/src/components/EnhancedDevAIDialog.tsx:31-64 | The text is never empty |
| AssistantDialog.FriendlyShape | Frontend/src/components/EnhancedDevAIDialog.tsx:49-57 | With something collected, the text is the marked successes, a blank line when both kinds are present, and the marked errors; no fallback |
| AssistantDialog.FriendlyReports | Frontend/src/components/EnhancedDevAIDialog.tsx:49-61 | With nothing collected the text is `✅ Operation completed successfully!`. Every success appears behind `✅ ` and every error behind `❌ ` |
| AssistantDialog.FriendlyMentions | Frontend/src/components/EnhancedDevAIDialog.tsx:37-57 | A result's non-empty message (success) or error (failure) shows in the text with its mark |
| AssistantDialog.DispatcherResultsReportFailuresOnly | Frontend/src/components/EnhancedDevAIDialog.tsx:37-61 | The dispatcher's results carry no message, so no success is collected; if none failed, the text is the fixed one |
| AssistantDialog.BeginSend | Frontend/src/components/EnhancedDevAIDialog.tsx:131-156 | Blocked (nothing changes) iff the trimmed input is empty, there is no service, or a send is in flight. Otherwise it appends exactly the user message and an empty placeholder, clears the input and sets busy |
| AssistantDialog.ReplaceById | Frontend/src/components/EnhancedDevAIDialog.tsx:187-189 | Same length; exactly the entries with the id are replaced |
| AssistantDialog.ServiceRepliesShownAsIs | Frontend/src/components/EnhancedDevAIDialog.tsx:172-181 | A reply the service produces is shown exactly as it is: neither fallback replaces it |
| AssistantDialog.FinalContent | Frontend/src/components/EnhancedDevAIDialog.tsx:172-181 | The shown content is never empty. Non-empty content is kept as is. Empty content with results becomes their summary. Empty content without results becomes the fixed text |
| AssistantDialog.ErrorContent | Frontend/src/components/EnhancedDevAIDialog.tsx:202-205 | The "took too long" text iff the error is an `Error` whose message contains `timeout`; otherwise the generic error text |
| AssistantDialog.FinishSend | Frontend/src/components/EnhancedDevAIDialog.tsx:158-223 | The list keeps its length and only the placeholder is replaced: by the reply with its content fallbacks, or by the error text. The cache is invalidated iff some result succeeded. The dialog is no longer busy |
| AssistantDialog.IdsDistinct | Frontend/src/components/EnhancedDevAIDialog.tsx:137-144 | Distinct clock readings give distinct message ids |
| AssistantDialog.SendRoundTrip | Frontend/src/components/EnhancedDevAIDialog.tsx:131-223 | A completed send leaves the earlier messages followed by the user message and the reply (or error text); the input is empty and the dialog idle |
| ChatDialog.CreateChat | Frontend/src/components/DevAIDialog.tsx:242-265 | A blank name changes nothing. Otherwise exactly one conversation is appended, with the trimmed name and no messages; it is selected and saved |
| ChatDialog.CreatedChatIsFresh | Frontend/src/components/DevAIDialog.tsx:243-257 | A new chat's title is the trimmed name and trims to itself, and its chat history starts from the seed |
| ChatDialog.RoleOf | Frontend/src/components/DevAIDialog.tsx:164 | User messages replay as the user role, all others as the model |
| ChatDialog.HistoryFor | Frontend/src/components/DevAIDialog.tsx:162-176 | A conversation with messages replays them in order, with the same length, texts and matching roles; an empty one gets the two-entry seed |
| ChatDialog.HistoryAfterSend | Frontend/src/components/DevAIDialog.tsx:162-176 | After a successful send the history gains exactly the user's text and the answer |
| ChatDialog.WithMessages | Frontend/src/components/DevAIDialog.tsx:312-316 | Only the conversation with the id gets the new messages; the others and the order are kept |
| ChatDialog.SelectedWith | Frontend/src/components/DevAIDialog.tsx:318 | Whatever conversation is selected when the update runs gets the messages |
| ChatDialog.BeginChatSend | Frontend/src/components/DevAIDialog.tsx:279-321 | Blocked iff the trimmed input is empty, there is no chat session or no conversation is selected (a send in flight does not block). Otherwise the messages become the prior ones, the user message and a loading placeholder |
| ChatDialog.FinishChatSend | Frontend/src/components/DevAIDialog.tsx:323-382 | On success: prior, user message, and the answer under the placeholder's id, saved. On a rejection carrying an object: prior and the user message, not saved. The list is rebuilt from the one captured at the start |
| ChatDialog.OnlySelectedChanges | Frontend/src/components/DevAIDialog.tsx:347-351 | Rebuilding the list with one conversation's messages leaves every other entry as it was and keeps every entry's id in place |
| ChatDialog.ChatSendRoundTrip | Frontend/src/components/DevAIDialog.tsx:279-382 | A send and its answer leave prior + user + answer on success and prior + user on failure. Only the selected conversation's entry changes |
| ChatDialog.CreatedDuringSendIsDropped | Frontend/src/components/DevAIDialog.tsx:347-354 | A conversation created while an answer is pending is lost from the list and from storage, yet stays selected and shows the sent conversation's messages |
| Retry.QueryRetry | Frontend/src/App.tsx:25-32 | A query is retried only while fewer than three failures have occurred, and never after an authentication failure |
| Retry.MutationRetry | Frontend/src/App.tsx:35-42 | A mutation is never retried, whatever the error |
| Retry.RetryBudget | Frontend/src/App.tsx:25-32 | At most three retries, and none exactly for authentication failures |
| Retry.QueryRetryWithinBudget | Frontend/src/App.tsx:25-32 | A query is retried after its n-th failure iff n is below the budget: false for any `Error` mentioning `Authentication failed`, otherwise iff n < 3 |
| Retry.QueryRetryMonotone | Frontend/src/App.tsx:25-32 | Once a query gives up, it gives up at every later count |
| Retry.MutationNeverRetried | Frontend/src/App.tsx:35-42 | A mutation is never retried |
| Retry.AuthenticationNotRetried | Frontend/src/App.tsx:27-29 | An error whose message starts with `Authentication failed` is never retried |
| Config.GetEnv | Backend/internal/config/config.go:60-65 | The variable's value when it is set and non-empty, otherwise the default |
| Config.EmptyIsUnset | Backend/internal/config/config.go:60-65 | An empty variable reads the same as an unset one |
| Config.Load | Backend/internal/config/config.go:33-58 | Each field reads its own variable through `getEnv` with its fixed default; the origins are those of `getCORSOrigins` |
| Config.LoadDefaults | Backend/internal/config/config.go:33-58 | With nothing set, each field has its fixed default and the origins are the five local ones |
| Config.LoadReadsOnlyItsKeys | Backend/internal/config/config.go:33-58 | Variables outside the fourteen it reads do not change the configuration |
| Config.DefaultSplits | Backend/internal/config/config.go:69 | The default setting splits into exactly its five origins |
| Config.CORSOrigins | Backend/internal/config/config.go:67-92 | The split origins, untrimmed and in order, gain at most one entry at the end. They gain one iff a port is set and no origin trims to its origin, and that entry is `http://localhost:<port>` |
| Config.GetCORSOrigins | Backend/internal/config/config.go:67-92 | The loop with early exit computes the same list as `CORSOrigins` |
| Config.ListedOriginNotRepeated | Backend/internal/config/config.go:80-88 | If the port's origin is already listed, the list is returned unchanged |
| Config.CORSStable | Backend/internal/config/config.go:67-92 | Writing the result back, comma-joined, as the setting gives the same list, provided the port has no comma and does not end in whitespace |
| Text.Trim | Frontend/src/components/EnhancedDevAIDialog.tsx:131 | The result is the slice of the input that starts at its first non-whitespace character; only whitespace precedes and follows that slice, and the result neither starts nor ends with whitespace |
| Text.SplitThenJoin | Backend/internal/config/config.go:73 | Joining the pieces of a split with the separator gives back the string |
| Text.JoinThenSplit | Backend/internal/config/config.go:73 | Splitting a join of comma-free pieces gives back the pieces |
| Text.ParseNatText | Frontend/src/services/enhancedAI.ts:225 | A count's decimal text reads back as the count |

## Left out

- The language model and its SDK: model set-up, the system prompts, generation settings, and reading function calls out of a response. A turn is an input: text and proposed calls, or an error. A response without a `text` method, or whose `text()` is empty, is a turn with empty text. A `text()` that throws makes the turn an error, which `sendMessage` rethrows.
- The REST client and HTTP. Every store operation is a remote call in a log, and the store's reply is an arbitrary function of the log.
- An accepted store reply always carries its payload. The code assumes this with `response.data!`, and the model does too. A reply without data would make `getProjectData` cache `undefined` as the snapshot and then fail (`Frontend/src/services/enhancedAI.ts:375-382`). `Dispatcher.Framed` does not cover that case.
- The disabled input box and send button of the mentor chat dialog (`Frontend/src/components/DevAIDialog.tsx:568`, `:574`). They are rendering, and they are what blocks a second send while one is pending.
- Toast notifications and console logging. They never affect a result.
- React rendering, effects, scrolling and the welcome message. Browser storage is represented only by the list last saved.
- The clock. `Date.now()` readings are parameters, and timestamps and `created_at`/`updated_at` stamps are left out. The 30-second race is represented by the error it produces.
- `initializeAI`. It is started without being awaited, so a missing key leaves the model unset rather than failing construction. The model's presence is the session's `modelReady` flag.
- The catch around each call in the batch loop. `executeFunctionCall` catches every error of its helpers, so that catch cannot be reached.
- The chat transcript kept by the SDK after the chat starts. A chat is represented by the history it was started with.
- Floating-point numbers and NaN. Numbers are integers.
- Text.Trim: trims only the ASCII whitespace characters and the no-break space, not every Unicode space that `trim` and `strings.TrimSpace` remove.
- Values.DestructureError: gives V8's wording of the `TypeError` for destructuring `undefined`/`null`. Other engines word it differently.
- The task details dialog, the theme debugging utility and the database connection. They are not part of this model.
- ChatDialog.FinishChatSend: assumes the chat model rejects with an object. A rejection with `null` or `undefined` would throw again where the handler reads `error.name` (`Frontend/src/components/DevAIDialog.tsx:359`); the placeholder would then stay, the list would not be rebuilt, and only the busy flag would be cleared (`:380`). The model removes the placeholder for every rejection.
- Retry.QueryRetry: the retry loop of the query library, and the failure count it passes, are not modelled. Only the predicates are.
