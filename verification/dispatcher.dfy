/** The action dispatcher of the AI service: `executeFunctionCall`, its
    per-action helpers, and the batch loop that runs a turn's calls in order.
    Each helper validates the arguments it needs, and only then talks to the
    remote store; every outcome, including a rejected remote call, becomes a
    `CallResult`. */
module Dispatcher {
  import opened Values
  import opened Store

  /** The payload of a successful result. */
  datatype Data =
    | ProjectData(project: Project, lists: seq<List>, tasks: seq<Task>)
    | ListData(list: List)
    | TaskData(task: Task)

  /** `FunctionCallResult`: a success flag with an optional payload, error
      text and user-facing message. */
  datatype CallResult = CallResult(success: bool, data: Option<Data>, error: Option<string>, message: Option<string>)

  function Succeeded(data: Option<Data>): CallResult {
    CallResult(true, data, None, None)
  }

  function Failed(error: string): CallResult {
    CallResult(false, None, Some(error), None)
  }

  /** A failure carries error text and a success none; no result the
      dispatcher builds carries a message. */
  predicate WellFormed(r: CallResult) {
    (r.error.Some? <==> !r.success) && r.message.None?
  }

  /** How a helper may change the state: arguments that fail its checks
      make no remote call and fail; ones that pass make between one and
      three remote calls. The log is only appended to, the project is kept,
      and only a successful fetch (`fetches`) may replace the snapshot. */
  predicate Framed(st: State, s: Step, valid: bool, fetches: bool) {
    && (!valid ==> s.state == st && !s.result.success)
    && (valid ==> |st.log| < |s.state.log| <= |st.log| + 3)
    && st.log <= s.state.log
    && s.state.projectUid == st.projectUid
    && (s.state.snapshot != st.snapshot ==> fetches && s.result.success)
    && WellFormed(s.result)
  }

  /** One model-proposed call: an action name and its untyped arguments. */
  datatype FunctionCall = FunctionCall(name: string, args: Args)

  /** What dispatch reads and writes of the service: the project it works
      on, the cached project snapshot, and the remote calls made so far. */
  datatype State = State(projectUid: string, snapshot: Option<Project>, log: seq<RemoteCall>)

  /** The outcome of one helper: its result and the state after it. */
  datatype Step = Step(result: CallResult, state: State)

  datatype Called<T> = Called(reply: Reply<T>, state: State)

  /** Makes remote call `c` and takes the backend's answer to it. */
  function Call<T>(st: State, c: RemoteCall, answer: seq<RemoteCall> -> Reply<T>): (r: Called<T>)
    ensures r.state == st.(log := st.log + [c])
  {
    var log := st.log + [c];
    Called(answer(log), st.(log := log))
  }

  /** Turns an acknowledgement into a result, `fallback` naming the failure
      when the rejection is not an `Error`. */
  function Settle(c: Called<()>, fallback: string): (s: Step)
    ensures s.state == c.state && (s.result.success <==> c.reply.Resolved?)
    ensures WellFormed(s.result) && s.result.data.None?
  {
    match c.reply
    case Resolved(_) => Step(Succeeded(None), c.state)
    case Rejected(t) => Step(Failed(MessageOr(t, fallback)), c.state)
  }

  // ---------------------------------------------------------------------
  // get_project_data

  /** `getProjectData`: fetches the project and, on success, caches it as
      the snapshot and returns it with its lists and all their tasks. */
  function GetProjectData(b: Backend, st: State): (s: Step)
    ensures s.state.log == st.log + [ApiGetProject(st.projectUid)]
    ensures s.state.projectUid == st.projectUid
    ensures s.result.success <==> b.project(s.state.log).Resolved?
    ensures s.result.success ==>
      var p := b.project(s.state.log).value;
      && s.state.snapshot == Some(p)
      && s.result.data == Some(ProjectData(p, p.lists, AllTasks(p.lists)))
    ensures !s.result.success ==>
      && s.state.snapshot == st.snapshot
      && s.result.error == Some(MessageOr(b.project(s.state.log).thrown, "Failed to fetch project data"))
    ensures WellFormed(s.result)
    ensures Framed(st, s, true, true)
    ensures Opened(st, s, GetProjectDataAction, true)
  {
    var c := Call(st, ApiGetProject(st.projectUid), b.project);
    match c.reply
    case Resolved(p) => Step(Succeeded(Some(ProjectData(p, p.lists, AllTasks(p.lists)))), c.state.(snapshot := Some(p)))
    case Rejected(t) => Step(Failed(MessageOr(t, "Failed to fetch project data")), c.state)
  }

  // ---------------------------------------------------------------------
  // create_list

  const DefaultListColor := "#3B82F6"

  /** `createList` accepts an object whose `name` is truthy. */
  predicate CreateListValid(a: Args) {
    a.Fields? && Given(a, "name")
  }

  /** The request `createList` sends: the session's project, the given
      name, the given colour or the default blue, the given position or 0. */
  function NewListRequest(projectUid: string, a: Args): (req: ListRequest)
    requires Given(a, "name")
    ensures req.projectUid == projectUid && req.name == Lookup(a, "name").value
    ensures Given(a, "color") ==> req.color == Lookup(a, "color").value
    ensures !Given(a, "color") ==> req.color == Str(DefaultListColor)
    ensures Given(a, "position") ==> req.position == Lookup(a, "position").value
    ensures !Given(a, "position") ==> req.position == Num(0)
  {
    ListRequest(projectUid, Lookup(a, "name").value,
                OrElse(Lookup(a, "color"), Str(DefaultListColor)),
                OrElse(Lookup(a, "position"), Num(0)))
  }

  function CreateList(b: Backend, st: State, a: Args): (s: Step)
    ensures CreateListValid(a) ==>
      s.state == st.(log := st.log + [ApiCreateList(NewListRequest(st.projectUid, a))])
    ensures s.result.success <==> CreateListValid(a) && b.createdList(s.state.log).Resolved?
    ensures s.result.success ==> s.result.data == Some(ListData(b.createdList(s.state.log).value))
    ensures WellFormed(s.result)
    ensures Framed(st, s, CreateListValid(a), false)
    ensures Opened(st, s, CreateListAction, CreateListValid(a))
  {
    if !ArgsTruthy(a) || !a.Fields? then Step(Failed("Invalid parameters for creating list"), st)
    else if !Given(a, "name") then Step(Failed("List name is required"), st)
    else
      var c := Call(st, ApiCreateList(NewListRequest(st.projectUid, a)), b.createdList);
      match c.reply
      case Resolved(l) => Step(Succeeded(Some(ListData(l))), c.state)
      case Rejected(t) => Step(Failed(MessageOr(t, "Failed to create list")), c.state)
  }

  // ---------------------------------------------------------------------
  // update_list and delete_list

  /** The keys of the argument object; none for a primitive or a missing one. */
  function PresentKeys(a: Args): set<string> {
    if a.Fields? then a.m.Keys else {}
  }

  /** The partial body built from the fields among `keys` that are not
      `undefined`; `null` is a value and is forwarded. */
  function PatchOf(a: Args, keys: seq<string>): (p: Patch)
    ensures p.Keys == PresentKeys(a) * (set k | k in keys)
    ensures forall k :: k in p ==> Lookup(a, k) == Some(p[k])
  {
    if keys == [] then map[]
    else
      var rest := PatchOf(a, keys[1..]);
      var k := keys[0];
      if Lookup(a, k).Some? then rest[k := Lookup(a, k).value] else rest
  }

  const ListPatchKeys := ["name", "color"]

  function UpdateList(b: Backend, st: State, a: Args): (s: Step)
    ensures Given(a, "list_uid") ==>
      s.state == st.(log := st.log + [ApiPartialUpdateList(Lookup(a, "list_uid").value, PatchOf(a, ListPatchKeys))])
    ensures s.result.success <==> Given(a, "list_uid") && b.done(s.state.log).Resolved?
    ensures WellFormed(s.result) && s.result.data.None?
    ensures Framed(st, s, Given(a, "list_uid"), false)
    ensures Opened(st, s, UpdateListAction, Given(a, "list_uid"))
  {
    if a.Missing? then Step(Failed(DestructureError(a, "list_uid")), st)
    else if !Given(a, "list_uid") then Step(Failed("List UID is required"), st)
    else
      var c := Call(st, ApiPartialUpdateList(Lookup(a, "list_uid").value, PatchOf(a, ListPatchKeys)), b.done);
      Settle(c, "Failed to update list")
  }

  function DeleteList(b: Backend, st: State, a: Args): (s: Step)
    ensures Given(a, "list_uid") ==>
      s.state == st.(log := st.log + [ApiDeleteList(Lookup(a, "list_uid").value)])
    ensures s.result.success <==> Given(a, "list_uid") && b.done(s.state.log).Resolved?
    ensures WellFormed(s.result) && s.result.data.None?
    ensures Framed(st, s, Given(a, "list_uid"), false)
    ensures Opened(st, s, DeleteListAction, Given(a, "list_uid"))
  {
    if a.Missing? then Step(Failed(DestructureError(a, "list_uid")), st)
    else if !Given(a, "list_uid") then Step(Failed("List UID is required"), st)
    else Settle(Call(st, ApiDeleteList(Lookup(a, "list_uid").value), b.done), "Failed to delete list")
  }

  // ---------------------------------------------------------------------
  // create_task, update_task and delete_task

  predicate CreateTaskValid(a: Args) {
    Given(a, "list_uid") && Given(a, "title")
  }

  /** The request `createTask` sends: the given list and title, and the
      given description, status, priority and position or their defaults
      `''`, `'todo'`, `'medium'` and 0; a falsy due date is left out, and so
      are colour and completion. */
  function NewTaskRequest(a: Args): (req: TaskRequest)
    requires CreateTaskValid(a)
    ensures req.listUid == Lookup(a, "list_uid").value && req.title == Lookup(a, "title").value
    ensures req.description == (if Given(a, "description") then Lookup(a, "description").value else Str(""))
    ensures req.status == (if Given(a, "status") then Lookup(a, "status").value else Str("todo"))
    ensures req.priority == (if Given(a, "priority") then Lookup(a, "priority").value else Str("medium"))
    ensures req.position == (if Given(a, "position") then Lookup(a, "position").value else Num(0))
    ensures req.dueDate == (if Given(a, "due_date") then Lookup(a, "due_date") else None)
    ensures req.color == None && req.isCompleted == None
  {
    TaskRequest(
      Lookup(a, "list_uid").value,
      Lookup(a, "title").value,
      OrElse(Lookup(a, "description"), Str("")),
      OrElse(Lookup(a, "status"), Str("todo")),
      OrElse(Lookup(a, "priority"), Str("medium")),
      None,
      OrElse(Lookup(a, "position"), Num(0)),
      None,
      if Given(a, "due_date") then Lookup(a, "due_date") else None)
  }

  function CreateTask(b: Backend, st: State, a: Args): (s: Step)
    ensures CreateTaskValid(a) ==> s.state == st.(log := st.log + [ApiCreateTask(NewTaskRequest(a))])
    ensures s.result.success <==> CreateTaskValid(a) && b.createdTask(s.state.log).Resolved?
    ensures s.result.success ==> s.result.data == Some(TaskData(b.createdTask(s.state.log).value))
    ensures WellFormed(s.result)
    ensures Framed(st, s, CreateTaskValid(a), false)
    ensures Opened(st, s, CreateTaskAction, CreateTaskValid(a))
  {
    if a.Missing? then Step(Failed(DestructureError(a, "list_uid")), st)
    else if !CreateTaskValid(a) then Step(Failed("List UID and task title are required"), st)
    else
      var c := Call(st, ApiCreateTask(NewTaskRequest(a)), b.createdTask);
      match c.reply
      case Resolved(t) => Step(Succeeded(Some(TaskData(t))), c.state)
      case Rejected(t) => Step(Failed(MessageOr(t, "Failed to create task")), c.state)
  }

  const TaskPatchKeys := ["title", "description", "status", "priority", "due_date"]

  function UpdateTask(b: Backend, st: State, a: Args): (s: Step)
    ensures Given(a, "task_uid") ==>
      s.state == st.(log := st.log + [ApiPartialUpdateTask(Lookup(a, "task_uid").value, PatchOf(a, TaskPatchKeys))])
    ensures s.result.success <==> Given(a, "task_uid") && b.done(s.state.log).Resolved?
    ensures WellFormed(s.result) && s.result.data.None?
    ensures Framed(st, s, Given(a, "task_uid"), false)
    ensures Opened(st, s, UpdateTaskAction, Given(a, "task_uid"))
  {
    if a.Missing? then Step(Failed(DestructureError(a, "task_uid")), st)
    else if !Given(a, "task_uid") then Step(Failed("Task UID is required"), st)
    else
      var c := Call(st, ApiPartialUpdateTask(Lookup(a, "task_uid").value, PatchOf(a, TaskPatchKeys)), b.done);
      Settle(c, "Failed to update task")
  }

  function DeleteTask(b: Backend, st: State, a: Args): (s: Step)
    ensures Given(a, "task_uid") ==>
      s.state == st.(log := st.log + [ApiDeleteTask(Lookup(a, "task_uid").value)])
    ensures s.result.success <==> Given(a, "task_uid") && b.done(s.state.log).Resolved?
    ensures WellFormed(s.result) && s.result.data.None?
    ensures Framed(st, s, Given(a, "task_uid"), false)
    ensures Opened(st, s, DeleteTaskAction, Given(a, "task_uid"))
  {
    if a.Missing? then Step(Failed(DestructureError(a, "task_uid")), st)
    else if !Given(a, "task_uid") then Step(Failed("Task UID is required"), st)
    else Settle(Call(st, ApiDeleteTask(Lookup(a, "task_uid").value), b.done), "Failed to delete task")
  }

  // ---------------------------------------------------------------------
  // move_task

  predicate MoveTaskValid(a: Args) {
    Given(a, "from_list_uid") && Given(a, "to_list_uid") && Given(a, "task_uid")
  }

  /** `lists.find(l => l.list_uid === uid)`: the first list with that uid. */
  function FindList(lists: seq<List>, uid: Value): (r: Option<List>)
    ensures r.Some? ==> exists i :: 0 <= i < |lists| && lists[i] == r.value
                          && (forall j :: 0 <= j < i ==> Str(lists[j].listUid) != uid)
    ensures r.Some? ==> Str(r.value.listUid) == uid
    ensures r.None? <==> forall l :: l in lists ==> Str(l.listUid) != uid
  {
    if lists == [] then None
    else if Str(lists[0].listUid) == uid then Some(lists[0])
    else
      var r := FindList(lists[1..], uid);
      if r.Some? then
        ghost var i :| 0 <= i < |lists[1..]| && lists[1..][i] == r.value
                       && (forall j :: 0 <= j < i ==> Str(lists[1..][j].listUid) != uid);
        assert lists[i + 1] == r.value;
        r
      else r
  }

  /** `tasks.find(t => t.task_uid === uid)`: the first task with that uid. */
  function FindTask(tasks: seq<Task>, uid: Value): (r: Option<Task>)
    ensures r.Some? ==> exists i :: 0 <= i < |tasks| && tasks[i] == r.value
                          && (forall j :: 0 <= j < i ==> Str(tasks[j].taskUid) != uid)
    ensures r.Some? ==> Str(r.value.taskUid) == uid
    ensures r.None? <==> forall t :: t in tasks ==> Str(t.taskUid) != uid
  {
    if tasks == [] then None
    else if Str(tasks[0].taskUid) == uid then Some(tasks[0])
    else
      var r := FindTask(tasks[1..], uid);
      if r.Some? then
        ghost var i :| 0 <= i < |tasks[1..]| && tasks[1..][i] == r.value
                       && (forall j :: 0 <= j < i ==> Str(tasks[1..][j].taskUid) != uid);
        assert tasks[i + 1] == r.value;
        r
      else r
  }

  /** The task to move, looked up only in the first list whose uid is the
      source list's. */
  function Locate(p: Project, fromList: Value, taskUid: Value): (r: Option<Task>)
    ensures FindList(p.lists, fromList).None? ==> r.None?
    ensures FindList(p.lists, fromList).Some? ==> r == FindTask(FindList(p.lists, fromList).value.tasks, taskUid)
    ensures r.Some? ==> Str(r.value.taskUid) == taskUid
    ensures r.Some? ==> exists l :: l in p.lists && Str(l.listUid) == fromList && r.value in l.tasks
    ensures (forall l :: l in p.lists && Str(l.listUid) == fromList ==>
               forall t :: t in l.tasks ==> Str(t.taskUid) != taskUid) ==> r.None?
  {
    var l := FindList(p.lists, fromList);
    if l.Some? then FindTask(l.value.tasks, taskUid) else None
  }

  /** The request that re-creates a moved task in `toList`: the task's own
      title, description (or `''`), status, priority, colour, completion and
      due date, at the given `new_position` or 0. */
  function MovedTaskRequest(t: Task, toList: Value, a: Args): (req: TaskRequest)
    ensures req.listUid == toList
    ensures req.title == Str(t.title) && req.status == Str(t.status) && req.priority == Str(t.priority)
    ensures req.color == Some(Str(t.color)) && req.isCompleted == Some(t.isCompleted)
    ensures req.dueDate == Some(t.dueDate)
    ensures req.description == (if Truthy(t.description) then t.description else Str(""))
    ensures req.position == (if Given(a, "new_position") then Lookup(a, "new_position").value else Num(0))
  {
    TaskRequest(toList, Str(t.title), OrElse(Some(t.description), Str("")), Str(t.status), Str(t.priority),
                Some(Str(t.color)), OrElse(Lookup(a, "new_position"), Num(0)), Some(t.isCompleted), Some(t.dueDate))
  }

  /** The second half of `moveTask`, once task `t` has been found: one
      delete of the task, then, only if that went through, one create in the
      target list. The two are separate remote calls, so a failure of the
      create leaves the task deleted. */
  function MoveFoundTask(b: Backend, st: State, a: Args, t: Task): (s: Step)
    requires MoveTaskValid(a)
    ensures var del := ApiDeleteTask(Lookup(a, "task_uid").value);
            var create := ApiCreateTask(MovedTaskRequest(t, Lookup(a, "to_list_uid").value, a));
            && (b.done(st.log + [del]).Rejected? ==>
                  s.state == st.(log := st.log + [del]) && !s.result.success)
            && (b.done(st.log + [del]).Resolved? ==> s.state == st.(log := st.log + [del, create]))
            && (s.result.success <==>
                  b.done(st.log + [del]).Resolved? && b.createdTask(st.log + [del, create]).Resolved?)
    ensures st.log < s.state.log && |s.state.log| <= |st.log| + 2
    ensures s.state.projectUid == st.projectUid && s.state.snapshot == st.snapshot
    ensures WellFormed(s.result) && s.result.data.None?
  {
    var deleted := Call(st, ApiDeleteTask(Lookup(a, "task_uid").value), b.done);
    if deleted.reply.Rejected? then
      Step(Failed(MessageOr(deleted.reply.thrown, "Failed to move task")), deleted.state)
    else
      var req := MovedTaskRequest(t, Lookup(a, "to_list_uid").value, a);
      var created := Call(deleted.state, ApiCreateTask(req), b.createdTask);
      assert created.state.log == st.log + [ApiDeleteTask(Lookup(a, "task_uid").value), ApiCreateTask(req)];
      if created.reply.Rejected? then
        Step(Failed(MessageOr(created.reply.thrown, "Failed to move task")), created.state)
      else Step(Succeeded(None), created.state)
  }

  /** `moveTask`: check the three uids, fetch the project, find the task in
      the source list, then delete and re-create it. A task that is not in
      the source list fails as not found after the fetch alone. */
  function MoveTask(b: Backend, st: State, a: Args): (s: Step)
    ensures MoveTaskValid(a) ==>
      var fetched := st.(log := st.log + [ApiGetProject(st.projectUid)]);
      var reply := b.project(fetched.log);
      && (reply.Rejected? ==> s.state == fetched && !s.result.success)
      && (reply.Resolved? ==>
            var found := Locate(reply.value, Lookup(a, "from_list_uid").value, Lookup(a, "task_uid").value);
            && (found.None? ==> s == Step(Failed("Task not found"), fetched))
            && (found.Some? ==> s == MoveFoundTask(b, fetched, a, found.value)))
    ensures WellFormed(s.result) && s.result.data.None?
    ensures Framed(st, s, MoveTaskValid(a), false)
    ensures Opened(st, s, MoveTaskAction, MoveTaskValid(a))
  {
    if a.Missing? then Step(Failed(DestructureError(a, "from_list_uid")), st)
    else if !MoveTaskValid(a) then
      Step(Failed("From list UID, To list UID, and Task UID are required"), st)
    else
      var fetched := Call(st, ApiGetProject(st.projectUid), b.project);
      match fetched.reply
      case Rejected(e) => Step(Failed(MessageOr(e, "Failed to move task")), fetched.state)
      case Resolved(p) =>
        var found := Locate(p, Lookup(a, "from_list_uid").value, Lookup(a, "task_uid").value);
        if found.None? then Step(Failed("Task not found"), fetched.state)
        else
          var moved := MoveFoundTask(b, fetched.state, a, found.value);
          assert moved.state.log[|st.log|] == fetched.state.log[|st.log|];
          moved
  }

  // ---------------------------------------------------------------------
  // executeFunctionCall

  datatype Action =
    | GetProjectDataAction | CreateListAction | UpdateListAction | DeleteListAction
    | CreateTaskAction | UpdateTaskAction | DeleteTaskAction | MoveTaskAction

  /** The cases of the dispatcher's `switch`. */
  function Route(name: string): Option<Action> {
    match name
    case "get_project_data" => Some(GetProjectDataAction)
    case "create_list" => Some(CreateListAction)
    case "update_list" => Some(UpdateListAction)
    case "delete_list" => Some(DeleteListAction)
    case "create_task" => Some(CreateTaskAction)
    case "update_task" => Some(UpdateTaskAction)
    case "delete_task" => Some(DeleteTaskAction)
    case "move_task" => Some(MoveTaskAction)
    case _ => None
  }

  /** Whether the arguments pass the local checks of the action's helper,
      so that the helper goes on to talk to the store. */
  predicate ValidFor(action: Action, a: Args) {
    match action
    case GetProjectDataAction => true
    case CreateListAction => CreateListValid(a)
    case UpdateListAction => Given(a, "list_uid")
    case DeleteListAction => Given(a, "list_uid")
    case CreateTaskAction => CreateTaskValid(a)
    case UpdateTaskAction => Given(a, "task_uid")
    case DeleteTaskAction => Given(a, "task_uid")
    case MoveTaskAction => MoveTaskValid(a)
  }

  predicate Validates(call: FunctionCall) {
    Route(call.name).Some? && ValidFor(Route(call.name).value, call.args)
  }

  /** The remote call an action's helper makes first once its checks pass:
      the project fetch for `get_project_data` and `move_task`, and the
      action's own create, update or delete for the others. */
  predicate Opens(action: Action, c: RemoteCall) {
    match action
    case GetProjectDataAction => c.ApiGetProject?
    case CreateListAction => c.ApiCreateList?
    case UpdateListAction => c.ApiPartialUpdateList?
    case DeleteListAction => c.ApiDeleteList?
    case CreateTaskAction => c.ApiCreateTask?
    case UpdateTaskAction => c.ApiPartialUpdateTask?
    case DeleteTaskAction => c.ApiDeleteTask?
    case MoveTaskAction => c.ApiGetProject?
  }

  /** Arguments that pass the checks make the action's opening call first,
      and every action but `move_task` makes no other. */
  predicate Opened(st: State, s: Step, action: Action, valid: bool) {
    valid ==>
      && |st.log| < |s.state.log|
      && Opens(action, s.state.log[|st.log|])
      && (action != MoveTaskAction ==> |s.state.log| == |st.log| + 1)
  }

  /** One case of the `switch`: the helper of a known action. Arguments
      that fail the helper's checks make no remote call; ones that pass make
      at least one, the action's opening call first. A helper only appends
      to the log (at most three calls), keeps the project, and replaces the
      snapshot only through a successful fetch by `get_project_data`. */
  function Perform(b: Backend, st: State, action: Action, a: Args): (s: Step)
    ensures Framed(st, s, ValidFor(action, a), action == GetProjectDataAction)
    ensures Opened(st, s, action, ValidFor(action, a))
  {
    if action.GetProjectDataAction? || action.CreateListAction? || action.UpdateListAction? || action.DeleteListAction?
    then PerformOnLists(b, st, action, a)
    else PerformOnTasks(b, st, action, a)
  }

  /** The cases of the `switch` that fetch the project or change lists. */
  function PerformOnLists(b: Backend, st: State, action: Action, a: Args): (s: Step)
    requires action.GetProjectDataAction? || action.CreateListAction? || action.UpdateListAction? || action.DeleteListAction?
    ensures Framed(st, s, ValidFor(action, a), action == GetProjectDataAction)
    ensures Opened(st, s, action, ValidFor(action, a))
  {
    match action
    case GetProjectDataAction => GetProjectData(b, st)
    case CreateListAction => CreateList(b, st, a)
    case UpdateListAction => UpdateList(b, st, a)
    case DeleteListAction => DeleteList(b, st, a)
  }

  /** The cases of the `switch` that change tasks. */
  function PerformOnTasks(b: Backend, st: State, action: Action, a: Args): (s: Step)
    requires action.CreateTaskAction? || action.UpdateTaskAction? || action.DeleteTaskAction? || action.MoveTaskAction?
    ensures Framed(st, s, ValidFor(action, a), false)
    ensures Opened(st, s, action, ValidFor(action, a))
  {
    match action
    case CreateTaskAction => CreateTask(b, st, a)
    case UpdateTaskAction => UpdateTask(b, st, a)
    case DeleteTaskAction => DeleteTask(b, st, a)
    case MoveTaskAction => MoveTask(b, st, a)
  }

  /** `executeFunctionCall`: an unknown name fails without a remote call;
      a known one runs its helper. Every helper catches its own errors, so
      this never rejects. */
  function Execute(b: Backend, st: State, call: FunctionCall): (s: Step)
    ensures Route(call.name).None? ==> s == Step(Failed("Unknown function: " + call.name), st)
    ensures Framed(st, s, Validates(call), call.name == "get_project_data")
    ensures Route(call.name).Some? ==> Opened(st, s, Route(call.name).value, Validates(call))
  {
    match Route(call.name)
    case None => Step(Failed("Unknown function: " + call.name), st)
    case Some(action) => Perform(b, st, action, call.args)
  }
}
