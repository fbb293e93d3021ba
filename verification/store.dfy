/** The project-data collaborator as the dispatcher sees it: the entities it
    returns, the requests it receives, and a backend whose every reply may be
    a rejection. The REST transport is not modelled; a remote operation is an
    entry appended to a call log, and its reply is chosen by the backend from
    the log so far. */
module Store {
  import opened Values

  datatype Task = Task(
    taskUid: string,
    listUid: string,
    title: string,
    description: Value,   // a string, or null when the task has none
    status: string,
    priority: string,
    color: string,
    isCompleted: bool,
    dueDate: Value)       // an ISO date string, or null

  datatype List = List(
    listUid: string,
    projectUid: string,
    name: string,
    color: string,
    position: int,
    tasks: seq<Task>)     // a list sent without tasks is read as having none

  datatype Project = Project(projectUid: string, name: string, lists: seq<List>)

  /** `ListRequest`: the body of a create-list call. Fields the model
      supplied are forwarded as the model wrote them. */
  datatype ListRequest = ListRequest(projectUid: string, name: Value, color: Value, position: Value)

  /** `TaskRequest`: the body of a create-task call. `None` is a key the
      request leaves out. */
  datatype TaskRequest = TaskRequest(
    listUid: Value,
    title: Value,
    description: Value,
    status: Value,
    priority: Value,
    color: Option<Value>,
    position: Value,
    isCompleted: Option<bool>,
    dueDate: Option<Value>)

  /** The body of a partial update: exactly the keys it sets. */
  type Patch = map<string, Value>

  datatype RemoteCall =
    | ApiGetProject(projectUid: string)
    | ApiCreateList(listRequest: ListRequest)
    | ApiPartialUpdateList(updatedList: Value, listPatch: Patch)
    | ApiDeleteList(deletedList: Value)
    | ApiCreateTask(taskRequest: TaskRequest)
    | ApiPartialUpdateTask(updatedTask: Value, taskPatch: Patch)
    | ApiDeleteTask(deletedTask: Value)

  /** Every remote operation except the project fetch changes stored data. */
  predicate IsMutation(c: RemoteCall) {
    !c.ApiGetProject?
  }

  datatype Reply<+T> = Resolved(value: T) | Rejected(thrown: Thrown)

  /** The backend's answers. Each is a function of the call log up to and
      including the call being answered, so any sequence of successes and
      failures can be described. */
  datatype Backend = Backend(
    project: seq<RemoteCall> -> Reply<Project>,
    createdList: seq<RemoteCall> -> Reply<List>,
    createdTask: seq<RemoteCall> -> Reply<Task>,
    done: seq<RemoteCall> -> Reply<()>)

  /** `project.lists.flatMap(list => list.tasks || [])` */
  function AllTasks(lists: seq<List>): (r: seq<Task>)
    ensures forall l, t :: l in lists && t in l.tasks ==> t in r
    ensures forall t :: t in r ==> exists l :: l in lists && t in l.tasks
  {
    if lists == [] then [] else lists[0].tasks + AllTasks(lists[1..])
  }
}
