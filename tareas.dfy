/** The task handlers (controllers/tareas.js). Reads are functions of the collections;
    handlers that write are methods that change `db.tasks` and nothing else. */
module Tareas {
  import opened Records
  import opened Members
  import opened Access
  import opened Workflow
  import opened Ordering
  import opened Store

  /** `Task.findOne({ _id: id, isActive: true })` finds a document, for the stored id `id`. */
  predicate Live(tasks: map<Id, Task>, id: Id) {
    id in tasks && tasks[id].isActive
  }

  /** A handler gets past the id check and the lookup of the request's `id` (which the
      query casts), and `populate('project')` yields a project (when it yields null,
      reading `tarea.project.owner` throws: a 500). */
  predicate Reachable(tasks: map<Id, Task>, projects: map<Id, Project>, id: Id) {
    IsObjectId(id) && Live(tasks, Canon(id)) && tasks[Canon(id)].project in projects
  }

  function ProjectOf(tasks: map<Id, Task>, projects: map<Id, Project>, id: Id): Project
    requires Reachable(tasks, projects, id)
  {
    projects[tasks[Canon(id)].project]
  }

  // ---------------------------------------------------------------- listing

  /** `.sort({ createdAt: -1 })` */
  function NewestFirstKey(t: Task): seq<int> {
    [-(t.createdAt as int)]
  }

  /** A `dueDate` ascending sort puts missing dates first. */
  predicate DueLe(a: Option<Time>, b: Option<Time>) {
    a.None? || (b.Some? && a.value <= b.value)
  }

  /** `.sort({ dueDate: 1, createdAt: -1 })` */
  function DueThenNewestKey(t: Task): seq<int> {
    DuePart(t.dueDate) + [-(t.createdAt as int)]
  }

  function DuePart(d: Option<Time>): (k: seq<int>)
    ensures |k| == 2
  {
    if d.None? then [0, 0] else [1, d.value]
  }

  lemma NewestFirstMeaning(a: Task, b: Task)
    ensures KeyLe(NewestFirstKey(a), NewestFirstKey(b)) <==> a.createdAt >= b.createdAt
  {
    assert NewestFirstKey(a)[1..] == [];
  }

  lemma DueThenNewestMeaning(a: Task, b: Task)
    ensures KeyLe(DueThenNewestKey(a), DueThenNewestKey(b)) <==>
            DueLe(a.dueDate, b.dueDate) && (a.dueDate == b.dueDate ==> a.createdAt >= b.createdAt)
  {
    var x, u := DuePart(a.dueDate), DuePart(b.dueDate);
    KeyLeCompound(x, [-(a.createdAt as int)], u, [-(b.createdAt as int)]);
    NewestFirstMeaning(a, b);
    assert x == u <==> a.dueDate == b.dueDate;
    assert KeyLe(x, u) == DueLe(a.dueDate, b.dueDate) || x == u by {
      assert x[1..][1..] == [] && u[1..][1..] == [];
    }
  }

  /** The ids the query of listarTareasProyecto selects. */
  function ProjectTaskIds(tasks: map<Id, Task>, projectId: Id): (ids: set<Id>)
    ensures ids <= tasks.Keys
    ensures forall id :: id in ids <==> Live(tasks, id) && tasks[id].project == projectId
  {
    set id | id in tasks && tasks[id].isActive && tasks[id].project == projectId
  }

  /** The ids the query of misTareas selects. */
  function AssignedIds(tasks: map<Id, Task>, actor: Id): (ids: set<Id>)
    ensures ids <= tasks.Keys
    ensures forall id :: id in ids <==> Live(tasks, id) && tasks[id].assignedTo == Some(actor)
  {
    set id | id in tasks && tasks[id].isActive && tasks[id].assignedTo == Some(actor)
  }

  lemma NewestFirstSorted(tasks: map<Id, Task>, s: seq<Id>)
    requires forall i :: 0 <= i < |s| ==> s[i] in tasks
    requires SortedBy(tasks, s, NewestFirstKey)
    ensures forall i, j :: 0 <= i < j < |s| ==> tasks[s[i]].createdAt >= tasks[s[j]].createdAt
  {
    forall i, j | 0 <= i < j < |s|
      ensures tasks[s[i]].createdAt >= tasks[s[j]].createdAt
    {
      NewestFirstMeaning(tasks[s[i]], tasks[s[j]]);
    }
  }

  lemma DueThenNewestSorted(tasks: map<Id, Task>, s: seq<Id>)
    requires forall i :: 0 <= i < |s| ==> s[i] in tasks
    requires SortedBy(tasks, s, DueThenNewestKey)
    ensures forall i, j :: 0 <= i < j < |s| ==>
              DueLe(tasks[s[i]].dueDate, tasks[s[j]].dueDate) &&
              (tasks[s[i]].dueDate == tasks[s[j]].dueDate ==> tasks[s[i]].createdAt >= tasks[s[j]].createdAt)
  {
    forall i, j | 0 <= i < j < |s|
      ensures DueLe(tasks[s[i]].dueDate, tasks[s[j]].dueDate)
      ensures tasks[s[i]].dueDate == tasks[s[j]].dueDate ==> tasks[s[i]].createdAt >= tasks[s[j]].createdAt
    {
      DueThenNewestMeaning(tasks[s[i]], tasks[s[j]]);
    }
  }

  /** listarTareasProyecto: the live tasks of a project its actor may see, newest first. */
  ghost function ListarTareasProyecto(projects: map<Id, Project>, tasks: map<Id, Task>, actor: Id, projectId: Id)
    : (r: Response<seq<Id>>)
    ensures r.status in {Ok, BadRequest(InvalidId), NotFound}
    ensures r.status == BadRequest(InvalidId) <==> !IsObjectId(projectId)
    ensures r.status == Ok <==>
            IsObjectId(projectId) && Canon(projectId) in projects && ProjectVisible(projects[Canon(projectId)], actor)
    ensures r.status == Ok <==> r.body.Some?
    ensures r.body.Some? ==>
            forall id :: id in r.body.value <==> Live(tasks, id) && tasks[id].project == Canon(projectId)
    ensures r.body.Some? ==>
            forall i, j :: 0 <= i < j < |r.body.value| ==> r.body.value[i] != r.body.value[j]
    ensures r.body.Some? ==>
            forall i, j :: 0 <= i < j < |r.body.value| ==>
              r.body.value[i] in tasks && r.body.value[j] in tasks &&
              tasks[r.body.value[i]].createdAt >= tasks[r.body.value[j]].createdAt
  {
    if !IsObjectId(projectId) then Response(BadRequest(InvalidId), None)
    else if Canon(projectId) !in projects || !ProjectVisible(projects[Canon(projectId)], actor) then
      Response(NotFound, None)
    else
      var s := SortedIds(tasks, ProjectTaskIds(tasks, Canon(projectId)), NewestFirstKey);
      NewestFirstSorted(tasks, s);
      Response(Ok, Some(s))
  }

  /** misTareas: the live tasks assigned to the actor, by due date, then newest first. */
  ghost function MisTareas(tasks: map<Id, Task>, actor: Id): (r: seq<Id>)
    ensures forall id :: id in r <==> Live(tasks, id) && tasks[id].assignedTo == Some(actor)
    ensures forall i, j :: 0 <= i < j < |r| ==> r[i] != r[j]
    ensures forall i, j :: 0 <= i < j < |r| ==>
              r[i] in tasks && r[j] in tasks &&
              DueLe(tasks[r[i]].dueDate, tasks[r[j]].dueDate) &&
              (tasks[r[i]].dueDate == tasks[r[j]].dueDate ==> tasks[r[i]].createdAt >= tasks[r[j]].createdAt)
  {
    var s := SortedIds(tasks, AssignedIds(tasks, actor), DueThenNewestKey);
    DueThenNewestSorted(tasks, s);
    s
  }

  // ---------------------------------------------------------------- creation

  /** The body of a crearTarea request; `None` is a key the client did not send. */
  datatype NewTask = NewTask(
    title: Option<string>,
    description: Option<string>,
    assignedTo: Option<Id>,
    status: Option<Id>,
    priority: Option<Priority>,
    estimatedHours: Option<nat>,
    startDate: Option<Time>,
    dueDate: Option<Time>,
    tags: Option<seq<string>>)

  /** `new Task({...})` of crearTarea, with its `||` defaults. The document casts the
      project and state ids; an `assignedTo` that does not cast is left unset (the document
      records a validation error instead, which only `save` would report). */
  function BuildTask(projectId: Id, actor: Id, body: NewTask, now: Time): (t: Task)
    requires Truthy(body.title) && Truthy(body.description) && Truthy(body.status)
    requires IsObjectId(projectId) && IsObjectId(body.status.value)
    ensures t.project == Canon(projectId) && t.status == Canon(body.status.value) && t.createdBy == actor
    ensures t.title == body.title.value && t.description == body.description.value
    ensures t.assignedTo.Some? <==> Truthy(body.assignedTo) && IsObjectId(body.assignedTo.value)
    ensures t.assignedTo.Some? ==> t.assignedTo.value == Canon(body.assignedTo.value)
    ensures t.priority == (if body.priority.Some? then body.priority.value else Medium)
    ensures t.estimatedHours == (if body.estimatedHours.Some? then body.estimatedHours.value else 0)
    ensures t.actualHours == None
    ensures t.startDate == (if body.startDate.Some? && body.startDate.value != 0 then body.startDate.value else now)
    ensures t.tags == (if body.tags.Some? then body.tags.value else [])
    ensures t.dueDate == body.dueDate && t.completedAt == None
    ensures t.isActive && t.createdAt == now
  {
    Task(
      title := body.title.value,
      description := body.description.value,
      project := Canon(projectId),
      assignedTo := if Truthy(body.assignedTo) && IsObjectId(body.assignedTo.value)
                    then Some(Canon(body.assignedTo.value)) else None,
      createdBy := actor,
      status := Canon(body.status.value),
      priority := body.priority.GetOr(Medium),
      estimatedHours := body.estimatedHours.GetOr(0),
      actualHours := None,
      startDate := if body.startDate.Some? && body.startDate.value != 0 then body.startDate.value else now,
      dueDate := body.dueDate,
      completedAt := None,
      tags := body.tags.GetOr([]),
      isActive := true,
      createdAt := now)
  }

  /** The required fields of crearTarea: `title`, `description` and `status` are truthy. */
  predicate HasRequired(body: NewTask) {
    Truthy(body.title) && Truthy(body.description) && Truthy(body.status)
  }

  /** The project query of crearTarea finds the project, for the actor. */
  predicate ProjectFound(projects: map<Id, Project>, actor: Id, projectId: Id)
    requires IsObjectId(projectId)
  {
    Canon(projectId) in projects && ProjectVisible(projects[Canon(projectId)], actor)
  }

  /** The state query of crearTarea finds an active task state. */
  predicate StateFound(states: map<Id, State>, statusId: Id)
    requires IsObjectId(statusId)
  {
    Canon(statusId) in states && UsableForTasks(states[Canon(statusId)])
  }

  /** crearTarea AS WRITTEN: it validates, builds the task and answers 201 with it, but
      never saves it; there is no store in its result. A `projectId` or `status` that does
      not cast makes its query throw: a 500. */
  function CrearTarea(projects: map<Id, Project>, states: map<Id, State>, actor: Id, projectId: Id,
                      body: NewTask, now: Time): (r: Response<Task>)
    ensures r.status in {Created, BadRequest(MissingFields), ServerError, NotFound, BadRequest(InvalidTaskState)}
    ensures r.status == BadRequest(MissingFields) <==> !HasRequired(body)
    ensures r.status == ServerError <==>
              HasRequired(body) &&
              (!IsObjectId(projectId) ||
               (ProjectFound(projects, actor, projectId) && !IsObjectId(body.status.value)))
    ensures r.status == NotFound <==>
              HasRequired(body) && IsObjectId(projectId) && !ProjectFound(projects, actor, projectId)
    ensures r.status == BadRequest(InvalidTaskState) <==>
              && HasRequired(body) && IsObjectId(projectId) && ProjectFound(projects, actor, projectId)
              && IsObjectId(body.status.value) && !StateFound(states, body.status.value)
    ensures r.status == Created <==>
              && HasRequired(body) && IsObjectId(projectId) && ProjectFound(projects, actor, projectId)
              && IsObjectId(body.status.value) && StateFound(states, body.status.value)
    ensures r.status == Created <==> r.body.Some?
    ensures r.body.Some? ==> r.body.value == BuildTask(projectId, actor, body, now)
  {
    if !HasRequired(body) then
      Response(BadRequest(MissingFields), None)
    else if !IsObjectId(projectId) then
      Response(ServerError, None)
    else if !ProjectFound(projects, actor, projectId) then
      Response(NotFound, None)
    else if !IsObjectId(body.status.value) then
      Response(ServerError, None)
    else if !StateFound(states, body.status.value) then
      Response(BadRequest(InvalidTaskState), None)
    else
      Response(Created, Some(BuildTask(projectId, actor, body, now)))
  }

  /** crearTarea checks its required fields before it looks anything up: the answer to a
      request that lacks one does not depend on the database. */
  lemma MissingFieldsBeforeLookup(p1: map<Id, Project>, s1: map<Id, State>, p2: map<Id, Project>,
                                  s2: map<Id, State>, actor: Id, projectId: Id, body: NewTask, now: Time)
    requires !HasRequired(body)
    ensures CrearTarea(p1, s1, actor, projectId, body, now) == CrearTarea(p2, s2, actor, projectId, body, now)
  {
  }

  /** The discrepancy: after crearTarea answers 201 for a project with no tasks, listing the
      project's tasks still gives an empty list. */
  lemma CreatedTaskIsNeverListed(projects: map<Id, Project>, states: map<Id, State>, tasks: map<Id, Task>,
                                 actor: Id, projectId: Id, body: NewTask, now: Time)
    requires CrearTarea(projects, states, actor, projectId, body, now).status == Created
    requires forall id :: id in tasks ==> tasks[id].project != Canon(projectId)
    ensures ListarTareasProyecto(projects, tasks, actor, projectId) == Response(Ok, Some([]))
  {
  }

  /** crearTarea as evidently intended: the same answer, and on 201 the task is saved
      under the id the store hands out. Saving validates the document, so an `assignedTo`
      that does not cast turns the 201 into a 500. */
  method CrearTareaGuardada(db: Db, actor: Id, projectId: Id, body: NewTask, newId: Id, now: Time)
    returns (r: Response<Task>)
    requires newId !in db.tasks
    modifies db`tasks
    ensures CrearTarea(db.projects, db.states, actor, projectId, body, now).status != Created ==>
              r == CrearTarea(db.projects, db.states, actor, projectId, body, now)
    ensures CrearTarea(db.projects, db.states, actor, projectId, body, now).status == Created ==>
              (r.status == ServerError <==> Truthy(body.assignedTo) && !IsObjectId(body.assignedTo.value))
    ensures r.status == Created ==>
              r == CrearTarea(db.projects, db.states, actor, projectId, body, now) &&
              db.tasks == old(db.tasks)[newId := r.body.value]
    ensures r.status != Created ==> r.body == None && db.tasks == old(db.tasks)
  {
    r := CrearTarea(db.projects, db.states, actor, projectId, body, now);
    if r.status == Created {
      if Truthy(body.assignedTo) && !IsObjectId(body.assignedTo.value) {
        return Response(ServerError, None);
      }
      db.tasks := db.tasks[newId := r.body.value];
    }
  }

  /** Once saved, the new task is readable by the actor who created it, under any spelling
      of its id that casts to it. */
  lemma SavedTaskIsReadable(projects: map<Id, Project>, states: map<Id, State>, tasks: map<Id, Task>,
                            actor: Id, projectId: Id, body: NewTask, newId: Id, id: Id, now: Time)
    requires IsObjectId(id) && Canon(id) == newId
    requires CrearTarea(projects, states, actor, projectId, body, now).status == Created
    ensures var t := CrearTarea(projects, states, actor, projectId, body, now).body.value;
            ObtenerTarea(tasks[newId := t], projects, actor, id) == Response(Ok, Some(t))
  {
  }

  // ---------------------------------------------------------------- reading

  /** obtenerTarea */
  function ObtenerTarea(tasks: map<Id, Task>, projects: map<Id, Project>, actor: Id, id: Id): (r: Response<Task>)
    ensures !IsObjectId(id) ==> r.status == BadRequest(InvalidId)
    ensures IsObjectId(id) && !Live(tasks, Canon(id)) ==> r.status == NotFound
    ensures r.status == ServerError <==>
              IsObjectId(id) && Live(tasks, Canon(id)) && tasks[Canon(id)].project !in projects
    ensures r.status == Ok <==>
              Reachable(tasks, projects, id) && CanReadTask(ProjectOf(tasks, projects, id), actor)
    ensures r.status == Forbidden <==>
              Reachable(tasks, projects, id) && !CanReadTask(ProjectOf(tasks, projects, id), actor)
    ensures r.body == (if r.status == Ok then Some(tasks[Canon(id)]) else None)
  {
    if !IsObjectId(id) then Response(BadRequest(InvalidId), None)
    else if !Live(tasks, Canon(id)) then Response(NotFound, None)
    else if tasks[Canon(id)].project !in projects then Response(ServerError, None)
    else if !CanReadTask(projects[tasks[Canon(id)].project], actor) then Response(Forbidden, None)
    else Response(Ok, Some(tasks[Canon(id)]))
  }

  /** Who created a task, and who it is assigned to, make no difference to reading it. */
  lemma ReadIgnoresCreatorAndAssignee(tasks: map<Id, Task>, projects: map<Id, Project>, actor: Id, id: Id,
                                      createdBy: Id, assignedTo: Option<Id>)
    requires IsObjectId(id) && Canon(id) in tasks
    ensures var k := Canon(id);
            var after := tasks[k := tasks[k].(createdBy := createdBy, assignedTo := assignedTo)];
            ObtenerTarea(after, projects, actor, id).status == ObtenerTarea(tasks, projects, actor, id).status
  {
  }

  // ---------------------------------------------------------------- updating

  /** The body of an actualizarTarea request: every key a client may send, including
      those outside the allow-list. `None` is a key the client did not send. */
  datatype TaskChanges = TaskChanges(
    title: Option<string>,
    description: Option<string>,
    priority: Option<Priority>,
    estimatedHours: Option<nat>,
    actualHours: Option<nat>,
    startDate: Option<Time>,
    dueDate: Option<Time>,
    tags: Option<seq<string>>,
    status: Option<Id>,
    assignedTo: Option<Id>,
    project: Option<Id>,
    createdBy: Option<Id>,
    completedAt: Option<Time>,
    isActive: Option<bool>)

  /** The keys of an actualizarTarea body, by name. */
  datatype TaskKey =
    | TitleKey | DescriptionKey | PriorityKey | EstimatedHoursKey | ActualHoursKey | StartDateKey
    | DueDateKey | TagsKey | StatusKey | AssignedToKey | ProjectKey | CreatedByKey | CompletedAtKey
    | IsActiveKey

  /** `camposPermitidos` of actualizarTarea. */
  const TaskUpdatable: seq<TaskKey> :=
    [TitleKey, DescriptionKey, PriorityKey, EstimatedHoursKey, ActualHoursKey, StartDateKey, DueDateKey,
     TagsKey]

  /** `req.body[campo] !== undefined` */
  predicate Sent(body: TaskChanges, campo: TaskKey) {
    match campo
    case TitleKey => body.title.Some?
    case DescriptionKey => body.description.Some?
    case PriorityKey => body.priority.Some?
    case EstimatedHoursKey => body.estimatedHours.Some?
    case ActualHoursKey => body.actualHours.Some?
    case StartDateKey => body.startDate.Some?
    case DueDateKey => body.dueDate.Some?
    case TagsKey => body.tags.Some?
    case StatusKey => body.status.Some?
    case AssignedToKey => body.assignedTo.Some?
    case ProjectKey => body.project.Some?
    case CreatedByKey => body.createdBy.Some?
    case CompletedAtKey => body.completedAt.Some?
    case IsActiveKey => body.isActive.Some?
  }

  /** The effect of the update key `campo`, with the request's value, on a task. */
  function Assign(t: Task, body: TaskChanges, campo: TaskKey): Task
    requires Sent(body, campo)
  {
    match campo
    case TitleKey => t.(title := body.title.value)
    case DescriptionKey => t.(description := body.description.value)
    case PriorityKey => t.(priority := body.priority.value)
    case EstimatedHoursKey => t.(estimatedHours := body.estimatedHours.value)
    case ActualHoursKey => t.(actualHours := body.actualHours)
    case StartDateKey => t.(startDate := body.startDate.value)
    case DueDateKey => t.(dueDate := body.dueDate)
    case TagsKey => t.(tags := body.tags.value)
    case StatusKey => t.(status := body.status.value)
    case AssignedToKey => t.(assignedTo := body.assignedTo)
    case ProjectKey => t.(project := body.project.value)
    case CreatedByKey => t.(createdBy := body.createdBy.value)
    case CompletedAtKey => t.(completedAt := body.completedAt)
    case IsActiveKey => t.(isActive := body.isActive.value)
  }

  /** Where a key stands in `camposPermitidos`; a key outside the list stands at its end. */
  function Position(k: TaskKey): (n: nat)
    ensures n <= |TaskUpdatable|
  {
    match k
    case TitleKey => 0
    case DescriptionKey => 1
    case PriorityKey => 2
    case EstimatedHoursKey => 3
    case ActualHoursKey => 4
    case StartDateKey => 5
    case DueDateKey => 6
    case TagsKey => 7
    case _ => 8
  }

  /** The task after the first `turns` turns of the loop over `camposPermitidos`: each
      field whose key has been reached and was sent takes the sent value; every other
      field keeps its value. */
  ghost function MergedTask(t: Task, body: TaskChanges, turns: nat): Task {
    t.(
      title := if Position(TitleKey) < turns && body.title.Some? then body.title.value else t.title,
      description := if Position(DescriptionKey) < turns && body.description.Some? then body.description.value else t.description,
      priority := if Position(PriorityKey) < turns && body.priority.Some? then body.priority.value else t.priority,
      estimatedHours := if Position(EstimatedHoursKey) < turns && body.estimatedHours.Some? then body.estimatedHours.value else t.estimatedHours,
      actualHours := if Position(ActualHoursKey) < turns && body.actualHours.Some? then body.actualHours else t.actualHours,
      startDate := if Position(StartDateKey) < turns && body.startDate.Some? then body.startDate.value else t.startDate,
      dueDate := if Position(DueDateKey) < turns && body.dueDate.Some? then body.dueDate else t.dueDate,
      tags := if Position(TagsKey) < turns && body.tags.Some? then body.tags.value else t.tags,
      status := if Position(StatusKey) < turns && body.status.Some? then body.status.value else t.status,
      assignedTo := if Position(AssignedToKey) < turns && body.assignedTo.Some? then body.assignedTo else t.assignedTo,
      project := if Position(ProjectKey) < turns && body.project.Some? then body.project.value else t.project,
      createdBy := if Position(CreatedByKey) < turns && body.createdBy.Some? then body.createdBy.value else t.createdBy,
      completedAt := if Position(CompletedAtKey) < turns && body.completedAt.Some? then body.completedAt else t.completedAt,
      isActive := if Position(IsActiveKey) < turns && body.isActive.Some? then body.isActive.value else t.isActive)
  }

  /** The key at each place of `camposPermitidos` stands at that place. */
  lemma PositionOfListed(i: nat)
    requires i < |TaskUpdatable|
    ensures Position(TaskUpdatable[i]) == i
  {
  }

  /** A turn of the loop at the key `campo` applies that key, when it was sent. */
  lemma MergeTurn(t: Task, body: TaskChanges, campo: TaskKey, i: nat)
    requires i < |TaskUpdatable| && Position(campo) == i
    ensures MergedTask(t, body, i + 1)
         == var before := MergedTask(t, body, i);
            if Sent(body, campo) then Assign(before, body, campo) else before
  {
  }

  /** The `camposPermitidos.forEach` loop of actualizarTarea, with the update applied. */
  method MergeTaskChanges(t: Task, body: TaskChanges) returns (r: Task)
    ensures r == MergedTask(t, body, |TaskUpdatable|)
  {
    r := t;
    var i := 0;
    while i < |TaskUpdatable|
      invariant 0 <= i <= |TaskUpdatable|
      invariant r == MergedTask(t, body, i)
    {
      var campo := TaskUpdatable[i];
      PositionOfListed(i);
      MergeTurn(t, body, campo, i);
      if Sent(body, campo) {
        r := Assign(r, body, campo);
      }
      i := i + 1;
    }
  }

  /** actualizarTarea changes exactly the allow-listed fields it was sent; the state, the
      assignee, the project, the creator, the completion time and the active flag stay. */
  lemma TaskMergeFields(t: Task, body: TaskChanges)
    ensures var r := MergedTask(t, body, |TaskUpdatable|);
      && r.title == (if body.title.Some? then body.title.value else t.title)
      && r.description == (if body.description.Some? then body.description.value else t.description)
      && r.priority == (if body.priority.Some? then body.priority.value else t.priority)
      && r.estimatedHours == (if body.estimatedHours.Some? then body.estimatedHours.value else t.estimatedHours)
      && r.actualHours == (if body.actualHours.Some? then body.actualHours else t.actualHours)
      && r.startDate == (if body.startDate.Some? then body.startDate.value else t.startDate)
      && r.dueDate == (if body.dueDate.Some? then body.dueDate else t.dueDate)
      && r.tags == (if body.tags.Some? then body.tags.value else t.tags)
      && r.status == t.status && r.assignedTo == t.assignedTo && r.project == t.project
      && r.createdBy == t.createdBy && r.completedAt == t.completedAt && r.isActive == t.isActive
      && r.createdAt == t.createdAt
  {
  }

  /** A request that sends only keys outside the allow-list changes nothing. */
  lemma ProtectedKeysAreIgnored(t: Task, body: TaskChanges)
    requires body.title.None? && body.description.None? && body.priority.None?
    requires body.estimatedHours.None? && body.actualHours.None? && body.startDate.None?
    requires body.dueDate.None? && body.tags.None?
    ensures MergedTask(t, body, |TaskUpdatable|) == t
  {
  }

  /** actualizarTarea */
  method ActualizarTarea(db: Db, actor: Id, id: Id, body: TaskChanges) returns (status: Status)
    modifies db`tasks
    ensures !IsObjectId(id) ==> status == BadRequest(InvalidId)
    ensures IsObjectId(id) && !Live(old(db.tasks), Canon(id)) ==> status == NotFound
    ensures IsObjectId(id) && Live(old(db.tasks), Canon(id)) && old(db.tasks)[Canon(id)].project !in db.projects ==>
              status == ServerError
    ensures status == Ok <==>
              Reachable(old(db.tasks), db.projects, id) &&
              CanUpdateTask(ProjectOf(old(db.tasks), db.projects, id), old(db.tasks)[Canon(id)], actor)
    ensures Reachable(old(db.tasks), db.projects, id) &&
            !CanUpdateTask(ProjectOf(old(db.tasks), db.projects, id), old(db.tasks)[Canon(id)], actor) ==>
              status == Forbidden
    ensures status == Ok ==> db.tasks == old(db.tasks)[Canon(id) := MergedTask(old(db.tasks)[Canon(id)], body, |TaskUpdatable|)]
    ensures status != Ok ==> db.tasks == old(db.tasks)
  {
    if !IsObjectId(id) {
      return BadRequest(InvalidId);
    }
    var key := Canon(id);
    if !Live(db.tasks, key) {
      return NotFound;
    }
    var tarea := db.tasks[key];
    if tarea.project !in db.projects {
      return ServerError;
    }
    if !CanUpdateTask(db.projects[tarea.project], tarea, actor) {
      return Forbidden;
    }
    var actualizada := MergeTaskChanges(tarea, body);
    db.tasks := db.tasks[key := actualizada];
    return Ok;
  }

  // ---------------------------------------------------------------- deleting

  /** eliminarTarea: a soft delete by the project's owner or the task's creator. */
  method EliminarTarea(db: Db, actor: Id, id: Id) returns (status: Status)
    modifies db`tasks
    ensures !IsObjectId(id) ==> status == BadRequest(InvalidId)
    ensures IsObjectId(id) && !Live(old(db.tasks), Canon(id)) ==> status == NotFound
    ensures IsObjectId(id) && Live(old(db.tasks), Canon(id)) && old(db.tasks)[Canon(id)].project !in db.projects ==>
              status == ServerError
    ensures status == Ok <==>
              Reachable(old(db.tasks), db.projects, id) &&
              CanDeleteTask(ProjectOf(old(db.tasks), db.projects, id), old(db.tasks)[Canon(id)], actor)
    ensures Reachable(old(db.tasks), db.projects, id) &&
            !CanDeleteTask(ProjectOf(old(db.tasks), db.projects, id), old(db.tasks)[Canon(id)], actor) ==>
              status == Forbidden
    ensures status == Ok ==> db.tasks == old(db.tasks)[Canon(id) := old(db.tasks)[Canon(id)].(isActive := false)]
    ensures status != Ok ==> db.tasks == old(db.tasks)
  {
    if !IsObjectId(id) {
      return BadRequest(InvalidId);
    }
    var key := Canon(id);
    if !Live(db.tasks, key) {
      return NotFound;
    }
    var tarea := db.tasks[key];
    if tarea.project !in db.projects {
      return ServerError;
    }
    if !CanDeleteTask(db.projects[tarea.project], tarea, actor) {
      return Forbidden;
    }
    db.tasks := db.tasks[key := tarea.(isActive := false)];
    return Ok;
  }

  /** After the soft delete, nobody finds the task: not by id, not in its project's list,
      not among anybody's own tasks. */
  lemma DeletedTaskIsGone(tasks: map<Id, Task>, projects: map<Id, Project>, actor: Id, id: Id)
    requires IsObjectId(id) && Canon(id) in tasks
    ensures var k := Canon(id);
      var after := tasks[k := tasks[k].(isActive := false)];
      && ObtenerTarea(after, projects, actor, id).status == NotFound
      && k !in MisTareas(after, actor)
      && forall projectId :: ListarTareasProyecto(projects, after, actor, projectId).body.Some? ==>
           k !in ListarTareasProyecto(projects, after, actor, projectId).body.value
  {
  }

  // ---------------------------------------------------------------- state change

  /** cambiarEstado: moves the task to an active task state and keeps `completedAt` in
      step with the new state's `isFinal`. */
  method CambiarEstado(db: Db, actor: Id, id: Id, statusId: Option<Id>, now: Time) returns (status: Status)
    modifies db`tasks
    ensures status in {Ok, BadRequest(InvalidId), NotFound, ServerError, Forbidden, BadRequest(InvalidTaskState)}
    ensures !IsObjectId(id) || !ValidId(statusId) ==> status == BadRequest(InvalidId)
    ensures IsObjectId(id) && ValidId(statusId) && !Live(old(db.tasks), Canon(id)) ==> status == NotFound
    ensures IsObjectId(id) && ValidId(statusId) && Live(old(db.tasks), Canon(id)) &&
            old(db.tasks)[Canon(id)].project !in db.projects ==>
              status == ServerError
    ensures ValidId(statusId) && Reachable(old(db.tasks), db.projects, id) &&
            !CanChangeTaskStatus(ProjectOf(old(db.tasks), db.projects, id), old(db.tasks)[Canon(id)], actor) ==>
              status == Forbidden
    ensures ValidId(statusId) && Reachable(old(db.tasks), db.projects, id) &&
            CanChangeTaskStatus(ProjectOf(old(db.tasks), db.projects, id), old(db.tasks)[Canon(id)], actor) &&
            !(StateFound(db.states, statusId.value)) ==>
              status == BadRequest(InvalidTaskState)
    ensures status == Ok <==>
              && ValidId(statusId) && Reachable(old(db.tasks), db.projects, id)
              && CanChangeTaskStatus(ProjectOf(old(db.tasks), db.projects, id), old(db.tasks)[Canon(id)], actor)
              && StateFound(db.states, statusId.value)
    ensures status == Ok ==>
              db.tasks == old(db.tasks)[Canon(id) := old(db.tasks)[Canon(id)].(
                status := Canon(statusId.value),
                completedAt := CompletionAfter(db.states[Canon(statusId.value)].isFinal, old(db.tasks)[Canon(id)].completedAt, now))]
    ensures status == Ok ==> InSync(db.tasks[Canon(id)], db.states)
    ensures status != Ok ==> db.tasks == old(db.tasks)
  {
    if !IsObjectId(id) || !ValidId(statusId) {
      return BadRequest(InvalidId);
    }
    var key := Canon(id);
    if !Live(db.tasks, key) {
      return NotFound;
    }
    var tarea := db.tasks[key];
    if tarea.project !in db.projects {
      return ServerError;
    }
    if !CanChangeTaskStatus(db.projects[tarea.project], tarea, actor) {
      return Forbidden;
    }
    if !StateFound(db.states, statusId.value) {
      return BadRequest(InvalidTaskState);
    }
    var estado := db.states[Canon(statusId.value)];
    var actualizaciones := tarea.(status := Canon(statusId.value));
    if estado.isFinal && tarea.completedAt.None? {
      actualizaciones := actualizaciones.(completedAt := Some(now));
    } else if !estado.isFinal && tarea.completedAt.Some? {
      actualizaciones := actualizaciones.(completedAt := None);
    }
    db.tasks := db.tasks[key := actualizaciones];
    return Ok;
  }

  // ---------------------------------------------------------------- assignment

  /** asignarTarea: the owner assigns the task to the owner or a member, or clears the
      assignment when no (or an empty) user id is sent. */
  method AsignarTarea(db: Db, actor: Id, id: Id, target: Option<Id>) returns (status: Status)
    modifies db`tasks
    ensures !IsObjectId(id) ==> status == BadRequest(InvalidId)
    ensures IsObjectId(id) && !Live(old(db.tasks), Canon(id)) ==> status == NotFound
    ensures IsObjectId(id) && Live(old(db.tasks), Canon(id)) && old(db.tasks)[Canon(id)].project !in db.projects ==>
              status == ServerError
    ensures Reachable(old(db.tasks), db.projects, id) &&
            !CanAssignTask(ProjectOf(old(db.tasks), db.projects, id), actor) ==>
              status == Forbidden
    ensures Reachable(old(db.tasks), db.projects, id) &&
            CanAssignTask(ProjectOf(old(db.tasks), db.projects, id), actor) &&
            Truthy(target) && !EligibleAssignee(ProjectOf(old(db.tasks), db.projects, id), target.value) ==>
              status == BadRequest(NotEligible)
    ensures status == Ok <==>
              && Reachable(old(db.tasks), db.projects, id)
              && CanAssignTask(ProjectOf(old(db.tasks), db.projects, id), actor)
              && (Truthy(target) ==> EligibleAssignee(ProjectOf(old(db.tasks), db.projects, id), target.value))
    ensures status == Ok ==>
              db.tasks == old(db.tasks)[Canon(id) := old(db.tasks)[Canon(id)].(assignedTo := if Truthy(target) then target else None)]
    ensures status != Ok ==> db.tasks == old(db.tasks)
  {
    if !IsObjectId(id) {
      return BadRequest(InvalidId);
    }
    var key := Canon(id);
    if !Live(db.tasks, key) {
      return NotFound;
    }
    var tarea := db.tasks[key];
    if tarea.project !in db.projects {
      return ServerError;
    }
    var proyecto := db.projects[tarea.project];
    if !CanAssignTask(proyecto, actor) {
      return Forbidden;
    }
    if Truthy(target) && !EligibleAssignee(proyecto, target.value) {
      return BadRequest(NotEligible);
    }
    db.tasks := db.tasks[key := tarea.(assignedTo := if Truthy(target) then target else None)];
    return Ok;
  }

  /** A user asignarTarea accepts can then read the task, update it and change its state. */
  lemma AssigneeGainsAccess(p: Project, t: Task, target: Id)
    requires EligibleAssignee(p, target)
    ensures CanReadTask(p, target)
    ensures CanUpdateTask(p, t.(assignedTo := Some(target)), target)
    ensures CanChangeTaskStatus(p, t.(assignedTo := Some(target)), target)
  {
  }
}
