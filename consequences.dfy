/** Properties that span several controllers: what one handler's writes mean for another
    handler's reads. */
module Consequences {
  import opened Records
  import opened Members
  import opened Access
  import opened Workflow
  import Tareas
  import Estados

  /** Every state crearEstado can make is untyped, so a database whose states all came from
      it can never accept a task creation (the task's status must be an active task state). */
  lemma ApiStatesNeverStartATask(projects: map<Id, Project>, states: map<Id, State>, actor: Id,
                                 projectId: Id, body: Tareas.NewTask, now: Time)
    requires forall id :: id in states ==> exists b: Estados.NewState :: b.name.Some? && states[id] == Estados.BuildState(b)
    ensures Tareas.CrearTarea(projects, states, actor, projectId, body, now).status != Created
  {
    if body.status.Some? && IsObjectId(body.status.value) && Canon(body.status.value) in states {
      var b: Estados.NewState :| b.name.Some? && states[Canon(body.status.value)] == Estados.BuildState(b);
      Estados.CreatedStateIsNotForTasks(b);
    }
  }

  /** Soft-deleting a project changes nothing for its tasks under obtenerTarea, whose test
      ignores the project's `isActive`; the same members can no longer list those tasks. */
  lemma ArchivedProjectTasksStayReadable(projects: map<Id, Project>, tasks: map<Id, Task>, actor: Id,
                                         projectId: Id, id: Id)
    requires IsObjectId(projectId) && Canon(projectId) in projects
    ensures var k := Canon(projectId);
            var after := projects[k := projects[k].(isActive := false)];
            && Tareas.ObtenerTarea(tasks, after, actor, id) == Tareas.ObtenerTarea(tasks, projects, actor, id)
            && Tareas.ListarTareasProyecto(after, tasks, actor, projectId).status == NotFound
  {
  }

  /** removerMiembro takes away a non-owner's read access to the project's tasks, provided
      the member list names each user once. */
  lemma RemovedMemberCannotRead(projects: map<Id, Project>, tasks: map<Id, Task>, projectId: Id, user: Id, id: Id)
    requires projectId in projects
    requires UniqueUsers(projects[projectId].members)
    requires IsMember(projects[projectId], user) && !IsOwner(projects[projectId], user)
    requires IsObjectId(id) && Canon(id) in tasks && tasks[Canon(id)].isActive && tasks[Canon(id)].project == projectId
    ensures Tareas.ObtenerTarea(tasks, projects, user, id).status == Ok
    ensures var p := projects[projectId];
            var after := projects[projectId := p.(members := RemoveAt(p.members, FirstIndex(p.members, user)))];
            Tareas.ObtenerTarea(tasks, after, user, id).status == Forbidden
  {
    var p := projects[projectId];
    RemoveFirstRemovesUser(p.members, user);
  }
}
