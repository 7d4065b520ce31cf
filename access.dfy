/** The access tests the task and project controllers apply: plain comparisons of the
    actor's id with a project's `owner`, its `members[].user`, and a task's `createdBy`
    and `assignedTo`. */
module Access {
  import opened Records
  import opened Members

  predicate IsOwner(p: Project, actor: Id) {
    p.owner == actor
  }

  predicate IsMember(p: Project, actor: Id) {
    HasMember(p.members, actor)
  }

  predicate IsCreator(t: Task, actor: Id) {
    t.createdBy == actor
  }

  /** `tarea.assignedTo && tarea.assignedTo.toString() === userId.toString()` */
  predicate IsAssignee(t: Task, actor: Id) {
    t.assignedTo == Some(actor)
  }

  /** The filter `{ $or: [{ owner }, { 'members.user' }], isActive: true }` of project
      listing and lookup. */
  predicate ProjectVisible(p: Project, actor: Id) {
    p.isActive && (IsOwner(p, actor) || IsMember(p, actor))
  }

  /** The filter `{ owner, isActive: true }` of the owner-only project handlers. */
  predicate OwnsLiveProject(p: Project, actor: Id) {
    p.isActive && IsOwner(p, actor)
  }

  /** obtenerTarea: owner or member of the task's project. */
  predicate CanReadTask(p: Project, actor: Id) {
    IsOwner(p, actor) || IsMember(p, actor)
  }

  /** actualizarTarea: owner, creator or assignee. */
  predicate CanUpdateTask(p: Project, t: Task, actor: Id) {
    IsOwner(p, actor) || IsCreator(t, actor) || IsAssignee(t, actor)
  }

  /** eliminarTarea: owner or creator. */
  predicate CanDeleteTask(p: Project, t: Task, actor: Id) {
    IsOwner(p, actor) || IsCreator(t, actor)
  }

  /** cambiarEstado on a task: owner, member or assignee. */
  predicate CanChangeTaskStatus(p: Project, t: Task, actor: Id) {
    IsOwner(p, actor) || IsMember(p, actor) || IsAssignee(t, actor)
  }

  /** asignarTarea: the owner only. */
  predicate CanAssignTask(p: Project, actor: Id) {
    IsOwner(p, actor)
  }

  /** asignarTarea's test of the target: the owner or a member. */
  predicate EligibleAssignee(p: Project, target: Id) {
    p.owner == target || HasMember(p.members, target)
  }

  /** The owner passes every task test. */
  lemma OwnerMayDoAnything(p: Project, t: Task)
    ensures CanReadTask(p, p.owner) && CanUpdateTask(p, t, p.owner) && CanDeleteTask(p, t, p.owner)
    ensures CanChangeTaskStatus(p, t, p.owner) && CanAssignTask(p, p.owner)
    ensures EligibleAssignee(p, p.owner)
  {
  }

  /** Being the creator and the assignee of a task without a role in its project lets an
      actor update the task and change its state, yet not read it. */
  lemma AssignedCreatorCannotRead(p: Project, t: Task, actor: Id)
    requires IsCreator(t, actor) && IsAssignee(t, actor)
    requires !IsOwner(p, actor) && !IsMember(p, actor)
    ensures !CanReadTask(p, actor)
    ensures CanUpdateTask(p, t, actor) && CanChangeTaskStatus(p, t, actor) && CanDeleteTask(p, t, actor)
  {
  }

  /** Reading a task is weaker than changing its state; deleting is weaker than updating. */
  lemma TaskTestsNest(p: Project, t: Task, actor: Id)
    ensures CanReadTask(p, actor) ==> CanChangeTaskStatus(p, t, actor)
    ensures CanDeleteTask(p, t, actor) ==> CanUpdateTask(p, t, actor)
    ensures CanAssignTask(p, actor) ==> CanDeleteTask(p, t, actor) && CanReadTask(p, actor)
  {
  }

  /** Whoever can read a task may be assigned to it, and conversely. */
  lemma ReadersAreEligibleAssignees(p: Project, actor: Id)
    ensures CanReadTask(p, actor) <==> EligibleAssignee(p, actor)
  {
  }
}
