# API_Gestion_proyectos — a Dafny model of the controller logic

API_Gestion_proyectos is an Express/Mongoose backend for managing projects. A project has
an owner, a list of members with roles, a workflow state, a category and its tasks. A task
has a creator, an optional assignee and a workflow state; when that state is final, the task
carries a completion timestamp. This project models the decision and update logic of the six
controllers (`tareas`, `proyectos`, `usuarios`, `categorias`, `roles`, `estados`) over an
in-memory store. The store is one map per Mongoose model, from document id to record.

Layout:

- `records.dfy` (`Records`) holds the records, the response kinds and the request-level
  predicates. `IsObjectId` is `mongoose.Types.ObjectId.isValid` on a string of 24
  hexadecimal digits. `Canon` is the id Mongoose casts such a string to, which is also the
  form a stored id reads back in: the same digits in lower case. `Truthy` is JavaScript
  truthiness of an optional string. `ValidId` applies `isValid` to an optional body field.
- `store.dfy` (`Store`) is the database: a class `Db` with one `map` field per collection.
  Each mutating handler is a method that `modifies` only the collections it writes. Its
  contract states the status it answers and the whole new collection, and says the store is
  unchanged on every error.
- `access.dfy` (`Access`) holds the owner, member, creator and assignee tests of the task and
  project handlers, and how they relate to each other.
- `members.dfy` (`Members`) holds a project's member list. It covers the `some` test, the
  `findIndex` scan (a loop proved against its specification), `splice`, and when user
  uniqueness is kept.
- `ordering.dfy` (`Ordering`) gives the `.sort(...)` clauses their meaning. A sort key is a
  `seq<int>` compared lexicographically. `SortedIds` specifies a query result: exactly the
  selected ids, each once, in key order.
- `workflow.dfy` (`Workflow`) holds which states a task may take, and the `completedAt` rule.
- `tareas.dfy`, `proyectos.dfy`, `usuarios.dfy`, `categorias.dfy`, `roles.dfy` and
  `estados.dfy` hold the handlers, one module per controller.
- `consequences.dfy` (`Consequences`) holds properties that cross controllers.

Conventions:

- The authenticated actor, the id a new document receives (`newId`) and the clock (`now`)
  are parameters.
- A request key the client did not send is `None`.
- A body is a datatype with one optional field per key the handler reads.
- Every collection is keyed by ids in stored form. Wherever a handler hands a request id to
  Mongoose (a query, an update, a `save`), the model looks up or stores `Canon` of it.
  Wherever the handler compares the request string itself with `===`, the model compares
  the raw string. The two disagree for an id spelled with capitals; see "## Findings".
  One exception: `asignarTarea` stores the raw `userId` it was sent. Its update casts that
  string, but the string has just passed the `===` test against the owner or a member, so
  it equals an id read back from the store, which is already in stored form.
- Ids that reach a Mongoose query without an `isValid` test, and fail to cast, make the
  handler answer 500 (`ServerError`). Examples are `category` on save, a user id in
  `findByIdAndUpdate`, and a role id in `findById`.

Points where the code does something a reader of the route names might not expect; the model
follows the code:

- Reading a task (`obtenerTarea`) is open to the project's owner and members. It is not open
  to the task's creator or assignee (controllers/tareas.js:172-173).
- Removing a user who is not a member answers 400, not 404 (controllers/proyectos.js:368-373).
- A project's state change checks only that `statusId` is a valid id. The state itself is
  never looked up (controllers/proyectos.js:401-431).
- The State schema has no `type` field, yet the task handlers filter states on
  `type: 'Task'`. The model gives `State` an explicit `kind`. `crearEstado` cannot set it,
  so a state created through the API is never a task state (`Estados.CreatedStateIsNotForTasks`,
  `Consequences.ApiStatesNeverStartATask`). This reads the filter as it is written, so it
  matches no state that lacks the field. That is Mongoose's behaviour from version 7 on,
  where `strictQuery` is off by default (see "## Left out" for version 6).

## Model

| member | source | states |
|---|---|---|
| Records.Canon | controllers/tareas.js:156-159 | the id a query casts a valid request string to: the same 24 digits in lower case, which is the form of every stored id |
| Records.CanonOfCanonical | controllers/tareas.js:156-159 | casting an id in stored form gives it back |
| Members.HasMember | controllers/proyectos.js:296-298 | `some` over `members[].user`: some entry's user equals the given string |
| Members.FirstIndex | controllers/proyectos.js:364-366 | `findIndex` on `members[].user`: the first position holding the user, and `-1` exactly when no entry holds it |
| Members.FindMemberIndex | controllers/proyectos.js:364-366 | the scan over the member list returns exactly `FirstIndex` |
| Members.RemoveAt | controllers/proyectos.js:376 | `splice(k, 1)`: one entry shorter, the entries before `k` in place and those after it shifted down by one |
| Members.AppendKeepsUsersUnique | controllers/proyectos.js:296-311 | pushing a user the `some` test did not find keeps every user once, and the user is then a member |
| Members.RemoveKeepsUsersUnique | controllers/proyectos.js:376 | removing any entry keeps a list of distinct users distinct |
| Members.RemoveFirstRemovesUser | controllers/proyectos.js:364-376 | with distinct users, removing the entry `findIndex` found leaves the user with no entry |
| Members.RemoveFirstKeepsLaterDuplicate | controllers/proyectos.js:364-376 | when a user has two entries, removing the first still leaves the user a member |
| Members.RemoveUndoesAppend | controllers/proyectos.js:308-376 | removing a user just pushed finds the user at the end and restores the previous list |
| Workflow.UsableForTasks | controllers/tareas.js:96-100 | the state filter of the task handlers: a task state that is active |
| Ordering.KeyLeTotal | controllers/proyectos.js:23 | any two sort keys are comparable |
| Ordering.KeyLeTransitive | controllers/proyectos.js:23 | key order is transitive |
| Ordering.CodesOrderStrings | controllers/estados.js:7 | comparing the code points of two names as keys is MongoDB's string order |
| Ordering.KeyLeCompound | controllers/estados.js:7 | a compound key whose first part has a fixed length compares by the first part, then by the rest |
| Ordering.First | controllers/proyectos.js:23 | a non-empty selection has a document whose key is least |
| Ordering.SortedIds | controllers/proyectos.js:11-23 | a query result: exactly the selected ids, each once, each key no greater than the next |
| Workflow.CompletionAfter | controllers/tareas.js:367-372 | after a move, `completedAt` is set exactly when the new state is final. An existing stamp is kept, and a missing one becomes `now` |
| Workflow.FinalTwiceKeepsFirstStamp | controllers/tareas.js:368-369 | moving to a final state twice keeps the first timestamp |
| Workflow.StampChangesOnlyOnCrossing | controllers/tareas.js:367-372 | the stamp changes exactly when crossing from unstamped to final, or from stamped to non-final |
| Workflow.ReopenedTaskGetsNewStamp | controllers/tareas.js:367-372 | final, then non-final, then final again stamps the last time |
| Access.IsOwner | controllers/tareas.js:172 | the project's `owner` equals the actor |
| Access.IsMember | controllers/tareas.js:173 | some member entry of the project names the actor |
| Access.IsCreator | controllers/tareas.js:219 | the task's `createdBy` equals the actor |
| Access.IsAssignee | controllers/tareas.js:220 | the task has an assignee and it is the actor |
| Access.ProjectVisible | controllers/tareas.js:19-26 | the project filter of listing, lookup, task creation and project state change: live, and owned by or listing the actor |
| Access.OwnsLiveProject | controllers/proyectos.js:165-169 | the filter of the owner-only project handlers: live and owned by the actor |
| Access.CanReadTask | controllers/tareas.js:172-173 | `obtenerTarea`: the owner or a member of the task's project |
| Access.CanUpdateTask | controllers/tareas.js:218-222 | `actualizarTarea`: the project owner, the task's creator or its assignee |
| Access.CanDeleteTask | controllers/tareas.js:289-292 | `eliminarTarea`: the project owner or the task's creator |
| Access.CanChangeTaskStatus | controllers/tareas.js:343-347 | `cambiarEstado` on a task: the owner, a member or the assignee |
| Access.CanAssignTask | controllers/tareas.js:428 | `asignarTarea`: the project owner only |
| Access.EligibleAssignee | controllers/tareas.js:436-437 | the target of `asignarTarea`: its string equals the owner's id or a member's id |
| Access.OwnerMayDoAnything | controllers/tareas.js:172-437 | the project owner passes every task test and is an eligible assignee |
| Access.AssignedCreatorCannotRead | controllers/tareas.js:172-222 | a creator-assignee outside the project may update, delete and move the task, but not read it |
| Access.TaskTestsNest | controllers/tareas.js:172-428 | read implies status change, delete implies update, and assign implies delete and read |
| Access.ReadersAreEligibleAssignees | controllers/tareas.js:172-437 | the read test and the assignee test of `asignarTarea` admit the same users |
| Tareas.NewestFirstMeaning | controllers/tareas.js:42 | the key of `{ createdAt: -1 }` puts a task first exactly when it is no older |
| Tareas.DueThenNewestMeaning | controllers/tareas.js:492 | the key of `{ dueDate: 1, createdAt: -1 }` orders by due date (a missing date first), then newest first |
| Tareas.ProjectTaskIds | controllers/tareas.js:35-38 | the live tasks of the project |
| Tareas.AssignedIds | controllers/tareas.js:485-488 | the live tasks assigned to the actor |
| Tareas.NewestFirstSorted | controllers/tareas.js:42 | a list sorted by that key has non-increasing `createdAt` |
| Tareas.DueThenNewestSorted | controllers/tareas.js:492 | a list sorted by that key has non-decreasing due dates, and newest first among equal ones |
| Tareas.Live | controllers/tareas.js:156-159 | the query `{ _id, isActive: true }` finds a task under that stored id |
| Tareas.Reachable | controllers/tareas.js:149-170 | the request id is valid, its cast names a live task, and `populate('project')` yields a project |
| Tareas.ProjectOf | controllers/tareas.js:163 | the populated project of a reachable task |
| Tareas.ListarTareasProyecto | controllers/tareas.js:7-48 | 400 for an invalid id; 404 unless the project is live and the actor owns it or belongs to it; otherwise exactly the live tasks of the project, each once, newest first |
| Tareas.MisTareas | controllers/tareas.js:481-498 | exactly the live tasks assigned to the actor, each once, by due date, then newest first |
| Tareas.BuildTask | controllers/tareas.js:109-121 | the document `new Task` builds: the cast project and state, the creator, the sent fields, `Medium`, 0 hours, the start date sent or `now` for an absent or zero one, no actual hours, an assignee only when it is sent, truthy and castable, and no completion |
| Tareas.HasRequired | controllers/tareas.js:73 | title, description and status are all truthy |
| Tareas.ProjectFound | controllers/tareas.js:80-87 | the project query of `crearTarea` finds the cast project id, for the actor |
| Tareas.StateFound | controllers/tareas.js:96-100 | the state query finds the cast state id, and it is an active task state |
| Tareas.CrearTarea | controllers/tareas.js:57-130 | in order: 400 for a missing title, description or status; 500 for a project id that does not cast; 404 without access to a live project; 500 for a status that does not cast; 400 unless the status is an active task state; otherwise 201 with the task `BuildTask` makes; no other answer |
| Tareas.MissingFieldsBeforeLookup | controllers/tareas.js:73-80 | a missing required field gives the same answer whatever the store holds |
| Tareas.CreatedTaskIsNeverListed | controllers/tareas.js:109-130 | after a 201, the project's task list is still empty, because the task is never saved |
| Tareas.CrearTareaGuardada | controllers/tareas.js:109-130 | the corrected handler: the same answer, except that `save` turns a 201 into a 500 for an `assignedTo` that does not cast; on 201 the task is stored under the new id |
| Tareas.SavedTaskIsReadable | controllers/tareas.js:109-185 | the creator can then read the saved task, by any spelling of its id |
| Tareas.ObtenerTarea | controllers/tareas.js:144-185 | 400 for an invalid id; 404 when the cast id names no live task; 500 when its project is gone; 403 unless the actor owns the project or belongs to it; otherwise the task |
| Tareas.ReadIgnoresCreatorAndAssignee | controllers/tareas.js:172-173 | changing a task's creator or assignee never changes the answer of `obtenerTarea` |
| Tareas.Position | controllers/tareas.js:230-233 | each allow-listed key sits at its place in `camposPermitidos`; every other key sits past the end |
| Tareas.PositionOfListed | controllers/tareas.js:230-233 | the key at place `i` of the allow-list has position `i` |
| Tareas.MergeTurn | controllers/tareas.js:236-240 | one turn of the `forEach` copies exactly the key at that place when it was sent |
| Tareas.MergeTaskChanges | controllers/tareas.js:230-240 | the loop over `camposPermitidos` yields the merge over the whole allow-list |
| Tareas.TaskMergeFields | controllers/tareas.js:230-245 | each of the eight listed fields takes its sent value or keeps its old one. State, assignee, project, creator, completion and active flag never change |
| Tareas.ProtectedKeysAreIgnored | controllers/tareas.js:230-240 | a body with only keys outside the allow-list leaves the task as it was |
| Tareas.ActualizarTarea | controllers/tareas.js:194-255 | 400, 404, 500 for a dangling project, 403 unless owner, creator or assignee; on 200 the task becomes the merge and nothing else changes |
| Tareas.EliminarTarea | controllers/tareas.js:265-307 | the same ladder with owner or creator; on 200 only `isActive` becomes false |
| Tareas.DeletedTaskIsGone | controllers/tareas.js:299-302 | after the soft delete the task is found neither by id nor in its project's list nor among anyone's assigned tasks |
| Tareas.CambiarEstado | controllers/tareas.js:317-392 | 400 for an invalid task or state id; 404; 500 when the live task's project is gone; 403 unless owner, member or assignee; 400 unless an active task state; on 200 `status` is set and `completedAt` follows `CompletionAfter`, so it agrees with the new state's finality |
| Tareas.AsignarTarea | controllers/tareas.js:403-470 | owner only (403); a non-empty target outside owner and members is 400; on 200 `assignedTo` is the target, or cleared for an empty one |
| Tareas.AssigneeGainsAccess | controllers/tareas.js:435-449 | an accepted assignee can read, update and move the task |
| Proyectos.NewestFirstMeaning | controllers/proyectos.js:23 | the key of `{ createdAt: -1 }` puts a project first exactly when it is no older |
| Proyectos.Owned | controllers/proyectos.js:165-169 | the owner-only query finds that stored id |
| Proyectos.Visible | controllers/proyectos.js:116-123 | the owner-or-member query finds that stored id |
| Proyectos.VisibleIds | controllers/proyectos.js:11-17 | the live projects the actor owns or belongs to |
| Proyectos.NewestFirstSorted | controllers/proyectos.js:23 | a list sorted by that key has non-increasing `createdAt` |
| Proyectos.ListarProyectos | controllers/proyectos.js:6-29 | exactly the visible projects, each once, newest first |
| Proyectos.ObtenerProyecto | controllers/proyectos.js:103-140 | 400 for an invalid id, 404 unless visible to the actor, otherwise the project |
| Proyectos.ListedIffFound | controllers/proyectos.js:11-123 | a project is in the actor's listing exactly when `obtenerProyecto` finds it, under any spelling of its id |
| Proyectos.HasRequired | controllers/proyectos.js:56 | name, description, category and status are all truthy |
| Proyectos.BuildProject | controllers/proyectos.js:64-77 | the document `new Project` builds: the sent name and description, the cast category and state, the actor as owner, no members, `Medium`, the start date sent or `now`, 0 actual hours, the sent tags or none, live |
| Proyectos.NewProjectIsOwnersAlone | controllers/proyectos.js:64-77 | a new project has no members; only its creator sees it and owns it |
| Proyectos.CrearProyecto | controllers/proyectos.js:40-92 | 400 for a missing name, description, category or status; 500 when category or status do not cast; otherwise 201 and exactly one new project with the handler's defaults |
| Proyectos.Position | controllers/proyectos.js:179-183 | each allow-listed key sits at its place in `camposPermitidos`; every other key sits past the end |
| Proyectos.PositionOfListed | controllers/proyectos.js:179-183 | the key at place `i` of the allow-list has position `i` |
| Proyectos.MergeTurn | controllers/proyectos.js:186-190 | one turn of the `forEach` copies exactly the key at that place when it was sent |
| Proyectos.MergeProjectChanges | controllers/proyectos.js:179-190 | the loop over `camposPermitidos` yields the merge over the whole allow-list |
| Proyectos.ProjectMergeFields | controllers/proyectos.js:179-196 | each of the ten listed fields takes its sent value or keeps its old one. Owner, members, state, active flag and creation time never change |
| Proyectos.UpdateKeepsAccess | controllers/proyectos.js:179-196 | an update never changes who sees or who owns the project |
| Proyectos.CastUpdate | controllers/proyectos.js:192-196 | the update as Mongoose casts it: a sent category becomes its cast id; nothing else changes |
| Proyectos.ActualizarProyecto | controllers/proyectos.js:151-207 | 400; 404 unless the actor owns the live project; 500 for a category that does not cast; on 200 the project becomes the merge |
| Proyectos.EliminarProyecto | controllers/proyectos.js:218-254 | 400; 404 unless owned and live; on 200 only `isActive` becomes false |
| Proyectos.DeletedProjectIsGone | controllers/proyectos.js:246-249 | after the soft delete nobody lists, finds or owns the project, so a second delete is 404 |
| Proyectos.AgregarMiembro | controllers/proyectos.js:265-324 | as written: 400 for any invalid id; 404 unless owned and live; 400 when the sent string equals a member's stored id; on 200 the cast user and role are appended, and the user then belongs and sees the project; unique member lists stay unique when the sent id is in stored form |
| Proyectos.AgregarMiembroDuplica | controllers/proyectos.js:296-314 | a member's id in capitals passes the `some` test, and the member is then listed twice |
| Proyectos.AgregarMiembroCorregido | controllers/proyectos.js:265-324 | the corrected handler: the membership test compares the cast id, so unique member lists always stay unique |
| Proyectos.RemoverMiembro | controllers/proyectos.js:335-383 | 400 for an invalid id; 404; 400 unless the sent string equals a member's stored id; on 200 the entry `findIndex` found is spliced out, and with unique users the user is no longer a member |
| Proyectos.CambiarEstado | controllers/proyectos.js:394-445 | 400 for an invalid id; 404 unless visible; on 200 only `status` changes, to the cast of any valid id |
| Usuarios.ListarUsuarios | controllers/usuarios.js:9 | exactly the active users |
| Usuarios.DeletedUserIsNotListed | controllers/usuarios.js:9-93 | a soft-deleted user leaves the listing, and only that user |
| Usuarios.MergeProfile | controllers/usuarios.js:53-57 | the four conditional assignments yield `ProfileAfter` |
| Usuarios.ProfileKeepsTheRest | controllers/usuarios.js:53-62 | e-mail, global role and active flag never change, and an empty string does not clear a field |
| Usuarios.ProfileIdempotent | controllers/usuarios.js:53-62 | sending the same profile twice is sending it once |
| Usuarios.ActualizarPerfil | controllers/usuarios.js:47-77 | always 200; the actor's own record takes the truthy fields when it exists |
| Usuarios.EliminarUsuario | controllers/usuarios.js:80-106 | as written: 400 exactly when the sent string equals the actor's id; 500 for an id that does not cast; otherwise 200 and only `isActive` of the user the cast id names becomes false |
| Usuarios.EliminarUsuarioPropio | controllers/usuarios.js:85-93 | the actor's id in capitals passes the self test: 200, and the actor's account is soft-deleted |
| Usuarios.EliminarUsuarioCorregido | controllers/usuarios.js:80-106 | the corrected handler: 400 exactly when the cast id is the actor's; the actor's own record never changes |
| Usuarios.CambiarRol | controllers/usuarios.js:109-149 | as written: the role is tested first: absent or unknown gives 400 and an uncastable one 500, even for the actor's own id. Then a string equal to the actor's id gives 400. On 200 only `globalRole` of the user the cast id names changes, to the cast role |
| Usuarios.CambiarRolPropio | controllers/usuarios.js:124-135 | the actor's id in capitals passes the self test: 200, and the actor takes the new role |
| Usuarios.CambiarRolCorregido | controllers/usuarios.js:109-149 | the corrected handler: 400 when the cast id is the actor's; the actor's own record never changes |
| Categorias.ListarCategoria | controllers/categorias.js:6 | exactly the active categories |
| Categorias.NameTaken | controllers/categorias.js:25 | `findOne({ name })`: some category, active or not, has that name |
| Categorias.CrearCategoria | controllers/categorias.js:21-52 | 400 exactly when a category of that name exists, active or not; otherwise 201 and exactly one new active category; unique names stay unique |
| Categorias.Renamed | controllers/categorias.js:60-64 | a sent name or description becomes the new value; a key not sent keeps its value; the active flag never changes |
| Categorias.ActualizarCategoria | controllers/categorias.js:55-85 | 500 for an id that does not cast, 404 for a missing one; any category, active or not, is renamed with no name check |
| Categorias.RenameCanDuplicate | controllers/categorias.js:60-64 | renaming one category to another's name breaks name uniqueness |
| Categorias.EliminarCategoria | controllers/categorias.js:88-116 | 500, 404, otherwise 200 with only `isActive` false, also for an already deleted category |
| Categorias.DeletedCategoriaKeepsName | controllers/categorias.js:25-96 | a deleted category leaves the listing, yet its name stays taken for `crearCategoria` |
| Roles.ListarRoles | controllers/roles.js:6 | exactly the active roles |
| Roles.NameTaken | controllers/roles.js:27 | `findOne({ name })`: some role, active or not, has that name |
| Roles.CrearRol | controllers/roles.js:22-54 | 400 exactly when a role of that name exists, active or not; otherwise 201 and exactly one new active role; unique names stay unique |
| Roles.Renamed | controllers/roles.js:62-66 | a sent name or description becomes the new value; a key not sent keeps its value; the active flag never changes |
| Roles.ActualizarRol | controllers/roles.js:57-87 | 500 for an id that does not cast, 404 for a missing one; any role is renamed with no name check |
| Roles.RenameCanDuplicate | controllers/roles.js:62-66 | renaming one role to another's name breaks name uniqueness |
| Roles.EliminarRol | controllers/roles.js:90-119 | 500, 404, otherwise 200 with only `isActive` false, also for an already deleted role |
| Roles.DeletedRoleKeepsName | controllers/roles.js:27-99 | a deleted role leaves the listing, but its name stays taken and the role stays in the collection |
| Estados.OrderNameMeaning | controllers/estados.js:7 | the key of `{ order: 1, name: 1 }` orders by `order`, then by name |
| Estados.ActiveIds | controllers/estados.js:6 | the active states |
| Estados.OrderNameSorted | controllers/estados.js:7 | a list sorted by that key has non-decreasing `order`, and names in order among equal ones |
| Estados.ListarEstados | controllers/estados.js:4-20 | exactly the active states, each once, by `order`, then by name |
| Estados.NameTaken | models/states.js:8 | the unique index on `name` rejects the save (error 11000, controllers/estados.js:50-55): some state has that name |
| Estados.BuildState | controllers/estados.js:34-40 | the name and description sent; the color sent, or `#6b7280`; the order sent, or 0; final only when `isFinal` is true; active and untyped |
| Estados.CreatedStateIsNotForTasks | controllers/estados.js:34-40 | no state `crearEstado` builds passes the task handlers' state filter |
| Estados.CrearEstado | controllers/estados.js:23-63 | 400 for a missing or empty name; 400 when any state has that name (the unique index); otherwise 201 and exactly one new state; unique names stay unique |
| Consequences.ApiStatesNeverStartATask | controllers/tareas.js:96-107 | when every state came from `crearEstado`, `crearTarea` never answers 201 |
| Consequences.ArchivedProjectTasksStayReadable | controllers/tareas.js:156-173 | soft-deleting a project leaves `obtenerTarea` on its tasks unchanged, while listing them becomes 404 |
| Consequences.RemovedMemberCannotRead | controllers/tareas.js:172-173 | a member who is not the owner can read the project's tasks, and after `removerMiembro` (with unique users) cannot |

## Left out

- HTTP, routing, the JWT middleware and the admin-only gating in the route files are left out. The actor is a parameter, and every handler is modelled as callable by that actor.
- `obtenerPerfil` is a plain read of the actor's own record, with no decision in it.
- The notification e-mail of `asignarTarea` (controllers/tareas.js:456-459) is I/O. It is awaited inside the `try`, so a failed send answers 500 after the assignment is already saved; the model does not capture that 500.
- `populate` projections and the fields a response picks are left out. Responses carry the whole record or nothing. A `populate` that finds no project is modelled as a 500 (`ServerError`), the TypeError it causes.
- `updatedAt` and the `pre('save')` and `pre('findOneAndUpdate')` hooks are left out: no decision reads that field.
- Schema validators are left out: `required`, `enum`, `min`, and `runValidators` on updates. So a 500 from a failed validation is not modelled.
- Ids in the 12-character form that `isValid` also accepts are left out: `IsObjectId` admits only 24 hexadecimal digits, so the model answers such an id as invalid (400, or 500 where the source has no `isValid` test).
- The model assumes Mongoose 7 or later. From version 7, `strictQuery` is off by default, so the `type: 'Task'` filter of `crearTarea` and `cambiarEstado` is sent as written. Under Mongoose 6's default that key is stripped, any active state is accepted, and `Consequences.ApiStatesNeverStartATask` does not hold. `Categorias.Renamed` and `Roles.Renamed` also assume that an update key whose value is `undefined` is dropped, so an unsent key keeps its value.
- Tareas.BuildTask: leaves a truthy `assignedTo` that does not cast unset. What the unsaved document then holds is Mongoose-internal; `save` would reject it with a 500, which `Tareas.CrearTareaGuardada` models.
- Proyectos.AgregarMiembro: keeps unique member lists unique only when the sent user id is in stored form, because the handler as written can list a member twice ("## Findings"). `Proyectos.AgregarMiembroCorregido` keeps them unique always.
- Proyectos.CrearProyecto: does not model the `min: 0` validators on hours and budget, because the model's numbers are `nat` and cannot be negative.
- `trim` on names is left out, so `Estados.CrearEstado` compares names untrimmed. A name of spaces only, which trims to the empty string and fails validation, is not modelled.
- JSON `null` in request bodies is left out. A key is either sent with a value or not sent.
- models/categorias.js and models/role.js are not part of this model. `Categorias.CrearCategoria` and `Roles.CrearRol` take a name that was sent. The behaviour of `findOne({ name: undefined })` for an absent name is not modelled.
- `hashPassword` is imported by controllers/usuarios.js but never used.
- Tie order: documents with equal sort keys may come in any order, as MongoDB does not fix one. `listarUsuarios`, `listarCategoria` and `listarRoles` have no sort, so they are modelled as sets.
- Concurrency and lost updates between requests are left out. Each handler is one atomic step on the store.
- Dates are natural numbers, and a date of 0 stands for a falsy `startDate`.
- Fields of schema type `Number` are whole numbers in the model: a state's `order` (models/states.js:18-19) is an `int`, and hours and budget are `nat`. Fractional values, such as an `order` of 1.5 in the sort of `listarEstados`, are not modelled.

## Findings

| source | as written | input that shows it | evidently intended | confidence | as-written member | corrected member |
|---|---|---|---|---|---|---|
| controllers/usuarios.js:85 | the self test compares the request's string with the actor's id using `===`, while the update at line 93 casts the string, and a cast id reads back in lower case | actor `aaaaaaaaaaaaaaaaaaaaaaaa` sends DELETE for `AAAAAAAAAAAAAAAAAAAAAAAA`: 200, and the actor's own account is soft-deleted | compare the ids as ObjectIds, so that no spelling of the actor's id passes | not executed | Usuarios.EliminarUsuarioPropio | Usuarios.EliminarUsuarioCorregido |
| controllers/usuarios.js:124 | the same `===` self test before the update at line 131 | actor `aaaaaaaaaaaaaaaaaaaaaaaa` sends a role change for `AAAAAAAAAAAAAAAAAAAAAAAA` with an existing role: 200, and the actor takes that role | compare the ids as ObjectIds | not executed | Usuarios.CambiarRolPropio | Usuarios.CambiarRolCorregido |
| controllers/proyectos.js:296-298 | the membership test compares each stored `member.user.toString()` with the request's string using `===`; the push and `save` at lines 308-314 store the cast id | a project whose member is `aaaaaaaaaaaaaaaaaaaaaaaa`; the owner adds `AAAAAAAAAAAAAAAAAAAAAAAA`: 200, and the member is listed twice | compare with the cast id, so a member is never added twice | not executed | Proyectos.AgregarMiembroDuplica | Proyectos.AgregarMiembroCorregido |
| controllers/tareas.js:109-130 | `crearTarea` builds the task and populates it, then answers 201 without ever calling `save` | a valid create by the project owner into a project with no tasks; the project's task list stays empty | `await nuevaTarea.save()` before the response, as `crearProyecto` does at controllers/proyectos.js:79 | not executed | Tareas.CreatedTaskIsNeverListed | Tareas.CrearTareaGuardada |
