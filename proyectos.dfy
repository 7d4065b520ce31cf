/** The project handlers (controllers/proyectos.js). The listing and lookup are functions of
    the collection; handlers that write are methods that change `db.projects` and nothing
    else. */
module Proyectos {
  import opened Records
  import opened Members
  import opened Access
  import opened Ordering
  import opened Store

  /** `Project.findOne({ _id: id, owner: userId, isActive: true })` finds a document; `id`
      is the stored id the request's id casts to. */
  predicate Owned(projects: map<Id, Project>, id: Id, actor: Id) {
    id in projects && OwnsLiveProject(projects[id], actor)
  }

  /** `Project.findOne({ _id: id, $or: [owner, members.user], isActive: true })` finds one,
      for the stored id `id`. */
  predicate Visible(projects: map<Id, Project>, id: Id, actor: Id) {
    id in projects && ProjectVisible(projects[id], actor)
  }

  /** No project lists a user twice among its members. */
  ghost predicate MembersUnique(projects: map<Id, Project>) {
    forall id :: id in projects ==> UniqueUsers(projects[id].members)
  }

  // ---------------------------------------------------------------- listing and lookup

  /** `.sort({ createdAt: -1 })` */
  function NewestFirstKey(p: Project): seq<int> {
    [-(p.createdAt as int)]
  }

  lemma NewestFirstMeaning(a: Project, b: Project)
    ensures KeyLe(NewestFirstKey(a), NewestFirstKey(b)) <==> a.createdAt >= b.createdAt
  {
    assert NewestFirstKey(a)[1..] == [];
  }

  /** The ids the query of listarProyectos selects. */
  function VisibleIds(projects: map<Id, Project>, actor: Id): (ids: set<Id>)
    ensures ids <= projects.Keys
    ensures forall id :: id in ids <==> Visible(projects, id, actor)
  {
    set id | id in projects && Visible(projects, id, actor)
  }

  /** The newest-first key orders a listing by descending creation time. */
  lemma NewestFirstSorted(projects: map<Id, Project>, s: seq<Id>)
    requires forall i :: 0 <= i < |s| ==> s[i] in projects
    requires SortedBy(projects, s, NewestFirstKey)
    ensures forall i, j :: 0 <= i < j < |s| ==> projects[s[i]].createdAt >= projects[s[j]].createdAt
  {
    forall i, j | 0 <= i < j < |s|
      ensures projects[s[i]].createdAt >= projects[s[j]].createdAt
    {
      NewestFirstMeaning(projects[s[i]], projects[s[j]]);
    }
  }

  /** listarProyectos: the live projects the actor owns or belongs to, newest first. */
  ghost function ListarProyectos(projects: map<Id, Project>, actor: Id): (r: seq<Id>)
    ensures forall id :: id in r <==> Visible(projects, id, actor)
    ensures forall i, j :: 0 <= i < j < |r| ==> r[i] != r[j]
    ensures forall i, j :: 0 <= i < j < |r| ==>
              r[i] in projects && r[j] in projects && projects[r[i]].createdAt >= projects[r[j]].createdAt
  {
    var s := SortedIds(projects, VisibleIds(projects, actor), NewestFirstKey);
    NewestFirstSorted(projects, s);
    s
  }

  /** obtenerProyecto: the query casts the request's `id`. */
  function ObtenerProyecto(projects: map<Id, Project>, actor: Id, id: Id): (r: Response<Project>)
    ensures r.status in {Ok, BadRequest(InvalidId), NotFound}
    ensures r.status == BadRequest(InvalidId) <==> !IsObjectId(id)
    ensures r.status == Ok <==> IsObjectId(id) && Visible(projects, Canon(id), actor)
    ensures r.body == (if r.status == Ok then Some(projects[Canon(id)]) else None)
  {
    if !IsObjectId(id) then Response(BadRequest(InvalidId), None)
    else if !Visible(projects, Canon(id), actor) then Response(NotFound, None)
    else Response(Ok, Some(projects[Canon(id)]))
  }

  /** A project can be looked up, under any spelling of its id, exactly when the listing
      shows it. */
  lemma ListedIffFound(projects: map<Id, Project>, actor: Id, id: Id)
    requires IsObjectId(id)
    ensures Canon(id) in ListarProyectos(projects, actor) <==> ObtenerProyecto(projects, actor, id).status == Ok
  {
  }

  // ---------------------------------------------------------------- creation

  /** The body of a crearProyecto request; `None` is a key the client did not send. */
  datatype NewProject = NewProject(
    name: Option<string>,
    description: Option<string>,
    category: Option<Id>,
    status: Option<Id>,
    priority: Option<Priority>,
    startDate: Option<Time>,
    endDate: Option<Time>,
    estimatedHours: Option<nat>,
    budget: Option<nat>,
    tags: Option<seq<string>>)

  /** The required fields of crearProyecto: `name`, `description`, `category` and `status`
      are truthy. */
  predicate HasRequired(body: NewProject) {
    Truthy(body.name) && Truthy(body.description) && Truthy(body.category) && Truthy(body.status)
  }

  /** `new Project({...})` of crearProyecto, with its defaults and those of the schema; the
      document casts the category and state ids. */
  function BuildProject(actor: Id, body: NewProject, now: Time): (p: Project)
    requires HasRequired(body) && IsObjectId(body.category.value) && IsObjectId(body.status.value)
    ensures p.name == body.name.value && p.description == body.description.value
    ensures p.category == Canon(body.category.value) && p.status == Canon(body.status.value)
    ensures p.owner == actor && p.members == [] && p.isActive && p.createdAt == now
    ensures p.priority == (if body.priority.Some? then body.priority.value else Medium)
    ensures p.startDate == (if body.startDate.Some? && body.startDate.value != 0 then body.startDate.value else now)
    ensures p.endDate == body.endDate && p.estimatedHours == body.estimatedHours && p.budget == body.budget
    ensures p.actualHours == 0
    ensures p.tags == (if body.tags.Some? then body.tags.value else [])
  {
    Project(
      name := body.name.value,
      description := body.description.value,
      category := Canon(body.category.value),
      owner := actor,
      members := [],
      status := Canon(body.status.value),
      priority := body.priority.GetOr(Medium),
      startDate := if body.startDate.Some? && body.startDate.value != 0 then body.startDate.value else now,
      endDate := body.endDate,
      estimatedHours := body.estimatedHours,
      actualHours := 0,
      budget := body.budget,
      isActive := true,
      tags := body.tags.GetOr([]),
      createdAt := now)
  }

  /** A new project belongs to its creator, has no members, and only its creator sees it. */
  lemma NewProjectIsOwnersAlone(actor: Id, body: NewProject, now: Time, u: Id)
    requires HasRequired(body) && IsObjectId(body.category.value) && IsObjectId(body.status.value)
    ensures BuildProject(actor, body, now).members == []
    ensures ProjectVisible(BuildProject(actor, body, now), u) <==> u == actor
    ensures OwnsLiveProject(BuildProject(actor, body, now), u) <==> u == actor
  {
  }

  /** crearProyecto: after the required-field test, `save` casts `category` and `status` to
      ObjectIds; a failed cast is a 500. */
  method CrearProyecto(db: Db, actor: Id, body: NewProject, newId: Id, now: Time) returns (r: Response<Project>)
    requires newId !in db.projects
    modifies db`projects
    ensures r.status == BadRequest(MissingFields) <==> !HasRequired(body)
    ensures r.status == Created <==>
              HasRequired(body) && IsObjectId(body.category.value) && IsObjectId(body.status.value)
    ensures r.status in {Created, BadRequest(MissingFields), ServerError}
    ensures r.status == Created ==>
              r.body == Some(BuildProject(actor, body, now)) &&
              db.projects == old(db.projects)[newId := BuildProject(actor, body, now)]
    ensures r.status != Created ==> r.body == None && db.projects == old(db.projects)
  {
    if !HasRequired(body) {
      return Response(BadRequest(MissingFields), None);
    }
    if !IsObjectId(body.category.value) || !IsObjectId(body.status.value) {
      return Response(ServerError, None);
    }
    var nuevoProyecto := BuildProject(actor, body, now);
    db.projects := db.projects[newId := nuevoProyecto];
    return Response(Created, Some(nuevoProyecto));
  }

  // ---------------------------------------------------------------- updating

  /** The body of an actualizarProyecto request: the allow-listed keys and the keys a client
      might send to take over the project. `None` is a key the client did not send. */
  datatype ProjectChanges = ProjectChanges(
    name: Option<string>,
    description: Option<string>,
    category: Option<Id>,
    priority: Option<Priority>,
    startDate: Option<Time>,
    endDate: Option<Time>,
    estimatedHours: Option<nat>,
    actualHours: Option<nat>,
    budget: Option<nat>,
    tags: Option<seq<string>>,
    owner: Option<Id>,
    members: Option<seq<Member>>,
    status: Option<Id>,
    isActive: Option<bool>)

  /** The keys of an actualizarProyecto body, by name. */
  datatype ProjectKey =
    | NameKey | DescriptionKey | CategoryKey | PriorityKey | StartDateKey | EndDateKey
    | EstimatedHoursKey | ActualHoursKey | BudgetKey | TagsKey | OwnerKey | MembersKey | StatusKey
    | IsActiveKey

  /** `camposPermitidos` of actualizarProyecto. */
  const ProjectUpdatable: seq<ProjectKey> :=
    [NameKey, DescriptionKey, CategoryKey, PriorityKey, StartDateKey, EndDateKey, EstimatedHoursKey,
     ActualHoursKey, BudgetKey, TagsKey]

  /** `req.body[campo] !== undefined` */
  predicate Sent(body: ProjectChanges, campo: ProjectKey) {
    match campo
    case NameKey => body.name.Some?
    case DescriptionKey => body.description.Some?
    case CategoryKey => body.category.Some?
    case PriorityKey => body.priority.Some?
    case StartDateKey => body.startDate.Some?
    case EndDateKey => body.endDate.Some?
    case EstimatedHoursKey => body.estimatedHours.Some?
    case ActualHoursKey => body.actualHours.Some?
    case BudgetKey => body.budget.Some?
    case TagsKey => body.tags.Some?
    case OwnerKey => body.owner.Some?
    case MembersKey => body.members.Some?
    case StatusKey => body.status.Some?
    case IsActiveKey => body.isActive.Some?
  }

  /** The effect of the update key `campo`, with the request's value, on a project. */
  function Assign(p: Project, body: ProjectChanges, campo: ProjectKey): Project
    requires Sent(body, campo)
  {
    match campo
    case NameKey => p.(name := body.name.value)
    case DescriptionKey => p.(description := body.description.value)
    case CategoryKey => p.(category := body.category.value)
    case PriorityKey => p.(priority := body.priority.value)
    case StartDateKey => p.(startDate := body.startDate.value)
    case EndDateKey => p.(endDate := body.endDate)
    case EstimatedHoursKey => p.(estimatedHours := body.estimatedHours)
    case ActualHoursKey => p.(actualHours := body.actualHours.value)
    case BudgetKey => p.(budget := body.budget)
    case TagsKey => p.(tags := body.tags.value)
    case OwnerKey => p.(owner := body.owner.value)
    case MembersKey => p.(members := body.members.value)
    case StatusKey => p.(status := body.status.value)
    case IsActiveKey => p.(isActive := body.isActive.value)
  }

  /** Where a key stands in `camposPermitidos`; a key outside the list stands at its end. */
  function Position(k: ProjectKey): (n: nat)
    ensures n <= |ProjectUpdatable|
  {
    match k
    case NameKey => 0
    case DescriptionKey => 1
    case CategoryKey => 2
    case PriorityKey => 3
    case StartDateKey => 4
    case EndDateKey => 5
    case EstimatedHoursKey => 6
    case ActualHoursKey => 7
    case BudgetKey => 8
    case TagsKey => 9
    case _ => 10
  }

  /** The project after the first `turns` turns of the loop over `camposPermitidos`: each
      field whose key has been reached and was sent takes the sent value; every other
      field keeps its value. */
  ghost function MergedProject(p: Project, body: ProjectChanges, turns: nat): Project {
    p.(
      name := if Position(NameKey) < turns && body.name.Some? then body.name.value else p.name,
      description := if Position(DescriptionKey) < turns && body.description.Some? then body.description.value else p.description,
      category := if Position(CategoryKey) < turns && body.category.Some? then body.category.value else p.category,
      priority := if Position(PriorityKey) < turns && body.priority.Some? then body.priority.value else p.priority,
      startDate := if Position(StartDateKey) < turns && body.startDate.Some? then body.startDate.value else p.startDate,
      endDate := if Position(EndDateKey) < turns && body.endDate.Some? then body.endDate else p.endDate,
      estimatedHours := if Position(EstimatedHoursKey) < turns && body.estimatedHours.Some? then body.estimatedHours else p.estimatedHours,
      actualHours := if Position(ActualHoursKey) < turns && body.actualHours.Some? then body.actualHours.value else p.actualHours,
      budget := if Position(BudgetKey) < turns && body.budget.Some? then body.budget else p.budget,
      tags := if Position(TagsKey) < turns && body.tags.Some? then body.tags.value else p.tags,
      owner := if Position(OwnerKey) < turns && body.owner.Some? then body.owner.value else p.owner,
      members := if Position(MembersKey) < turns && body.members.Some? then body.members.value else p.members,
      status := if Position(StatusKey) < turns && body.status.Some? then body.status.value else p.status,
      isActive := if Position(IsActiveKey) < turns && body.isActive.Some? then body.isActive.value else p.isActive)
  }

  /** The key at each place of `camposPermitidos` stands at that place. */
  lemma PositionOfListed(i: nat)
    requires i < |ProjectUpdatable|
    ensures Position(ProjectUpdatable[i]) == i
  {
  }

  /** A turn of the loop at the key `campo` applies that key, when it was sent. */
  lemma MergeTurn(p: Project, body: ProjectChanges, campo: ProjectKey, i: nat)
    requires i < |ProjectUpdatable| && Position(campo) == i
    ensures MergedProject(p, body, i + 1)
         == var before := MergedProject(p, body, i);
            if Sent(body, campo) then Assign(before, body, campo) else before
  {
  }

  /** The `camposPermitidos.forEach` loop of actualizarProyecto, with the update applied. */
  method MergeProjectChanges(p: Project, body: ProjectChanges) returns (r: Project)
    ensures r == MergedProject(p, body, |ProjectUpdatable|)
  {
    r := p;
    var i := 0;
    while i < |ProjectUpdatable|
      invariant 0 <= i <= |ProjectUpdatable|
      invariant r == MergedProject(p, body, i)
    {
      var campo := ProjectUpdatable[i];
      PositionOfListed(i);
      MergeTurn(p, body, campo, i);
      if Sent(body, campo) {
        r := Assign(r, body, campo);
      }
      i := i + 1;
    }
  }

  /** actualizarProyecto changes exactly the allow-listed fields it was sent; the owner, the
      members, the state, the active flag and the creation time stay. */
  lemma ProjectMergeFields(p: Project, body: ProjectChanges)
    ensures var r := MergedProject(p, body, |ProjectUpdatable|);
      && r.name == (if body.name.Some? then body.name.value else p.name)
      && r.description == (if body.description.Some? then body.description.value else p.description)
      && r.category == (if body.category.Some? then body.category.value else p.category)
      && r.priority == (if body.priority.Some? then body.priority.value else p.priority)
      && r.startDate == (if body.startDate.Some? then body.startDate.value else p.startDate)
      && r.endDate == (if body.endDate.Some? then body.endDate else p.endDate)
      && r.estimatedHours == (if body.estimatedHours.Some? then body.estimatedHours else p.estimatedHours)
      && r.actualHours == (if body.actualHours.Some? then body.actualHours.value else p.actualHours)
      && r.budget == (if body.budget.Some? then body.budget else p.budget)
      && r.tags == (if body.tags.Some? then body.tags.value else p.tags)
      && r.owner == p.owner && r.members == p.members && r.status == p.status
      && r.isActive == p.isActive && r.createdAt == p.createdAt
  {
  }

  /** An update keeps who may see and who may edit the project. */
  lemma UpdateKeepsAccess(p: Project, body: ProjectChanges, u: Id)
    ensures ProjectVisible(MergedProject(p, body, |ProjectUpdatable|), u) == ProjectVisible(p, u)
    ensures OwnsLiveProject(MergedProject(p, body, |ProjectUpdatable|), u) == OwnsLiveProject(p, u)
  {
    ProjectMergeFields(p, body);
  }

  /** The update as Mongoose casts it: a sent `category` becomes the id it names. */
  function CastUpdate(body: ProjectChanges): (c: ProjectChanges)
    requires body.category.Some? ==> IsObjectId(body.category.value)
    ensures c.category.Some? <==> body.category.Some?
    ensures c.category.Some? ==> c.category.value == Canon(body.category.value)
    ensures c == body.(category := c.category)
  {
    if body.category.Some? then body.(category := Some(Canon(body.category.value))) else body
  }

  /** actualizarProyecto: the owner edits a live project; a `category` that does not cast to
      an ObjectId fails the update with a 500. */
  method ActualizarProyecto(db: Db, actor: Id, id: Id, body: ProjectChanges) returns (status: Status)
    modifies db`projects
    ensures !IsObjectId(id) ==> status == BadRequest(InvalidId)
    ensures IsObjectId(id) && !Owned(old(db.projects), Canon(id), actor) ==> status == NotFound
    ensures IsObjectId(id) && Owned(old(db.projects), Canon(id), actor) && body.category.Some? &&
            !IsObjectId(body.category.value) ==>
              status == ServerError
    ensures status == Ok <==>
              IsObjectId(id) && Owned(old(db.projects), Canon(id), actor) &&
              (body.category.Some? ==> IsObjectId(body.category.value))
    ensures status == Ok ==>
              db.projects == old(db.projects)[Canon(id) :=
                MergedProject(old(db.projects)[Canon(id)], CastUpdate(body), |ProjectUpdatable|)]
    ensures status != Ok ==> db.projects == old(db.projects)
  {
    if !IsObjectId(id) {
      return BadRequest(InvalidId);
    }
    var key := Canon(id);
    if !Owned(db.projects, key, actor) {
      return NotFound;
    }
    if body.category.Some? && !IsObjectId(body.category.value) {
      return ServerError;
    }
    var actualizaciones := MergeProjectChanges(db.projects[key], CastUpdate(body));
    db.projects := db.projects[key := actualizaciones];
    return Ok;
  }

  // ---------------------------------------------------------------- deleting

  /** eliminarProyecto: a soft delete by the owner. */
  method EliminarProyecto(db: Db, actor: Id, id: Id) returns (status: Status)
    modifies db`projects
    ensures status in {Ok, BadRequest(InvalidId), NotFound}
    ensures !IsObjectId(id) ==> status == BadRequest(InvalidId)
    ensures status == Ok <==> IsObjectId(id) && Owned(old(db.projects), Canon(id), actor)
    ensures status == Ok ==>
              db.projects == old(db.projects)[Canon(id) := old(db.projects)[Canon(id)].(isActive := false)]
    ensures status != Ok ==> db.projects == old(db.projects)
  {
    if !IsObjectId(id) {
      return BadRequest(InvalidId);
    }
    var key := Canon(id);
    if !Owned(db.projects, key, actor) {
      return NotFound;
    }
    db.projects := db.projects[key := db.projects[key].(isActive := false)];
    return Ok;
  }

  /** After the soft delete nobody lists, finds or edits the project, and a second delete
      is a 404. */
  lemma DeletedProjectIsGone(projects: map<Id, Project>, id: Id, u: Id)
    requires IsObjectId(id) && Canon(id) in projects
    ensures var k := Canon(id);
      var after := projects[k := projects[k].(isActive := false)];
      && k !in ListarProyectos(after, u)
      && ObtenerProyecto(after, u, id).status == NotFound
      && !Owned(after, k, u)
  {
  }

  // ---------------------------------------------------------------- members

  /** agregarMiembro AS WRITTEN: the owner adds a user that is not yet a member, with a role.
      Neither id is looked up: any valid id is accepted, the owner's own included. The
      membership test compares the request's string with the stored ids as written, while
      `save` stores the cast of that string; so a spelling of a member's id in capitals
      passes the test and lists the member twice. */
  method AgregarMiembro(db: Db, actor: Id, id: Id, userId: Option<Id>, roleId: Option<Id>, now: Time)
    returns (status: Status)
    modifies db`projects
    ensures !IsObjectId(id) || !ValidId(userId) || !ValidId(roleId) ==> status == BadRequest(InvalidId)
    ensures IsObjectId(id) && ValidId(userId) && ValidId(roleId) && !Owned(old(db.projects), Canon(id), actor) ==>
              status == NotFound
    ensures IsObjectId(id) && ValidId(userId) && ValidId(roleId) && Owned(old(db.projects), Canon(id), actor) &&
            HasMember(old(db.projects)[Canon(id)].members, userId.value) ==>
              status == BadRequest(AlreadyMember)
    ensures status == Ok <==>
              IsObjectId(id) && ValidId(userId) && ValidId(roleId) && Owned(old(db.projects), Canon(id), actor) &&
              !HasMember(old(db.projects)[Canon(id)].members, userId.value)
    ensures status == Ok ==>
              db.projects == old(db.projects)[Canon(id) := old(db.projects)[Canon(id)].(
                members := old(db.projects)[Canon(id)].members + [Member(Canon(userId.value), Canon(roleId.value), now)])]
    ensures status == Ok ==>
              IsMember(db.projects[Canon(id)], Canon(userId.value)) &&
              ProjectVisible(db.projects[Canon(id)], Canon(userId.value))
    ensures status != Ok ==> db.projects == old(db.projects)
    ensures MembersUnique(old(db.projects)) && (ValidId(userId) ==> IsCanonical(userId.value)) ==>
              MembersUnique(db.projects)
  {
    if !IsObjectId(id) || !ValidId(userId) || !ValidId(roleId) {
      return BadRequest(InvalidId);
    }
    var key := Canon(id);
    if !Owned(db.projects, key, actor) {
      return NotFound;
    }
    var proyecto := db.projects[key];
    if HasMember(proyecto.members, userId.value) {
      return BadRequest(AlreadyMember);
    }
    var nuevo := Member(Canon(userId.value), Canon(roleId.value), now);
    if MembersUnique(db.projects) && IsCanonical(userId.value) {
      CanonOfCanonical(userId.value);
      AppendKeepsUsersUnique(proyecto.members, nuevo);
    }
    assert (proyecto.members + [nuevo])[|proyecto.members|] == nuevo;
    db.projects := db.projects[key := proyecto.(members := proyecto.members + [nuevo])];
    return Ok;
  }

  /** The discrepancy of agregarMiembro: a project whose one member is `m`, and a request
      that sends `m` spelled in capitals, end with `m` listed twice. */
  method AgregarMiembroDuplica() returns (status: Status, members: seq<Member>)
    ensures status == Ok
    ensures |members| == 2 && members[0].user == members[1].user
  {
    var db := new Db();
    var owner, project, role, state := seq(24, _ => 'b'), seq(24, _ => 'c'), seq(24, _ => 'd'), seq(24, _ => 'e');
    var member, shouted := seq(24, _ => 'a'), seq(24, _ => 'A');
    assert Canon(shouted) == member;
    CanonOfCanonical(project);
    db.projects := map[project := Project("p", "d", state, owner, [Member(member, role, 0)], state, Medium,
                                          0, None, None, 0, None, true, [], 0)];
    assert !HasMember(db.projects[project].members, shouted) by {
      assert shouted[0] != member[0];
    }
    status := AgregarMiembro(db, owner, project, Some(shouted), Some(role), 1);
    members := db.projects[project].members;
  }

  /** agregarMiembro as evidently intended: the membership test compares the id the request
      names, so every member is listed once. */
  method AgregarMiembroCorregido(db: Db, actor: Id, id: Id, userId: Option<Id>, roleId: Option<Id>, now: Time)
    returns (status: Status)
    modifies db`projects
    ensures !IsObjectId(id) || !ValidId(userId) || !ValidId(roleId) ==> status == BadRequest(InvalidId)
    ensures IsObjectId(id) && ValidId(userId) && ValidId(roleId) && !Owned(old(db.projects), Canon(id), actor) ==>
              status == NotFound
    ensures IsObjectId(id) && ValidId(userId) && ValidId(roleId) && Owned(old(db.projects), Canon(id), actor) &&
            HasMember(old(db.projects)[Canon(id)].members, Canon(userId.value)) ==>
              status == BadRequest(AlreadyMember)
    ensures status == Ok <==>
              IsObjectId(id) && ValidId(userId) && ValidId(roleId) && Owned(old(db.projects), Canon(id), actor) &&
              !HasMember(old(db.projects)[Canon(id)].members, Canon(userId.value))
    ensures status == Ok ==>
              db.projects == old(db.projects)[Canon(id) := old(db.projects)[Canon(id)].(
                members := old(db.projects)[Canon(id)].members + [Member(Canon(userId.value), Canon(roleId.value), now)])]
    ensures status == Ok ==>
              IsMember(db.projects[Canon(id)], Canon(userId.value)) &&
              ProjectVisible(db.projects[Canon(id)], Canon(userId.value))
    ensures status != Ok ==> db.projects == old(db.projects)
    ensures MembersUnique(old(db.projects)) ==> MembersUnique(db.projects)
  {
    if !IsObjectId(id) || !ValidId(userId) || !ValidId(roleId) {
      return BadRequest(InvalidId);
    }
    var key := Canon(id);
    if !Owned(db.projects, key, actor) {
      return NotFound;
    }
    var proyecto := db.projects[key];
    var usuario := Canon(userId.value);
    if HasMember(proyecto.members, usuario) {
      return BadRequest(AlreadyMember);
    }
    var nuevo := Member(usuario, Canon(roleId.value), now);
    if MembersUnique(db.projects) {
      AppendKeepsUsersUnique(proyecto.members, nuevo);
    }
    assert (proyecto.members + [nuevo])[|proyecto.members|] == nuevo;
    db.projects := db.projects[key := proyecto.(members := proyecto.members + [nuevo])];
    return Ok;
  }

  /** removerMiembro: the owner removes the first member entry of the user. As in
      agregarMiembro the test compares the request's string with the stored ids as written,
      so only the stored spelling of an id finds its member. */
  method RemoverMiembro(db: Db, actor: Id, id: Id, userId: Id) returns (status: Status)
    modifies db`projects
    ensures !IsObjectId(id) || !IsObjectId(userId) ==> status == BadRequest(InvalidId)
    ensures IsObjectId(id) && IsObjectId(userId) && !Owned(old(db.projects), Canon(id), actor) ==> status == NotFound
    ensures IsObjectId(id) && IsObjectId(userId) && Owned(old(db.projects), Canon(id), actor) &&
            !HasMember(old(db.projects)[Canon(id)].members, userId) ==>
              status == BadRequest(NotAMember)
    ensures status == Ok <==>
              IsObjectId(id) && IsObjectId(userId) && Owned(old(db.projects), Canon(id), actor) &&
              HasMember(old(db.projects)[Canon(id)].members, userId)
    ensures status == Ok ==>
              var before := old(db.projects)[Canon(id)];
              db.projects == old(db.projects)[Canon(id) := before.(
                members := RemoveAt(before.members, FirstIndex(before.members, userId)))]
    ensures status == Ok && UniqueUsers(old(db.projects)[Canon(id)].members) ==>
              !IsMember(db.projects[Canon(id)], userId)
    ensures status != Ok ==> db.projects == old(db.projects)
    ensures MembersUnique(old(db.projects)) ==> MembersUnique(db.projects)
  {
    if !IsObjectId(id) || !IsObjectId(userId) {
      return BadRequest(InvalidId);
    }
    var key := Canon(id);
    if !Owned(db.projects, key, actor) {
      return NotFound;
    }
    var proyecto := db.projects[key];
    var miembroIndex := FindMemberIndex(proyecto.members, userId);
    if miembroIndex == -1 {
      return BadRequest(NotAMember);
    }
    if UniqueUsers(proyecto.members) {
      RemoveKeepsUsersUnique(proyecto.members, miembroIndex);
      RemoveFirstRemovesUser(proyecto.members, userId);
    }
    db.projects := db.projects[key := proyecto.(members := RemoveAt(proyecto.members, miembroIndex))];
    return Ok;
  }

  // ---------------------------------------------------------------- state change

  /** cambiarEstado on a project: the owner or a member sets `status` to any valid id; the
      id is not looked up among the states, and a task state is accepted too. */
  method CambiarEstado(db: Db, actor: Id, id: Id, statusId: Option<Id>) returns (status: Status)
    modifies db`projects
    ensures status in {Ok, BadRequest(InvalidId), NotFound}
    ensures !IsObjectId(id) || !ValidId(statusId) ==> status == BadRequest(InvalidId)
    ensures status == Ok <==> IsObjectId(id) && ValidId(statusId) && Visible(old(db.projects), Canon(id), actor)
    ensures status == Ok ==>
              db.projects == old(db.projects)[Canon(id) := old(db.projects)[Canon(id)].(status := Canon(statusId.value))]
    ensures status != Ok ==> db.projects == old(db.projects)
  {
    if !IsObjectId(id) || !ValidId(statusId) {
      return BadRequest(InvalidId);
    }
    var key := Canon(id);
    if !Visible(db.projects, key, actor) {
      return NotFound;
    }
    db.projects := db.projects[key := db.projects[key].(status := Canon(statusId.value))];
    return Ok;
  }
}
