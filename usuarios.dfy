/** The user handlers (controllers/usuarios.js). An administrator lists, soft-deletes and
    re-roles users; every user edits their own profile. */
module Usuarios {
  import opened Records
  import opened Store

  /** listarUsuarios: `Usuario.find({ isActive: true })`, in no particular order. */
  function ListarUsuarios(users: map<Id, User>): (r: set<Id>)
    ensures r <= users.Keys
    ensures forall id :: id in r <==> id in users && users[id].isActive
  {
    set id | id in users && users[id].isActive
  }

  /** A soft-deleted user leaves the listing, and nobody else does. */
  lemma DeletedUserIsNotListed(users: map<Id, User>, id: Id)
    requires id in users
    ensures ListarUsuarios(users[id := users[id].(isActive := false)]) == ListarUsuarios(users) - {id}
  {
  }

  // ---------------------------------------------------------------- profile

  /** The body of an actualizarPerfil request; `None` is a key the client did not send. */
  datatype ProfileChanges = ProfileChanges(
    firstName: Option<string>,
    lastName: Option<string>,
    phone: Option<string>,
    avatar: Option<string>)

  /** The user after `datosActualizar` is applied: each of the four fields takes its sent
      value when that value is truthy. */
  function ProfileAfter(u: User, body: ProfileChanges): User {
    u.(
      firstName := if Truthy(body.firstName) then body.firstName.value else u.firstName,
      lastName := if Truthy(body.lastName) then body.lastName.value else u.lastName,
      phone := if Truthy(body.phone) then body.phone.value else u.phone,
      avatar := if Truthy(body.avatar) then body.avatar.value else u.avatar)
  }

  /** The conditional assignments that build `datosActualizar`, then the update. */
  method MergeProfile(u: User, body: ProfileChanges) returns (r: User)
    ensures r == ProfileAfter(u, body)
  {
    r := u;
    if Truthy(body.firstName) {
      r := r.(firstName := body.firstName.value);
    }
    if Truthy(body.lastName) {
      r := r.(lastName := body.lastName.value);
    }
    if Truthy(body.phone) {
      r := r.(phone := body.phone.value);
    }
    if Truthy(body.avatar) {
      r := r.(avatar := body.avatar.value);
    }
  }

  /** A profile update never touches the e-mail, the global role or the active flag, and an
      empty string cannot clear a field. */
  lemma ProfileKeepsTheRest(u: User, body: ProfileChanges)
    ensures ProfileAfter(u, body).email == u.email
    ensures ProfileAfter(u, body).globalRole == u.globalRole
    ensures ProfileAfter(u, body).isActive == u.isActive
    ensures body.firstName == Some("") ==> ProfileAfter(u, body).firstName == u.firstName
    ensures body.lastName == Some("") ==> ProfileAfter(u, body).lastName == u.lastName
    ensures body.phone == Some("") ==> ProfileAfter(u, body).phone == u.phone
    ensures body.avatar == Some("") ==> ProfileAfter(u, body).avatar == u.avatar
  {
  }

  /** Sending the same profile twice is sending it once. */
  lemma ProfileIdempotent(u: User, body: ProfileChanges)
    ensures ProfileAfter(ProfileAfter(u, body), body) == ProfileAfter(u, body)
  {
  }

  /** actualizarPerfil: the actor's own document is updated, when it exists; the answer is
      200 in either case. */
  method ActualizarPerfil(db: Db, actor: Id, body: ProfileChanges) returns (status: Status)
    modifies db`users
    ensures status == Ok
    ensures actor in old(db.users) ==> db.users == old(db.users)[actor := ProfileAfter(old(db.users)[actor], body)]
    ensures actor !in old(db.users) ==> db.users == old(db.users)
  {
    if actor in db.users {
      var actualizado := MergeProfile(db.users[actor], body);
      db.users := db.users[actor := actualizado];
    }
    return Ok;
  }

  // ---------------------------------------------------------------- administration

  /** eliminarUsuario AS WRITTEN: anyone but the actor is soft-deleted. The self test
      compares the request's string with the actor's stored id as written, while the update
      casts the string; so the actor's id spelled in capitals passes the test and deletes
      the actor. A target that is not a valid id makes the update throw a cast error (500);
      an unknown valid id is a silent 200. */
  method EliminarUsuario(db: Db, actor: Id, id: Id) returns (status: Status)
    modifies db`users
    ensures status in {Ok, BadRequest(SelfDelete), ServerError}
    ensures status == BadRequest(SelfDelete) <==> id == actor
    ensures status == ServerError <==> id != actor && !IsObjectId(id)
    ensures status == Ok && Canon(id) in old(db.users) ==>
              db.users == old(db.users)[Canon(id) := old(db.users)[Canon(id)].(isActive := false)]
    ensures !(status == Ok && Canon(id) in old(db.users)) ==> db.users == old(db.users)
  {
    if id == actor {
      return BadRequest(SelfDelete);
    }
    if !IsObjectId(id) {
      return ServerError;
    }
    var key := Canon(id);
    if key in db.users {
      db.users := db.users[key := db.users[key].(isActive := false)];
    }
    return Ok;
  }

  /** The discrepancy of eliminarUsuario: an administrator who sends their own id in
      capitals is answered 200 and loses their account. */
  method EliminarUsuarioPropio() returns (status: Status, actorActive: bool)
    ensures status == Ok && !actorActive
  {
    var db := new Db();
    var actor, shouted := seq(24, _ => 'a'), seq(24, _ => 'A');
    assert Canon(shouted) == actor;
    assert shouted != actor by {
      assert shouted[0] != actor[0];
    }
    db.users := map[actor := User("Ana", "Admin", "ana@example.com", "", "", seq(24, _ => 'b'), true)];
    status := EliminarUsuario(db, actor, shouted);
    actorActive := db.users[actor].isActive;
  }

  /** eliminarUsuario as evidently intended: the self test compares the id the request
      names, so the actor's own account is never deleted. */
  method EliminarUsuarioCorregido(db: Db, actor: Id, id: Id) returns (status: Status)
    modifies db`users
    ensures status in {Ok, BadRequest(SelfDelete), ServerError}
    ensures status == BadRequest(SelfDelete) <==> IsObjectId(id) && Canon(id) == actor
    ensures status == ServerError <==> !IsObjectId(id)
    ensures status == Ok && Canon(id) in old(db.users) ==>
              db.users == old(db.users)[Canon(id) := old(db.users)[Canon(id)].(isActive := false)]
    ensures !(status == Ok && Canon(id) in old(db.users)) ==> db.users == old(db.users)
    ensures actor in old(db.users) ==> actor in db.users && db.users[actor] == old(db.users)[actor]
  {
    if !IsObjectId(id) {
      return ServerError;
    }
    var key := Canon(id);
    if key == actor {
      return BadRequest(SelfDelete);
    }
    if key in db.users {
      db.users := db.users[key := db.users[key].(isActive := false)];
    }
    return Ok;
  }

  /** cambiarRol AS WRITTEN: the role is looked up first (any role document, active or not),
      and only then is the actor's own id refused, by the same test as in eliminarUsuario;
      the actor's id in capitals passes it and re-roles the actor. */
  method CambiarRol(db: Db, actor: Id, id: Id, roleId: Option<Id>) returns (status: Status)
    modifies db`users
    ensures roleId.None? ==> status == BadRequest(UnknownRole)
    ensures roleId.Some? && !IsObjectId(roleId.value) ==> status == ServerError
    ensures ValidId(roleId) && Canon(roleId.value) !in db.roles ==> status == BadRequest(UnknownRole)
    ensures ValidId(roleId) && Canon(roleId.value) in db.roles && id == actor ==> status == BadRequest(SelfRoleChange)
    ensures ValidId(roleId) && Canon(roleId.value) in db.roles && id != actor && !IsObjectId(id) ==>
              status == ServerError
    ensures status == Ok <==> ValidId(roleId) && Canon(roleId.value) in db.roles && id != actor && IsObjectId(id)
    ensures status == Ok && Canon(id) in old(db.users) ==>
              db.users == old(db.users)[Canon(id) := old(db.users)[Canon(id)].(globalRole := Canon(roleId.value))]
    ensures !(status == Ok && Canon(id) in old(db.users)) ==> db.users == old(db.users)
  {
    if roleId.None? {
      return BadRequest(UnknownRole);
    }
    if !IsObjectId(roleId.value) {
      return ServerError;
    }
    var rol := Canon(roleId.value);
    if rol !in db.roles {
      return BadRequest(UnknownRole);
    }
    if id == actor {
      return BadRequest(SelfRoleChange);
    }
    if !IsObjectId(id) {
      return ServerError;
    }
    var key := Canon(id);
    if key in db.users {
      db.users := db.users[key := db.users[key].(globalRole := rol)];
    }
    return Ok;
  }

  /** The discrepancy of cambiarRol: an administrator who sends their own id in capitals is
      answered 200 and takes the new role. */
  method CambiarRolPropio() returns (status: Status, actorRole: Id, newRole: Id)
    ensures status == Ok && actorRole == newRole
  {
    var db := new Db();
    var actor, shouted, admin := seq(24, _ => 'a'), seq(24, _ => 'A'), seq(24, _ => 'b');
    newRole := seq(24, _ => 'c');
    assert Canon(shouted) == actor;
    assert shouted != actor by {
      assert shouted[0] != actor[0];
    }
    CanonOfCanonical(newRole);
    db.roles := map[newRole := Role("guest", None, true)];
    db.users := map[actor := User("Ana", "Admin", "ana@example.com", "", "", admin, true)];
    status := CambiarRol(db, actor, shouted, Some(newRole));
    actorRole := db.users[actor].globalRole;
  }

  /** cambiarRol as evidently intended: the self test compares the id the request names, so
      the actor's own role never changes. */
  method CambiarRolCorregido(db: Db, actor: Id, id: Id, roleId: Option<Id>) returns (status: Status)
    modifies db`users
    ensures roleId.None? ==> status == BadRequest(UnknownRole)
    ensures roleId.Some? && !IsObjectId(roleId.value) ==> status == ServerError
    ensures ValidId(roleId) && Canon(roleId.value) !in db.roles ==> status == BadRequest(UnknownRole)
    ensures ValidId(roleId) && Canon(roleId.value) in db.roles && !IsObjectId(id) ==> status == ServerError
    ensures ValidId(roleId) && Canon(roleId.value) in db.roles && IsObjectId(id) && Canon(id) == actor ==>
              status == BadRequest(SelfRoleChange)
    ensures status == Ok <==>
              ValidId(roleId) && Canon(roleId.value) in db.roles && IsObjectId(id) && Canon(id) != actor
    ensures status == Ok && Canon(id) in old(db.users) ==>
              db.users == old(db.users)[Canon(id) := old(db.users)[Canon(id)].(globalRole := Canon(roleId.value))]
    ensures !(status == Ok && Canon(id) in old(db.users)) ==> db.users == old(db.users)
    ensures actor in old(db.users) ==> actor in db.users && db.users[actor] == old(db.users)[actor]
  {
    if roleId.None? {
      return BadRequest(UnknownRole);
    }
    if !IsObjectId(roleId.value) {
      return ServerError;
    }
    var rol := Canon(roleId.value);
    if rol !in db.roles {
      return BadRequest(UnknownRole);
    }
    if !IsObjectId(id) {
      return ServerError;
    }
    var key := Canon(id);
    if key == actor {
      return BadRequest(SelfRoleChange);
    }
    if key in db.users {
      db.users := db.users[key := db.users[key].(globalRole := rol)];
    }
    return Ok;
  }
}
