/** The role handlers (controllers/roles.js): a catalogue of names with a soft
    delete. */
module Roles {
  import opened Records
  import opened Store

  /** Some role, active or not, already carries `name`: `Role.findOne({ name })`
      has no `isActive` filter. */
  predicate NameTaken(rs: map<Id, Role>, name: string) {
    exists id :: id in rs && rs[id].name == name
  }

  /** No two roles share a name. */
  ghost predicate NamesUnique(rs: map<Id, Role>) {
    forall a, b :: a in rs && b in rs && rs[a].name == rs[b].name ==> a == b
  }

  /** listarRoles: the active roles. */
  function ListarRoles(rs: map<Id, Role>): (r: set<Id>)
    ensures r <= rs.Keys
    ensures forall id :: id in r <==> id in rs && rs[id].isActive
  {
    set id | id in rs && rs[id].isActive
  }

  /** crearRol: a name some role already has is refused, even when that role
      was deleted; otherwise exactly one new active role is stored. */
  method CrearRol(db: Db, name: string, description: Option<string>, newId: Id)
    returns (r: Response<Role>)
    requires newId !in db.roles
    modifies db`roles
    ensures r.status in {Created, BadRequest(DuplicateName)}
    ensures r.status == BadRequest(DuplicateName) <==> NameTaken(old(db.roles), name)
    ensures r.status == Created ==>
              r.body == Some(Role(name, description, true)) &&
              db.roles == old(db.roles)[newId := Role(name, description, true)]
    ensures r.status != Created ==> db.roles == old(db.roles)
    ensures NamesUnique(old(db.roles)) ==> NamesUnique(db.roles)
  {
    if NameTaken(db.roles, name) {
      return Response(BadRequest(DuplicateName), None);
    }
    var nuevo := Role(name, description, true);
    db.roles := db.roles[newId := nuevo];
    return Response(Created, Some(nuevo));
  }

  /** The role after `findByIdAndUpdate(id, { name, description })`: a key the body did
      not carry is dropped from the update and keeps its value. */
  function Renamed(c: Role, name: Option<string>, description: Option<string>): (r: Role)
    ensures r.isActive == c.isActive
    ensures name.Some? ==> r.name == name.value
    ensures description.Some? ==> r.description == description
    ensures r.name == c.name <== name == None
    ensures r.description == c.description <== description == None
  {
    c.(name := name.GetOr(c.name),
       description := if description.Some? then description else c.description)
  }

  /** actualizarRol: any role, active or not, can be renamed, and nothing checks
      the new name against the others. */
  method ActualizarRol(db: Db, id: Id, name: Option<string>, description: Option<string>)
    returns (r: Response<Role>)
    modifies db`roles
    ensures r.status in {Ok, NotFound, ServerError}
    ensures r.status == ServerError <==> !IsObjectId(id)
    ensures r.status == NotFound <==> IsObjectId(id) && Canon(id) !in old(db.roles)
    ensures r.status == Ok ==>
              var nuevo := Renamed(old(db.roles)[Canon(id)], name, description);
              r.body == Some(nuevo) && db.roles == old(db.roles)[Canon(id) := nuevo]
    ensures r.status != Ok ==> db.roles == old(db.roles)
  {
    if !IsObjectId(id) {
      return Response(ServerError, None);
    }
    var key := Canon(id);
    if key !in db.roles {
      return Response(NotFound, None);
    }
    var nuevo := Renamed(db.roles[key], name, description);
    db.roles := db.roles[key := nuevo];
    return Response(Ok, Some(nuevo));
  }

  /** Renaming one role to the name of another breaks uniqueness. */
  lemma RenameCanDuplicate(rs: map<Id, Role>, a: Id, b: Id)
    requires a in rs && b in rs && a != b
    ensures !NamesUnique(rs[b := Renamed(rs[b], Some(rs[a].name), None)])
  {
    var after := rs[b := Renamed(rs[b], Some(rs[a].name), None)];
    assert after[a].name == after[b].name;
  }

  /** eliminarRol: the role is marked inactive. Deleting it again finds it again,
      so it answers 200 once more. */
  method EliminarRol(db: Db, id: Id) returns (status: Status)
    modifies db`roles
    ensures status in {Ok, NotFound, ServerError}
    ensures status == ServerError <==> !IsObjectId(id)
    ensures status == NotFound <==> IsObjectId(id) && Canon(id) !in old(db.roles)
    ensures status == Ok ==>
              db.roles == old(db.roles)[Canon(id) := old(db.roles)[Canon(id)].(isActive := false)]
    ensures status != Ok ==> db.roles == old(db.roles)
  {
    if !IsObjectId(id) {
      return ServerError;
    }
    var key := Canon(id);
    if key !in db.roles {
      return NotFound;
    }
    db.roles := db.roles[key := db.roles[key].(isActive := false)];
    return Ok;
  }

  /** A deleted role leaves the listing but keeps its name, so the name stays taken. It also
      stays in the collection, which is all `Usuarios.CambiarRol` asks of a role. */
  lemma DeletedRoleKeepsName(rs: map<Id, Role>, id: Id)
    requires id in rs
    ensures ListarRoles(rs[id := rs[id].(isActive := false)]) == ListarRoles(rs) - {id}
    ensures NameTaken(rs[id := rs[id].(isActive := false)], rs[id].name)
  {
    var after := rs[id := rs[id].(isActive := false)];
    assert after[id].name == rs[id].name;
  }
}
