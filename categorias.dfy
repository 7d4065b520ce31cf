/** The category handlers (controllers/categorias.js): a catalogue of names with a soft
    delete. */
module Categorias {
  import opened Records
  import opened Store

  /** Some category, active or not, already carries `name`: `Categoria.findOne({ name })`
      has no `isActive` filter. */
  predicate NameTaken(cats: map<Id, Categoria>, name: string) {
    exists id :: id in cats && cats[id].name == name
  }

  /** No two categories share a name. */
  ghost predicate NamesUnique(cats: map<Id, Categoria>) {
    forall a, b :: a in cats && b in cats && cats[a].name == cats[b].name ==> a == b
  }

  /** listarCategoria: the active categories. */
  function ListarCategoria(cats: map<Id, Categoria>): (r: set<Id>)
    ensures r <= cats.Keys
    ensures forall id :: id in r <==> id in cats && cats[id].isActive
  {
    set id | id in cats && cats[id].isActive
  }

  /** crearCategoria: a name some category already has is refused, even when that category
      was deleted; otherwise exactly one new active category is stored. */
  method CrearCategoria(db: Db, name: string, description: Option<string>, newId: Id)
    returns (r: Response<Categoria>)
    requires newId !in db.categorias
    modifies db`categorias
    ensures r.status in {Created, BadRequest(DuplicateName)}
    ensures r.status == BadRequest(DuplicateName) <==> NameTaken(old(db.categorias), name)
    ensures r.status == Created ==>
              r.body == Some(Categoria(name, description, true)) &&
              db.categorias == old(db.categorias)[newId := Categoria(name, description, true)]
    ensures r.status != Created ==> db.categorias == old(db.categorias)
    ensures NamesUnique(old(db.categorias)) ==> NamesUnique(db.categorias)
  {
    if NameTaken(db.categorias, name) {
      return Response(BadRequest(DuplicateName), None);
    }
    var nueva := Categoria(name, description, true);
    db.categorias := db.categorias[newId := nueva];
    return Response(Created, Some(nueva));
  }

  /** The category after `findByIdAndUpdate(id, { name, description })`: a key the body did
      not carry is dropped from the update and keeps its value. */
  function Renamed(c: Categoria, name: Option<string>, description: Option<string>): (r: Categoria)
    ensures r.isActive == c.isActive
    ensures name.Some? ==> r.name == name.value
    ensures description.Some? ==> r.description == description
    ensures r.name == c.name <== name == None
    ensures r.description == c.description <== description == None
  {
    c.(name := name.GetOr(c.name),
       description := if description.Some? then description else c.description)
  }

  /** actualizarCategoria: any category, active or not, can be renamed, and nothing checks
      the new name against the others. */
  method ActualizarCategoria(db: Db, id: Id, name: Option<string>, description: Option<string>)
    returns (r: Response<Categoria>)
    modifies db`categorias
    ensures r.status in {Ok, NotFound, ServerError}
    ensures r.status == ServerError <==> !IsObjectId(id)
    ensures r.status == NotFound <==> IsObjectId(id) && Canon(id) !in old(db.categorias)
    ensures r.status == Ok ==>
              var nueva := Renamed(old(db.categorias)[Canon(id)], name, description);
              r.body == Some(nueva) && db.categorias == old(db.categorias)[Canon(id) := nueva]
    ensures r.status != Ok ==> db.categorias == old(db.categorias)
  {
    if !IsObjectId(id) {
      return Response(ServerError, None);
    }
    var key := Canon(id);
    if key !in db.categorias {
      return Response(NotFound, None);
    }
    var nueva := Renamed(db.categorias[key], name, description);
    db.categorias := db.categorias[key := nueva];
    return Response(Ok, Some(nueva));
  }

  /** Renaming one category to the name of another breaks uniqueness. */
  lemma RenameCanDuplicate(cats: map<Id, Categoria>, a: Id, b: Id)
    requires a in cats && b in cats && a != b
    ensures !NamesUnique(cats[b := Renamed(cats[b], Some(cats[a].name), None)])
  {
    var after := cats[b := Renamed(cats[b], Some(cats[a].name), None)];
    assert after[a].name == after[b].name;
  }

  /** eliminarCategoria: the category is marked inactive. Deleting it again finds it again,
      so it answers 200 once more. */
  method EliminarCategoria(db: Db, id: Id) returns (status: Status)
    modifies db`categorias
    ensures status in {Ok, NotFound, ServerError}
    ensures status == ServerError <==> !IsObjectId(id)
    ensures status == NotFound <==> IsObjectId(id) && Canon(id) !in old(db.categorias)
    ensures status == Ok ==>
              db.categorias == old(db.categorias)[Canon(id) := old(db.categorias)[Canon(id)].(isActive := false)]
    ensures status != Ok ==> db.categorias == old(db.categorias)
  {
    if !IsObjectId(id) {
      return ServerError;
    }
    var key := Canon(id);
    if key !in db.categorias {
      return NotFound;
    }
    db.categorias := db.categorias[key := db.categorias[key].(isActive := false)];
    return Ok;
  }

  /** A deleted category leaves the listing but keeps its name, so the name stays taken. */
  lemma DeletedCategoriaKeepsName(cats: map<Id, Categoria>, id: Id)
    requires id in cats
    ensures ListarCategoria(cats[id := cats[id].(isActive := false)]) == ListarCategoria(cats) - {id}
    ensures NameTaken(cats[id := cats[id].(isActive := false)], cats[id].name)
  {
    var after := cats[id := cats[id].(isActive := false)];
    assert after[id].name == cats[id].name;
  }
}
