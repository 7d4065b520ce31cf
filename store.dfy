/** The database: one collection per Mongoose model, keyed by document id. Each handler is
    one atomic step on it. */
module Store {
  import opened Records

  class Db {
    var users: map<Id, User>
    var roles: map<Id, Role>
    var states: map<Id, State>
    var categorias: map<Id, Categoria>
    var projects: map<Id, Project>
    var tasks: map<Id, Task>

    constructor ()
      ensures users == map[] && roles == map[] && states == map[]
      ensures categorias == map[] && projects == map[] && tasks == map[]
    {
      users, roles, states := map[], map[], map[];
      categorias, projects, tasks := map[], map[], map[];
    }
  }
}
