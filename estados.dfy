/** The state handlers (controllers/estados.js) and the defaults of the State schema
    (models/states.js). */
module Estados {
  import opened Records
  import opened Ordering
  import opened Store
  import opened Workflow

  /** The schema default of `color`. */
  const DefaultColor: string := "#6b7280"

  /** The unique index on `name`: some state, active or not, already carries it. */
  predicate NameTaken(states: map<Id, State>, name: string) {
    exists id :: id in states && states[id].name == name
  }

  /** No two states share a name, as the unique index guarantees. */
  ghost predicate NamesUnique(states: map<Id, State>) {
    forall a, b :: a in states && b in states && states[a].name == states[b].name ==> a == b
  }

  // ---------------------------------------------------------------- listing

  /** The key of `.sort({ order: 1, name: 1 })`. */
  function OrderNameKey(s: State): seq<int> {
    [s.order] + Codes(s.name)
  }

  lemma OrderNameMeaning(a: State, b: State)
    ensures KeyLe(OrderNameKey(a), OrderNameKey(b)) <==>
            a.order < b.order || (a.order == b.order && StrLe(a.name, b.name))
  {
    KeyLeCompound([a.order], Codes(a.name), [b.order], Codes(b.name));
    CodesOrderStrings(a.name, b.name);
    assert KeyLe([a.order], [b.order]) <==> a.order <= b.order by {
      assert [a.order][1..] == [];
    }
  }

  /** The ids the query of listarEstados selects. */
  function ActiveIds(states: map<Id, State>): (ids: set<Id>)
    ensures ids <= states.Keys
    ensures forall id :: id in ids <==> id in states && states[id].isActive
  {
    set id | id in states && states[id].isActive
  }

  lemma OrderNameSorted(states: map<Id, State>, s: seq<Id>)
    requires forall i :: 0 <= i < |s| ==> s[i] in states
    requires SortedBy(states, s, OrderNameKey)
    ensures forall i, j :: 0 <= i < j < |s| ==>
              states[s[i]].order <= states[s[j]].order
    ensures forall i, j :: 0 <= i < j < |s| && states[s[i]].order == states[s[j]].order ==>
              StrLe(states[s[i]].name, states[s[j]].name)
  {
    forall i, j | 0 <= i < j < |s|
      ensures states[s[i]].order <= states[s[j]].order
      ensures states[s[i]].order == states[s[j]].order ==> StrLe(states[s[i]].name, states[s[j]].name)
    {
      OrderNameMeaning(states[s[i]], states[s[j]]);
    }
  }

  /** listarEstados: the active states, by `order` and then by name. */
  ghost function ListarEstados(states: map<Id, State>): (r: seq<Id>)
    ensures forall id :: id in r <==> id in states && states[id].isActive
    ensures forall i, j :: 0 <= i < j < |r| ==> r[i] != r[j]
    ensures forall i, j :: 0 <= i < j < |r| ==>
              r[i] in states && r[j] in states && states[r[i]].order <= states[r[j]].order
    ensures forall i, j :: 0 <= i < j < |r| && states[r[i]].order == states[r[j]].order ==>
              StrLe(states[r[i]].name, states[r[j]].name)
  {
    var s := SortedIds(states, ActiveIds(states), OrderNameKey);
    OrderNameSorted(states, s);
    s
  }

  // ---------------------------------------------------------------- creation

  /** The body of a crearEstado request; `None` is a key the client did not send. */
  datatype NewState = NewState(
    name: Option<string>,
    description: Option<string>,
    color: Option<string>,
    order: Option<int>,
    isFinal: Option<bool>)

  /** The document `new State({ ... })` builds. `order || 0` and `isFinal || false` are
      `GetOr`, since the only falsy values left are the defaults themselves; an absent color
      takes the schema default. The schema has no `type` field, so nothing can make the
      state a task state. */
  function BuildState(body: NewState): (s: State)
    requires body.name.Some?
    ensures s.name == body.name.value && s.description == body.description
    ensures s.color == (if body.color.Some? then body.color.value else DefaultColor)
    ensures s.order == (if body.order.Some? then body.order.value else 0)
    ensures s.isFinal <==> body.isFinal == Some(true)
    ensures s.isActive && s.kind == Untyped
  {
    State(body.name.value, body.description, body.color.GetOr(DefaultColor),
          body.order.GetOr(0), body.isFinal.GetOr(false), Untyped, true)
  }

  /** A state made by crearEstado can never be a task's status. */
  lemma CreatedStateIsNotForTasks(body: NewState)
    requires body.name.Some?
    ensures !UsableForTasks(BuildState(body))
  {
  }

  /** crearEstado: a missing or empty name is a 400 before anything is stored; a name some
      state already has breaks the unique index, which the handler reports as a 400 too. */
  method CrearEstado(db: Db, body: NewState, newId: Id) returns (r: Response<State>)
    requires newId !in db.states
    modifies db`states
    ensures r.status in {Created, BadRequest(MissingFields), BadRequest(DuplicateName)}
    ensures r.status == BadRequest(MissingFields) <==> !Truthy(body.name)
    ensures r.status == BadRequest(DuplicateName) <==>
              Truthy(body.name) && NameTaken(old(db.states), body.name.value)
    ensures r.status == Created ==>
              r.body == Some(BuildState(body)) && db.states == old(db.states)[newId := BuildState(body)]
    ensures r.status != Created ==> db.states == old(db.states)
    ensures NamesUnique(old(db.states)) ==> NamesUnique(db.states)
  {
    if !Truthy(body.name) {
      return Response(BadRequest(MissingFields), None);
    }
    if NameTaken(db.states, body.name.value) {
      return Response(BadRequest(DuplicateName), None);
    }
    var nuevo := BuildState(body);
    db.states := db.states[newId := nuevo];
    return Response(Created, Some(nuevo));
  }
}
