/** The documents of the project-management backend and the values its handlers
    exchange with their callers. Every collection is keyed by an opaque `Id`. */
module Records {

  /** The string form of a MongoDB ObjectId. */
  type Id = string

  /** A timestamp in milliseconds. The clock is never read: handlers receive `now`. */
  type Time = nat

  datatype Option<T> = None | Some(value: T) {
    function GetOr(default: T): T {
      if Some? then value else default
    }
  }

  /** Why a handler answered 400; each is a distinct message of the controllers. */
  datatype Reason =
    | InvalidId          // 'ID ... inválido' / 'IDs inválidos'
    | MissingFields      // required body fields absent or empty
    | InvalidTaskState   // 'Estado inválido para tareas'
    | NotEligible        // 'El usuario debe ser miembro del proyecto'
    | AlreadyMember      // 'El usuario ya es miembro del proyecto'
    | NotAMember         // 'El usuario no es miembro del proyecto'
    | SelfDelete         // 'No puedes eliminarte a ti mismo'
    | SelfRoleChange     // 'No puedes cambiar tu propio rol'
    | UnknownRole        // 'El rol especificado no existe'
    | DuplicateName      // 'ya existe' / duplicate-key error 11000

  /** The HTTP status of a response. `ServerError` is the 500 of a handler's catch block. */
  datatype Status = Ok | Created | BadRequest(reason: Reason) | NotFound | Forbidden | ServerError

  datatype Response<T> = Response(status: Status, body: Option<T>)

  /** The priority enum of the project schema. */
  datatype Priority = Low | Medium | High | Critical

  /** The `type` discriminator of a workflow state. The stored schema has no such field;
      `Untyped` is the value of every state that was created without one. */
  datatype StateKind = TaskKind | ProjectKind | Untyped

  /** One entry of a project's embedded `members` list. */
  datatype Member = Member(user: Id, role: Id, joinedAt: Time)

  datatype Project = Project(
    name: string,
    description: string,
    category: Id,
    owner: Id,
    members: seq<Member>,
    status: Id,
    priority: Priority,
    startDate: Time,
    endDate: Option<Time>,
    estimatedHours: Option<nat>,
    actualHours: nat,
    budget: Option<nat>,
    isActive: bool,
    tags: seq<string>,
    createdAt: Time)

  datatype Task = Task(
    title: string,
    description: string,
    project: Id,
    assignedTo: Option<Id>,
    createdBy: Id,
    status: Id,
    priority: Priority,
    estimatedHours: nat,
    actualHours: Option<nat>,
    startDate: Time,
    dueDate: Option<Time>,
    completedAt: Option<Time>,
    tags: seq<string>,
    isActive: bool,
    createdAt: Time)

  datatype User = User(
    firstName: string,
    lastName: string,
    email: string,
    phone: string,
    avatar: string,
    globalRole: Id,
    isActive: bool)

  datatype Role = Role(name: string, description: Option<string>, isActive: bool)

  datatype Categoria = Categoria(name: string, description: Option<string>, isActive: bool)

  datatype State = State(
    name: string,
    description: Option<string>,
    color: string,
    order: int,
    isFinal: bool,
    kind: StateKind,
    isActive: bool)

  predicate IsHexDigit(c: char) {
    '0' <= c <= '9' || 'a' <= c <= 'f' || 'A' <= c <= 'F'
  }

  /** The digit an ObjectId's `toString()` prints: hexadecimal in lower case. */
  predicate IsLowerHexDigit(c: char) {
    '0' <= c <= '9' || 'a' <= c <= 'f'
  }

  /** `mongoose.Types.ObjectId.isValid` on a string of 24 hexadecimal digits, in either
      case. Its 12-character form is not part of this model. */
  predicate IsObjectId(s: string) {
    |s| == 24 && forall i :: 0 <= i < |s| ==> IsHexDigit(s[i])
  }

  /** The form in which a stored document's id reads back: 24 lower-case digits. */
  predicate IsCanonical(s: string) {
    |s| == 24 && forall i :: 0 <= i < |s| ==> IsLowerHexDigit(s[i])
  }

  function LowerHex(c: char): (d: char)
    requires IsHexDigit(c)
    ensures IsLowerHexDigit(d)
    ensures IsLowerHexDigit(c) ==> d == c
  {
    if 'A' <= c <= 'F' then (c as int + 32) as char else c
  }

  /** The id Mongoose casts a request string to, and stores: the same 24 digits in lower
      case. Two request strings name the same document exactly when their casts agree. */
  function Canon(s: string): (r: Id)
    requires IsObjectId(s)
    ensures IsCanonical(r)
    ensures forall i :: 0 <= i < |s| ==> r[i] == LowerHex(s[i])
  {
    seq(|s|, i requires 0 <= i < |s| => LowerHex(s[i]))
  }

  /** Casting an id that is already in stored form gives it back unchanged. */
  lemma CanonOfCanonical(s: string)
    requires IsCanonical(s)
    ensures IsObjectId(s) && Canon(s) == s
  {
  }

  /** JavaScript truthiness of an optional string field of a request: absent and "" are falsy. */
  predicate Truthy(s: Option<string>) {
    s.Some? && s.value != ""
  }

  /** `isValid` of an id taken from a request body, where the key may be absent
      (`isValid(undefined)` is false). */
  predicate ValidId(o: Option<Id>) {
    o.Some? && IsObjectId(o.value)
  }
}
