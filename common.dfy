/**
 * Values shared by every controller of the backend: optional values and
 * results, the rejected-request replies, callers and roles, the user
 * document, and the lookup-by-id that every `findById` stands for.
 */
module Common {

  datatype Option<+T> = None | Some(value: T)

  datatype Result<+T, +E> = Ok(value: T) | Err(error: E)

  /** A rejected request: the HTTP status a controller answers with, and its message. */
  datatype Failure =
    | BadRequest(message: string)   // 400
    | NotAuthorized                 // 401
    | Forbidden(message: string)    // 403
    | NotFound(message: string)     // 404
    | ServerError                   // 500: an exception caught by the controller, e.g. a schema validation error

  /** A document id. Ids are opaque; their string form is the id itself. */
  type ObjectId = nat

  /** The `role` enum of the user schema. */
  datatype Role = Student | Admin | Counsellor

  /** `User.find({ role: 'counsellor' })`: the records of counsellors. */
  predicate IsCounsellorRecord(u: User) {
    u.role == Counsellor
  }

  /** The authenticated caller (`req.user`): its id and role. */
  datatype Caller = Caller(id: ObjectId, role: Role)

  /**
   * A user document. Optional string fields hold "" when absent; optional
   * array fields are None when absent (an empty array is present, and truthy).
   */
  datatype User = User(
    id: ObjectId,
    email: string,
    role: Role,
    name: string,
    phone: string,
    languages: Option<seq<string>>,
    specialization: Option<seq<string>>,
    location: string,
    campus: string,
    availableDays: Option<seq<string>>,
    availableHours: string)

  const MainCampus: string := "Main Campus"

  /** `campus || 'Main Campus'`: the campus a counsellor is reported under. */
  function CampusOf(u: User): (c: string)
    ensures c != ""
    ensures u.campus != "" ==> c == u.campus
    ensures u.campus == "" ==> c == MainCampus
  {
    if u.campus == "" then MainCampus else u.campus
  }

  /**
   * The first index whose element satisfies `p` (Array.prototype.findIndex,
   * and the lookup a `findById` performs over a collection).
   */
  function FindIndex<T>(s: seq<T>, p: T -> bool): (r: Option<nat>)
    ensures r.Some? ==> r.value < |s| && p(s[r.value])
    ensures r.Some? ==> forall j :: 0 <= j < r.value ==> !p(s[j])
    ensures r.None? <==> forall j :: 0 <= j < |s| ==> !p(s[j])
  {
    if s == [] then None
    else if p(s[0]) then Some(0)
    else match FindIndex(s[1..], p)
      case None => None
      case Some(i) => Some(i + 1)
  }
}
