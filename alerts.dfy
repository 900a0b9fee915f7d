/**
 * The crisis-alert inbox (controllers/alertController.js): raising an
 * alert, the order counsellors see alerts in, and marking one handled.
 */
module Alerts {
  import opened Common
  import opened Seqs

  /** The `level` enum of the alert schema. */
  datatype Level = Info | Warning | Critical

  function LevelName(l: Level): string {
    match l
    case Info => "info"
    case Warning => "warning"
    case Critical => "critical"
  }

  /** The level a request names, if it is one of the three. */
  function ParseLevel(s: string): (r: Option<Level>)
    ensures r.Some? ==> LevelName(r.value) == s
    ensures r.None? <==> forall l: Level :: LevelName(l) != s
  {
    if s == "info" then Some(Info)
    else if s == "warning" then Some(Warning)
    else if s == "critical" then Some(Critical)
    else None
  }

  /** An alert; `createdAt` is its creation timestamp in milliseconds. */
  datatype Alert = Alert(id: ObjectId, student: ObjectId, message: string, level: Level, handled: bool, createdAt: int)

  const MessageRequired: string := "Message is required"
  const AlertNotFound: string := "Alert not found"

  /** The characters `String.prototype.trim` removes: ECMAScript white space and line terminators. */
  predicate IsJsSpace(c: char) {
    || c == '\t' || c == '\n' || c == '\U{000B}' || c == '\U{000C}' || c == '\r' || c == ' '
    || c == '\U{00A0}' || c == '\U{1680}' || ('\U{2000}' <= c <= '\U{200A}')
    || c == '\U{2028}' || c == '\U{2029}' || c == '\U{202F}' || c == '\U{205F}' || c == '\U{3000}' || c == '\U{FEFF}'
  }

  /** `!message || message.trim().length === 0`: absent, empty, or only white space. */
  predicate IsBlank(message: string) {
    forall i :: 0 <= i < |message| ==> IsJsSpace(message[i])
  }

  /**
   * The alert `createAlert` stores for the caller `student` (None when the
   * request carries no user id) at time `now`. A blank message is refused
   * with 400. The schema then requires a student and a known level, and a
   * failed validation is answered with 500; an absent level is critical.
   */
  function NewAlert(id: ObjectId, student: Option<ObjectId>, message: string, level: string, now: int)
    : (r: Result<Alert, Failure>)
    ensures IsBlank(message) ==> r == Err(BadRequest(MessageRequired))
    ensures !IsBlank(message) && student.None? ==> r == Err(ServerError)
    ensures !IsBlank(message) && student.Some? ==> (r.Ok? <==> level == "" || ParseLevel(level).Some?)
    ensures !IsBlank(message) && r.Err? ==> r.error == ServerError
    ensures r.Ok? ==> && r.value.id == id && student == Some(r.value.student)
                      && r.value.message == message && !IsBlank(r.value.message)
                      && !r.value.handled && r.value.createdAt == now
    ensures r.Ok? && level == "" ==> r.value.level == Critical
    ensures r.Ok? && level != "" ==> LevelName(r.value.level) == level
  {
    if IsBlank(message) then Err(BadRequest(MessageRequired))
    else if student.None? then Err(ServerError)
    else
      var parsed := if level == "" then Some(Critical) else ParseLevel(level);
      if parsed.None? then Err(ServerError)
      else Ok(Alert(id, student.value, message, parsed.value, false, now))
  }

  /** `sort({ handled: 1, createdAt: -1 })`: unhandled before handled, then newest first. */
  predicate InboxLe(a: Alert, b: Alert) {
    (!a.handled && b.handled) || (a.handled == b.handled && a.createdAt >= b.createdAt)
  }

  lemma InboxLeIsTotalPreorder()
    ensures TotalPreorder(InboxLe)
  {
  }

  /**
   * `listAlertsForCounsellor`: every alert, unhandled ones first and,
   * within each group, the newest first.
   */
  function Inbox(alerts: seq<Alert>): (r: seq<Alert>)
    ensures multiset(r) == multiset(alerts)
    ensures forall i, j :: 0 <= i < j < |r| && r[i].handled ==> r[j].handled
    ensures forall i, j :: 0 <= i < j < |r| && r[i].handled == r[j].handled ==> r[i].createdAt >= r[j].createdAt
  {
    InboxLeIsTotalPreorder();
    var r := SortBy(alerts, InboxLe);
    assert SortedBy(r, InboxLe);
    r
  }

  /** `Alert.findById`: the position of the alert with id `id`. */
  function FindAlert(alerts: seq<Alert>, id: ObjectId): (r: Option<nat>)
    ensures r.Some? ==> r.value < |alerts| && alerts[r.value].id == id
    ensures r.Some? ==> forall j :: 0 <= j < r.value ==> alerts[j].id != id
    ensures r.None? <==> forall a :: a in alerts ==> a.id != id
  {
    FindIndex(alerts, (a: Alert) => a.id == id)
  }

  /** The collection after `$set: { handled: true }` on the alert with id `id`, if there is one. */
  function SetHandled(alerts: seq<Alert>, id: ObjectId): (r: seq<Alert>)
    ensures |r| == |alerts|
    ensures forall j :: 0 <= j < |alerts| ==>
      r[j] == if FindAlert(alerts, id) == Some(j) then alerts[j].(handled := true) else alerts[j]
  {
    match FindAlert(alerts, id)
    case Some(i) => alerts[i := alerts[i].(handled := true)]
    case None => alerts
  }

  /** Marking an alert handled twice leaves the same collection as marking it once. */
  lemma {:induction false} SetHandledIdempotent(alerts: seq<Alert>, id: ObjectId)
    ensures SetHandled(SetHandled(alerts, id), id) == SetHandled(alerts, id)
  {
    var once := SetHandled(alerts, id);
    match FindAlert(alerts, id)
    case None =>
      assert once == alerts;
    case Some(i) =>
      assert forall j :: 0 <= j < i ==> once[j] == alerts[j];
      assert FindAlert(once, id) == Some(i);
      assert once[i].(handled := true) == once[i];
      assert once[i := once[i].(handled := true)] == once;
  }

  /** The alert collection, with the counter that hands out fresh ids. */
  class AlertInbox {
    var alerts: seq<Alert>
    var nextId: ObjectId

    /** Every stored id was handed out before `nextId`. */
    ghost predicate Valid()
      reads this
    {
      forall i :: 0 <= i < |alerts| ==> alerts[i].id < nextId
    }

    constructor ()
      ensures Valid() && alerts == []
    {
      alerts := [];
      nextId := 0;
    }

    /** `createAlert`: store the alert `NewAlert` builds, under a fresh id. */
    method Create(student: Option<ObjectId>, message: string, level: string, now: int) returns (r: Result<Alert, Failure>)
      requires Valid()
      modifies this
      ensures Valid()
      ensures r == NewAlert(old(nextId), student, message, level, now)
      ensures r.Ok? ==> alerts == old(alerts) + [r.value] && forall a :: a in old(alerts) ==> a.id != r.value.id
      ensures r.Err? ==> alerts == old(alerts)
    {
      r := NewAlert(nextId, student, message, level, now);
      if r.Ok? {
        alerts := alerts + [r.value];
        nextId := nextId + 1;
      }
    }

    /**
     * `markHandled`: 404 for an unknown id; otherwise the alert is handled
     * afterwards, nothing else about it or any other alert changes, and an
     * alert that was handled already leaves the collection as it was.
     */
    method MarkHandled(id: ObjectId) returns (r: Result<Alert, Failure>)
      requires Valid()
      modifies this
      ensures Valid() && nextId == old(nextId)
      ensures alerts == SetHandled(old(alerts), id)
      ensures FindAlert(old(alerts), id).None? ==> r == Err(NotFound(AlertNotFound))
      ensures FindAlert(old(alerts), id).Some? ==>
        var i := FindAlert(old(alerts), id).value;
        && alerts[i] == old(alerts)[i].(handled := true)
        && r == Ok(alerts[i])
        && (old(alerts)[i].handled ==> alerts == old(alerts))
    {
      var found := FindAlert(alerts, id);
      if found.None? {
        return Err(NotFound(AlertNotFound));
      }
      var i := found.value;
      alerts := alerts[i := alerts[i].(handled := true)];
      r := Ok(alerts[i]);
    }
  }
}
