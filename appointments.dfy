/**
 * Counselling appointments (controllers/appointmentController.js):
 * booking, the caller's own listing, status updates and cancellation by a
 * party to the appointment.
 */
module Appointments {
  import opened Common
  import opened Seqs

  /** The `status` enum of the appointment schema. */
  datatype Status = Scheduled | Cancelled | Completed

  function StatusName(s: Status): string {
    match s
    case Scheduled => "scheduled"
    case Cancelled => "cancelled"
    case Completed => "completed"
  }

  /** The status a request names, if it is one of the three. */
  function ParseStatus(s: string): (r: Option<Status>)
    ensures r.Some? ==> StatusName(r.value) == s
    ensures r.None? <==> forall st: Status :: StatusName(st) != s
  {
    if s == "scheduled" then Some(Scheduled)
    else if s == "cancelled" then Some(Cancelled)
    else if s == "completed" then Some(Completed)
    else None
  }

  /** An appointment; `date` is `YYYY-MM-DD`, `time` as the client wrote it, `notes` "" when absent. */
  datatype Appointment = Appointment(
    id: ObjectId,
    student: ObjectId,
    counsellor: ObjectId,
    date: string,
    time: string,
    status: Status,
    notes: string)

  const MissingFields: string := "counsellorId, date and time are required"
  const InvalidCounsellor: string := "Invalid counsellor"
  const InvalidStatus: string := "Invalid status"
  const AppointmentNotFound: string := "Appointment not found"
  const MayNotUpdate: string := "Not authorized to update this appointment"
  const MayNotDelete: string := "Not authorized to delete this appointment"

  /** The caller is the student who booked the appointment or its counsellor. */
  predicate IsParty(a: Appointment, caller: Caller) {
    a.student == caller.id || a.counsellor == caller.id
  }

  /** The appointments a caller lists: a counsellor's own sessions, anyone else's own bookings. */
  predicate ListedFor(caller: Caller, a: Appointment) {
    if caller.role == Counsellor then a.counsellor == caller.id else a.student == caller.id
  }

  /** `sort({ date: 1, time: 1 })`: by date, then by time. */
  predicate ScheduleLe(a: Appointment, b: Appointment) {
    (StrLe(a.date, b.date) && a.date != b.date) || (a.date == b.date && StrLe(a.time, b.time))
  }

  lemma ScheduleLeIsTotalPreorder()
    ensures TotalPreorder(ScheduleLe)
  {
    forall a: Appointment, b: Appointment ensures ScheduleLe(a, b) || ScheduleLe(b, a) {
      StrLeTotal(a.date, b.date);
      StrLeTotal(a.time, b.time);
    }
    forall a: Appointment, b: Appointment, c: Appointment | ScheduleLe(a, b) && ScheduleLe(b, c)
      ensures ScheduleLe(a, c)
    {
      ScheduleLeTransitive(a, b, c);
    }
  }

  lemma ScheduleLeTransitive(a: Appointment, b: Appointment, c: Appointment)
    requires ScheduleLe(a, b) && ScheduleLe(b, c)
    ensures ScheduleLe(a, c)
  {
    if a.date == b.date && b.date == c.date {
      StrLeTransitive(a.time, b.time, c.time);
    } else {
      StrLeTotal(a.date, a.date);
      StrLeTotal(b.date, b.date);
      StrLeTransitive(a.date, b.date, c.date);
      if a.date == c.date {
        StrLeAntisymmetric(a.date, b.date);
      }
    }
  }

  /** `getMyAppointments`: the caller's appointments, in date-then-time order. */
  function MyAppointments(all: seq<Appointment>, caller: Caller): (r: seq<Appointment>)
    ensures forall a :: a in r <==> a in all && ListedFor(caller, a)
    ensures multiset(r) == multiset(Filter(all, a => ListedFor(caller, a)))
    ensures forall i, j :: 0 <= i < j < |r| ==>
      StrLe(r[i].date, r[j].date) && (r[i].date == r[j].date ==> StrLe(r[i].time, r[j].time))
  {
    var listed := Filter(all, a => ListedFor(caller, a));
    ScheduleLeIsTotalPreorder();
    var r := SortBy(listed, ScheduleLe);
    forall i, j | 0 <= i < j < |r|
      ensures StrLe(r[i].date, r[j].date) && (r[i].date == r[j].date ==> StrLe(r[i].time, r[j].time))
    {
      StrLeTotal(r[i].date, r[i].date);
    }
    assert forall a :: a in r <==> a in multiset(r);
    assert forall a :: a in listed <==> a in multiset(listed);
    r
  }

  /** `Appointment.findById`: the position of the appointment with id `id`. */
  function FindAppointment(all: seq<Appointment>, id: ObjectId): (r: Option<nat>)
    ensures r.Some? ==> r.value < |all| && all[r.value].id == id
    ensures r.None? ==> forall a :: a in all ==> a.id != id
  {
    FindIndex(all, (a: Appointment) => a.id == id)
  }

  /** `User.findById`: the user with id `id`. */
  function FindUser(users: seq<User>, id: ObjectId): (r: Option<User>)
    ensures r.Some? ==> r.value in users && r.value.id == id
    ensures r.None? ==> forall u :: u in users ==> u.id != id
  {
    match FindIndex(users, (u: User) => u.id == id)
    case Some(i) => Some(users[i])
    case None => None
  }

  /** The appointment collection, with the counter that hands out fresh ids. */
  class AppointmentBook {
    var appointments: seq<Appointment>
    var nextId: ObjectId

    /** Every stored id was handed out before `nextId`. */
    ghost predicate Valid()
      reads this
    {
      forall i :: 0 <= i < |appointments| ==> appointments[i].id < nextId
    }

    constructor ()
      ensures Valid() && appointments == []
    {
      appointments := [];
      nextId := 0;
    }

    /**
     * `createAppointment`: `caller` books `counsellorId` (None when the
     * request omits it) at `date` and `time`; `users` is the user collection.
     */
    method Book(caller: Caller, counsellorId: Option<ObjectId>, date: string, time: string, users: seq<User>)
      returns (r: Result<Appointment, Failure>)
      requires Valid()
      modifies this
      ensures Valid()
      ensures counsellorId.None? || date == "" || time == "" ==>
        r == Err(BadRequest(MissingFields)) && appointments == old(appointments)
      ensures counsellorId.Some? && date != "" && time != "" ==>
        var target := FindUser(users, counsellorId.value);
        if target.None? || target.value.role != Counsellor then
          r == Err(BadRequest(InvalidCounsellor)) && appointments == old(appointments)
        else
          var a := Appointment(old(nextId), caller.id, counsellorId.value, date, time, Scheduled, "");
          && r == Ok(a)
          && appointments == old(appointments) + [a]
          && forall b :: b in old(appointments) ==> b.id != a.id
    {
      if counsellorId.None? || date == "" || time == "" {
        return Err(BadRequest(MissingFields));
      }
      var target := FindUser(users, counsellorId.value);
      if target.None? || target.value.role != Counsellor {
        return Err(BadRequest(InvalidCounsellor));
      }
      var a := Appointment(nextId, caller.id, counsellorId.value, date, time, Scheduled, "");
      appointments := appointments + [a];
      nextId := nextId + 1;
      r := Ok(a);
    }

    /**
     * `updateAppointmentStatus`: the status is validated before the lookup;
     * a party to the appointment may then set any status, whatever the
     * current one, and nothing but the status changes.
     */
    method UpdateStatus(caller: Caller, id: ObjectId, status: string) returns (r: Result<Appointment, Failure>)
      requires Valid()
      modifies this
      ensures Valid() && nextId == old(nextId)
      ensures ParseStatus(status).None? ==> r == Err(BadRequest(InvalidStatus)) && appointments == old(appointments)
      ensures ParseStatus(status).Some? && FindAppointment(old(appointments), id).None? ==>
        r == Err(NotFound(AppointmentNotFound)) && appointments == old(appointments)
      ensures ParseStatus(status).Some? && FindAppointment(old(appointments), id).Some? ==>
        var i := FindAppointment(old(appointments), id).value;
        if IsParty(old(appointments)[i], caller) then
          && appointments == old(appointments)[i := old(appointments)[i].(status := ParseStatus(status).value)]
          && r == Ok(appointments[i])
        else
          r == Err(Forbidden(MayNotUpdate)) && appointments == old(appointments)
    {
      var parsed := ParseStatus(status);
      if parsed.None? {
        return Err(BadRequest(InvalidStatus));
      }
      var found := FindAppointment(appointments, id);
      if found.None? {
        return Err(NotFound(AppointmentNotFound));
      }
      var i := found.value;
      if !IsParty(appointments[i], caller) {
        return Err(Forbidden(MayNotUpdate));
      }
      appointments := appointments[i := appointments[i].(status := parsed.value)];
      r := Ok(appointments[i]);
    }

    /** `deleteAppointment`: 404 for an unknown id, 403 unless a party, else removed. */
    method Delete(caller: Caller, id: ObjectId) returns (r: Result<(), Failure>)
      requires Valid()
      modifies this
      ensures Valid() && nextId == old(nextId)
      ensures FindAppointment(old(appointments), id).None? ==>
        r == Err(NotFound(AppointmentNotFound)) && appointments == old(appointments)
      ensures FindAppointment(old(appointments), id).Some? ==>
        var i := FindAppointment(old(appointments), id).value;
        if IsParty(old(appointments)[i], caller) then
          r == Ok(()) && appointments == old(appointments)[..i] + old(appointments)[i + 1..]
        else
          r == Err(Forbidden(MayNotDelete)) && appointments == old(appointments)
    {
      var found := FindAppointment(appointments, id);
      if found.None? {
        return Err(NotFound(AppointmentNotFound));
      }
      var i := found.value;
      if !IsParty(appointments[i], caller) {
        return Err(Forbidden(MayNotDelete));
      }
      appointments := appointments[..i] + appointments[i + 1..];
      r := Ok(());
    }
  }
}
