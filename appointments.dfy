/** The appointment routes: `POST /book` stores an appointment and then mails a confirmation,
    `GET /` lists every appointment, and `DELETE /:id` removes one by id. The collection is a
    sequence in insertion order; an appointment's id is the number it was stored under. */
module AppointmentRoutes {
  import opened Common

  /** An appointment document: its id and the seven fields of the booking form. */
  datatype Appointment = Appointment(
    id: nat,
    doctorName: string,
    userName: string,
    date: string,
    time: string,
    userEmail: string,
    specialty: string,
    location: string)

  /** The request body of `POST /book`. */
  datatype BookingForm = BookingForm(
    doctorName: string,
    userName: string,
    date: string,
    time: string,
    userEmail: string,
    specialty: string,
    location: string)

  /** The appointments collection and the id the next insert receives. */
  datatype Appointments = Appointments(rows: seq<Appointment>, nextId: nat)

  /** Ids are below `nextId` and no two appointments share one. */
  predicate Valid(a: Appointments) {
    && (forall i | 0 <= i < |a.rows| :: a.rows[i].id < a.nextId)
    && (forall i, j | 0 <= i < j < |a.rows| :: a.rows[i].id != a.rows[j].id)
  }

  datatype Reply =
    | Booked(message: string, appointment: Appointment)
    | Listed(appointments: seq<Appointment>)
    | Message(status: int, message: string)

  const BookFailed: Reply := Message(500, "Failed to book appointment.")
  const NotFound: Reply := Message(404, "Appointment not found.")
  const Canceled: Reply := Message(200, "Appointment canceled successfully.")
  const CancelFailed: Reply := Message(500, "Failed to cancel appointment.")
  const BookedMessage: string := "Appointment booked successfully! Confirmation email sent."

  /** The reply's HTTP status: 201 for a booking, 200 for a list. */
  function Status(r: Reply): int {
    match r
    case Booked(_, _) => 201
    case Listed(_) => 200
    case Message(status, _) => status
  }

  /** The document `new Appointment({...})` builds from the form. */
  function FromForm(id: nat, f: BookingForm): (a: Appointment)
    ensures a.id == id
    ensures a.doctorName == f.doctorName && a.userName == f.userName && a.date == f.date && a.time == f.time
    ensures a.userEmail == f.userEmail && a.specialty == f.specialty && a.location == f.location
  {
    Appointment(id, f.doctorName, f.userName, f.date, f.time, f.userEmail, f.specialty, f.location)
  }

  /** `POST /book`: save, then mail. A failed save stores nothing; a failed mail after the save
      is answered with 500 while the appointment stays stored. */
  function Book(a: Appointments, f: BookingForm, saveSucceeds: bool, mailSent: bool): (r: (Reply, Appointments))
    ensures !saveSucceeds ==> r == (BookFailed, a)
    ensures saveSucceeds ==> r.1 == Appointments(a.rows + [FromForm(a.nextId, f)], a.nextId + 1)
    ensures saveSucceeds && mailSent ==> r.0 == Booked(BookedMessage, FromForm(a.nextId, f))
    ensures saveSucceeds && !mailSent ==> r.0 == BookFailed
    ensures Status(r.0) == 201 <==> saveSucceeds && mailSent
    ensures r.0.Booked? ==> r.0.appointment == r.1.rows[|r.1.rows| - 1]
    ensures Valid(a) ==> Valid(r.1)
  {
    if !saveSucceeds then (BookFailed, a)
    else
      var stored := FromForm(a.nextId, f);
      var after := Appointments(a.rows + [stored], a.nextId + 1);
      (if mailSent then Booked(BookedMessage, stored) else BookFailed, after)
  }

  /** `GET /`: every stored appointment, in the collection's order. */
  function List(a: Appointments): (r: Reply)
    ensures Status(r) == 200 && r.Listed?
    ensures forall x :: x in r.appointments <==> x in a.rows
    ensures |r.appointments| == |a.rows|
  {
    Listed(a.rows)
  }

  function HasId(id: nat): Appointment -> bool {
    (x: Appointment) => x.id == id
  }

  /** `DELETE /:id`, for an id that casts to an appointment id (`Some`) or fails to (`None`). */
  function Cancel(a: Appointments, id: Option<nat>): (r: (Reply, Appointments))
    ensures id.None? ==> r == (CancelFailed, a)
    ensures id.Some? && (forall i | 0 <= i < |a.rows| :: a.rows[i].id != id.value) ==> r == (NotFound, a)
    ensures id.Some? && (exists i | 0 <= i < |a.rows| :: a.rows[i].id == id.value) ==> r.0 == Canceled
    ensures r.0 == Canceled ==> |r.1.rows| == |a.rows| - 1
    ensures r.1.nextId == a.nextId
    ensures Valid(a) ==> Valid(r.1)
  {
    if id.None? then (CancelFailed, a)
    else
      match FirstIndex(a.rows, HasId(id.value))
      case None => (NotFound, a)
      case Some(i) =>
        var after := Appointments(RemoveAt(a.rows, i), a.nextId);
        assert Valid(a) ==> Valid(after) by {
          if Valid(a) {
            forall j, k | 0 <= j < k < |after.rows| ensures after.rows[j].id != after.rows[k].id {
              var j', k' := if j < i then j else j + 1, if k < i then k else k + 1;
              assert after.rows[j] == a.rows[j'] && after.rows[k] == a.rows[k'];
            }
          }
        }
        (Canceled, after)
  }

  /** With distinct ids, cancelling the id of the appointment at `i` removes exactly that one
      and keeps the others, in order. */
  lemma CancelRemovesExactly(a: Appointments, i: nat)
    requires Valid(a) && i < |a.rows|
    ensures Cancel(a, Some(a.rows[i].id)) == (Canceled, Appointments(a.rows[..i] + a.rows[i + 1..], a.nextId))
  {
    var id := a.rows[i].id;
    var k := FirstIndex(a.rows, HasId(id));
    assert HasId(id)(a.rows[i]);
    assert k.Some?;
    assert a.rows[k.value].id == id;
    assert k == Some(i);
  }

  /** An appointment once cancelled is gone: cancelling it again is answered 404. */
  lemma CancelTwiceNotFound(a: Appointments, i: nat)
    requires Valid(a) && i < |a.rows|
    ensures var once := Cancel(a, Some(a.rows[i].id)).1;
            Cancel(once, Some(a.rows[i].id)) == (NotFound, once)
  {
    var id := a.rows[i].id;
    CancelRemovesExactly(a, i);
    var once := Cancel(a, Some(id)).1;
    forall j | 0 <= j < |once.rows| ensures once.rows[j].id != id {
      if j < i {
        assert once.rows[j] == a.rows[j];
      } else {
        assert once.rows[j] == a.rows[j + 1];
      }
    }
  }

  /** Booking and then cancelling the new appointment leaves the collection's rows as they were. */
  lemma BookThenCancel(a: Appointments, f: BookingForm, mailSent: bool)
    requires Valid(a)
    ensures var booked := Book(a, f, true, mailSent).1;
            Cancel(booked, Some(a.nextId)) == (Canceled, Appointments(a.rows, a.nextId + 1))
  {
    var booked := Book(a, f, true, mailSent).1;
    assert booked.rows[|a.rows|].id == a.nextId;
    assert Valid(booked);
    CancelRemovesExactly(booked, |a.rows|);
    assert Cancel(booked, Some(a.nextId)) == Cancel(booked, Some(booked.rows[|a.rows|].id));
    assert booked.rows[..|a.rows|] == a.rows;
    assert booked.rows[|a.rows| + 1..] == [];
    assert booked.rows[..|a.rows|] + booked.rows[|a.rows| + 1..] == a.rows;
    assert booked.nextId == a.nextId + 1;
  }

  /** The appointments collection, updated in place. */
  class AppointmentStore {
    var table: Appointments

    constructor ()
      ensures table == Appointments([], 0)
    {
      table := Appointments([], 0);
    }

    /** `POST /book`. */
    method BookAppointment(f: BookingForm, saveSucceeds: bool, mailSent: bool) returns (reply: Reply)
      modifies this
      ensures (reply, table) == Book(old(table), f, saveSucceeds, mailSent)
    {
      var appointment := FromForm(table.nextId, f);
      if !saveSucceeds {
        return BookFailed;
      }
      table := Appointments(table.rows + [appointment], table.nextId + 1);
      if !mailSent {
        return BookFailed;
      }
      reply := Booked(BookedMessage, appointment);
    }

    /** `GET /`; it changes nothing. */
    method ListAppointments() returns (reply: Reply)
      ensures reply == List(table)
      ensures reply.appointments == table.rows
    {
      reply := Listed(table.rows);
    }

    /** `DELETE /:id`. */
    method CancelAppointment(id: Option<nat>) returns (reply: Reply)
      modifies this
      ensures (reply, table) == Cancel(old(table), id)
    {
      if id.None? {
        return CancelFailed;
      }
      var found := FirstIndex(table.rows, HasId(id.value));
      if found.None? {
        return NotFound;
      }
      table := Appointments(RemoveAt(table.rows, found.value), table.nextId);
      reply := Canceled;
    }
  }
}
