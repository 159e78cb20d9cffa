/** The appointment page (pages/Appointments.tsx): the day's hour slots, the
    appointment form, and the appointment list's delete, edit and add; a new
    appointment goes at the end of the list. */
module Appointments {
  import opened Wrappers
  import opened Seqs
  import opened Domain

  /** `hours`: the slots of the day view, 8 h to 18 h. */
  function Hours(): (h: seq<int>)
    ensures |h| == 11 && h[0] == 8 && h[10] == 18
    ensures forall i :: 0 <= i < |h| ==> h[i] == i + 8
    ensures forall i, j :: 0 <= i < j < |h| ==> h[i] < h[j]
    ensures forall x :: x in h <==> 8 <= x <= 18
  {
    var h := seq(11, i => i + 8);
    assert forall x :: 8 <= x <= 18 ==> x in h by {
      forall x | 8 <= x <= 18 ensures x in h {
        assert h[x - 8] == x;
      }
    }
    h
  }

  /** `s.slice(0, n)`. */
  function Take(s: string, n: nat): (r: string)
    ensures |r| == if |s| < n then |s| else n
    ensures r == s[..|r|]
  {
    if |s| < n then s else s[..n]
  }

  /** The form: `Partial<Appointment>`. */
  datatype AppointmentPatch = AppointmentPatch(
    id: Option<string>, customerId: Option<string>, employeeId: Option<string>,
    appointmentDate: Option<string>, status: Option<AppointmentStatus>, notes: Option<string>)

  /** `handleOpenAdd`'s form: the first customer (or no one), the current time
      to the minute (the first 16 characters of the ISO timestamp `nowIso`),
      'Planifié' and empty notes. */
  function DefaultForm(customers: seq<Customer>, nowIso: string): (f: AppointmentPatch)
    ensures f.id.None? && f.employeeId.None?
    ensures f.customerId == Some(if |customers| > 0 then customers[0].id else "")
    ensures f.appointmentDate == Some(Take(nowIso, 16))
    ensures f.status == Some(Planifie) && f.notes == Some("")
  {
    AppointmentPatch(None, Some(if |customers| > 0 then customers[0].id else ""), None,
                     Some(Take(nowIso, 16)), Some(Planifie), Some(""))
  }

  /** `handleOpenEdit`'s form: the appointment with its date normalised to the
      minute; `isoOf` stands for `new Date(d).toISOString()`. */
  function EditForm(a: Appointment, isoOf: string -> string): (f: AppointmentPatch)
    ensures f.id == Some(a.id) && f.customerId == Some(a.customerId) && f.employeeId == Some(a.employeeId)
    ensures f.appointmentDate == Some(Take(isoOf(a.appointmentDate), 16))
    ensures f.status == Some(a.status) && f.notes == a.notes
  {
    AppointmentPatch(Some(a.id), Some(a.customerId), Some(a.employeeId),
                     Some(Take(isoOf(a.appointmentDate), 16)), Some(a.status), a.notes)
  }

  /** `{ ...a, ...formData }`. */
  function MergeAppointment(a: Appointment, f: AppointmentPatch): (r: Appointment)
    ensures r.id == f.id.GetOr(a.id) && r.customerId == f.customerId.GetOr(a.customerId)
    ensures r.employeeId == f.employeeId.GetOr(a.employeeId)
    ensures r.appointmentDate == f.appointmentDate.GetOr(a.appointmentDate)
    ensures r.status == f.status.GetOr(a.status)
    ensures r.notes == (if f.notes.Some? then f.notes else a.notes)
  {
    Appointment(f.id.GetOr(a.id), f.customerId.GetOr(a.customerId), f.employeeId.GetOr(a.employeeId),
                f.appointmentDate.GetOr(a.appointmentDate), f.status.GetOr(a.status),
                if f.notes.Some? then f.notes else a.notes)
  }

  /** Submitting the loaded form unchanged keeps everything but the date,
      which becomes its normalised form. */
  lemma EditFormRoundTrip(a: Appointment, isoOf: string -> string)
    ensures MergeAppointment(a, EditForm(a, isoOf))
            == a.(appointmentDate := Take(isoOf(a.appointmentDate), 16))
  {
  }

  /** The employee recorded on every new appointment. */
  const CurrentUserId: string := "current-user-id"

  /** `{ ...formData, id, employee_id: 'current-user-id' }`, `id` standing for
      the random id; a field the form lacks is taken as '' ('Planifié' for the
      status). */
  function NewAppointment(f: AppointmentPatch, id: string): (a: Appointment)
    ensures a.id == id && a.employeeId == CurrentUserId
    ensures a.customerId == f.customerId.GetOr("") && a.appointmentDate == f.appointmentDate.GetOr("")
    ensures a.status == f.status.GetOr(Planifie) && a.notes == f.notes
  {
    Appointment(id, f.customerId.GetOr(""), CurrentUserId, f.appointmentDate.GetOr(""),
                f.status.GetOr(Planifie), f.notes)
  }

  /** An appointment added from the default form is planned for the first
      customer by the current user, with empty notes. */
  lemma NewDefaultAppointment(customers: seq<Customer>, nowIso: string, id: string)
    requires |customers| > 0
    ensures NewAppointment(DefaultForm(customers, nowIso), id)
            == Appointment(id, customers[0].id, CurrentUserId, Take(nowIso, 16), Planifie, Some(""))
  {
  }

  class Agenda {
    var appointments: seq<Appointment>

    constructor (appointments0: seq<Appointment>)
      ensures appointments == appointments0
    {
      appointments := appointments0;
    }

    /** `handleDelete`: after confirmation, every appointment with the id goes. */
    method Delete(id: string, confirmed: bool)
      modifies this
      ensures appointments == if confirmed then RemoveKey(old(appointments), AppointmentKey, id) else old(appointments)
      ensures confirmed ==> |appointments| == |old(appointments)| - Occurrences(old(appointments), AppointmentKey, id)
      ensures confirmed ==> FindKey(appointments, AppointmentKey, id).None?
    {
      if confirmed {
        RemoveKeyLength(appointments, AppointmentKey, id);
        RemovedKeyNotFound(appointments, AppointmentKey, id);
        appointments := RemoveKey(appointments, AppointmentKey, id);
      }
    }

    /** `handleSubmit` while editing `id`. */
    method Edit(id: string, form: AppointmentPatch)
      modifies this
      ensures |appointments| == |old(appointments)|
      ensures forall i :: 0 <= i < |appointments| ==>
                appointments[i] == if old(appointments)[i].id == id
                                   then MergeAppointment(old(appointments)[i], form) else old(appointments)[i]
    {
      appointments := MapKey(appointments, AppointmentKey, id, MergeAppointment, form);
    }

    /** `handleSubmit` for a new appointment: it goes last. */
    method Add(form: AppointmentPatch, id: string) returns (a: Appointment)
      modifies this
      ensures a == NewAppointment(form, id)
      ensures appointments == old(appointments) + [a]
      ensures FindKey(appointments, AppointmentKey, id)
              == if FindKey(old(appointments), AppointmentKey, id).Some?
                 then FindKey(old(appointments), AppointmentKey, id) else Some(a)
    {
      a := NewAppointment(form, id);
      FindKeyAppend(appointments, a, AppointmentKey, id);
      appointments := appointments + [a];
    }
  }
}
