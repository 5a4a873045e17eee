/** lib/actions/appointment.actions.ts: the server actions on appointments.
    The document database and the SMS service are one `Backend` object: a map
    from document id to appointment, and the list of SMS the service has
    accepted. Whether a call to the service throws is a parameter of each
    action (`fault`); every action catches the error and returns `undefined`,
    which is `None` here. */
module AppointmentActions {
  import opened Wrappers
  import opened Constants

  /** A stored appointment. `schedule` is a date in milliseconds. */
  datatype Appointment = Appointment(
    id: string,
    userId: string,
    patient: string,
    primaryPhysician: string,
    schedule: int,
    reason: Option<string>,
    note: Option<string>,
    status: string,
    cancellationReason: Option<string>)

  /** `CreateAppointmentParams`. */
  datatype CreateParams = CreateParams(
    userId: string,
    patient: string,
    primaryPhysician: string,
    schedule: int,
    reason: Option<string>,
    note: Option<string>,
    status: string)

  /** The fields an update overwrites; an `undefined` cancellation reason is
      dropped when the request is serialised and leaves the stored one. */
  datatype AppointmentPatch = AppointmentPatch(
    primaryPhysician: string,
    schedule: int,
    status: string,
    cancellationReason: Option<string>)

  /** `UpdateAppointmentParams`; `appointmentId` is `undefined` when the form
      had no appointment. */
  datatype UpdateParams = UpdateParams(
    userId: string,
    appointmentId: Option<string>,
    appointment: AppointmentPatch,
    actionType: string)

  /** `messaging.createSms(id, content, topics, users)`. */
  datatype Sms = Sms(content: string, topics: seq<string>, users: seq<string>)

  /** What `listDocuments` returns: one page of documents and the number of
      documents that match, which can be larger than the page. */
  datatype DocumentList = DocumentList(total: nat, documents: seq<Appointment>)

  datatype StatusCounts = StatusCounts(scheduledCount: nat, pendingCount: nat, cancelledCount: nat)

  /** What `getRecentAppointmentList` returns. */
  datatype RecentAppointments = RecentAppointments(
    totalCount: nat,
    scheduledCount: nat,
    pendingCount: nat,
    cancelledCount: nat,
    documents: seq<Appointment>)

  const InitialCounts: StatusCounts := StatusCounts(0, 0, 0)

  // ---------------------------------------------------------------------------
  // The documents the actions write

  function NewDocument(id: string, p: CreateParams): (d: Appointment)
    ensures d.id == id && d.userId == p.userId && d.patient == p.patient
    ensures d.primaryPhysician == p.primaryPhysician && d.schedule == p.schedule
    ensures d.reason == p.reason && d.note == p.note && d.status == p.status
    ensures d.cancellationReason == None
  {
    Appointment(id, p.userId, p.patient, p.primaryPhysician, p.schedule, p.reason, p.note, p.status, None)
  }

  /** `updateDocument`'s merge: the patched fields change, the others stay. */
  function ApplyPatch(d: Appointment, p: AppointmentPatch): (u: Appointment)
    ensures u.id == d.id && u.userId == d.userId && u.patient == d.patient
    ensures u.reason == d.reason && u.note == d.note
    ensures u.primaryPhysician == p.primaryPhysician && u.schedule == p.schedule && u.status == p.status
    ensures u.cancellationReason == if p.cancellationReason.Some? then p.cancellationReason else d.cancellationReason
  {
    d.(primaryPhysician := p.primaryPhysician, schedule := p.schedule, status := p.status,
       cancellationReason := if p.cancellationReason.Some? then p.cancellationReason else d.cancellationReason)
  }

  /** The stored document an update produces, if the update goes through:
      the id must be defined and name a stored document, and the call must
      not throw. */
  function UpdateResult(store: map<string, Appointment>, p: UpdateParams, fault: bool): (r: Option<Appointment>)
    ensures r.Some? <==> !fault && p.appointmentId.Some? && p.appointmentId.value in store
    ensures r.Some? ==> r.value == ApplyPatch(store[p.appointmentId.value], p.appointment)
  {
    if fault || p.appointmentId.None? || p.appointmentId.value !in store then None
    else Some(ApplyPatch(store[p.appointmentId.value], p.appointment))
  }

  // ---------------------------------------------------------------------------
  // The SMS text of `updateAppointment`

  const Greeting: string := "Salutations de CarePulse. "

  /** A template literal prints `undefined` for a missing value. */
  function Interpolate(v: Option<string>): string {
    if v.Some? then v.value else "undefined"
  }

  /** The message sent after an update; `formatDateTime(...).dateTime` is the
      parameter `format`. */
  function SmsText(actionType: string, p: AppointmentPatch, format: int -> string): string {
    Greeting + SmsBody(actionType, p, format) + "."
  }

  /** `t` occurs in `s` at position `i`. */
  predicate OccursAt(s: string, t: string, i: nat) {
    i + |t| <= |s| && s[i..i + |t|] == t
  }

  predicate Contains(s: string, t: string) {
    exists i: nat | i <= |s| :: OccursAt(s, t, i)
  }

  lemma ContainsItself(t: string)
    ensures Contains(t, t)
  {
    assert t[0..|t|] == t;
    assert OccursAt(t, t, 0);
  }

  lemma ContainsInLonger(a: string, s: string, b: string, t: string)
    requires Contains(s, t)
    ensures Contains(a + s + b, t)
  {
    var i: nat :| i <= |s| && OccursAt(s, t, i);
    assert (a + s + b)[|a| + i..|a| + i + |t|] == s[i..i + |t|];
    assert OccursAt(a + s + b, t, |a| + i);
  }

  /** The part of the message between the greeting and the full stop. */
  function SmsBody(actionType: string, p: AppointmentPatch, format: int -> string): string {
    if actionType == "valide"
    then "Votre rendez-vous est confirmé pour le " + format(p.schedule) + " avec Dr. " + p.primaryPhysician
    else "Nous avons le regret de vous " + "informer que votre rendez-vous du " + format(p.schedule)
         + " a été annulé. La raison : " + Interpolate(p.cancellationReason)
  }

  /** Every message starts with the greeting, ends with a full stop, and
      has the body of its kind in between; the two kinds of body start
      differently, so a confirmation never reads like a cancellation. */
  lemma SmsTextFraming(actionType: string, p: AppointmentPatch, format: int -> string)
    ensures var m := SmsText(actionType, p, format);
            && |m| > |Greeting| + 1
            && m[..|Greeting|] == Greeting
            && m[|m| - 1] == '.'
            && m[|Greeting|..|m| - 1] == SmsBody(actionType, p, format)
            && m[|Greeting|] == (if actionType == "valide" then 'V' else 'N')
  {
    var m, b := SmsText(actionType, p, format), SmsBody(actionType, p, format);
    assert m == Greeting + b + ".";
    if actionType == "valide" {
      var x := "Votre rendez-vous est confirmé pour le ";
      assert b == x + (format(p.schedule) + " avec Dr. " + p.primaryPhysician);
      assert b[0] == x[0] == 'V';
    } else {
      var x := "Nous avons le regret de vous ";
      assert b == x + ("informer que votre rendez-vous du " + format(p.schedule) + " a été annulé. La raison : " + Interpolate(p.cancellationReason));
      assert b[0] == x[0] == 'N';
    }
    assert m[|Greeting|] == b[0];
  }

  /** A confirmation names the date and "Dr. " followed by the physician. */
  lemma ConfirmationContents(p: AppointmentPatch, format: int -> string)
    ensures Contains(SmsText("valide", p, format), format(p.schedule))
    ensures Contains(SmsText("valide", p, format), "Dr. " + p.primaryPhysician)
  {
    var d, dr := format(p.schedule), "Dr. " + p.primaryPhysician;
    var opening := "Votre rendez-vous est confirmé pour le ";
    var body := SmsBody("valide", p, format);
    assert body == opening + d + (" avec " + dr);
    ContainsItself(d);
    ContainsInLonger(opening, d, " avec " + dr, d);
    ContainsInLonger(Greeting, body, ".", d);
    ContainsItself(dr);
    ContainsInLonger(opening + d + " avec ", dr, "", dr);
    assert body == opening + d + " avec " + dr + "";
    ContainsInLonger(Greeting, body, ".", dr);
  }

  /** Any other message names the date and the cancellation reason, which
      reads "undefined" when the update carried none. */
  lemma CancellationContents(actionType: string, p: AppointmentPatch, format: int -> string)
    requires actionType != "valide"
    ensures Contains(SmsText(actionType, p, format), format(p.schedule))
    ensures Contains(SmsText(actionType, p, format), Interpolate(p.cancellationReason))
  {
    var d, r := format(p.schedule), Interpolate(p.cancellationReason);
    var opening := "Nous avons le regret de vous " + "informer que votre rendez-vous du ";
    var mid := " a été annulé. La raison : ";
    var body := SmsBody(actionType, p, format);
    assert body == opening + d + (mid + r);
    ContainsItself(d);
    ContainsInLonger(opening, d, mid + r, d);
    ContainsInLonger(Greeting, body, ".", d);
    ContainsItself(r);
    ContainsInLonger(opening + d + mid, r, "", r);
    assert body == opening + d + mid + r + "";
    ContainsInLonger(Greeting, body, ".", r);
  }

  /** A confirmation can never read like a cancellation notice. */
  lemma ConfirmationAndCancellationDiffer(p: AppointmentPatch, q: AppointmentPatch, actionType: string,
                                          format: int -> string, format': int -> string)
    requires actionType != "valide"
    ensures SmsText("valide", p, format) != SmsText(actionType, q, format')
  {
    SmsTextFraming("valide", p, format);
    SmsTextFraming(actionType, q, format');
  }

  // ---------------------------------------------------------------------------
  // The status count of `getRecentAppointmentList`

  /** How many of `docs` have status `status`. */
  function CountStatus(docs: seq<Appointment>, status: string): nat {
    if docs == [] then 0
    else CountStatus(docs[..|docs| - 1], status) + (if docs[|docs| - 1].status == status then 1 else 0)
  }

  /** How many of `docs` have none of the three statuses. */
  function CountUnknown(docs: seq<Appointment>): nat {
    if docs == [] then 0
    else CountUnknown(docs[..|docs| - 1]) + (if docs[|docs| - 1].status in KnownStatuses then 0 else 1)
  }

  function StatusCountsOf(docs: seq<Appointment>): StatusCounts {
    StatusCounts(CountStatus(docs, Validated), CountStatus(docs, Pending), CountStatus(docs, Cancelled))
  }

  /** The `reduce` over the documents, one `switch` per document. */
  method CountByStatus(docs: seq<Appointment>) returns (acc: StatusCounts)
    ensures acc.scheduledCount == CountStatus(docs, Validated)
    ensures acc.pendingCount == CountStatus(docs, Pending)
    ensures acc.cancelledCount == CountStatus(docs, Cancelled)
  {
    acc := InitialCounts;
    var i := 0;
    while i < |docs|
      invariant 0 <= i <= |docs|
      invariant acc == StatusCountsOf(docs[..i])
    {
      assert docs[..i + 1][..i] == docs[..i];
      var status := docs[i].status;
      if status == Validated {
        acc := acc.(scheduledCount := acc.scheduledCount + 1);
      } else if status == Pending {
        acc := acc.(pendingCount := acc.pendingCount + 1);
      } else if status == Cancelled {
        acc := acc.(cancelledCount := acc.cancelledCount + 1);
      }
      i := i + 1;
    }
    assert docs[..i] == docs;
  }

  /** The counters start at zero: an empty list counts nothing. */
  lemma CountsOfNothing()
    ensures StatusCountsOf([]) == InitialCounts
  {
  }

  /** Every document lands in exactly one of the three counters or in none:
      the counts and the unknown ones add up to the length of the list. */
  lemma {:induction false} CountsPartition(docs: seq<Appointment>)
    ensures CountStatus(docs, Validated) + CountStatus(docs, Pending) + CountStatus(docs, Cancelled)
            + CountUnknown(docs) == |docs|
  {
    if docs != [] {
      CountsPartition(docs[..|docs| - 1]);
    }
  }

  /** Hence the three counts never exceed the number of documents, and they
      reach it exactly when every document has one of the three statuses. */
  lemma {:induction false} CountsAtMostDocuments(docs: seq<Appointment>)
    ensures CountStatus(docs, Validated) + CountStatus(docs, Pending) + CountStatus(docs, Cancelled) <= |docs|
    ensures CountStatus(docs, Validated) + CountStatus(docs, Pending) + CountStatus(docs, Cancelled) == |docs|
            <==> forall i | 0 <= i < |docs| :: docs[i].status in KnownStatuses
  {
    CountsPartition(docs);
    NoUnknownIffAllKnown(docs);
  }

  lemma {:induction false} NoUnknownIffAllKnown(docs: seq<Appointment>)
    ensures CountUnknown(docs) == 0 <==> forall i | 0 <= i < |docs| :: docs[i].status in KnownStatuses
  {
    if docs != [] {
      var init := docs[..|docs| - 1];
      NoUnknownIffAllKnown(init);
      assert forall i | 0 <= i < |init| :: init[i] == docs[i];
    }
  }

  lemma {:induction false} CountAppend(a: seq<Appointment>, b: seq<Appointment>, status: string)
    ensures CountStatus(a + b, status) == CountStatus(a, status) + CountStatus(b, status)
  {
    if b == [] {
      assert a + b == a;
    } else {
      assert (a + b)[..|a + b| - 1] == a + b[..|b| - 1];
      CountAppend(a, b[..|b| - 1], status);
    }
  }

  /** Taking the same element out of two lists with equal multisets. */
  lemma RemoveMatching(init: seq<Appointment>, last: Appointment, other: seq<Appointment>, j: nat)
    requires multiset(init + [last]) == multiset(other)
    requires j < |other| && other[j] == last
    ensures multiset(init) == multiset(other[..j] + other[j + 1..])
  {
    var a, b := other[..j], other[j + 1..];
    assert other == a + [last] + b;
    assert multiset(init) + multiset{last} == multiset(a + b) + multiset{last};
    forall x ensures multiset(init)[x] == multiset(a + b)[x] {
      assert (multiset(init) + multiset{last})[x] == (multiset(a + b) + multiset{last})[x];
    }
  }

  /** Counting around an element taken out of the middle of a list. */
  lemma CountAround(other: seq<Appointment>, j: nat, status: string)
    requires j < |other|
    ensures CountStatus(other, status) ==
            CountStatus(other[..j] + other[j + 1..], status) + (if other[j].status == status then 1 else 0)
  {
    var a, x, b := other[..j], other[j], other[j + 1..];
    assert other == a + [x] + b;
    CountAppend(a, [x], status);
    CountAppend(a + [x], b, status);
    CountAppend(a, b, status);
    assert [x][..0] == [];
  }

  /** The counts do not depend on the order of the documents. */
  lemma {:induction false} CountIgnoresOrder(docs: seq<Appointment>, other: seq<Appointment>, status: string)
    requires multiset(docs) == multiset(other)
    ensures CountStatus(docs, status) == CountStatus(other, status)
    decreases |docs|
  {
    if docs == [] {
      assert |other| == |multiset(other)| == 0;
    } else {
      var last := docs[|docs| - 1];
      var init := docs[..|docs| - 1];
      assert docs == init + [last];
      assert last in multiset(other);
      var j :| 0 <= j < |other| && other[j] == last;
      RemoveMatching(init, last, other, j);
      CountIgnoresOrder(init, other[..j] + other[j + 1..], status);
      CountAround(other, j, status);
    }
  }

  /** `getRecentAppointmentList`, given what `listDocuments` returned (`None`
      when it threw). */
  method GetRecentAppointmentList(listing: Option<DocumentList>) returns (r: Option<RecentAppointments>)
    ensures r.None? <==> listing.None?
    ensures r.Some? ==> r.value.totalCount == listing.value.total
    ensures r.Some? ==> r.value.documents == listing.value.documents
    ensures r.Some? ==> r.value.scheduledCount == CountStatus(listing.value.documents, Validated)
    ensures r.Some? ==> r.value.pendingCount == CountStatus(listing.value.documents, Pending)
    ensures r.Some? ==> r.value.cancelledCount == CountStatus(listing.value.documents, Cancelled)
  {
    if listing.None? {
      return None;
    }
    var counts := CountByStatus(listing.value.documents);
    r := Some(RecentAppointments(listing.value.total, counts.scheduledCount, counts.pendingCount,
                                 counts.cancelledCount, listing.value.documents));
  }

  // ---------------------------------------------------------------------------
  // The backend and the actions that change it

  class Backend {
    /** The appointment collection, by document id. */
    var appointments: map<string, Appointment>
    /** Every SMS the messaging service has accepted, oldest first. */
    var messages: seq<Sms>

    constructor ()
      ensures appointments == map[] && messages == []
    {
      appointments := map[];
      messages := [];
    }

    /** `createAppointment`; `newId` is what `ID.unique()` produced. */
    method CreateAppointment(p: CreateParams, newId: string, fault: bool) returns (r: Option<Appointment>)
      modifies this
      ensures r.Some? <==> !fault && newId !in old(appointments)
      ensures r.Some? ==> r.value == NewDocument(newId, p) && appointments == old(appointments)[newId := r.value]
      ensures r.None? ==> appointments == old(appointments)
      ensures messages == old(messages)
    {
      if fault || newId in appointments {
        return None;
      }
      var d := NewDocument(newId, p);
      appointments := appointments[newId := d];
      r := Some(d);
    }

    /** `getAppointment`. */
    method GetAppointment(appointmentId: string, fault: bool) returns (r: Option<Appointment>)
      ensures r.Some? <==> !fault && appointmentId in appointments
      ensures r.Some? ==> r.value == appointments[appointmentId]
    {
      if fault || appointmentId !in appointments {
        return None;
      }
      r := Some(appointments[appointmentId]);
    }

    /** `sendSMSNotification`: one SMS to the one user, no topic. */
    method SendSmsNotification(userId: string, content: string, fault: bool) returns (r: Option<Sms>)
      modifies this
      ensures r.Some? <==> !fault
      ensures r.Some? ==> r.value == Sms(content, [], [userId])
      ensures messages == old(messages) + (if fault then [] else [Sms(content, [], [userId])])
      ensures appointments == old(appointments)
    {
      if fault {
        return None;
      }
      var sms := Sms(content, [], [userId]);
      messages := messages + [sms];
      r := Some(sms);
    }

    /** `updateAppointment`: the update, then the SMS. A failed update sends
        nothing and returns `None`; after a successful one exactly one SMS is
        requested, for the user alone, and a failure of the messaging service
        does not change the result. */
    method UpdateAppointment(p: UpdateParams, format: int -> string, fault: bool, smsFault: bool)
      returns (r: Option<Appointment>)
      modifies this
      ensures r == UpdateResult(old(appointments), p, fault)
      ensures r.None? ==> appointments == old(appointments) && messages == old(messages)
      ensures r.Some? ==> appointments == old(appointments)[p.appointmentId.value := r.value]
      ensures r.Some? ==>
                messages == old(messages) +
                            (if smsFault then [] else [Sms(SmsText(p.actionType, p.appointment, format), [], [p.userId])])
    {
      var updated := UpdateResult(appointments, p, fault);
      if updated.None? {
        return None;
      }
      appointments := appointments[p.appointmentId.value := updated.value];
      var text := SmsText(p.actionType, p.appointment, format);
      var _ := SendSmsNotification(p.userId, text, smsFault);
      r := updated;
    }
  }
}
