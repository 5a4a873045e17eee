/** components/forms/AppointmentForm.tsx: the appointment form used to
    request (`'crée'`), cancel (`'annule'`) and confirm (`'valide'`) an
    appointment. The component's state and its submit handler are a class;
    which fields it shows, its button and the payloads it sends are
    functions of the form's type. */
module AppointmentForm {
  import opened Wrappers
  import opened Constants
  import opened AppointmentActions
  import V = Validation

  datatype FormType = Cree | Annule | Valide

  /** The string the component passes on for its type. */
  function TypeName(t: FormType): string {
    match t
    case Cree => "crée"
    case Annule => "annule"
    case Valide => "valide"
  }

  /** The `status` switch of `onSubmit`. */
  function StatusFor(t: FormType): string {
    match t
    case Valide => Validated
    case Annule => Cancelled
    case Cree => Pending
  }

  /** Each type sets its own status, one of the three the badge knows. */
  lemma StatusForIsOneToOne(t: FormType, u: FormType)
    ensures StatusFor(t) in KnownStatuses && StatusFor(t) in StatusIcon
    ensures StatusFor(t) == StatusFor(u) <==> t == u
    ensures StatusFor(t) == Validated <==> TypeName(t) == "valide"
    ensures StatusFor(t) == Cancelled <==> TypeName(t) == "annule"
  {
  }

  /** The `buttonLabel` switch. */
  function ButtonLabel(t: FormType): string {
    match t
    case Annule => "Annuler le rendez-vous"
    case Cree => "Créer un rendez-vous"
    case Valide => "Valider le rendez-vous"
  }

  lemma ButtonLabelsDistinct(t: FormType, u: FormType)
    ensures ButtonLabel(t) == ButtonLabel(u) <==> t == u
  {
  }

  /** The submit button's classes. */
  function ButtonClass(t: FormType): string {
    (if t == Annule then "shad-danger-btn" else "shad-primary-btn") + " w-full"
  }

  /** Only a cancellation gets the danger button, and only a request gets
      the header. */
  lemma ButtonAndHeaderByType(t: FormType)
    ensures ButtonClass(t) == "shad-danger-btn w-full" <==> TypeName(t) == "annule"
    ensures ButtonClass(t) == "shad-primary-btn w-full" <==> TypeName(t) != "annule"
    ensures ShowsHeader(t) <==> TypeName(t) == "crée"
  {
    assert "shad-danger-btn w-full"[7] != "shad-primary-btn w-full"[7];
  }

  datatype FormField = PhysicianField | ScheduleField | ReasonField | NoteField | CancellationReasonField

  /** The two conditional blocks of the form: the appointment fields unless
      cancelling, the cancellation reason only when cancelling. */
  function VisibleFields(t: FormType): set<FormField> {
    (if t != Annule then {PhysicianField, ScheduleField, ReasonField, NoteField} else {})
    + (if t == Annule then {CancellationReasonField} else {})
  }

  /** The "new appointment" header is shown only when requesting one. */
  predicate ShowsHeader(t: FormType) {
    t == Cree
  }

  /** Cancelling shows the cancellation reason and nothing else; the other
      two types show the four appointment fields and not the reason. */
  lemma FieldVisibility(t: FormType, f: FormField)
    ensures f in VisibleFields(t) <==> (f == CancellationReasonField <==> t == Annule)
    ensures |VisibleFields(t)| == if t == Annule then 1 else 4
  {
  }

  /** The values `onSubmit` receives. */
  datatype AppointmentValues = AppointmentValues(
    primaryPhysician: string,
    schedule: int,
    reason: Option<string>,
    note: Option<string>,
    cancellationReason: Option<string>)

  /** `onSubmit` creates only for `'crée'` with a non-empty patient id. */
  predicate TakesCreateBranch(t: FormType, patientId: string) {
    t == Cree && patientId != ""
  }

  /** The object handed to `createAppointment`. */
  function CreatePayload(userId: string, patientId: string, v: AppointmentValues, status: string): (p: CreateParams)
    ensures p.userId == userId && p.patient == patientId && p.status == status
    ensures p.primaryPhysician == v.primaryPhysician && p.schedule == v.schedule
    ensures p.reason == v.reason && p.note == v.note
  {
    CreateParams(userId, patientId, v.primaryPhysician, v.schedule, v.reason, v.note, status)
  }

  /** The object handed to `updateAppointment`: no reason and no note. */
  function UpdatePayload(userId: string, appointment: Option<Appointment>, v: AppointmentValues,
                         status: string, t: FormType): (p: UpdateParams)
    ensures p.userId == userId && p.actionType == TypeName(t)
    ensures p.appointmentId == if appointment.Some? then Some(appointment.value.id) else None
    ensures p.appointment == AppointmentPatch(v.primaryPhysician, v.schedule, status, v.cancellationReason)
  {
    UpdateParams(userId, if appointment.Some? then Some(appointment.value.id) else None,
                 AppointmentPatch(v.primaryPhysician, v.schedule, status, v.cancellationReason), TypeName(t))
  }

  /** A request always creates a pending appointment. */
  lemma CreatedAppointmentsArePending(t: FormType, patientId: string, userId: string, v: AppointmentValues, id: string)
    requires TakesCreateBranch(t, patientId)
    ensures NewDocument(id, CreatePayload(userId, patientId, v, StatusFor(t))).status == Pending
  {
  }

  /** An update from the form overwrites physician, schedule and status, and
      the cancellation reason when there is one; the stored reason and note
      are never touched. */
  lemma UpdateKeepsReasonAndNote(store: map<string, Appointment>, userId: string, appointment: Option<Appointment>,
                                 v: AppointmentValues, t: FormType, fault: bool)
    ensures var p := UpdatePayload(userId, appointment, v, StatusFor(t), t);
            var r := UpdateResult(store, p, fault);
            r.Some? ==> var old_ := store[appointment.value.id];
                        r.value.reason == old_.reason && r.value.note == old_.note &&
                        r.value.status == StatusFor(t) && r.value.primaryPhysician == v.primaryPhysician &&
                        r.value.cancellationReason ==
                          (if v.cancellationReason.Some? then v.cancellationReason else old_.cancellationReason)
  {
  }

  /** `'crée'` with an empty patient id and no appointment falls into the
      update branch with an undefined id, and that update always fails. */
  lemma RequestWithoutPatientFails(store: map<string, Appointment>, userId: string, v: AppointmentValues, fault: bool)
    ensures !TakesCreateBranch(Cree, "")
    ensures UpdateResult(store, UpdatePayload(userId, None, v, StatusFor(Cree), Cree), fault) == None
  {
  }

  /** The SMS after an update from the form is a confirmation exactly when
      the form set the status to `'validé'`. */
  lemma SmsKindFollowsStatus(t: FormType, userId: string, appointment: Option<Appointment>,
                             v: AppointmentValues, format: int -> string)
    ensures var p := UpdatePayload(userId, appointment, v, StatusFor(t), t);
            var m := SmsText(p.actionType, p.appointment, format);
            |m| > |Greeting| && (m[|Greeting|] == 'V' <==> StatusFor(t) == Validated)
  {
    var p := UpdatePayload(userId, appointment, v, StatusFor(t), t);
    SmsTextFraming(p.actionType, p.appointment, format);
  }

  // ---------------------------------------------------------------------------
  // Which schema validates the form

  /** The schema the form validates with, as written: `getAppointmentSchema`
      applied to the form's French type. */
  function FormSchema(t: FormType): V.ObjectSchema {
    V.GetAppointmentSchema(TypeName(t))
  }

  /** `getAppointmentSchema` matches on "create" and "cancel", which the form
      never passes, so every type gets the schedule schema. */
  lemma FormSchemaIsAlwaysSchedule(t: FormType)
    ensures FormSchema(t) == V.ScheduleAppointmentSchema
    ensures FormSchema(t) != V.CreateAppointmentSchema && FormSchema(t) != V.CancelAppointmentSchema
  {
    V.GetAppointmentSchemaCases(TypeName(t));
  }

  /** An empty reason and an empty cancellation reason, which is what the
      form starts from, pass the schema the form uses, though the schemas
      the two types call for reject them. */
  lemma MissingReasonsPass(env: V.Env)
    ensures var obj := map["primaryPhysician" := V.Str("John Green"), "schedule" := V.DateValue(0),
                           "reason" := V.Str(""), "note" := V.Str(""), "cancellationReason" := V.Str("")];
            && V.Accepts(FormSchema(Annule), obj, env) && V.Accepts(FormSchema(Cree), obj, env)
            && !V.Accepts(IntendedSchema(Annule), obj, env) && !V.Accepts(IntendedSchema(Cree), obj, env)
  {
    var obj := map["primaryPhysician" := V.Str("John Green"), "schedule" := V.DateValue(0),
                   "reason" := V.Str(""), "note" := V.Str(""), "cancellationReason" := V.Str("")];
    FormSchemaIsAlwaysSchedule(Annule);
    FormSchemaIsAlwaysSchedule(Cree);
    assert V.Utf16Length("John Green") >= 2;
    assert V.Utf16Length("") == 0;
    V.ScheduleAppointmentSchemaAccepts(obj, env);
    V.CancelAppointmentSchemaAccepts(obj, env);
    V.CreateAppointmentSchemaAccepts(obj, env);
  }

  /** The values `useForm` starts from: the appointment's own, or empty
      strings and the current time without one. `value || ''` turns a
      missing note or cancellation reason into `''`. */
  function DefaultValues(appointment: Option<Appointment>, now: int): (v: AppointmentValues)
    ensures v.note.Some? && v.cancellationReason.Some?
    ensures appointment.None? ==> v == AppointmentValues("", now, Some(""), Some(""), Some(""))
    ensures appointment.Some? ==> v.primaryPhysician == appointment.value.primaryPhysician &&
                                  v.schedule == appointment.value.schedule &&
                                  v.reason == appointment.value.reason
    ensures appointment.Some? && appointment.value.note.Some? ==> v.note == appointment.value.note
    ensures v.note == Some("") <==>
              appointment.None? || appointment.value.note.None? || appointment.value.note == Some("")
    ensures appointment.Some? && appointment.value.cancellationReason.Some? ==>
              v.cancellationReason == appointment.value.cancellationReason
    ensures v.cancellationReason == Some("") <==>
              appointment.None? || appointment.value.cancellationReason.None? ||
              appointment.value.cancellationReason == Some("")
  {
    if appointment.None? then AppointmentValues("", now, Some(""), Some(""), Some(""))
    else
      var a := appointment.value;
      AppointmentValues(a.primaryPhysician, a.schedule, a.reason, OrEmpty(a.note), OrEmpty(a.cancellationReason))
  }

  /** JavaScript's `value || ''` on an optional string. */
  function OrEmpty(v: Option<string>): Option<string> {
    if v.Some? && v.value != "" then v else Some("")
  }

  /** A cancellation whose reason was left empty sends an SMS that ends in
      "La raison : ." and stores the empty reason. */
  lemma EmptyCancellationReasonIsSent(store: map<string, Appointment>, userId: string, a: Appointment,
                                      v: AppointmentValues, format: int -> string, fault: bool)
    requires v.cancellationReason == Some("")
    ensures var p := UpdatePayload(userId, Some(a), v, StatusFor(Annule), Annule);
            var m := SmsText(p.actionType, p.appointment, format);
            && |m| >= 13 && m[|m| - 13..] == "La raison : ."
            && (UpdateResult(store, p, fault).Some? ==> UpdateResult(store, p, fault).value.cancellationReason == Some(""))
  {
    var p := UpdatePayload(userId, Some(a), v, StatusFor(Annule), Annule);
    var m := SmsText(p.actionType, p.appointment, format);
    var x := Greeting + "Nous avons le regret de vous " + "informer que votre rendez-vous du " + format(v.schedule);
    assert m == x + " a été annulé. " + "La raison : " + "" + ".";
    assert m == (x + " a été annulé. ") + "La raison : .";
  }

  /** A cancellation submitted from the admin table without touching its
      reason: with a stored appointment that has a valid physician and no
      cancellation reason, the defaults pass the schema the form uses,
      although the cancel schema rejects them. */
  lemma UntouchedCancellationPasses(a: Appointment, now: int, env: V.Env)
    requires V.Utf16Length(a.primaryPhysician) >= 2
    requires a.cancellationReason.None?
    ensures var obj := AsFormObject(DefaultValues(Some(a), now));
            V.Accepts(FormSchema(Annule), obj, env) && !V.Accepts(IntendedSchema(Annule), obj, env)
  {
    var obj := AsFormObject(DefaultValues(Some(a), now));
    FormSchemaIsAlwaysSchedule(Annule);
    assert V.Utf16Length("") == 0;
    AsFormObjectKeys(DefaultValues(Some(a), now));
    V.ScheduleAppointmentSchemaAccepts(obj, env);
    V.CancelAppointmentSchemaAccepts(obj, env);
  }

  /** The form's values as the resolver hands them to zod; an undefined
      value is an absent key. */
  function AsFormObject(v: AppointmentValues): V.FormObject {
    map["primaryPhysician" := V.Str(v.primaryPhysician), "schedule" := V.DateValue(v.schedule)]
    + (if v.reason.Some? then map["reason" := V.Str(v.reason.value)] else map[])
    + (if v.note.Some? then map["note" := V.Str(v.note.value)] else map[])
    + (if v.cancellationReason.Some? then map["cancellationReason" := V.Str(v.cancellationReason.value)] else map[])
  }

  lemma AsFormObjectKeys(v: AppointmentValues)
    ensures var obj := AsFormObject(v);
            && obj["primaryPhysician"] == V.Str(v.primaryPhysician)
            && obj["schedule"] == V.DateValue(v.schedule)
            && ("reason" in obj <==> v.reason.Some?)
            && (v.reason.Some? ==> obj["reason"] == V.Str(v.reason.value))
            && ("note" in obj <==> v.note.Some?)
            && (v.note.Some? ==> obj["note"] == V.Str(v.note.value))
            && ("cancellationReason" in obj <==> v.cancellationReason.Some?)
            && (v.cancellationReason.Some? ==> obj["cancellationReason"] == V.Str(v.cancellationReason.value))
  {
  }

  /** The schema each type evidently calls for: the create schema for a
      request, the cancel schema for a cancellation, the schedule schema for
      a confirmation. */
  function IntendedSchema(t: FormType): V.ObjectSchema {
    match t
    case Cree => V.CreateAppointmentSchema
    case Annule => V.CancelAppointmentSchema
    case Valide => V.ScheduleAppointmentSchema
  }

  /** With the intended schemas, the text field the form shows for its type
      must hold 2 to 500 characters: the reason of a request, the
      cancellation reason of a cancellation. */
  lemma IntendedSchemaChecksShownReason(t: FormType, obj: V.FormObject, env: V.Env)
    requires V.Accepts(IntendedSchema(t), obj, env)
    ensures t == Cree ==> ReasonField in VisibleFields(t) && V.StringWithin(obj, "reason", 2, 500)
    ensures t == Annule ==> CancellationReasonField in VisibleFields(t) &&
                             V.StringWithin(obj, "cancellationReason", 2, 500)
    ensures V.StringAtLeast(obj, "primaryPhysician", 2)
  {
    match t
    case Cree => V.CreateAppointmentSchemaAccepts(obj, env);
    case Annule => V.CancelAppointmentSchemaAccepts(obj, env);
    case Valide => V.ScheduleAppointmentSchemaAccepts(obj, env);
  }

  // ---------------------------------------------------------------------------
  // The component

  class Form {
    const formType: FormType
    const userId: string
    const patientId: string
    const appointment: Option<Appointment>
    /** Whether the parent passed `setOpen` (the dialog of the admin table does). */
    const hasSetOpen: bool
    var isLoading: bool
    /** The parent dialog's `open` state, which `setOpen` writes. */
    var dialogOpen: bool
    /** How many times `form.reset()` has run. */
    var resets: nat

    constructor (formType: FormType, userId: string, patientId: string, appointment: Option<Appointment>,
                 hasSetOpen: bool, dialogOpen: bool)
      ensures this.formType == formType && this.userId == userId && this.patientId == patientId
      ensures this.appointment == appointment && this.hasSetOpen == hasSetOpen
      ensures this.dialogOpen == dialogOpen && !isLoading && resets == 0
    {
      this.formType := formType;
      this.userId := userId;
      this.patientId := patientId;
      this.appointment := appointment;
      this.hasSetOpen := hasSetOpen;
      this.dialogOpen := dialogOpen;
      isLoading := false;
      resets := 0;
    }

    /** The `buttonLabel` switch of the component's body. */
    method Label() returns (text: string)
      ensures text == ButtonLabel(formType)
    {
      match formType {
        case Annule => text := "Annuler le rendez-vous";
        case Cree => text := "Créer un rendez-vous";
        case Valide => text := "Valider le rendez-vous";
      }
    }

    /** `onSubmit`: pick the status, then create or update. `newId` is what
        `ID.unique()` produces, `fault` whether the database call throws and
        `smsFault` whether the messaging call does. */
    method OnSubmit(values: AppointmentValues, backend: Backend, newId: string, format: int -> string,
                    fault: bool, smsFault: bool)
      modifies this, backend
      ensures !isLoading
      ensures TakesCreateBranch(formType, patientId) ==>
                var doc := NewDocument(newId, CreatePayload(userId, patientId, values, Pending));
                var ok := !fault && newId !in old(backend.appointments);
                && backend.appointments == (if ok then old(backend.appointments)[newId := doc] else old(backend.appointments))
                && backend.messages == old(backend.messages)
                && resets == old(resets) + (if ok then 1 else 0)
                && dialogOpen == old(dialogOpen)
      ensures !TakesCreateBranch(formType, patientId) ==>
                var p := UpdatePayload(userId, appointment, values, StatusFor(formType), formType);
                var r := UpdateResult(old(backend.appointments), p, fault);
                && backend.appointments == (if r.Some? then old(backend.appointments)[p.appointmentId.value := r.value]
                                            else old(backend.appointments))
                && backend.messages == old(backend.messages) +
                     (if r.Some? && !smsFault then [Sms(SmsText(p.actionType, p.appointment, format), [], [userId])] else [])
                && resets == old(resets) + (if r.Some? then 1 else 0)
                && dialogOpen == (if r.Some? && hasSetOpen then false else old(dialogOpen))
    {
      isLoading := true;
      var status;
      match formType {
        case Valide => status := Validated;
        case Annule => status := Cancelled;
        case Cree => status := Pending;
      }
      assert status == StatusFor(formType);
      if formType == Cree && patientId != "" {
        var created := backend.CreateAppointment(CreatePayload(userId, patientId, values, status), newId, fault);
        if created.Some? {
          resets := resets + 1;
        }
      } else {
        var p := UpdatePayload(userId, appointment, values, status, formType);
        var updated := backend.UpdateAppointment(p, format, fault, smsFault);
        if updated.Some? {
          if hasSetOpen {
            dialogOpen := false;
          }
          resets := resets + 1;
        }
      }
      isLoading := false;
    }
  }
}
