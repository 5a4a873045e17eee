# CarePulse appointment core, modelled in Dafny

CarePulse is a clinic's appointment application. A patient registers, then
requests an appointment. An administrator confirms it (`'valide'`) or
cancels it (`'annule'`), and each of these sends the patient an SMS. This
project models the decision logic beneath that workflow and proves what it
promises:

- **Form validation** (`lib/validation.ts`, module `Validation`). The zod
  schemas are data: an `ObjectSchema` is the sequence of its fields, each
  with its checks and its messages copied from the source. A small
  interpreter (`ObjectIssues`, `Accepts`) runs a schema over a form object,
  where an absent key is `undefined`. Each schema is then characterised, as
  an if-and-only-if, by explicit per-field predicates. The phone regular
  expression `^\+\d{10,15}$` is a small pattern datatype with matching
  semantics. It is proved equal to "a `+` followed by 10 to 15 ASCII digits".
  zod's `min` and `max` count UTF-16 code units (JavaScript `length`), so
  the model does too.
- **Appointment actions** (`lib/actions/appointment.actions.ts`, module
  `AppointmentActions`). The appointment collection and the messaging
  service are a `Backend` class. It holds a map of documents and the list
  of SMS accepted so far. Whether a call throws is a parameter. The status
  count of `getRecentAppointmentList` is a loop over the documents, proved
  against counting functions. The SMS text is a function, with lemmas about
  its framing and its contents. `updateAppointment` is a method: it updates,
  and only then sends.
- **Appointment form** (`components/forms/AppointmentForm.tsx`, module
  `AppointmentForm`). The form type is a datatype. The status switch, the
  button label, the visible fields and the two payloads are functions. The
  component's state (`isLoading`, the parent dialog's `open` flag, and how
  often `form.reset()` ran) is a class. Its `OnSubmit` drives the `Backend`.
- **Status badge and constants** (`components/StatusBadge.tsx`,
  `constants/index.ts`, modules `StatusBadge` and `Constants`). The badge
  models `clsx` class lists and the icon lookup. The constants are the
  option lists, the doctors, the icons and the patient form's defaults.
- **Consistency** (module `Consistency`). These lemmas tie the tables, the
  schemas, the form and the badge together.

The modules import one another, so the files are given to Dafny together:
`dafny verify *.dfy`.

## Model

| member | source | states |
|---|---|---|
| Validation.Utf16Length | lib/validation.ts:5-7 | The length zod's `min`/`max` compare: between the number of code points and twice that, and equal to it when no character lies above U+FFFF. |
| Validation.PhonePatternMatchesPhoneNumbers | lib/validation.ts:9-11 | `^\+\d{10,15}$` matches a whole string iff it is a `+` followed by 10 to 15 characters `'0'..'9'`, with nothing before or after. |
| Validation.DigitRunMatch | lib/validation.ts:22 | `\d{10,15}` matches a whole string iff it has 10 to 15 characters, all ASCII digits. |
| Validation.CheckIssues | lib/validation.ts:15-18 | zod reports no more issues than a string has checks, and none iff every check holds. Each issue is under the field's key and carries the message of a check that fails, and every failing check's message is reported. |
| Validation.AcceptsEveryField | lib/validation.ts:14-77 | An object passes a `z.object` schema iff it passes each field of the schema. |
| Validation.AcceptsConcatenation | lib/validation.ts:14-77 | An object passes two groups of fields declared together iff it passes each group. |
| Validation.AcceptsOnlyReadsItsKeys | lib/validation.ts:14-77 | Two objects that agree on a schema's keys get the same verdict, whatever else they hold. |
| Validation.BoundedString | lib/validation.ts:15-18 | A `z.string().min(lo).max(hi)` field accepts exactly a present string of length `lo..hi`. |
| Validation.ShortString | lib/validation.ts:43 | A `z.string().min(lo)` field accepts exactly a present string of length at least `lo`. |
| Validation.PhoneString | lib/validation.ts:20-22 | A phone field accepts exactly a present string that is a phone number. |
| Validation.EmailString | lib/validation.ts:19 | An email field accepts exactly a present string that passes the email test. |
| Validation.OptionalString | lib/validation.ts:52-57 | `z.string().optional()` accepts exactly an absent value or any string. |
| Validation.EnumString | lib/validation.ts:24 | `z.enum(options)` accepts exactly a present string that is one of the options. |
| Validation.ConsentField | lib/validation.ts:59-64 | A consent with default `false` and `refine(v => v === true)` accepts only a present `true`; absent or `false` fails. |
| Validation.OptionalAnything | lib/validation.ts:58 | `z.custom<File[]>().optional()` accepts every value, absent included. |
| Validation.UserFormValidationAccepts | lib/validation.ts:4-12 | The user form passes iff the name has 2..50 characters, the email passes the email test and the phone is a phone number. |
| Validation.PersonalFieldsAccept | lib/validation.ts:15-42 | The personal fields pass iff name and emergency contact name have 2..50 characters, address 5..500, occupation 2..500, gender is exactly "Homme" or "Femme", both phones are phone numbers, the email passes and the birth date is a date. |
| Validation.MedicalFieldsAccept | lib/validation.ts:43-55 | The medical fields pass iff the physician has at least 2 characters, insurance provider and policy number 2..50, and the four histories are absent or strings. |
| Validation.IdentificationFieldsAccept | lib/validation.ts:56-58 | The identification fields pass iff type and number are absent or strings; the document is never checked. |
| Validation.ConsentFieldsAccept | lib/validation.ts:59-76 | The consent fields pass iff all three consents are present and `true`. |
| Validation.PatientGroups | lib/validation.ts:14-77 | The patient schema passes iff each of its four groups passes. |
| Validation.PatientFormValidationAccepts | lib/validation.ts:14-77 | The patient schema passes iff the personal, medical and identification rules hold and all three consents are given. |
| Validation.MissingConsentRejected | lib/validation.ts:59-76 | A patient object whose consent is absent or `false` is rejected, whatever else it holds. |
| Validation.OptionalPatientFieldsIrrelevant | lib/validation.ts:52-58 | Giving an optional patient field any string, or the document any value, gives the same verdict as leaving it out. |
| Validation.CreateAppointmentSchemaAccepts | lib/validation.ts:79-88 | The create schema passes iff the physician has at least 2 characters, the schedule is a date, the reason has 2..500 characters, and note and cancellation reason are absent or strings. |
| Validation.ScheduleAppointmentSchemaAccepts | lib/validation.ts:90-96 | The schedule schema passes iff the physician has at least 2 characters, the schedule is a date, and reason, note and cancellation reason are absent or strings. |
| Validation.CancelAppointmentSchemaAccepts | lib/validation.ts:98-107 | The cancel schema passes iff the physician has at least 2 characters, the schedule is a date, reason and note are absent or strings, and the cancellation reason has 2..500 characters. |
| Validation.GetAppointmentSchemaCases | lib/validation.ts:109-118 | `getAppointmentSchema` gives the create schema exactly for "create", the cancel schema exactly for "cancel", and the schedule schema for every other string. |
| Constants.FindDoctor | components/table/columns.tsx:56 | A lookup by name returns a listed doctor of that name, the first one. It returns nothing iff no doctor has that name. |
| Constants.DoctorNamesDistinct | constants/index.ts:40-77 | The list holds 9 doctors with pairwise distinct names. |
| Constants.FindDoctorIsExact | constants/index.ts:40-77 | In a list with distinct names, looking up a listed doctor's name finds exactly that doctor. |
| Constants.FindDoctorByName | constants/index.ts:40-77 | Looking up the name of any doctor of `Doctors` finds that doctor and no other. |
| Constants.StatusIconTable | constants/index.ts:79-83 | `StatusIcon` has exactly the keys 'validé', 'en attente' and 'annulé', with pairwise distinct icon paths. |
| StatusBadge.Kept | components/StatusBadge.tsx:10-14 | The keys `clsx` keeps from an object: no more than it was given, and a class is kept iff its condition is true. |
| StatusBadge.IconSource | components/StatusBadge.tsx:17 | The icon is `StatusIcon[status]`, defined iff the string is one of the three statuses. |
| StatusBadge.BadgeFollowsColourTable | components/StatusBadge.tsx:10-28 | 'validé' gets green, 'en attente' blue and 'annulé' red, as its one background class after "status-badge" and its one text class after "text-12-semibold capitalize". Any other string gets the base class alone. |
| StatusBadge.OneColourPerStatus | components/StatusBadge.tsx:10-28 | Each status has exactly one background and one text colour class; any other string has none. |
| AppointmentActions.NewDocument | lib/actions/appointment.actions.ts:10-17 | The created document carries the new id and every field of the payload, with no cancellation reason. |
| AppointmentActions.ApplyPatch | lib/actions/appointment.actions.ts:104-109 | An update overwrites physician, schedule and status, and the cancellation reason only when one is given. Id, user, patient, reason and note are kept. |
| AppointmentActions.UpdateResult | lib/actions/appointment.actions.ts:103-110 | An update yields a document iff the call does not throw and the id is defined and names a stored document. The document is the stored one, patched. |
| AppointmentActions.SmsTextFraming | lib/actions/appointment.actions.ts:111 | The SMS starts with "Salutations de CarePulse. " and ends with ".". It continues with 'V' (a confirmation) exactly when the type is 'valide', and with 'N' (a cancellation) otherwise. |
| AppointmentActions.ConfirmationContents | lib/actions/appointment.actions.ts:111 | For 'valide' the SMS contains the formatted schedule and "Dr. " followed by the physician. |
| AppointmentActions.CancellationContents | lib/actions/appointment.actions.ts:111 | For any other type the SMS contains the formatted schedule and the cancellation reason as interpolated ("undefined" when missing). |
| AppointmentActions.ConfirmationAndCancellationDiffer | lib/actions/appointment.actions.ts:111 | A confirmation SMS never equals a cancellation SMS, whatever the appointments. |
| AppointmentActions.CountByStatus | lib/actions/appointment.actions.ts:63-84 | The `reduce` over the documents ends with each counter equal to the number of documents of its status. |
| AppointmentActions.CountsOfNothing | lib/actions/appointment.actions.ts:63-67 | The counters start at 0: the counts of an empty list are the initial counts. |
| AppointmentActions.CountsPartition | lib/actions/appointment.actions.ts:70-80 | The three counts plus the documents of any other status make up the whole list. |
| AppointmentActions.CountsAtMostDocuments | lib/actions/appointment.actions.ts:70-80 | The three counts sum to at most the number of documents, with equality iff no document has another status. |
| AppointmentActions.NoUnknownIffAllKnown | lib/actions/appointment.actions.ts:70-80 | No document is left uncounted iff every status is one of the three. |
| AppointmentActions.CountAppend | lib/actions/appointment.actions.ts:68-84 | Counting two lists one after the other adds their counts. |
| AppointmentActions.CountIgnoresOrder | lib/actions/appointment.actions.ts:68-84 | The counts are unchanged by any reordering of the documents. |
| AppointmentActions.GetRecentAppointmentList | lib/actions/appointment.actions.ts:40-94 | On failure the list is undefined. Otherwise `totalCount` is the backend's `total` (not recounted), the documents pass through unchanged, and the three counts are the per-status counts. |
| AppointmentActions.Backend.CreateAppointment | lib/actions/appointment.actions.ts:10-23 | A create succeeds iff the call does not throw and the new id is unused. The store then gains exactly the new document; otherwise nothing changes. No SMS is sent. |
| AppointmentActions.Backend.GetAppointment | lib/actions/appointment.actions.ts:26-37 | A read returns the stored document iff it exists and the call does not throw, and undefined otherwise. |
| AppointmentActions.Backend.SendSmsNotification | lib/actions/appointment.actions.ts:121-133 | A successful send adds exactly one SMS with the content, no topics and the one user. A failed one adds nothing and returns undefined. The store is untouched. |
| AppointmentActions.Backend.UpdateAppointment | lib/actions/appointment.actions.ts:97-118 | A failed update changes nothing, sends nothing and returns undefined. A successful one stores the patched document and requests exactly one SMS, to `[userId]`, with the built text. A failing SMS adds nothing but leaves the result as it is. |
| AppointmentForm.StatusForIsOneToOne | components/forms/AppointmentForm.tsx:53-63 | Each form type sets a different status, each one that has an icon: 'validé' exactly for 'valide', 'annulé' exactly for 'annule', 'en attente' otherwise. |
| AppointmentForm.ButtonLabelsDistinct | components/forms/AppointmentForm.tsx:104-117 | The three types have three different button labels. |
| AppointmentForm.Form.Label | components/forms/AppointmentForm.tsx:104-117 | The `buttonLabel` switch: "Annuler le rendez-vous" for 'annule', "Créer un rendez-vous" for 'crée', "Valider le rendez-vous" for 'valide'. |
| AppointmentForm.ButtonAndHeaderByType | components/forms/AppointmentForm.tsx:122-192 | Only 'annule' gets "shad-danger-btn w-full"; the others get "shad-primary-btn w-full". The header shows only for 'crée'. |
| AppointmentForm.FieldVisibility | components/forms/AppointmentForm.tsx:128-189 | Physician, schedule, reason and note are shown iff the type is not 'annule'. The cancellation reason is shown iff it is. |
| AppointmentForm.CreatePayload | components/forms/AppointmentForm.tsx:66-74 | The create payload copies the user id, the patient id as `patient`, physician, schedule, reason, note and the status. |
| AppointmentForm.UpdatePayload | components/forms/AppointmentForm.tsx:81-91 | The update payload carries the user, the appointment's id (undefined without an appointment) and the type. Its patch holds only physician, schedule, status and cancellation reason. |
| AppointmentForm.CreatedAppointmentsArePending | components/forms/AppointmentForm.tsx:53-75 | Whenever the create branch is taken, the created document's status is 'en attente'. |
| AppointmentForm.UpdateKeepsReasonAndNote | components/forms/AppointmentForm.tsx:81-92 | An update from the form never changes the stored reason or note. It sets the form's status and physician, and the cancellation reason when one is given. |
| AppointmentForm.RequestWithoutPatientFails | components/forms/AppointmentForm.tsx:65-83 | 'crée' with an empty patient id takes the update branch. Without an appointment that update always fails. |
| AppointmentForm.SmsKindFollowsStatus | components/forms/AppointmentForm.tsx:53-92 | The SMS after a form update is a confirmation exactly when the form set the status to 'validé'. |
| AppointmentForm.FormSchemaIsAlwaysSchedule | components/forms/AppointmentForm.tsx:36 | With the French types, the form validates against the schedule schema for every type, never against create or cancel. |
| AppointmentForm.MissingReasonsPass | components/forms/AppointmentForm.tsx:36 | A cancellation and a request whose reasons are `''` pass the schema the form uses. The cancel and create schemas reject them. |
| AppointmentForm.DefaultValues | components/forms/AppointmentForm.tsx:40-48 | The form starts from the appointment's physician, schedule and reason, or from empty strings and the current time without one. Note and cancellation reason are always strings: the stored one, or `''` when there is none. |
| AppointmentForm.EmptyCancellationReasonIsSent | components/forms/AppointmentForm.tsx:81-92 | A cancellation whose reason is `''` sends an SMS ending in "La raison : ." and stores the empty reason. |
| AppointmentForm.UntouchedCancellationPasses | components/forms/AppointmentForm.tsx:36-48 | Cancelling a stored appointment without a cancellation reason, with the form left as it starts, passes the schema the form uses. The cancel schema rejects the same values. |
| AppointmentForm.IntendedSchemaChecksShownReason | lib/validation.ts:79-107 | Under the schema each type calls for, a request needs a reason of 2..500, and a cancellation a cancellation reason of 2..500. In each case that is the field the form shows. |
| AppointmentForm.Form.constructor | components/forms/AppointmentForm.tsx:19-34 | The component starts with its props and with `isLoading` false. |
| AppointmentForm.Form.OnSubmit | components/forms/AppointmentForm.tsx:51-102 | Ends with `isLoading` false. It creates iff the type is 'crée' and the patient id is non-empty; the document is then pending, no SMS is sent, and the form is reset only on success. Otherwise the update payload goes to `updateAppointment`. On its success the dialog closes (when `setOpen` was given) and the form is reset; on failure neither happens. |
| Consistency.GenderOptionsMatchSchema | constants/index.ts:1-9 | `GenderOptions` is ["Homme", "Femme"]. It is the patient schema's gender enum, and the default gender is one of its values. |
| Consistency.DefaultIdentificationTypeIsListed | constants/index.ts:21-38 | The default identification type is the first of `IdentificationTypes`. |
| Consistency.RegisterFormDefaultsFail | components/forms/RegisterForm.tsx:28-33 | The registration form's initial values fail the patient schema: no consent is given, and the name and the address are too short. |
| Consistency.DoctorNamesPassPhysicianCheck | constants/index.ts:40-77 | Every doctor the form offers passes the physician check of the appointment schemas. |
| Consistency.FormStatusesArePresentable | components/StatusBadge.tsx:10-28 | Every status the appointment form can set has an icon, and exactly one background and one text colour. |

## Left out

- The Appwrite SDK is replaced by the `Backend` class. Calls that throw are boolean parameters. `ID.unique()` is the parameter `newId`. `listDocuments` is the input of `GetRecentAppointmentList`.
- `revalidatePath`, `router.push`, `parseStringify`, `console.*` and async scheduling have no effect on the modelled state. `form.reset()` is only counted.
- `formatDateTime(...).dateTime` is the function parameter `format`. `lib/utils` is not part of this model.
- `z.string().email()` and date parsing are library logic not visible here. They are the two predicates of `Env`. `Date.now()` is the parameter `now`.
- `z.coerce.date()` is modelled on the value kinds a form produces. An array is taken to be never a date, and an object other than a `Date` is not modelled.
- zod's own default messages (invalid type, invalid enum value, invalid date) are issue kinds, not texts. The messages given in the source are modelled verbatim. One example is the occupation message, "au plus 50 caractères", on a check that allows 500.
- zod's parsed output (the `default(false)` value and stripped unknown keys) is not modelled; only the verdict and the issues are.
- What the user types into the form is not modelled: `OnSubmit` takes any values. `DefaultValues` gives the values the form starts from.
- The JSX rendering is not modelled: the doctor list's images, the date picker's format, and the parent pages and tables. Which fields are visible, the header, the button class and the label are modelled.
- `setOpen` is a flag, `hasSetOpen`. The parent's dialog state is the field `dialogOpen`.
- The form's type on the server side is `UpdateAppointmentParams.type`, modelled as `UpdateParams.actionType`. The source's typing does not constrain it beyond a string.

## Findings

| source | as written | input that shows it | evidently intended | confidence | as-written member | corrected member |
|---|---|---|---|---|---|---|
| components/forms/AppointmentForm.tsx:36 | `getAppointmentSchema(type)` gets 'crée', 'annule' or 'valide', but the switch at lib/validation.ts:111-114 matches "create" and "cancel". So every form is validated by the schedule schema. | type 'annule' on an appointment with no cancellation reason, submitted as it starts: the cancellation reason is `''` (components/forms/AppointmentForm.tsx:47). It passes validation, and the cancellation SMS then ends in "La raison : .". | A request is validated by the create schema (reason 2..500) and a cancellation by the cancel schema (cancellation reason 2..500). | not executed | AppointmentForm.UntouchedCancellationPasses | AppointmentForm.IntendedSchemaChecksShownReason |
