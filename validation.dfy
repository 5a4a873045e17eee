/** lib/validation.ts: the zod schemas of the user, patient and appointment
    forms. Each schema is kept as data, field by field and message by message,
    and the part of zod's parsing those schemas rely on is an interpreter over
    JavaScript-like input objects. The lemmas at the end say, in plain terms,
    which objects each schema accepts. */
module Validation {
  import opened Wrappers

  // ---------------------------------------------------------------------------
  // JavaScript strings

  /** JavaScript's `length` of `s`, which is what zod's `min` and `max`
      measure: the number of UTF-16 code units, two for a code point above
      U+FFFF. */
  function Utf16Length(s: string): (n: nat)
    ensures |s| <= n <= 2 * |s|
    ensures (forall i | 0 <= i < |s| :: s[i] as int <= 0xFFFF) ==> n == |s|
  {
    if s == [] then 0
    else Utf16Length(s[..|s| - 1]) + (if s[|s| - 1] as int > 0xFFFF then 2 else 1)
  }

  // ---------------------------------------------------------------------------
  // The regular expressions of the schemas: a sequence of repeated atoms,
  // anchored at both ends (`^...$`, no flags).

  /** `\d` without the `u` flag is the ASCII digits only. */
  datatype Atom = Literal(c: char) | Digit

  /** An atom repeated between `min` and `max` times, as in `\d{10,15}`. */
  datatype Piece = Piece(atom: Atom, min: nat, max: nat)

  type Pattern = seq<Piece>

  predicate AtomMatches(a: Atom, c: char) {
    match a
    case Literal(l) => c == l
    case Digit => IsDigit(c)
  }

  /** The whole of `s` (nothing before, nothing after) is a word of `p`. */
  predicate FullMatch(p: Pattern, s: string)
    decreases |p|
  {
    if p == [] then s == []
    else exists k | p[0].min <= k <= p[0].max && k <= |s| ::
        (forall i | 0 <= i < k :: AtomMatches(p[0].atom, s[i])) && FullMatch(p[1..], s[k..])
  }

  /** `^\+\d{10,15}$`, the phone number pattern of both forms. */
  const PhonePattern: Pattern := [Piece(Literal('+'), 1, 1), Piece(Digit, 10, 15)]

  predicate IsDigit(c: char) {
    '0' <= c <= '9'
  }

  /** A phone number as the forms accept it: a `+` and then 10 to 15 digits. */
  predicate IsPhoneNumber(s: string) {
    11 <= |s| <= 16 && s[0] == '+' && forall i | 1 <= i < |s| :: IsDigit(s[i])
  }

  /** Matching `\d{10,15}` against all of `t`. */
  lemma {:induction false} DigitRunMatch(t: string)
    ensures FullMatch([Piece(Digit, 10, 15)], t) <==>
            10 <= |t| <= 15 && forall i | 0 <= i < |t| :: IsDigit(t[i])
  {
    var p := [Piece(Digit, 10, 15)];
    assert p[1..] == [];
    if 10 <= |t| <= 15 && forall i | 0 <= i < |t| :: IsDigit(t[i]) {
      var k := |t|;
      assert (forall i | 0 <= i < k :: AtomMatches(p[0].atom, t[i])) && FullMatch(p[1..], t[k..]);
    }
    if FullMatch(p, t) {
      var k :| p[0].min <= k <= p[0].max && k <= |t| &&
        (forall i | 0 <= i < k :: AtomMatches(p[0].atom, t[i])) && FullMatch(p[1..], t[k..]);
      assert t[k..] == [];
    }
  }

  /** The regular expression accepts exactly the phone numbers. */
  lemma {:induction false} PhonePatternMatchesPhoneNumbers(s: string)
    ensures FullMatch(PhonePattern, s) <==> IsPhoneNumber(s)
  {
    var p := PhonePattern;
    assert p[1..] == [Piece(Digit, 10, 15)];
    if s != [] {
      DigitRunMatch(s[1..]);
    }
    if IsPhoneNumber(s) {
      assert (forall i | 0 <= i < 1 :: AtomMatches(p[0].atom, s[i])) && FullMatch(p[1..], s[1..]);
    }
    if FullMatch(p, s) {
      var k :| p[0].min <= k <= p[0].max && k <= |s| &&
        (forall i | 0 <= i < k :: AtomMatches(p[0].atom, s[i])) && FullMatch(p[1..], s[k..]);
      assert k == 1 && s[0] == '+';
      forall i | 1 <= i < |s| ensures IsDigit(s[i]) {
        assert s[1..][i - 1] == s[i];
      }
    }
  }

  // ---------------------------------------------------------------------------
  // Input objects and schemas

  /** A form value as the resolver hands it to zod. */
  datatype Value =
    | Str(s: string)
    | Bool(b: bool)
    | DateValue(time: int)   // a valid `Date`, in milliseconds
    | InvalidDate            // `new Date(NaN)`
    | Files(names: seq<string>)

  /** A form's values; a key that is absent is `undefined`. */
  type FormObject = map<string, Value>

  /** What zod delegates: `z.string().email()`'s test and `new Date(s)` on a string. */
  datatype Env = Env(isEmail: string -> bool, parsesAsDate: string -> bool)

  datatype StringCheck =
    | MinLength(n: nat, message: string)    // `.min(n, message)`
    | MaxLength(n: nat, message: string)    // `.max(n, message)`
    | Email(message: string)                // `.email(message)`
    | Matches(pattern: Pattern, message: string)  // `.refine(v => /.../.test(v), message)`

  datatype FieldSchema =
    | StringField(checks: seq<StringCheck>)              // `z.string()` and its checks
    | EnumField(options: seq<string>)                    // `z.enum([...])`
    | CoercedDate                                        // `z.coerce.date()`
    | Unchecked                                          // `z.custom<T>()` without a check
    | TrueBoolean(default: bool, message: string)        // `z.boolean().default(d).refine(v => v === true, message)`
    | Optional(inner: FieldSchema)                       // `.optional()`

  datatype Field = Field(key: string, schema: FieldSchema)

  /** `z.object({...})`: its fields in declaration order. */
  type ObjectSchema = seq<Field>

  datatype IssueKind = InvalidType | InvalidEnumValue | InvalidDateIssue | Message(text: string)

  /** One entry of a failed parse's issue list. */
  datatype Issue = Issue(path: string, kind: IssueKind)

  function Lookup(obj: FormObject, key: string): (v: Option<Value>)
    ensures v.Some? <==> key in obj
    ensures v.Some? ==> v.value == obj[key]
  {
    if key in obj then Some(obj[key]) else None
  }

  predicate CheckHolds(c: StringCheck, s: string, env: Env) {
    match c
    case MinLength(n, _) => Utf16Length(s) >= n
    case MaxLength(n, _) => Utf16Length(s) <= n
    case Email(_) => env.isEmail(s)
    case Matches(p, _) => FullMatch(p, s)
  }

  /** zod runs every check of a string and reports each one that fails. */
  function CheckIssues(key: string, checks: seq<StringCheck>, s: string, env: Env): (r: seq<Issue>)
    ensures |r| <= |checks|
    ensures r == [] <==> forall i | 0 <= i < |checks| :: CheckHolds(checks[i], s, env)
    ensures forall j | 0 <= j < |r| :: r[j].path == key && r[j].kind.Message?
    ensures forall j | 0 <= j < |r| :: exists i | 0 <= i < |checks| ::
              !CheckHolds(checks[i], s, env) && r[j].kind == Message(checks[i].message)
    ensures forall i | 0 <= i < |checks| && !CheckHolds(checks[i], s, env) ::
              Issue(key, Message(checks[i].message)) in r
  {
    if checks == [] then []
    else
      (if CheckHolds(checks[0], s, env) then [] else [Issue(key, Message(checks[0].message))])
      + CheckIssues(key, checks[1..], s, env)
  }

  /** `new Date(v)` is a valid date. */
  predicate DateCoerces(v: Option<Value>, env: Env) {
    match v
    case None => false                   // new Date(undefined)
    case Some(Str(s)) => env.parsesAsDate(s)
    case Some(Bool(_)) => true           // new Date(true) is one millisecond after the epoch
    case Some(DateValue(_)) => true
    case Some(InvalidDate) => false
    case Some(Files(_)) => false         // an array becomes a string that is not a date
  }

  function FieldIssues(key: string, fs: FieldSchema, v: Option<Value>, env: Env): seq<Issue> {
    match fs
    case Optional(inner) => if v.None? then [] else FieldIssues(key, inner, v, env)
    case Unchecked => []
    case CoercedDate => if DateCoerces(v, env) then [] else [Issue(key, InvalidDateIssue)]
    case StringField(checks) =>
      if v.Some? && v.value.Str? then CheckIssues(key, checks, v.value.s, env)
      else [Issue(key, InvalidType)]
    case EnumField(options) =>
      if v.Some? && v.value.Str? then (if v.value.s in options then [] else [Issue(key, InvalidEnumValue)])
      else [Issue(key, InvalidType)]
    case TrueBoolean(default, message) =>
      if v.None? then (if default then [] else [Issue(key, Message(message))])
      else if !v.value.Bool? then [Issue(key, InvalidType)]
      else if v.value.b then []
      else [Issue(key, Message(message))]
  }

  predicate FieldAccepts(f: Field, obj: FormObject, env: Env) {
    FieldIssues(f.key, f.schema, Lookup(obj, f.key), env) == []
  }

  /** `schema.safeParse(obj).error.issues`: the issues of every field, in order. */
  function ObjectIssues(schema: ObjectSchema, obj: FormObject, env: Env): seq<Issue> {
    if schema == [] then []
    else FieldIssues(schema[0].key, schema[0].schema, Lookup(obj, schema[0].key), env)
         + ObjectIssues(schema[1..], obj, env)
  }

  /** `schema.safeParse(obj).success`. */
  predicate Accepts(schema: ObjectSchema, obj: FormObject, env: Env) {
    ObjectIssues(schema, obj, env) == []
  }

  /** An object passes a schema iff it passes each of its fields. */
  lemma {:induction false} AcceptsEveryField(schema: ObjectSchema, obj: FormObject, env: Env)
    ensures Accepts(schema, obj, env) <==> forall i | 0 <= i < |schema| :: FieldAccepts(schema[i], obj, env)
  {
    if schema != [] {
      AcceptsEveryField(schema[1..], obj, env);
      assert forall i | 1 <= i < |schema| :: schema[1..][i - 1] == schema[i];
    }
  }

  // ---------------------------------------------------------------------------
  // The schemas of lib/validation.ts

  const UserFormValidation: ObjectSchema := [
    Field("name", StringField([
      MinLength(2, "Le nom doit avoir au moins 2 caractères."),
      MaxLength(50, "Le nom doit avoir au plus 50 caractères.")])),
    Field("email", StringField([Email("Adresse email non valide.")])),
    Field("phone", StringField([Matches(PhonePattern, "Numéro de téléphone non valide.")]))
  ]

  /** `PatientFormValidation`, written as the concatenation of its four
      groups of fields (personal, medical, identification, consents), which
      keeps the declaration order of the source. */
  const PatientFormValidation: ObjectSchema :=
    PatientPersonalFields + PatientMedicalFields + PatientIdentificationFields + PatientConsentFields

  const PatientPersonalFields: ObjectSchema := [
    Field("name", StringField([
      MinLength(2, "Le nom doit avoir au moins 2 caractères."),
      MaxLength(50, "Le nom doit avoir au plus 50 caractères.")])),
    Field("email", StringField([Email("Adresse email non valide.")])),
    Field("phone", StringField([Matches(PhonePattern, "Numéro de téléphone non valide.")])),
    Field("birthDate", CoercedDate),
    Field("gender", EnumField(["Homme", "Femme"])),
    Field("address", StringField([
      MinLength(5, "L'adresse doit avoir au moins 5 caractères."),
      MaxLength(500, "L'adresse doit avoir au plus 500 caractères.")])),
    Field("occupation", StringField([
      MinLength(2, "Le métier doit avoir au moins 2 caractères."),
      MaxLength(500, "Le métier doit avoir au plus 50 caractères.")])),
    Field("emergencyContactName", StringField([
      MinLength(2, "Le nom du contact doit avoir au moins 2 caractères."),
      MaxLength(50, "Le nom du contact doit avoir au plus 50 caractères.")])),
    Field("emergencyContactNumber", StringField([
      Matches(PhonePattern, "Numéro en cas d'urgence non valide.")]))
  ]

  const PatientMedicalFields: ObjectSchema := [
    Field("primaryPhysician", StringField([MinLength(2, "Sélectionnez au moins un docteur.")])),
    Field("insuranceProvider", StringField([
      MinLength(2, "Le nom de la mutuelle doit avoir au moins 2 caractères."),
      MaxLength(50, "Le nom de la mutuelle doit avoir au plus 50 caractères.")])),
    Field("insurancePolicyNumber", StringField([
      MinLength(2, "Le numéro de la mutuelle doit avoir au moins 2 caractères."),
      MaxLength(50, "Le numéro de mutuelle doit avoir au plus 50 caractères.")])),
    Field("allergies", Optional(StringField([]))),
    Field("currentMedication", Optional(StringField([]))),
    Field("familyMedicalHistory", Optional(StringField([]))),
    Field("pastMedicalHistory", Optional(StringField([])))
  ]

  const PatientIdentificationFields: ObjectSchema := [
    Field("identificationType", Optional(StringField([]))),
    Field("identificationNumber", Optional(StringField([]))),
    Field("identificationDocument", Optional(Unchecked))
  ]

  const PatientConsentFields: ObjectSchema := [
    Field("treatmentConsent",
      TrueBoolean(false, "Vous devez accepter le traitement pour pouvoir continuer.")),
    Field("disclosureConsent",
      TrueBoolean(false, "Vous devez accepter la divulgation pour pouvoir continuer.")),
    Field("privacyConsent",
      TrueBoolean(false, "Vous devez accepter la politique de confidentialité pour pouvoir continuer."))
  ]

  const CreateAppointmentSchema: ObjectSchema := [
    Field("primaryPhysician", StringField([MinLength(2, "Sélectionnez au moins un docteur.")])),
    Field("schedule", CoercedDate),
    Field("reason", StringField([
      MinLength(2, "Le motif doit avoir au moins 2 caractères."),
      MaxLength(500, "Le motif doit avoir au plus 500 caractères.")])),
    Field("note", Optional(StringField([]))),
    Field("cancellationReason", Optional(StringField([])))
  ]

  const ScheduleAppointmentSchema: ObjectSchema := [
    Field("primaryPhysician", StringField([MinLength(2, "Sélectionnez au moins un docteur.")])),
    Field("schedule", CoercedDate),
    Field("reason", Optional(StringField([]))),
    Field("note", Optional(StringField([]))),
    Field("cancellationReason", Optional(StringField([])))
  ]

  const CancelAppointmentSchema: ObjectSchema := [
    Field("primaryPhysician", StringField([MinLength(2, "Sélectionnez au moins un docteur.")])),
    Field("schedule", CoercedDate),
    Field("reason", Optional(StringField([]))),
    Field("note", Optional(StringField([]))),
    Field("cancellationReason", StringField([
      MinLength(2, "Le motif doit avoir au moins 2 caractères."),
      MaxLength(500, "Le motif doit avoir au plus 500 caractères.")]))
  ]

  /** `getAppointmentSchema`: a `switch` on the English action names. */
  function GetAppointmentSchema(actionType: string): ObjectSchema {
    if actionType == "create" then CreateAppointmentSchema
    else if actionType == "cancel" then CancelAppointmentSchema
    else ScheduleAppointmentSchema
  }

  // ---------------------------------------------------------------------------
  // What each field accepts, stated without the interpreter

  predicate StringWithin(obj: FormObject, key: string, lo: nat, hi: nat) {
    key in obj && obj[key].Str? && lo <= Utf16Length(obj[key].s) <= hi
  }

  predicate StringAtLeast(obj: FormObject, key: string, lo: nat) {
    key in obj && obj[key].Str? && lo <= Utf16Length(obj[key].s)
  }

  predicate PhoneAt(obj: FormObject, key: string) {
    key in obj && obj[key].Str? && IsPhoneNumber(obj[key].s)
  }

  predicate EmailAt(obj: FormObject, key: string, env: Env) {
    key in obj && obj[key].Str? && env.isEmail(obj[key].s)
  }

  /** The value at `key` coerces to a valid date. */
  predicate DateAt(obj: FormObject, key: string, env: Env) {
    DateCoerces(Lookup(obj, key), env)
  }

  predicate OneOf(obj: FormObject, key: string, options: set<string>) {
    key in obj && obj[key].Str? && obj[key].s in options
  }

  /** An `.optional()` string: absent, or any string at all. */
  predicate StringOrAbsent(obj: FormObject, key: string) {
    key !in obj || obj[key].Str?
  }

  /** A consent that was given: present and `true` (absent means `false`). */
  predicate IsTrue(obj: FormObject, key: string) {
    key in obj && obj[key] == Bool(true)
  }

  lemma BoundedString(f: Field, lo: nat, hi: nat, m1: string, m2: string, obj: FormObject, env: Env)
    requires f.schema == StringField([MinLength(lo, m1), MaxLength(hi, m2)])
    ensures FieldAccepts(f, obj, env) <==> StringWithin(obj, f.key, lo, hi)
  {
    var checks := [MinLength(lo, m1), MaxLength(hi, m2)];
    if f.key in obj && obj[f.key].Str? {
      var r := CheckIssues(f.key, checks, obj[f.key].s, env);
      assert r == [] <==> CheckHolds(checks[0], obj[f.key].s, env) && CheckHolds(checks[1], obj[f.key].s, env);
    }
  }

  lemma ShortString(f: Field, lo: nat, m: string, obj: FormObject, env: Env)
    requires f.schema == StringField([MinLength(lo, m)])
    ensures FieldAccepts(f, obj, env) <==> StringAtLeast(obj, f.key, lo)
  {
    if f.key in obj && obj[f.key].Str? {
      var r := CheckIssues(f.key, [MinLength(lo, m)], obj[f.key].s, env);
      assert r == [] <==> CheckHolds(MinLength(lo, m), obj[f.key].s, env);
    }
  }

  lemma PhoneString(f: Field, m: string, obj: FormObject, env: Env)
    requires f.schema == StringField([Matches(PhonePattern, m)])
    ensures FieldAccepts(f, obj, env) <==> PhoneAt(obj, f.key)
  {
    if f.key in obj && obj[f.key].Str? {
      PhonePatternMatchesPhoneNumbers(obj[f.key].s);
      var r := CheckIssues(f.key, [Matches(PhonePattern, m)], obj[f.key].s, env);
      assert r == [] <==> CheckHolds(Matches(PhonePattern, m), obj[f.key].s, env);
    }
  }

  lemma EmailString(f: Field, m: string, obj: FormObject, env: Env)
    requires f.schema == StringField([Email(m)])
    ensures FieldAccepts(f, obj, env) <==> EmailAt(obj, f.key, env)
  {
    if f.key in obj && obj[f.key].Str? {
      var r := CheckIssues(f.key, [Email(m)], obj[f.key].s, env);
      assert r == [] <==> CheckHolds(Email(m), obj[f.key].s, env);
    }
  }

  lemma OptionalString(f: Field, obj: FormObject, env: Env)
    requires f.schema == Optional(StringField([]))
    ensures FieldAccepts(f, obj, env) <==> StringOrAbsent(obj, f.key)
  {
    var v := Lookup(obj, f.key);
    if v.Some? {
      assert FieldIssues(f.key, f.schema, v, env) == FieldIssues(f.key, StringField([]), v, env);
      if v.value.Str? {
        assert CheckIssues(f.key, [], v.value.s, env) == [];
      }
    }
  }

  lemma DateField(f: Field, obj: FormObject, env: Env)
    requires f.schema == CoercedDate
    ensures FieldAccepts(f, obj, env) <==> DateAt(obj, f.key, env)
  {
  }

  lemma EnumString(f: Field, options: seq<string>, obj: FormObject, env: Env)
    requires f.schema == EnumField(options)
    ensures FieldAccepts(f, obj, env) <==> OneOf(obj, f.key, set o | o in options)
  {
  }

  lemma ConsentField(f: Field, m: string, obj: FormObject, env: Env)
    requires f.schema == TrueBoolean(false, m)
    ensures FieldAccepts(f, obj, env) <==> IsTrue(obj, f.key)
  {
  }

  lemma OptionalAnything(f: Field, obj: FormObject, env: Env)
    requires f.schema == Optional(Unchecked)
    ensures FieldAccepts(f, obj, env)
  {
    var v := Lookup(obj, f.key);
    if v.Some? {
      assert FieldIssues(f.key, f.schema, v, env) == FieldIssues(f.key, Unchecked, v, env);
    }
  }

  // ---------------------------------------------------------------------------
  // The schemas, characterised

  /** `UserFormValidation` accepts an object iff its name has 2 to 50
      characters, its email passes zod's email test and its phone is a `+`
      followed by 10 to 15 digits. */
  lemma UserFormValidationAccepts(obj: FormObject, env: Env)
    ensures Accepts(UserFormValidation, obj, env) <==>
            StringWithin(obj, "name", 2, 50) && EmailAt(obj, "email", env) && PhoneAt(obj, "phone")
  {
    var s := UserFormValidation;
    AcceptsEveryField(s, obj, env);
    BoundedString(s[0], 2, 50, "Le nom doit avoir au moins 2 caractères.", "Le nom doit avoir au plus 50 caractères.", obj, env);
    EmailString(s[1], "Adresse email non valide.", obj, env);
    PhoneString(s[2], "Numéro de téléphone non valide.", obj, env);
  }

  /** The issues of two schemas one after the other. */
  lemma {:induction false} AcceptsConcatenation(a: ObjectSchema, b: ObjectSchema, obj: FormObject, env: Env)
    ensures Accepts(a + b, obj, env) <==> Accepts(a, obj, env) && Accepts(b, obj, env)
  {
    if a == [] {
      assert a + b == b;
    } else {
      assert (a + b)[1..] == a[1..] + b;
      AcceptsConcatenation(a[1..], b, obj, env);
    }
  }

  /** Objects that agree on the keys of a schema get the same verdict. */
  lemma {:induction false} AcceptsOnlyReadsItsKeys(schema: ObjectSchema, a: FormObject, b: FormObject, env: Env)
    requires forall i | 0 <= i < |schema| :: Lookup(a, schema[i].key) == Lookup(b, schema[i].key)
    ensures Accepts(schema, a, env) == Accepts(schema, b, env)
  {
    if schema != [] {
      assert forall i | 1 <= i < |schema| :: schema[1..][i - 1] == schema[i];
      AcceptsOnlyReadsItsKeys(schema[1..], a, b, env);
    }
  }

  predicate PersonalDetailsValid(obj: FormObject, env: Env) {
    && StringWithin(obj, "name", 2, 50)
    && EmailAt(obj, "email", env)
    && PhoneAt(obj, "phone")
    && DateAt(obj, "birthDate", env)
    && OneOf(obj, "gender", {"Homme", "Femme"})
    && StringWithin(obj, "address", 5, 500)
    && StringWithin(obj, "occupation", 2, 500)
    && StringWithin(obj, "emergencyContactName", 2, 50)
    && PhoneAt(obj, "emergencyContactNumber")
  }

  predicate MedicalDetailsValid(obj: FormObject) {
    && StringAtLeast(obj, "primaryPhysician", 2)
    && StringWithin(obj, "insuranceProvider", 2, 50)
    && StringWithin(obj, "insurancePolicyNumber", 2, 50)
    && StringOrAbsent(obj, "allergies")
    && StringOrAbsent(obj, "currentMedication")
    && StringOrAbsent(obj, "familyMedicalHistory")
    && StringOrAbsent(obj, "pastMedicalHistory")
  }

  /** `identificationDocument` is never looked at. */
  predicate IdentificationValid(obj: FormObject) {
    StringOrAbsent(obj, "identificationType") && StringOrAbsent(obj, "identificationNumber")
  }

  /** The three consents, each present and `true` (absent means `false`). */
  predicate ConsentsGiven(obj: FormObject) {
    IsTrue(obj, "treatmentConsent") && IsTrue(obj, "disclosureConsent") && IsTrue(obj, "privacyConsent")
  }

  lemma PersonalFieldsAccept(obj: FormObject, env: Env)
    ensures Accepts(PatientPersonalFields, obj, env) <==> PersonalDetailsValid(obj, env)
  {
    var s := PatientPersonalFields;
    AcceptsEveryField(s, obj, env);
    BoundedString(s[0], 2, 50, "Le nom doit avoir au moins 2 caractères.", "Le nom doit avoir au plus 50 caractères.", obj, env);
    EmailString(s[1], "Adresse email non valide.", obj, env);
    PhoneString(s[2], "Numéro de téléphone non valide.", obj, env);
    DateField(s[3], obj, env);
    EnumString(s[4], ["Homme", "Femme"], obj, env);
    assert (set o | o in ["Homme", "Femme"]) == {"Homme", "Femme"};
    BoundedString(s[5], 5, 500, "L'adresse doit avoir au moins 5 caractères.", "L'adresse doit avoir au plus 500 caractères.", obj, env);
    BoundedString(s[6], 2, 500, "Le métier doit avoir au moins 2 caractères.", "Le métier doit avoir au plus 50 caractères.", obj, env);
    BoundedString(s[7], 2, 50, "Le nom du contact doit avoir au moins 2 caractères.", "Le nom du contact doit avoir au plus 50 caractères.", obj, env);
    PhoneString(s[8], "Numéro en cas d'urgence non valide.", obj, env);
  }

  lemma MedicalFieldsAccept(obj: FormObject, env: Env)
    ensures Accepts(PatientMedicalFields, obj, env) <==> MedicalDetailsValid(obj)
  {
    var s := PatientMedicalFields;
    AcceptsEveryField(s, obj, env);
    ShortString(s[0], 2, "Sélectionnez au moins un docteur.", obj, env);
    BoundedString(s[1], 2, 50, "Le nom de la mutuelle doit avoir au moins 2 caractères.", "Le nom de la mutuelle doit avoir au plus 50 caractères.", obj, env);
    BoundedString(s[2], 2, 50, "Le numéro de la mutuelle doit avoir au moins 2 caractères.", "Le numéro de mutuelle doit avoir au plus 50 caractères.", obj, env);
    OptionalString(s[3], obj, env);
    OptionalString(s[4], obj, env);
    OptionalString(s[5], obj, env);
    OptionalString(s[6], obj, env);
  }

  lemma IdentificationFieldsAccept(obj: FormObject, env: Env)
    ensures Accepts(PatientIdentificationFields, obj, env) <==> IdentificationValid(obj)
  {
    var s := PatientIdentificationFields;
    AcceptsEveryField(s, obj, env);
    OptionalString(s[0], obj, env);
    OptionalString(s[1], obj, env);
    OptionalAnything(s[2], obj, env);
  }

  lemma ConsentFieldsAccept(obj: FormObject, env: Env)
    ensures Accepts(PatientConsentFields, obj, env) <==> ConsentsGiven(obj)
  {
    var s := PatientConsentFields;
    AcceptsEveryField(s, obj, env);
    ConsentField(s[0], "Vous devez accepter le traitement pour pouvoir continuer.", obj, env);
    ConsentField(s[1], "Vous devez accepter la divulgation pour pouvoir continuer.", obj, env);
    ConsentField(s[2], "Vous devez accepter la politique de confidentialité pour pouvoir continuer.", obj, env);
  }

  /** `PatientFormValidation` accepts an object iff every field satisfies its
      own rule and all three consents are `true`. */
  lemma PatientFormValidationAccepts(obj: FormObject, env: Env)
    ensures Accepts(PatientFormValidation, obj, env) <==>
            PersonalDetailsValid(obj, env) && MedicalDetailsValid(obj) && IdentificationValid(obj) && ConsentsGiven(obj)
  {
    PatientGroups(obj, env);
    PersonalFieldsAccept(obj, env);
    MedicalFieldsAccept(obj, env);
    IdentificationFieldsAccept(obj, env);
    ConsentFieldsAccept(obj, env);
  }

  /** A consent that is missing defaults to `false`, so the patient form is
      rejected whatever else it holds. */
  lemma MissingConsentRejected(obj: FormObject, env: Env, consent: string)
    requires consent in {"treatmentConsent", "disclosureConsent", "privacyConsent"}
    requires consent !in obj || obj[consent] == Bool(false)
    ensures !Accepts(PatientFormValidation, obj, env)
  {
    PatientFormValidationAccepts(obj, env);
  }

  /** The keys of the patient form that may be absent or hold any string. */
  const OptionalPatientStrings: set<string> := {
    "allergies", "currentMedication", "familyMedicalHistory", "pastMedicalHistory",
    "identificationType", "identificationNumber"
  }

  /** Whether the patient form passes does not depend on the optional
      fields: any string in one of them, or none, gives the same verdict, and
      `identificationDocument` may hold anything. */
  lemma OptionalPatientFieldsIrrelevant(obj: FormObject, env: Env, key: string, v: Value)
    requires key in OptionalPatientStrings || key == "identificationDocument"
    requires key in OptionalPatientStrings ==> v.Str?
    ensures Accepts(PatientFormValidation, obj[key := v], env) == Accepts(PatientFormValidation, obj - {key}, env)
  {
    var a, b := obj[key := v], obj - {key};
    GroupIgnoresKey(PatientPersonalFields, obj, env, key, v);
    GroupIgnoresKey(PatientConsentFields, obj, env, key, v);
    MedicalIgnoresOptional(obj, env, key, v);
    IdentificationIgnoresOptional(obj, env, key, v);
    PatientGroups(a, env);
    PatientGroups(b, env);
  }

  lemma GroupIgnoresKey(g: ObjectSchema, obj: FormObject, env: Env, key: string, v: Value)
    requires g == PatientPersonalFields || g == PatientConsentFields
    requires key in OptionalPatientStrings || key == "identificationDocument"
    ensures Accepts(g, obj[key := v], env) == Accepts(g, obj - {key}, env)
  {
    var a, b := obj[key := v], obj - {key};
    assert forall i | 0 <= i < |g| :: g[i].key != key;
    assert forall i | 0 <= i < |g| :: Lookup(a, g[i].key) == Lookup(b, g[i].key);
    AcceptsOnlyReadsItsKeys(g, a, b, env);
  }

  lemma MedicalIgnoresOptional(obj: FormObject, env: Env, key: string, v: Value)
    requires key in OptionalPatientStrings || key == "identificationDocument"
    requires key in OptionalPatientStrings ==> v.Str?
    ensures Accepts(PatientMedicalFields, obj[key := v], env) == Accepts(PatientMedicalFields, obj - {key}, env)
  {
    var a, b := obj[key := v], obj - {key};
    MedicalFieldsAccept(a, env);
    MedicalFieldsAccept(b, env);
    assert StringAtLeast(a, "primaryPhysician", 2) == StringAtLeast(b, "primaryPhysician", 2);
    assert StringWithin(a, "insuranceProvider", 2, 50) == StringWithin(b, "insuranceProvider", 2, 50);
    assert StringWithin(a, "insurancePolicyNumber", 2, 50) == StringWithin(b, "insurancePolicyNumber", 2, 50);
    forall k | k in OptionalPatientStrings ensures StringOrAbsent(a, k) == StringOrAbsent(b, k) {
    }
  }

  lemma IdentificationIgnoresOptional(obj: FormObject, env: Env, key: string, v: Value)
    requires key in OptionalPatientStrings || key == "identificationDocument"
    requires key in OptionalPatientStrings ==> v.Str?
    ensures Accepts(PatientIdentificationFields, obj[key := v], env) == Accepts(PatientIdentificationFields, obj - {key}, env)
  {
    var a, b := obj[key := v], obj - {key};
    IdentificationFieldsAccept(a, env);
    IdentificationFieldsAccept(b, env);
    forall k | k in OptionalPatientStrings ensures StringOrAbsent(a, k) == StringOrAbsent(b, k) {
    }
  }

  /** The patient schema passes iff each of its four groups passes. */
  lemma PatientGroups(obj: FormObject, env: Env)
    ensures Accepts(PatientFormValidation, obj, env) <==>
            Accepts(PatientPersonalFields, obj, env) && Accepts(PatientMedicalFields, obj, env) &&
            Accepts(PatientIdentificationFields, obj, env) && Accepts(PatientConsentFields, obj, env)
  {
    var p, m, i, c := PatientPersonalFields, PatientMedicalFields, PatientIdentificationFields, PatientConsentFields;
    AcceptsConcatenation(p + m + i, c, obj, env);
    AcceptsConcatenation(p + m, i, obj, env);
    AcceptsConcatenation(p, m, obj, env);
  }

  /** All three appointment schemas: a physician of at least 2 characters
      and a schedule that is a date. */
  predicate AppointmentBasics(obj: FormObject, env: Env) {
    StringAtLeast(obj, "primaryPhysician", 2) && DateAt(obj, "schedule", env) && StringOrAbsent(obj, "note")
  }

  lemma CreateAppointmentSchemaAccepts(obj: FormObject, env: Env)
    ensures Accepts(CreateAppointmentSchema, obj, env) <==>
            AppointmentBasics(obj, env) && StringWithin(obj, "reason", 2, 500) && StringOrAbsent(obj, "cancellationReason")
  {
    var s := CreateAppointmentSchema;
    AcceptsEveryField(s, obj, env);
    ShortString(s[0], 2, "Sélectionnez au moins un docteur.", obj, env);
    DateField(s[1], obj, env);
    BoundedString(s[2], 2, 500, "Le motif doit avoir au moins 2 caractères.", "Le motif doit avoir au plus 500 caractères.", obj, env);
    OptionalString(s[3], obj, env);
    OptionalString(s[4], obj, env);
  }

  lemma ScheduleAppointmentSchemaAccepts(obj: FormObject, env: Env)
    ensures Accepts(ScheduleAppointmentSchema, obj, env) <==>
            AppointmentBasics(obj, env) && StringOrAbsent(obj, "reason") && StringOrAbsent(obj, "cancellationReason")
  {
    var s := ScheduleAppointmentSchema;
    AcceptsEveryField(s, obj, env);
    ShortString(s[0], 2, "Sélectionnez au moins un docteur.", obj, env);
    DateField(s[1], obj, env);
    OptionalString(s[2], obj, env);
    OptionalString(s[3], obj, env);
    OptionalString(s[4], obj, env);
  }

  lemma CancelAppointmentSchemaAccepts(obj: FormObject, env: Env)
    ensures Accepts(CancelAppointmentSchema, obj, env) <==>
            AppointmentBasics(obj, env) && StringOrAbsent(obj, "reason") && StringWithin(obj, "cancellationReason", 2, 500)
  {
    var s := CancelAppointmentSchema;
    AcceptsEveryField(s, obj, env);
    ShortString(s[0], 2, "Sélectionnez au moins un docteur.", obj, env);
    DateField(s[1], obj, env);
    OptionalString(s[2], obj, env);
    OptionalString(s[3], obj, env);
    BoundedString(s[4], 2, 500, "Le motif doit avoir au moins 2 caractères.", "Le motif doit avoir au plus 500 caractères.", obj, env);
  }

  /** `getAppointmentSchema` gives the create schema exactly for "create",
      the cancel schema exactly for "cancel", and the schedule schema for
      every other string. */
  lemma GetAppointmentSchemaCases(actionType: string)
    ensures GetAppointmentSchema(actionType) == CreateAppointmentSchema <==> actionType == "create"
    ensures GetAppointmentSchema(actionType) == CancelAppointmentSchema <==> actionType == "cancel"
    ensures GetAppointmentSchema(actionType) == ScheduleAppointmentSchema <==> actionType !in {"create", "cancel"}
  {
    assert CreateAppointmentSchema[2] != ScheduleAppointmentSchema[2];
    assert CancelAppointmentSchema[4] != ScheduleAppointmentSchema[4];
    assert CreateAppointmentSchema[2] != CancelAppointmentSchema[2];
  }
}
