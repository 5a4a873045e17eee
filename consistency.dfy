/** Facts that tie the constant tables, the schemas, the form and the badge
    together. */
module Consistency {
  import opened Constants
  import V = Validation
  import SB = StatusBadge
  import AF = AppointmentForm

  /** The gender options are the patient schema's gender enum, and the
      default gender is one of them. */
  lemma GenderOptionsMatchSchema(now: int)
    ensures GenderOptions == ["Homme", "Femme"]
    ensures V.PatientPersonalFields[4] == V.Field("gender", V.EnumField(GenderOptions))
    ensures PatientFormDefaultValues(now).gender in GenderOptions
  {
  }

  /** The default identification type is one of the listed types. */
  lemma DefaultIdentificationTypeIsListed(now: int)
    ensures PatientFormDefaultValues(now).identificationType in IdentificationTypes
    ensures PatientFormDefaultValues(now).identificationType == IdentificationTypes[0]
  {
  }

  /** The values the registration form starts from
      (components/forms/RegisterForm.tsx:28-33): `PatientFormDefaultValues`,
      which has no `name`, spread and then `name`, `email` and `phone` set to
      the empty string. */
  function RegisterFormDefaults(now: int): V.FormObject {
    var d := PatientFormDefaultValues(now);
    map[
      "firstName" := V.Str(d.firstName), "lastName" := V.Str(d.lastName),
      "email" := V.Str(""), "phone" := V.Str(""), "name" := V.Str(""),
      "birthDate" := V.DateValue(d.birthDate), "gender" := V.Str(d.gender),
      "address" := V.Str(d.address), "occupation" := V.Str(d.occupation),
      "emergencyContactName" := V.Str(d.emergencyContactName),
      "emergencyContactNumber" := V.Str(d.emergencyContactNumber),
      "primaryPhysician" := V.Str(d.primaryPhysician),
      "insuranceProvider" := V.Str(d.insuranceProvider),
      "insurancePolicyNumber" := V.Str(d.insurancePolicyNumber),
      "allergies" := V.Str(d.allergies), "currentMedication" := V.Str(d.currentMedication),
      "familyMedicalHistory" := V.Str(d.familyMedicalHistory),
      "pastMedicalHistory" := V.Str(d.pastMedicalHistory),
      "identificationType" := V.Str(d.identificationType),
      "identificationNumber" := V.Str(d.identificationNumber),
      "identificationDocument" := V.Files(d.identificationDocument),
      "treatmentConsent" := V.Bool(d.treatmentConsent),
      "disclosureConsent" := V.Bool(d.disclosureConsent),
      "privacyConsent" := V.Bool(d.privacyConsent)]
  }

  /** The registration form cannot be submitted as it starts: the consents
      are not given and the name and the address are too short. */
  lemma RegisterFormDefaultsFail(now: int, env: V.Env)
    ensures var obj := RegisterFormDefaults(now);
            && !V.ConsentsGiven(obj)
            && !V.StringWithin(obj, "name", 2, 50)
            && !V.StringWithin(obj, "address", 5, 500)
            && !V.Accepts(V.PatientFormValidation, obj, env)
  {
    var obj := RegisterFormDefaults(now);
    assert obj["treatmentConsent"] == V.Bool(false);
    assert obj["name"] == V.Str("") && obj["address"] == V.Str("");
    assert V.Utf16Length("") == 0;
    V.MissingConsentRejected(obj, env, "treatmentConsent");
  }

  /** Every doctor the form offers passes the physician check of all three
      appointment schemas. */
  lemma DoctorNamesPassPhysicianCheck(d: Doctor)
    requires d in Doctors
    ensures V.Utf16Length(d.name) >= 2
  {
    assert |d.name| >= 2 by {
      assert forall e | e in Doctors :: |e.name| >= 10;
    }
    assert V.Utf16Length(d.name) >= |d.name|;
  }

  /** Every status the appointment form can set has an icon and exactly one
      background and one text colour on its badge. */
  lemma FormStatusesArePresentable(t: AF.FormType)
    ensures SB.IconSource(AF.StatusFor(t)).Some?
    ensures SB.CountWhere(SB.BadgeClasses(AF.StatusFor(t)), SB.IsBackgroundClass) == 1
    ensures SB.CountWhere(SB.TextClasses(AF.StatusFor(t)), SB.IsTextColourClass) == 1
  {
    AF.StatusForIsOneToOne(t, t);
    SB.OneColourPerStatus(AF.StatusFor(t));
  }
}
