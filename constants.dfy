/** constants/index.ts: the option lists, the doctors, the status icons and
    the patient form's default values. */
module Constants {
  import opened Wrappers

  /** The three values of the appointment `Status` type. */
  const Validated: string := "validé"
  const Pending: string := "en attente"
  const Cancelled: string := "annulé"

  const KnownStatuses: set<string> := {Validated, Pending, Cancelled}

  const GenderOptions: seq<string> := ["Homme", "Femme"]

  const IdentificationTypes: seq<string> := [
    "Certificat de naissance",
    "Permis de conduire",
    "Carte de sécurité sociale",
    "Carte militaire",
    "Carte nationale d'identité",
    "Passeport",
    "Carte d'étudiant",
    "Carte d'électeur"
  ]

  datatype Doctor = Doctor(image: string, name: string)

  const Doctors: seq<Doctor> := [
    Doctor("/assets/images/dr-green.png", "John Green"),
    Doctor("/assets/images/dr-cameron.png", "Leila Cameron"),
    Doctor("/assets/images/dr-livingston.png", "David Livingston"),
    Doctor("/assets/images/dr-peter.png", "Evan Peter"),
    Doctor("/assets/images/dr-powell.png", "Jane Powell"),
    Doctor("/assets/images/dr-remirez.png", "Alex Ramirez"),
    Doctor("/assets/images/dr-lee.png", "Jasmine Lee"),
    Doctor("/assets/images/dr-cruz.png", "Alyana Cruz"),
    Doctor("/assets/images/dr-sharma.png", "Hardik Sharma")
  ]

  const StatusIcon: map<string, string> := map[
    Validated := "/assets/icons/check.svg",
    Pending := "/assets/icons/pending.svg",
    Cancelled := "/assets/icons/cancelled.svg"
  ]

  /** `PatientFormDefaultValues`; `birthDate` is `new Date(Date.now())`, so
      the clock reading is a parameter. */
  datatype PatientDefaults = PatientDefaults(
    firstName: string, lastName: string, email: string, phone: string,
    birthDate: int, gender: string, address: string, occupation: string,
    emergencyContactName: string, emergencyContactNumber: string,
    primaryPhysician: string, insuranceProvider: string, insurancePolicyNumber: string,
    allergies: string, currentMedication: string, familyMedicalHistory: string,
    pastMedicalHistory: string, identificationType: string, identificationNumber: string,
    identificationDocument: seq<string>,
    treatmentConsent: bool, disclosureConsent: bool, privacyConsent: bool)

  function PatientFormDefaultValues(now: int): PatientDefaults {
    PatientDefaults(
      "", "", "", "",
      now, "Homme", "", "",
      "", "",
      "", "", "",
      "", "", "",
      "", "Certificat de naissance", "",
      [],
      false, false, false)
  }

  /** `Doctors.find(d => d.name === name)`: the first doctor of that name. */
  function FindDoctor(doctors: seq<Doctor>, name: string): (r: Option<Doctor>)
    ensures r.Some? ==> r.value in doctors && r.value.name == name
    ensures r.None? <==> forall i | 0 <= i < |doctors| :: doctors[i].name != name
    ensures r.Some? ==> exists i | 0 <= i < |doctors| :: doctors[i] == r.value &&
                          forall j | 0 <= j < i :: doctors[j].name != name
  {
    if doctors == [] then None
    else if doctors[0].name == name then Some(doctors[0])
    else
      var r := FindDoctor(doctors[1..], name);
      assert forall j | 1 <= j < |doctors| :: doctors[1..][j - 1] == doctors[j];
      r
  }

  /** No two doctors share a name. */
  lemma DoctorNamesDistinct()
    ensures |Doctors| == 9
    ensures forall i, j | 0 <= i < j < |Doctors| :: Doctors[i].name != Doctors[j].name
  {
  }

  predicate NamesDistinct(doctors: seq<Doctor>) {
    forall i, j | 0 <= i < j < |doctors| :: doctors[i].name != doctors[j].name
  }

  /** With distinct names, looking a doctor up by name finds that doctor. */
  lemma FindDoctorIsExact(doctors: seq<Doctor>, d: Doctor)
    requires NamesDistinct(doctors)
    requires d in doctors
    ensures FindDoctor(doctors, d.name) == Some(d)
  {
    var r := FindDoctor(doctors, d.name);
    var i :| 0 <= i < |doctors| && doctors[i] == d;
    var k :| 0 <= k < |doctors| && doctors[k] == r.value && forall j | 0 <= j < k :: doctors[j].name != d.name;
    assert doctors[i].name == doctors[k].name;
  }

  /** Every doctor of the list is found by its name, and only that doctor. */
  lemma FindDoctorByName(d: Doctor)
    requires d in Doctors
    ensures FindDoctor(Doctors, d.name) == Some(d)
  {
    DoctorNamesDistinct();
    FindDoctorIsExact(Doctors, d);
  }

  /** `StatusIcon` has exactly the three statuses as keys, each with its own icon. */
  lemma StatusIconTable()
    ensures StatusIcon.Keys == KnownStatuses
    ensures |KnownStatuses| == 3
    ensures forall s, t | s in StatusIcon && t in StatusIcon && s != t :: StatusIcon[s] != StatusIcon[t]
  {
  }
}
