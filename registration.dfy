/**
 * The five-step lawyer registration wizard: the form, the per-step validation that
 * fills the error record, moving between steps, editing a field, toggling a
 * language, the city-to-coordinates lookup and the profile sent on submission.
 */
module LawyerRegistration {
  import opened Wrappers
  import opened Strings
  import opened Lists
  import opened Appointments

  const FirstStep := 1
  const LastStep := 5
  const MinPasswordLength := 8
  const MinBioLength := 50
  const MinHourlyRate := 50

  // The messages recorded by `validateStep`.
  const FirstNameRequired := "Prénom requis"
  const LastNameRequired := "Nom requis"
  const EmailRequired := "Email requis"
  const EmailInvalid := "Email invalide"
  const PasswordRequired := "Mot de passe requis"
  const PasswordTooShort := "Minimum 8 caractères"
  const PasswordMismatch := "Les mots de passe ne correspondent pas"
  const PhoneRequired := "Téléphone requis"
  const BarNumberRequired := "Numéro au barreau requis"
  const FirmNameRequired := "Nom du cabinet requis"
  const YearsInvalid := "Années d'expérience invalides"
  const BioRequired := "Biographie requise"
  const BioTooShort := "La biographie doit contenir au moins 50 caractères"
  const CityRequired := "Ville requise"
  const AddressRequired := "Adresse requise"
  const PostalCodeRequired := "Code postal requis"
  const RateTooLow := "Tarif minimum: 50€"
  const LanguageRequired := "Au moins une langue requise"

  datatype Field =
    | FirstName | LastName | Email | Password | ConfirmPassword | Phone
    | BarNumber | Specialty | FirmName | YearsExperience
    | Bio | City | Address | PostalCode
    | HourlyRate | Languages

  /** The form; the uploaded files of step 5 are not part of the model. The two number
      fields hold what `parseInt` makes of their input: `None` stands for `NaN`, which an
      emptied input gives. */
  datatype FormData = FormData(
    firstName: string,
    lastName: string,
    email: string,
    password: string,
    confirmPassword: string,
    phone: string,
    barNumber: string,
    specialty: LegalSpecialty,
    firmName: string,
    yearsExperience: Option<int>,
    bio: string,
    city: string,
    address: string,
    postalCode: string,
    hourlyRate: Option<int>,
    languages: seq<string>)

  const InitialForm := FormData("", "", "", "", "", "", "", GeneralPractice, "", Some(0),
                                "", "", "", "", Some(150), ["Français"])

  /** A value given to `updateField`. */
  datatype FieldValue =
    | Text(text: string)
    | Number(number: Option<int>)
    | SpecialtyValue(specialty: LegalSpecialty)
    | LanguageList(languages: seq<string>)

  function Get(f: FormData, field: Field): FieldValue {
    match field
    case FirstName => Text(f.firstName)
    case LastName => Text(f.lastName)
    case Email => Text(f.email)
    case Password => Text(f.password)
    case ConfirmPassword => Text(f.confirmPassword)
    case Phone => Text(f.phone)
    case BarNumber => Text(f.barNumber)
    case Specialty => SpecialtyValue(f.specialty)
    case FirmName => Text(f.firmName)
    case YearsExperience => Number(f.yearsExperience)
    case Bio => Text(f.bio)
    case City => Text(f.city)
    case Address => Text(f.address)
    case PostalCode => Text(f.postalCode)
    case HourlyRate => Number(f.hourlyRate)
    case Languages => LanguageList(f.languages)
  }

  /** The value has the type of the field. */
  predicate Fits(field: Field, v: FieldValue) {
    match field
    case Specialty => v.SpecialtyValue?
    case YearsExperience | HourlyRate => v.Number?
    case Languages => v.LanguageList?
    case _ => v.Text?
  }

  /** `{ ...prev, [field]: value }`. */
  function WithField(f: FormData, field: Field, v: FieldValue): FormData
    requires Fits(field, v)
  {
    match field
    case FirstName => f.(firstName := v.text)
    case LastName => f.(lastName := v.text)
    case Email => f.(email := v.text)
    case Password => f.(password := v.text)
    case ConfirmPassword => f.(confirmPassword := v.text)
    case Phone => f.(phone := v.text)
    case BarNumber => f.(barNumber := v.text)
    case Specialty => f.(specialty := v.specialty)
    case FirmName => f.(firmName := v.text)
    case YearsExperience => f.(yearsExperience := v.number)
    case Bio => f.(bio := v.text)
    case City => f.(city := v.text)
    case Address => f.(address := v.text)
    case PostalCode => f.(postalCode := v.text)
    case HourlyRate => f.(hourlyRate := v.number)
    case Languages => f.(languages := v.languages)
  }

  /** Writing a field and reading it back gives the value written; every other
      field keeps its value. */
  lemma WithFieldGet(f: FormData, field: Field, v: FieldValue, other: Field)
    requires Fits(field, v)
    ensures Get(WithField(f, field, v), field) == v
    ensures other != field ==> Get(WithField(f, field, v), other) == Get(f, other)
  {
  }

  // ---------------------------------------------------------------------------
  // Validation
  // ---------------------------------------------------------------------------

  /** `!s.trim()` (see `Strings.JsBlankTrim`). */
  predicate Blank(s: string) {
    JsBlank(s)
  }

  /** `[^\s@]+`. */
  predicate Plain(s: string) {
    s != [] && forall i :: 0 <= i < |s| ==> !IsJsSpace(s[i]) && s[i] != '@'
  }

  /** `/^[^\s@]+@[^\s@]+\.[^\s@]+$/`: an `@` and, after it, a dot, cutting the
      string into three non-empty runs without whitespace or `@`. */
  predicate EmailValid(s: string) {
    exists p, q {:trigger EmailCut(s, p, q)} | 0 < p < q < |s| - 1 :: EmailCut(s, p, q)
  }

  /** The pattern matches with its `@` at `p` and its dot at `q`. */
  predicate EmailCut(s: string, p: int, q: int) {
    && 0 < p < q < |s| - 1
    && s[p] == '@' && s[q] == '.' && Plain(s[..p]) && Plain(s[p + 1..q]) && Plain(s[q + 1..])
  }

  /** A valid email has no whitespace and exactly one `@`, not at its start. */
  lemma EmailValidShape(s: string)
    requires EmailValid(s)
    ensures forall i :: 0 <= i < |s| ==> !IsJsSpace(s[i])
    ensures s[0] != '@'
    ensures exists p :: 0 < p < |s| && s[p] == '@' && forall i :: 0 <= i < |s| && s[i] == '@' ==> i == p
  {
    var p, q :| 0 < p < q < |s| - 1 && EmailCut(s, p, q);
    forall i | 0 <= i < |s| ensures !IsJsSpace(s[i]) && (s[i] == '@' ==> i == p) {
      if i < p {
        assert s[i] == s[..p][i];
      } else if p < i < q {
        assert s[i] == s[p + 1..q][i - p - 1];
      } else if q <= i {
        if i > q {
          assert s[i] == s[q + 1..][i - q - 1];
        }
      }
    }
    assert s[0] == s[..p][0];
  }

  /** Conversely, three such runs joined by `@` and `.` form a valid email. */
  lemma EmailValidParts(local: string, domain: string, tld: string)
    requires Plain(local) && Plain(domain) && Plain(tld)
    ensures EmailValid(local + "@" + domain + "." + tld)
  {
    var s := local + "@" + domain + "." + tld;
    var p, q := |local|, |local| + 1 + |domain|;
    assert s[..p] == local;
    assert s[p + 1..q] == domain;
    assert s[q + 1..] == tld;
    assert EmailCut(s, p, q);
  }

  /** The error record, in insertion order (a plain object's key order). */
  type Errors = seq<(Field, string)>

  /** The fields holding an error, in order. */
  function ErrorFields(errors: Errors): (r: seq<Field>)
    decreases |errors|
    ensures |r| == |errors|
    ensures forall i :: 0 <= i < |r| ==> r[i] == errors[i].0
  {
    if errors == [] then [] else [errors[0].0] + ErrorFields(errors[1..])
  }

  /** The fields of a record are those of its parts, in order. */
  lemma ErrorFieldsAppend(a: Errors, b: Errors)
    ensures ErrorFields(a + b) == ErrorFields(a) + ErrorFields(b)
  {
    var whole := ErrorFields(a + b);
    var parts := ErrorFields(a) + ErrorFields(b);
    assert |whole| == |parts|;
    forall i | 0 <= i < |whole| ensures whole[i] == parts[i] {
      if i < |a| {
        assert (a + b)[i] == a[i] && parts[i] == ErrorFields(a)[i];
      } else {
        assert (a + b)[i] == b[i - |a|] && parts[i] == ErrorFields(b)[i - |a|];
      }
    }
  }

  /** One test of `validateStep`: whether it failed, the field it reports on and the
      message it records. */
  datatype Check = Check(failed: bool, field: Field, message: string)

  /** `if (a) newErrors.field = m1; else if (b) newErrors.field = m2;`. */
  function CheckEither(first: bool, message1: string, second: bool, message2: string, field: Field): Check {
    Check(first || second, field, if first then message1 else message2)
  }

  /** Step 1: names, email, password and its confirmation, phone. */
  function PersonalChecks(f: FormData): seq<Check> {
    [ Check(Blank(f.firstName), FirstName, FirstNameRequired),
      Check(Blank(f.lastName), LastName, LastNameRequired),
      CheckEither(Blank(f.email), EmailRequired, !EmailValid(f.email), EmailInvalid, Email),
      CheckEither(|f.password| == 0, PasswordRequired, |f.password| < MinPasswordLength, PasswordTooShort, Password),
      Check(f.password != f.confirmPassword, ConfirmPassword, PasswordMismatch),
      Check(Blank(f.phone), Field.Phone, PhoneRequired) ]
  }

  /** JavaScript's `n < bound` on a number that may be `NaN`: false for `NaN`. */
  predicate Below(n: Option<int>, bound: int) {
    n.Some? && n.value < bound
  }

  /** Step 2: bar number, firm, years of experience. */
  function ProfessionalChecks(f: FormData): seq<Check> {
    [ Check(Blank(f.barNumber), BarNumber, BarNumberRequired),
      Check(Blank(f.firmName), FirmName, FirmNameRequired),
      Check(Below(f.yearsExperience, 0), YearsExperience, YearsInvalid) ]
  }

  /** Step 3: biography, city, address, postal code. */
  function LocationChecks(f: FormData): seq<Check> {
    [ CheckEither(Blank(f.bio), BioRequired, |f.bio| < MinBioLength, BioTooShort, Bio),
      Check(Blank(f.city), City, CityRequired),
      Check(Blank(f.address), Address, AddressRequired),
      Check(Blank(f.postalCode), PostalCode, PostalCodeRequired) ]
  }

  /** Step 4: rate and languages. */
  function RateChecks(f: FormData): seq<Check> {
    [ Check(Below(f.hourlyRate, MinHourlyRate), HourlyRate, RateTooLow),
      Check(|f.languages| == 0, Languages, LanguageRequired) ]
  }

  /** The tests of a step; step 5 (the documents) has none. */
  function StepChecks(step: int, f: FormData): seq<Check> {
    if step == 1 then PersonalChecks(f)
    else if step == 2 then ProfessionalChecks(f)
    else if step == 3 then LocationChecks(f)
    else if step == 4 then RateChecks(f)
    else []
  }

  /** The entries the failed tests add to the record, in order. */
  function Recorded(checks: seq<Check>): Errors
    decreases |checks|
  {
    if checks == [] then []
    else
      var last := checks[|checks| - 1];
      Recorded(checks[..|checks| - 1]) + (if last.failed then [(last.field, last.message)] else [])
  }

  /** The error record `validateStep` builds for one step. */
  function StepErrors(step: int, f: FormData): Errors {
    Recorded(StepChecks(step, f))
  }

  /** No test fails. */
  predicate AllPass(checks: seq<Check>) {
    forall i :: 0 <= i < |checks| ==> !checks[i].failed
  }

  /** Nothing is recorded exactly when no test fails. */
  lemma {:induction false} RecordedEmpty(checks: seq<Check>)
    decreases |checks|
    ensures Recorded(checks) == [] <==> AllPass(checks)
  {
    if checks != [] {
      RecordedEmpty(checks[..|checks| - 1]);
    }
  }

  /** Every entry of the record is the field and message of a failed test. */
  lemma {:induction false} RecordedEntries(checks: seq<Check>)
    decreases |checks|
    ensures forall e :: e in Recorded(checks) ==>
              exists i :: 0 <= i < |checks| && checks[i].failed && (checks[i].field, checks[i].message) == e
  {
    if checks != [] {
      var init := checks[..|checks| - 1];
      var last := checks[|checks| - 1];
      RecordedEntries(init);
      forall e | e in Recorded(checks)
        ensures exists i :: 0 <= i < |checks| && checks[i].failed && (checks[i].field, checks[i].message) == e
      {
        if e in Recorded(init) {
          var i :| 0 <= i < |init| && init[i].failed && (init[i].field, init[i].message) == e;
          assert checks[i] == init[i];
        } else {
          assert checks[|checks| - 1] == last;
        }
      }
    }
  }

  /** A field holds an error exactly when a test on it failed, with that test's
      message. */
  lemma {:induction false} RecordedFields(checks: seq<Check>, field: Field)
    decreases |checks|
    ensures field in ErrorFields(Recorded(checks)) <==>
              exists i :: 0 <= i < |checks| && checks[i].failed && checks[i].field == field
    ensures forall e :: e in Recorded(checks) ==>
              exists i :: 0 <= i < |checks| && checks[i].failed && (checks[i].field, checks[i].message) == e
  {
    RecordedEntries(checks);
    if checks != [] {
      var init := checks[..|checks| - 1];
      var last := checks[|checks| - 1];
      RecordedFields(init, field);
      var tail: Errors := if last.failed then [(last.field, last.message)] else [];
      ErrorFieldsAppend(Recorded(init), tail);
      if exists i :: 0 <= i < |checks| && checks[i].failed && checks[i].field == field {
        var i :| 0 <= i < |checks| && checks[i].failed && checks[i].field == field;
        if i < |init| {
          assert init[i] == checks[i];
        }
      }
      if field in ErrorFields(Recorded(init)) {
        var i :| 0 <= i < |init| && init[i].failed && init[i].field == field;
        assert checks[i] == init[i];
      }
    }
  }

  predicate PersonalRules(f: FormData) {
    && !Blank(f.firstName) && !Blank(f.lastName) && !Blank(f.phone)
    && !Blank(f.email) && EmailValid(f.email)
    && |f.password| >= MinPasswordLength && f.password == f.confirmPassword
  }

  predicate ProfessionalRules(f: FormData) {
    !Blank(f.barNumber) && !Blank(f.firmName)
    && (f.yearsExperience.Some? ==> f.yearsExperience.value >= 0)
  }

  predicate LocationRules(f: FormData) {
    && !Blank(f.bio) && |f.bio| >= MinBioLength
    && !Blank(f.city) && !Blank(f.address) && !Blank(f.postalCode)
  }

  predicate RateRules(f: FormData) {
    (f.hourlyRate.Some? ==> f.hourlyRate.value >= MinHourlyRate) && |f.languages| > 0
  }

  /** The requirements of each step, stated field by field. */
  predicate StepRules(step: int, f: FormData) {
    && (step == 1 ==> PersonalRules(f))
    && (step == 2 ==> ProfessionalRules(f))
    && (step == 3 ==> LocationRules(f))
    && (step == 4 ==> RateRules(f))
  }

  lemma AllPassTwo(c: seq<Check>)
    requires |c| == 2
    ensures AllPass(c) <==> !c[0].failed && !c[1].failed
  {
    if !c[0].failed && !c[1].failed {
      forall i | 0 <= i < 2 ensures !c[i].failed {
        if i == 0 {} else {}
      }
    }
  }

  lemma AllPassThree(c: seq<Check>)
    requires |c| == 3
    ensures AllPass(c) <==> !c[0].failed && !c[1].failed && !c[2].failed
  {
    if !c[0].failed && !c[1].failed && !c[2].failed {
      forall i | 0 <= i < 3 ensures !c[i].failed {
        if i == 0 {} else if i == 1 {} else {}
      }
    }
  }

  lemma AllPassFour(c: seq<Check>)
    requires |c| == 4
    ensures AllPass(c) <==> !c[0].failed && !c[1].failed && !c[2].failed && !c[3].failed
  {
    if !c[0].failed && !c[1].failed && !c[2].failed && !c[3].failed {
      forall i | 0 <= i < 4 ensures !c[i].failed {
        if i == 0 {} else if i == 1 {} else if i == 2 {} else {}
      }
    }
  }

  lemma AllPassSix(c: seq<Check>)
    requires |c| == 6
    ensures AllPass(c) <==> !c[0].failed && !c[1].failed && !c[2].failed && !c[3].failed
                            && !c[4].failed && !c[5].failed
  {
    if !c[0].failed && !c[1].failed && !c[2].failed && !c[3].failed && !c[4].failed && !c[5].failed {
      forall i | 0 <= i < 6 ensures !c[i].failed {
        if i == 0 {} else if i == 1 {} else if i == 2 {} else if i == 3 {} else if i == 4 {} else {}
      }
    }
  }

  /** No test of a step fails exactly when the step's requirements hold. */
  lemma ChecksPassSpec(step: int, f: FormData)
    ensures AllPass(StepChecks(step, f)) <==> StepRules(step, f)
  {
    if step == 1 {
      AllPassSix(PersonalChecks(f));
    } else if step == 2 {
      AllPassThree(ProfessionalChecks(f));
    } else if step == 3 {
      AllPassFour(LocationChecks(f));
    } else if step == 4 {
      AllPassTwo(RateChecks(f));
    }
  }

  /** The step passes exactly when no error is recorded, that is exactly when its
      requirements hold; step 5 (the documents) always passes. */
  lemma ValidateStepSpec(step: int, f: FormData)
    ensures StepErrors(step, f) == [] <==> StepRules(step, f)
    ensures step !in {1, 2, 3, 4} ==> StepErrors(step, f) == []
  {
    RecordedEmpty(StepChecks(step, f));
    ChecksPassSpec(step, f);
  }

  /** An emptied number input (`NaN`) fails neither bound: step 2 then depends on the bar
      number and firm alone, step 4 on the languages alone. */
  lemma EmptiedNumberPasses(f: FormData)
    ensures f.yearsExperience == None ==>
      (StepErrors(2, f) == [] <==> !Blank(f.barNumber) && !Blank(f.firmName))
    ensures f.hourlyRate == None ==> (StepErrors(4, f) == [] <==> |f.languages| > 0)
  {
    ValidateStepSpec(2, f);
    ValidateStepSpec(4, f);
  }

  /** A failed test leaves its entry in the record. */
  lemma {:induction false} RecordedHas(checks: seq<Check>, i: int)
    requires 0 <= i < |checks| && checks[i].failed
    decreases |checks|
    ensures (checks[i].field, checks[i].message) in Recorded(checks)
  {
    var init := checks[..|checks| - 1];
    if i < |init| {
      RecordedHas(init, i);
      assert init[i] == checks[i];
    }
  }

  /** When only test `i` reports on its field, the record holds an entry for that
      field exactly when the test failed, and then with its message. */
  lemma RecordedOnly(checks: seq<Check>, i: int, message: string)
    requires 0 <= i < |checks|
    requires forall j :: 0 <= j < |checks| && j != i ==> checks[j].field != checks[i].field
    ensures (checks[i].field, message) in Recorded(checks) <==> checks[i].failed && message == checks[i].message
  {
    RecordedFields(checks, checks[i].field);
    if checks[i].failed {
      RecordedHas(checks, i);
    }
  }

  /** The email is reported as missing when blank and as invalid when it does not
      match the pattern. */
  lemma EmailMessage(f: FormData)
    ensures (Email, EmailRequired) in StepErrors(1, f) <==> Blank(f.email)
    ensures (Email, EmailInvalid) in StepErrors(1, f) <==> !Blank(f.email) && !EmailValid(f.email)
  {
    var c := PersonalChecks(f);
    assert EmailRequired != EmailInvalid by {
      assert EmailRequired[6] != EmailInvalid[6];
    }
    forall j | 0 <= j < |c| && j != 2 ensures c[j].field != c[2].field {
      if j == 0 {} else if j == 1 {} else if j == 3 {} else if j == 4 {} else {}
    }
    RecordedOnly(c, 2, EmailRequired);
    RecordedOnly(c, 2, EmailInvalid);
  }

  // ---------------------------------------------------------------------------
  // Languages and coordinates
  // ---------------------------------------------------------------------------

  /** `toggleLanguage`: drop the language if present, append it otherwise. */
  function Toggle(languages: seq<string>, lang: string): seq<string> {
    if lang in languages then Filter(languages, (l: string) => l != lang) else languages + [lang]
  }

  /** Toggling flips the language's presence and leaves every other language as it
      was; toggling an absent language twice restores the list. */
  lemma ToggleSpec(languages: seq<string>, lang: string, other: string)
    ensures lang in Toggle(languages, lang) <==> lang !in languages
    ensures other != lang ==> (other in Toggle(languages, lang) <==> other in languages)
    ensures lang !in languages ==> Toggle(Toggle(languages, lang), lang) == languages
  {
    var keep := (l: string) => l != lang;
    if lang in languages {
      FilterMembers(languages, keep);
    } else {
      FilterAppend(languages, lang, keep);
      FilterKeepsAll(languages, keep);
    }
  }

  const DefaultCoordinates := Coordinates(462276, 22137)

  const CityCoordinatesTable: seq<(string, Coordinates)> := [
    ("PARIS", Coordinates(488566, 23522)),
    ("MARSEILLE", Coordinates(432965, 53698)),
    ("LYON", Coordinates(457640, 48357)),
    ("TOULOUSE", Coordinates(436047, 14442)),
    ("NICE", Coordinates(437102, 72620)),
    ("NANTES", Coordinates(472184, -15536)),
    ("STRASBOURG", Coordinates(485734, 77521)),
    ("MONTPELLIER", Coordinates(436108, 38767)),
    ("BORDEAUX", Coordinates(448378, -5792)),
    ("LILLE", Coordinates(506292, 30573)),
    ("RENNES", Coordinates(481173, -16778)),
    ("REIMS", Coordinates(492583, 40317)),
    ("SAINT-ÉTIENNE", Coordinates(454397, 43872)),
    ("LE HAVRE", Coordinates(494944, 1079)),
    ("TOULON", Coordinates(431242, 59280)),
    ("GRENOBLE", Coordinates(451885, 57245)),
    ("DIJON", Coordinates(473220, 50415)),
    ("ANGERS", Coordinates(474784, -5632)),
    ("NÎMES", Coordinates(438367, 43601)),
    ("VILLEURBANNE", Coordinates(457660, 48795))]

  /** `city.toUpperCase().trim()`. */
  function NormalizedCity(city: string): string {
    JsTrim(Upper(city))
  }

  /** `getCityCoordinates`: the table entry of the normalised city, else the centre
      of France. */
  function CityCoordinates(city: string): Coordinates {
    Lookup(CityCoordinatesTable, NormalizedCity(city)).GetOr(DefaultCoordinates)
  }

  /** The centre of France is returned exactly for cities outside the table, and a
      listed city gets its own entry. */
  lemma CityCoordinatesDefault(city: string)
    ensures CityCoordinates(city) == DefaultCoordinates <==>
              forall i :: 0 <= i < |CityCoordinatesTable| ==> CityCoordinatesTable[i].0 != NormalizedCity(city)
    ensures CityCoordinates(city) != DefaultCoordinates ==>
              (NormalizedCity(city), CityCoordinates(city)) in CityCoordinatesTable
  {
    assert forall i :: 0 <= i < |CityCoordinatesTable| ==> CityCoordinatesTable[i].1 != DefaultCoordinates;
  }

  // ---------------------------------------------------------------------------
  // The wizard
  // ---------------------------------------------------------------------------

  /** The profile `handleSubmit` sends with the email and password. */
  datatype LawyerProfile = LawyerProfile(
    name: string,
    specialty: LegalSpecialty,
    location: string,
    hourlyRate: Option<int>,
    experience: Option<int>,
    languages: seq<string>,
    bio: string,
    phone: string,
    address: string,
    coordinates: Coordinates,
    verified: bool,
    firmName: string,
    barNumber: string,
    responseTime: string,
    role: UserRole)

  function ProfileOf(f: FormData): (p: LawyerProfile)
    ensures p.name == f.firstName + " " + f.lastName
    ensures p.location == f.city + ", France"
    ensures p.coordinates == CityCoordinates(f.city)
    ensures !p.verified && p.role == Lawyer
  {
    LawyerProfile(f.firstName + " " + f.lastName, f.specialty, f.city + ", France", f.hourlyRate,
                  f.yearsExperience, f.languages, f.bio, f.phone, f.address, CityCoordinates(f.city),
                  false, f.firmName, f.barNumber, "24h", Lawyer)
  }

  class RegistrationWizard {
    var currentStep: int
    var formData: FormData
    var errors: Errors

    /** The current step is one of the five. */
    predicate Valid()
      reads this
    {
      FirstStep <= currentStep <= LastStep
    }

    constructor ()
      ensures Valid() && currentStep == FirstStep
      ensures formData == InitialForm && errors == []
    {
      currentStep := FirstStep;
      formData := InitialForm;
      errors := [];
    }

    /** `updateField`: sets the field and clears its error. */
    method UpdateField(field: Field, value: FieldValue)
      requires Fits(field, value)
      modifies this
      ensures formData == WithField(old(formData), field, value)
      ensures errors == Filter(old(errors), (e: (Field, string)) => e.0 != field)
      ensures field !in ErrorFields(errors)
      ensures currentStep == old(currentStep)
    {
      formData := WithField(formData, field, value);
      var keep := (e: (Field, string)) => e.0 != field;
      if Lookup(errors, field).Some? {
        errors := Filter(errors, keep);
      } else {
        FilterKeepsAll(errors, keep);
      }
      FilterMembers(old(errors), keep);
      forall i | 0 <= i < |errors| ensures errors[i].0 != field {
        FilterMember(old(errors), keep, errors[i]);
      }
    }

    method ToggleLanguage(lang: string)
      modifies this
      ensures formData == old(formData).(languages := Toggle(old(formData).languages, lang))
      ensures errors == old(errors) && currentStep == old(currentStep)
    {
      formData := formData.(languages := Toggle(formData.languages, lang));
    }

    /** `validateStep`: records the step's errors and passes iff its rules hold. */
    method ValidateStep(step: int) returns (ok: bool)
      modifies this
      ensures errors == StepErrors(step, formData)
      ensures ok <==> StepRules(step, formData)
      ensures formData == old(formData) && currentStep == old(currentStep)
    {
      errors := StepErrors(step, formData);
      ValidateStepSpec(step, formData);
      ok := |errors| == 0;
    }

    /** `handleNext`: moves on, never past the last step, only when the current step
        is valid. */
    method HandleNext()
      requires Valid()
      modifies this
      ensures Valid()
      ensures errors == StepErrors(old(currentStep), formData)
      ensures currentStep == if StepRules(old(currentStep), formData) && old(currentStep) < LastStep
                             then old(currentStep) + 1 else old(currentStep)
      ensures formData == old(formData)
    {
      var ok := ValidateStep(currentStep);
      if ok {
        currentStep := if currentStep + 1 < LastStep then currentStep + 1 else LastStep;
      }
    }

    /** `handlePrevious`: moves back, never before the first step. */
    method HandlePrevious()
      requires Valid()
      modifies this
      ensures Valid()
      ensures currentStep == if old(currentStep) > FirstStep then old(currentStep) - 1 else FirstStep
      ensures formData == old(formData) && errors == old(errors)
    {
      currentStep := if currentStep - 1 > FirstStep then currentStep - 1 else FirstStep;
    }

    /** `handleSubmit`: the profile to register, or nothing when the current step
        does not validate. */
    method HandleSubmit() returns (profile: Option<LawyerProfile>)
      modifies this
      ensures profile.Some? <==> StepRules(old(currentStep), formData)
      ensures profile.Some? ==> profile.value == ProfileOf(formData)
      ensures errors == StepErrors(old(currentStep), formData)
      ensures formData == old(formData) && currentStep == old(currentStep)
    {
      var ok := ValidateStep(currentStep);
      if !ok {
        return None;
      }
      profile := Some(ProfileOf(formData));
    }
  }
}
