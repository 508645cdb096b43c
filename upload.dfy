/**
 * The one-off import of the bar directory into the lawyers table: every CSV row
 * that names a lawyer becomes a lawyer record (specialty guessed from the listed
 * fields of practice, coordinates from a small city table, an hourly rate from the
 * drawn years of experience and the bar), and the records are written in batches of
 * five hundred paths.
 */
module LawyerUpload {
  import opened Wrappers
  import opened Strings
  import opened Lists
  import opened Appointments

  const BatchSize := 500
  const BaseRate := 150
  const ExperienceRate := 5
  const MajorBarBonus := 100

  const LawyerIdPrefix := "lawyer_"
  const LawyerPathPrefix := "lawyers/"
  const TitlePrefix := "Maître "
  const EmailDomain := "@avocats.fr"
  const BioPrefix := "Avocat inscrit au Barreau de "
  const BioMiddle := " avec "
  const BioSuffix := " ans d'expérience."
  const LocationSuffix := ", France"
  const DefaultLanguages := ["Français"]

  /** The bars whose members get the location bonus. */
  const MajorBars := ["PARIS", "LYON", "MARSEILLE"]

  /**
   * One parsed CSV row. An empty or missing cell is `""`; only `Barreau` is kept as
   * an option, because a missing bar is rendered as the text "undefined" in the bio
   * and the location.
   */
  datatype Row = Row(
    avNom: string,
    avPrenom: string,
    barreau: Option<string>,
    spLibelle1: string,
    spLibelle2: string,
    spLibelle3: string,
    cbVille: string,
    cbSiretSiren: string,
    cbRaisonSociale: string,
    aVLang: string)

  datatype LawyerRecord = LawyerRecord(
    id: string,
    name: string,
    email: string,
    role: UserRole,
    specialty: LegalSpecialty,
    bio: string,
    location: string,
    coordinates: Coordinates,
    hourlyRate: int,
    languages: seq<string>,
    yearsExperience: nat,
    firmName: Option<string>)

  /** One path of a multi-path update: the database key and the record written there. */
  type Write = (string, LawyerRecord)

  /** How a template literal renders an optional text. */
  function Render(s: Option<string>): string {
    if s.Some? then s.value else "undefined"
  }

  // ---------------------------------------------------------------------------
  // Specialty

  /** `specialty.toLowerCase().trim()`. */
  function NormalizedSpecialty(specialty: string): string {
    JsTrim(Lower(specialty))
  }

  /** The keyword rules, in the order the source tries them. */
  function MapSpecialty(specialty: string): LegalSpecialty {
    if specialty == "" then GeneralPractice
    else
      var n := NormalizedSpecialty(specialty);
      if Contains(n, "pénal") || Contains(n, "penal") then Criminal
      else if Contains(n, "famille") then Family
      else if Contains(n, "sociétés") || Contains(n, "affaires") then Corporate
      else if Contains(n, "immobilier") then RealEstate
      else if Contains(n, "travail") || Contains(n, "social") then Labor
      else if Contains(n, "propriété intellectuelle") then IntellectualProperty
      else if Contains(n, "étranger") || Contains(n, "immigration") then Immigration
      else if Contains(n, "fiscal") then Tax
      else GeneralPractice
  }

  /** The same rules as data: each specialty with the keywords that select it. */
  const SpecialtyRules: seq<(seq<string>, LegalSpecialty)> := [
    (["pénal", "penal"], Criminal),
    (["famille"], Family),
    (["sociétés", "affaires"], Corporate),
    (["immobilier"], RealEstate),
    (["travail", "social"], Labor),
    (["propriété intellectuelle"], IntellectualProperty),
    (["étranger", "immigration"], Immigration),
    (["fiscal"], Tax)]

  /** Some keyword occurs in `text`. */
  predicate AnyContained(keywords: seq<string>, text: string)
    decreases |keywords|
  {
    keywords != [] && (Contains(text, keywords[0]) || AnyContained(keywords[1..], text))
  }

  /** First-match classification from rule `k` on: the specialty of the first rule
      one of whose keywords occurs, general practice when none does. */
  function FirstRule(rules: seq<(seq<string>, LegalSpecialty)>, k: nat, text: string): (r: LegalSpecialty)
    decreases |rules| - k
    ensures (r == GeneralPractice && forall i :: k <= i < |rules| ==> !AnyContained(rules[i].0, text))
            || exists j :: k <= j < |rules| && AnyContained(rules[j].0, text) && rules[j].1 == r &&
                 forall i :: k <= i < j ==> !AnyContained(rules[i].0, text)
  {
    if k >= |rules| then GeneralPractice
    else if AnyContained(rules[k].0, text) then rules[k].1
    else FirstRule(rules, k + 1, text)
  }

  /** Which rules of the table fire, spelled out keyword by keyword. */
  lemma SpecialtyRuleHits(n: string)
    ensures |SpecialtyRules| == 8
    ensures AnyContained(SpecialtyRules[0].0, n) <==> Contains(n, "pénal") || Contains(n, "penal")
    ensures AnyContained(SpecialtyRules[1].0, n) <==> Contains(n, "famille")
    ensures AnyContained(SpecialtyRules[2].0, n) <==> Contains(n, "sociétés") || Contains(n, "affaires")
    ensures AnyContained(SpecialtyRules[3].0, n) <==> Contains(n, "immobilier")
    ensures AnyContained(SpecialtyRules[4].0, n) <==> Contains(n, "travail") || Contains(n, "social")
    ensures AnyContained(SpecialtyRules[5].0, n) <==> Contains(n, "propriété intellectuelle")
    ensures AnyContained(SpecialtyRules[6].0, n) <==> Contains(n, "étranger") || Contains(n, "immigration")
    ensures AnyContained(SpecialtyRules[7].0, n) <==> Contains(n, "fiscal")
  {
    assert ["pénal", "penal"][1..] == ["penal"];
    assert ["sociétés", "affaires"][1..] == ["affaires"];
    assert ["travail", "social"][1..] == ["social"];
    assert ["étranger", "immigration"][1..] == ["immigration"];
  }

  /** The if-chain is exactly first-match over the rule table. */
  lemma MapSpecialtyRules(specialty: string)
    ensures specialty == "" ==> MapSpecialty(specialty) == GeneralPractice
    ensures specialty != "" ==>
              MapSpecialty(specialty) == FirstRule(SpecialtyRules, 0, NormalizedSpecialty(specialty))
  {
    if specialty != "" {
      var n := NormalizedSpecialty(specialty);
      SpecialtyRuleHits(n);
      var rules := SpecialtyRules;
      assert FirstRule(rules, 8, n) == GeneralPractice;
    }
  }

  /** `row.spLibelle1 || row.spLibelle2 || row.spLibelle3`. */
  function SpecialtyText(row: Row): (r: string)
    ensures r == "" <==> row.spLibelle1 == "" && row.spLibelle2 == "" && row.spLibelle3 == ""
    ensures r != "" ==> r in [row.spLibelle1, row.spLibelle2, row.spLibelle3]
  {
    if row.spLibelle1 != "" then row.spLibelle1
    else if row.spLibelle2 != "" then row.spLibelle2
    else row.spLibelle3
  }

  // ---------------------------------------------------------------------------
  // Coordinates

  /** The fallback the table stores under the key `DEFAULT`; a city normalising to
      `DEFAULT` gets it either way, so the key is not repeated in the table below. */
  const DefaultCoordinates := Coordinates(462276, 22137)

  const CoordinatesTable: seq<(string, Coordinates)> := [
    ("PARIS", Coordinates(488566, 23522)),
    ("LYON", Coordinates(457640, 48357)),
    ("MARSEILLE", Coordinates(432965, 53698)),
    ("TOULOUSE", Coordinates(436047, 14442)),
    ("NICE", Coordinates(437102, 72620)),
    ("NANTES", Coordinates(472184, -15536)),
    ("STRASBOURG", Coordinates(485734, 77521)),
    ("MONTPELLIER", Coordinates(436108, 38767)),
    ("BORDEAUX", Coordinates(448378, -5792)),
    ("LILLE", Coordinates(506292, 30573)),
    ("RENNES", Coordinates(481173, -16778)),
    ("AGEN", Coordinates(442028, 6161)),
    ("AIX-EN-PROVENCE", Coordinates(435297, 54474))]

  /** `city.toUpperCase().trim()`. */
  function NormalizedCity(city: string): string {
    JsTrim(Upper(city))
  }

  function GetCoordinates(city: string): Coordinates {
    if city == "" then DefaultCoordinates
    else Lookup(CoordinatesTable, NormalizedCity(city)).GetOr(DefaultCoordinates)
  }

  /** The centre of France is returned exactly for a missing city or one that matches
      no listed city; a listed city gets its own entry. */
  lemma GetCoordinatesSpec(city: string)
    ensures GetCoordinates(city) == DefaultCoordinates <==>
              city == "" ||
              forall i :: 0 <= i < |CoordinatesTable| ==> CoordinatesTable[i].0 != NormalizedCity(city)
    ensures GetCoordinates(city) != DefaultCoordinates ==>
              (NormalizedCity(city), GetCoordinates(city)) in CoordinatesTable
  {
    assert forall i :: 0 <= i < |CoordinatesTable| ==> CoordinatesTable[i].1 != DefaultCoordinates;
  }

  /** `row.cbVille || row.Barreau`. */
  function City(row: Row): (r: Option<string>)
    ensures row.cbVille != "" ==> r == Some(row.cbVille)
    ensures row.cbVille == "" ==> r == row.barreau
  {
    if row.cbVille != "" then Some(row.cbVille) else row.barreau
  }

  // ---------------------------------------------------------------------------
  // Hourly rate

  /** `Math.round(x / 10) * 10` for an integer `x`: halves round up. */
  function RoundToTen(x: int): int {
    (x + 5) / 10 * 10
  }

  function LocationBonus(barreau: Option<string>): (r: int)
    ensures r == 0 || r == MajorBarBonus
  {
    if barreau.Some? && Upper(barreau.value) in MajorBars then MajorBarBonus else 0
  }

  function HourlyRate(years: nat, barreau: Option<string>): int {
    RoundToTen(BaseRate + ExperienceRate * years + LocationBonus(barreau))
  }

  /** The rounded value is the multiple of ten nearest to `x`, halves going up. */
  lemma RoundToTenNearest(x: int)
    ensures RoundToTen(x) % 10 == 0
    ensures RoundToTen(x) - 5 <= x < RoundToTen(x) + 5
  {
  }

  /** The rounding of a raw rate with a bonus of 0 or one hundred, stated on integers. */
  lemma RoundedRateBounds(years: nat, b: int)
    requires b == 0 || b == MajorBarBonus
    ensures RoundToTen(BaseRate + ExperienceRate * years + b) == RoundToTen(BaseRate + ExperienceRate * years) + b
    ensures 5 <= years <= 29 ==> 180 <= RoundToTen(BaseRate + ExperienceRate * years + b) <= 400
  {
    var x := BaseRate + ExperienceRate * years;
    RoundToTenNearest(x + b);
    RoundToTenNearest(x);
    if 5 <= years <= 29 {
      assert BaseRate + 5 * 5 <= x <= BaseRate + 5 * 29;
    }
  }

  /** The rate is the raw rate rounded to ten; a major bar adds exactly one hundred;
      with the drawn experience of 5 to 29 years the rate lies between 180 and 400. */
  lemma HourlyRateSpec(years: nat, barreau: Option<string>)
    ensures HourlyRate(years, barreau) % 10 == 0
    ensures HourlyRate(years, barreau) - 5 <= BaseRate + ExperienceRate * years + LocationBonus(barreau)
              < HourlyRate(years, barreau) + 5
    ensures HourlyRate(years, barreau) == HourlyRate(years, None) + LocationBonus(barreau)
    ensures 5 <= years <= 29 ==> 180 <= HourlyRate(years, barreau) <= 400
  {
    var b := LocationBonus(barreau);
    RoundToTenNearest(BaseRate + ExperienceRate * years + b);
    RoundedRateBounds(years, b);
  }

  // ---------------------------------------------------------------------------
  // Email, languages, firm

  /** The characters `[a-z0-9.@]` the email keeps. */
  predicate EmailChar(c: char) {
    'a' <= c <= 'z' || '0' <= c <= '9' || c == '.' || c == '@'
  }

  function Email(prenom: string, nom: string): string {
    Filter(Lower(prenom) + "." + Lower(nom) + EmailDomain, EmailChar)
  }

  /** Every character is one the email keeps. */
  predicate EmailText(s: string) {
    forall i :: 0 <= i < |s| ==> EmailChar(s[i])
  }

  lemma DomainKept()
    ensures Filter(EmailDomain, EmailChar) == EmailDomain
  {
    forall i | 0 <= i < |EmailDomain| ensures EmailChar(EmailDomain[i]) {
      assert EmailDomain == ['@', 'a', 'v', 'o', 'c', 'a', 't', 's', '.', 'f', 'r'];
    }
    FilterKeepsAll(EmailDomain, EmailChar);
  }

  lemma FilteredEmailText(s: string)
    ensures EmailText(Filter(s, EmailChar))
  {
    var f := Filter(s, EmailChar);
    FilterMembers(s, EmailChar);
    assert forall i :: 0 <= i < |f| ==> f[i] in f;
  }

  /** The email keeps only allowed characters: the kept letters and digits of each
      name part, one separating dot and the domain. */
  lemma EmailSpec(prenom: string, nom: string)
    ensures EmailText(Email(prenom, nom))
    ensures Email(prenom, nom) ==
              Filter(Lower(prenom), EmailChar) + "." + Filter(Lower(nom), EmailChar) + EmailDomain
    ensures EndsWith(Email(prenom, nom), EmailDomain)
  {
    var a, b := Lower(prenom), Lower(nom);
    FilterConcat(a + "." + b, EmailDomain, EmailChar);
    FilterConcat(a + ".", b, EmailChar);
    FilterConcat(a, ".", EmailChar);
    FilterKeepsAll(".", EmailChar);
    DomainKept();
    FilteredEmailText(a + "." + b + EmailDomain);
  }

  predicate IsLanguageSeparator(c: char) {
    c == ',' || c == ';'
  }

  predicate NonEmpty(s: string) {
    s != []
  }

  /** `aVLang.split(/[,;]/).map(l => l.trim()).filter(l => l)`, or French when the
      cell is empty. */
  function Languages(field: string): seq<string> {
    if field == "" then DefaultLanguages
    else Filter(Map(SplitWhere(field, IsLanguageSeparator), JsTrim), NonEmpty)
  }

  /** A usable language: non-empty, without surrounding white space or separators. */
  predicate CleanLanguage(l: string) {
    l != [] && !IsJsSpace(l[0]) && !IsJsSpace(l[|l| - 1]) &&
    forall j :: 0 <= j < |l| ==> !IsLanguageSeparator(l[j])
  }

  /** A non-empty trimmed piece of the split is a clean language. */
  lemma TrimmedPiece(piece: string)
    requires forall j :: 0 <= j < |piece| ==> !IsLanguageSeparator(piece[j])
    ensures JsTrim(piece) != [] ==> CleanLanguage(JsTrim(piece))
  {
    var l := JsTrim(piece);
    JsTrimChars(piece);
    forall j | 0 <= j < |l| ensures !IsLanguageSeparator(l[j]) {
      assert l[j] in piece;
    }
  }

  lemma DefaultLanguageShape()
    ensures CleanLanguage(DefaultLanguages[0])
  {
    var l := DefaultLanguages[0];
    assert l == ['F', 'r', 'a', 'n', 'ç', 'a', 'i', 's'];
    forall j | 0 <= j < |l| ensures !IsLanguageSeparator(l[j]) {
      assert l[j] in {'F', 'r', 'a', 'n', 'ç', 'i', 's'};
    }
  }

  /** Every language is a clean piece of the cell; an empty cell gives French. */
  lemma LanguagesSpec(field: string)
    ensures field == "" ==> Languages(field) == ["Français"]
    ensures forall i :: 0 <= i < |Languages(field)| ==> CleanLanguage(Languages(field)[i])
  {
    if field == "" {
      DefaultLanguageShape();
    } else {
      forall i | 0 <= i < |Languages(field)| ensures CleanLanguage(Languages(field)[i]) {
        LanguageAt(field, i);
      }
    }
  }

  /** The `i`-th language of a non-empty cell is a trimmed piece of the split. */
  lemma LanguageAt(field: string, i: int)
    requires field != ""
    requires 0 <= i < |Languages(field)|
    ensures CleanLanguage(Languages(field)[i])
  {
    var pieces := SplitWhere(field, IsLanguageSeparator);
    var trimmed := Map(pieces, JsTrim);
    var languages := Filter(trimmed, NonEmpty);
    assert languages == Languages(field);
    FilterMembers(trimmed, NonEmpty);
    var x := languages[i];
    assert x in languages;
    assert x in trimmed && x != [];
    var k :| 0 <= k < |trimmed| && trimmed[k] == x;
    assert x == JsTrim(pieces[k]);
    TrimmedPiece(pieces[k]);
  }

  /** `row.cbRaisonSociale && row.cbRaisonSociale.trim() !== ''`. */
  function FirmName(raisonSociale: string): (r: Option<string>)
    ensures r.Some? <==> JsTrim(raisonSociale) != []
    ensures r.Some? ==> r.value == raisonSociale
  {
    JsBlankTrim(raisonSociale);
    if JsBlank(raisonSociale) then None else Some(raisonSociale)
  }

  // ---------------------------------------------------------------------------
  // Records

  /** Rows without a last or a first name are skipped. */
  predicate Kept(row: Row) {
    row.avNom != "" && row.avPrenom != ""
  }

  /** The record for a kept row; `index` is the number of records built before it and
      `years` the experience drawn for it. */
  function LawyerOf(row: Row, index: nat, years: nat): LawyerRecord {
    LawyerRecord(
      LawyerIdPrefix + (if row.cbSiretSiren != "" then row.cbSiretSiren else NatToString(index)),
      TitlePrefix + row.avPrenom + " " + row.avNom,
      Email(row.avPrenom, row.avNom),
      UserRole.Lawyer,
      MapSpecialty(SpecialtyText(row)),
      BioPrefix + Render(row.barreau) + BioMiddle + NatToString(years) + BioSuffix,
      Render(City(row)) + LocationSuffix,
      GetCoordinates(City(row).GetOr("")),
      HourlyRate(years, row.barreau),
      Languages(row.aVLang),
      years,
      FirmName(row.cbRaisonSociale))
  }

  function Entry(row: Row, index: nat, years: nat): Write {
    var lawyer := LawyerOf(row, index, years);
    (LawyerPathPrefix + lawyer.id, lawyer)
  }

  /** The records built from the kept rows, in order: the k-th gets the number k and
      the k-th drawn experience. */
  function Numbered<R, W>(kept: seq<R>, experience: seq<nat>, build: (R, nat, nat) -> W): (r: seq<W>)
    requires |kept| <= |experience|
    ensures |r| == |kept|
    ensures forall k :: 0 <= k < |kept| ==> r[k] == build(kept[k], k, experience[k])
  {
    seq(|kept|, k requires 0 <= k < |kept| => build(kept[k], k, experience[k]))
  }

  /** Everything the import writes, in order. */
  function Uploads(rows: seq<Row>, experience: seq<nat>): (r: seq<Write>)
    requires |rows| <= |experience|
    ensures |r| == |Filter(rows, Kept)| <= |rows|
  {
    FilterMembers(rows, Kept);
    Numbered(Filter(rows, Kept), experience, Entry)
  }

  /** One more row adds its record, numbered by the records before it, when kept. */
  lemma NumberedStep<R, W>(rows: seq<R>, keep: R -> bool, experience: seq<nat>,
                           build: (R, nat, nat) -> W, i: nat)
    requires i < |rows| <= |experience|
    ensures |Filter(rows[..i], keep)| <= i
    ensures |Filter(rows[..i + 1], keep)| <= i + 1
    ensures Numbered(Filter(rows[..i + 1], keep), experience, build) ==
              Numbered(Filter(rows[..i], keep), experience, build) +
              (if keep(rows[i])
               then [build(rows[i], |Filter(rows[..i], keep)|, experience[|Filter(rows[..i], keep)|])]
               else [])
  {
    assert rows[..i + 1] == rows[..i] + [rows[i]];
    FilterAppend(rows[..i], rows[i], keep);
    FilterMembers(rows[..i], keep);
  }

  /** What every record states whatever its row: it is a lawyer stored under its own
      id, with the drawn experience, a rate rounded to ten and an address at the
      fixed domain. */
  lemma EntryShape(row: Row, index: nat, years: nat)
    ensures var w := Entry(row, index, years);
            w.0 == LawyerPathPrefix + w.1.id && StartsWith(w.1.id, LawyerIdPrefix) &&
            w.1.role == UserRole.Lawyer && w.1.hourlyRate % 10 == 0 &&
            w.1.yearsExperience == years && EndsWith(w.1.email, EmailDomain)
  {
    HourlyRateSpec(years, row.barreau);
    EmailSpec(row.avPrenom, row.avNom);
  }

  /** The k-th upload is built from the k-th kept row, with number k. */
  lemma UploadsSpec(rows: seq<Row>, experience: seq<nat>, k: nat)
    requires |rows| <= |experience|
    requires k < |Uploads(rows, experience)|
    ensures |Uploads(rows, experience)| == |Filter(rows, Kept)|
    ensures Uploads(rows, experience)[k] == Entry(Filter(rows, Kept)[k], k, experience[k])
    ensures Kept(Filter(rows, Kept)[k]) && Filter(rows, Kept)[k] in rows
  {
    FilterMembers(rows, Kept);
    assert Filter(rows, Kept)[k] in Filter(rows, Kept);
  }

  // ---------------------------------------------------------------------------
  // Batching

  /** The import: builds a record for every kept row and groups the writes into
      batches of `BatchSize`, the last one possibly shorter. */
  method UploadLawyers(rows: seq<Row>, experience: seq<nat>)
      returns (batches: seq<seq<Write>>, totalUploaded: nat)
    requires |rows| <= |experience|
    ensures Concat(batches) == Uploads(rows, experience)
    ensures totalUploaded == |Uploads(rows, experience)|
    ensures forall j :: 0 <= j < |batches| ==> 0 < |batches[j]| <= BatchSize
    ensures forall j :: 0 <= j < |batches| - 1 ==> |batches[j]| == BatchSize
  {
    batches, totalUploaded := UploadInBatches(rows, Kept, experience, Entry);
  }

  /** The loop of the import, for any row filter and record builder: each kept row
      is built with the count of records before it and added to the open batch. */
  method UploadInBatches<R, W>(rows: seq<R>, keep: R -> bool, experience: seq<nat>,
                               build: (R, nat, nat) -> W)
      returns (batches: seq<seq<W>>, totalUploaded: nat)
    requires |rows| <= |experience|
    ensures |Filter(rows, keep)| <= |rows|
    ensures Concat(batches) == Numbered(Filter(rows, keep), experience, build)
    ensures totalUploaded == |Filter(rows, keep)|
    ensures forall j :: 0 <= j < |batches| ==> 0 < |batches[j]| <= BatchSize
    ensures forall j :: 0 <= j < |batches| - 1 ==> |batches[j]| == BatchSize
  {
    FilterMembers(rows, keep);
    batches := [];
    var batch: seq<W> := [];
    totalUploaded := 0;
    var i := 0;
    while i < |rows|
      invariant 0 <= i <= |rows|
      invariant |Filter(rows[..i], keep)| <= i
      invariant Concat(batches) + batch == Numbered(Filter(rows[..i], keep), experience, build)
      invariant totalUploaded == |Filter(rows[..i], keep)|
      invariant |batch| < BatchSize
      invariant forall j :: 0 <= j < |batches| ==> |batches[j]| == BatchSize
    {
      NumberedStep(rows, keep, experience, build, i);
      if keep(rows[i]) {
        batches, batch := AddWrite(batches, batch, build(rows[i], totalUploaded, experience[totalUploaded]));
        totalUploaded := totalUploaded + 1;
      }
      i := i + 1;
    }
    if |batch| > 0 {
      ConcatPush(batches, batch);
      batches := batches + [batch];
    }
    assert rows[..|rows|] == rows;
  }

  /** Adds one write to the open batch and closes the batch once it holds
      `BatchSize` writes. */
  method AddWrite<T>(batches: seq<seq<T>>, batch: seq<T>, w: T)
      returns (batches': seq<seq<T>>, batch': seq<T>)
    requires |batch| < BatchSize
    requires forall j :: 0 <= j < |batches| ==> |batches[j]| == BatchSize
    ensures Concat(batches') + batch' == Concat(batches) + batch + [w]
    ensures |batch'| < BatchSize
    ensures forall j :: 0 <= j < |batches'| ==> |batches'[j]| == BatchSize
  {
    batch' := batch + [w];
    batches' := batches;
    if |batch'| >= BatchSize {
      ConcatPush(batches, batch');
      batches' := batches + [batch'];
      batch' := [];
    }
  }

  /** Batches filled to `BatchSize` except a non-empty last one are exactly
      `ceil(total / BatchSize)` many. */
  lemma {:induction false} BatchCount<T>(batches: seq<seq<T>>)
    requires forall j :: 0 <= j < |batches| ==> 0 < |batches[j]| <= BatchSize
    requires forall j :: 0 <= j < |batches| - 1 ==> |batches[j]| == BatchSize
    ensures |batches| == (|Concat(batches)| + BatchSize - 1) / BatchSize
  {
    if batches != [] {
      var init := batches[..|batches| - 1];
      FullBatchesLength(init);
    }
  }

  lemma {:induction false} FullBatchesLength<T>(batches: seq<seq<T>>)
    requires forall j :: 0 <= j < |batches| ==> |batches[j]| == BatchSize
    ensures |Concat(batches)| == BatchSize * |batches|
  {
    if batches != [] {
      FullBatchesLength(batches[..|batches| - 1]);
    }
  }
}
