/** The profile view model: the metabolic calculator (basal metabolic rate by
    the Mifflin–St Jeor equation, activity factors, a suggested daily intake),
    the ordered validation of the profile form, single-field form updates and
    the validation/payload part of saving the profile. */
module Profile {
  import opened Wrappers
  import JsText

  /** The form's `gender`; `Unset` is the empty string. */
  datatype Gender = Male | Female | Unset

  datatype ActivityLevel = Sedentary | Light | Moderate | Active

  /** The free-form `preferences` record. */
  type Preferences = map<string, string>

  /** The profile form. A numeric field is `None` when it holds `null` or
      `undefined`; an absent `activityLevel` stands for both `undefined` and `''`. */
  datatype ProfileForm = ProfileForm(
    fullName: string,
    gender: Gender,
    birthdate: Option<string>,
    heightCm: Option<real>,
    weightKg: Option<real>,
    activityLevel: Option<ActivityLevel>,
    goalWeight: Option<real>,
    preferences: Option<Preferences>)

  /** The form before a profile is loaded, and after loading fails. */
  const DefaultForm := ProfileForm("", Unset, None, None, None, None, None, None)

  // ---------------------------------------------------------------------------
  // Metric calculator
  // ---------------------------------------------------------------------------

  /** The multiplier applied to the basal rate for each activity level. */
  function ActivityFactor(level: ActivityLevel): real {
    match level
    case Sedentary => 1.2
    case Light => 1.375
    case Moderate => 1.55
    case Active => 1.725
  }

  /** A number is falsy in JavaScript when it is null, undefined or zero. */
  predicate Falsy(x: Option<real>) {
    x.None? || x.value == 0.0
  }

  /** `Math.round`: the nearest integer, halves rounding up. */
  function Round(x: real): (r: int)
    ensures r as real - 0.5 <= x < r as real + 0.5
  {
    (x + 0.5).Floor
  }

  /** The Mifflin–St Jeor sum before the sex-specific constant. */
  function MifflinBase(weightKg: real, heightCm: real, age: int): real {
    10.0 * weightKg + 6.25 * heightCm - 5.0 * age as real
  }

  /** `calculateTMB`: the basal metabolic rate, or `None` when the weight, the
      height, the age or the gender is missing or falsy. An age is `None` for a
      missing or unparsable birthdate. */
  function CalculateTMB(weightKg: Option<real>, heightCm: Option<real>, age: Option<int>, gender: Gender): (r: Option<int>)
    ensures r.None? <==> Falsy(weightKg) || Falsy(heightCm) || age.None? || age.value == 0 || gender == Unset
    ensures r.Some? && gender == Male ==>
      r.value as real - 0.5 <= 10.0 * weightKg.value + 6.25 * heightCm.value - 5.0 * age.value as real + 5.0 < r.value as real + 0.5
    ensures r.Some? && gender == Female ==>
      r.value as real - 0.5 <= 10.0 * weightKg.value + 6.25 * heightCm.value - 5.0 * age.value as real - 161.0 < r.value as real + 0.5
  {
    if Falsy(weightKg) || Falsy(heightCm) || age.None? || age.value == 0 || gender == Unset then None
    else
      var base := MifflinBase(weightKg.value, heightCm.value, age.value);
      if gender == Male then Some(Round(base + 5.0)) else Some(Round(base - 161.0))
  }

  /** The two constants of the equation differ by 166, and so do the rounded rates. */
  lemma MaleFemaleGap(weightKg: real, heightCm: real, age: int)
    requires weightKg != 0.0 && heightCm != 0.0 && age != 0
    ensures CalculateTMB(Some(weightKg), Some(heightCm), Some(age), Male).value
            - CalculateTMB(Some(weightKg), Some(heightCm), Some(age), Female).value == 166
  {
    var base := MifflinBase(weightKg, heightCm, age);
    assert base + 5.0 + 0.5 == (base - 161.0 + 0.5) + 166.0;
  }

  /** A worked example: 82 kg, 175 cm, 30 years. */
  lemma TMBExample()
    ensures CalculateTMB(Some(82.0), Some(175.0), Some(30), Male) == Some(1769)
    ensures CalculateTMB(Some(82.0), Some(175.0), Some(30), Female) == Some(1603)
  {
    assert MifflinBase(82.0, 175.0, 30) == 1763.75;
    assert Round(1768.75) == 1769 by { assert (1768.75 + 0.5).Floor == 1769; }
    assert Round(1602.75) == 1603 by { assert (1602.75 + 0.5).Floor == 1603; }
  }

  datatype Suggestion = Suggestion(maintenance: int, suggested: int, deficit: int)

  const SuggestedDeficit := 500
  const MinimumIntake := 1200

  /** The factor for a possibly unset activity level: unset means sedentary. */
  function FactorFor(level: Option<ActivityLevel>): real {
    match level
    case Some(l) => ActivityFactor(l)
    case None => ActivityFactor(Sedentary)
  }

  /** `suggestDailyCalories`: maintenance is the basal rate times the activity
      factor, rounded; the suggestion removes a 500 kcal deficit but never
      drops below 1200 kcal. */
  function SuggestDailyCalories(tmb: real, level: Option<ActivityLevel>): (s: Suggestion)
    ensures s.deficit == 500
    ensures s.maintenance as real - 0.5 <= tmb * FactorFor(level) < s.maintenance as real + 0.5
    ensures s.suggested >= 1200
    ensures s.suggested == s.maintenance - 500 || s.suggested == 1200
    ensures s.suggested == s.maintenance - 500 <==> s.maintenance >= 1700
  {
    var maintenance := Round(tmb * FactorFor(level));
    var suggested := if MinimumIntake >= maintenance - SuggestedDeficit then MinimumIntake else maintenance - SuggestedDeficit;
    Suggestion(maintenance, suggested, SuggestedDeficit)
  }

  /** `Math.round` never decreases as its argument grows. */
  lemma RoundMonotone(x: real, y: real)
    requires x <= y
    ensures Round(x) <= Round(y)
  {
  }

  /** A higher basal rate never yields a lower maintenance or suggestion. */
  lemma SuggestionMonotoneInTMB(tmb1: real, tmb2: real, level: Option<ActivityLevel>)
    requires tmb1 <= tmb2
    ensures SuggestDailyCalories(tmb1, level).maintenance <= SuggestDailyCalories(tmb2, level).maintenance
    ensures SuggestDailyCalories(tmb1, level).suggested <= SuggestDailyCalories(tmb2, level).suggested
  {
    RoundMonotone(tmb1 * FactorFor(level), tmb2 * FactorFor(level));
  }

  /** The ordering of the activity levels, least active first. */
  function Rank(level: ActivityLevel): nat {
    match level
    case Sedentary => 0
    case Light => 1
    case Moderate => 2
    case Active => 3
  }

  /** The four factors, each level's strictly above the one before. */
  lemma ActivityFactorTable()
    ensures ActivityFactor(Sedentary) == 1.2 && ActivityFactor(Light) == 1.375
    ensures ActivityFactor(Moderate) == 1.55 && ActivityFactor(Active) == 1.725
    ensures forall a, b :: Rank(a) < Rank(b) ==> ActivityFactor(a) < ActivityFactor(b)
  {
  }

  /** For a non-negative basal rate, a more active level never yields a lower
      maintenance or suggestion. */
  lemma SuggestionMonotoneInActivity(tmb: real, l1: ActivityLevel, l2: ActivityLevel)
    requires tmb >= 0.0 && Rank(l1) <= Rank(l2)
    ensures SuggestDailyCalories(tmb, Some(l1)).maintenance <= SuggestDailyCalories(tmb, Some(l2)).maintenance
    ensures SuggestDailyCalories(tmb, Some(l1)).suggested <= SuggestDailyCalories(tmb, Some(l2)).suggested
  {
    assert ActivityFactor(l1) <= ActivityFactor(l2);
    assert tmb * ActivityFactor(l1) <= tmb * ActivityFactor(l2);
    RoundMonotone(tmb * ActivityFactor(l1), tmb * ActivityFactor(l2));
  }

  /** Worked examples of the suggestion, the last one hitting the 1200 kcal floor. */
  lemma SuggestionExamples()
    ensures SuggestDailyCalories(1600.0, Some(Sedentary)) == Suggestion(1920, 1420, 500)
    ensures SuggestDailyCalories(1600.0, Some(Active)) == Suggestion(2760, 2260, 500)
    ensures SuggestDailyCalories(1600.0, None) == SuggestDailyCalories(1600.0, Some(Sedentary))
    ensures SuggestDailyCalories(800.0, Some(Sedentary)) == Suggestion(960, 1200, 500)
  {
  }

  /** The view model's derived state for a form and an age. */
  datatype Metrics = Metrics(tmb: Option<int>, suggestions: Option<Suggestion>)

  /** The derived `tmb` and `suggestions`: suggestions exist only for a
      truthy (non-zero) basal rate. */
  function DeriveMetrics(form: ProfileForm, age: Option<int>): (m: Metrics)
    ensures m.tmb.None? <==> Falsy(form.weightKg) || Falsy(form.heightCm) || age.None? || age.value == 0 || form.gender == Unset
    ensures m.suggestions.Some? <==> m.tmb.Some? && m.tmb.value != 0
    ensures m.suggestions.Some? ==> m.suggestions.value.suggested >= MinimumIntake
    ensures m.tmb == CalculateTMB(form.weightKg, form.heightCm, age, form.gender)
    ensures m.suggestions.Some? ==> m.suggestions.value == SuggestDailyCalories(m.tmb.value as real, form.activityLevel)
  {
    var tmb := CalculateTMB(form.weightKg, form.heightCm, age, form.gender);
    var suggestions := if tmb.Some? && tmb.value != 0 then Some(SuggestDailyCalories(tmb.value as real, form.activityLevel)) else None;
    Metrics(tmb, suggestions)
  }

  // ---------------------------------------------------------------------------
  // Validation
  // ---------------------------------------------------------------------------

  /** The checks `validate` performs, in the order it performs them. */
  datatype Check = NameCheck | GenderCheck | BirthdateCheck | HeightCheck | WeightCheck | ActivityCheck

  const CheckOrder: seq<Check> := [NameCheck, GenderCheck, BirthdateCheck, HeightCheck, WeightCheck, ActivityCheck]

  /** What each check demands of the form. */
  predicate Passes(form: ProfileForm, check: Check) {
    match check
    case NameCheck => JsText.Utf16Length(JsText.Trim(form.fullName)) >= 2
    case GenderCheck => form.gender == Male || form.gender == Female
    case BirthdateCheck => form.birthdate.Some? && form.birthdate.value != ""
    case HeightCheck => form.heightCm.Some? && form.heightCm.value > 0.0
    case WeightCheck => form.weightKg.Some? && form.weightKg.value > 0.0
    case ActivityCheck => form.activityLevel.Some?
  }

  function Message(check: Check): string {
    match check
    case NameCheck => "Informe seu nome completo."
    case GenderCheck => "Selecione o gênero."
    case BirthdateCheck => "Informe a data de nascimento."
    case HeightCheck => "Informe a altura em cm."
    case WeightCheck => "Informe o peso atual em kg."
    case ActivityCheck => "Selecione o nível de atividade."
  }

  /** The first check of `checks` that `form` fails, if any. */
  function FirstFailing(form: ProfileForm, checks: seq<Check>): (r: Option<Check>)
    ensures r.None? <==> forall i :: 0 <= i < |checks| ==> Passes(form, checks[i])
    ensures r.Some? ==> exists i :: 0 <= i < |checks| && checks[i] == r.value && !Passes(form, checks[i])
                          && forall j :: 0 <= j < i ==> Passes(form, checks[j])
  {
    if |checks| == 0 then None
    else if !Passes(form, checks[0]) then Some(checks[0])
    else
      var r := FirstFailing(form, checks[1..]);
      assert forall i :: 1 <= i < |checks| ==> checks[i] == checks[1..][i - 1];
      if r.Some? then
        var i :| 0 <= i < |checks[1..]| && checks[1..][i] == r.value && !Passes(form, checks[1..][i])
                  && forall j :: 0 <= j < i ==> Passes(form, checks[1..][j]);
        assert forall j :: 0 <= j < i + 1 ==> Passes(form, checks[j]);
        r
      else r
  }

  /** Unfolds `FirstFailing` along `CheckOrder`. */
  lemma UnfoldCheckOrder(form: ProfileForm)
    ensures FirstFailing(form, CheckOrder) ==
      if !Passes(form, NameCheck) then Some(NameCheck)
      else if !Passes(form, GenderCheck) then Some(GenderCheck)
      else if !Passes(form, BirthdateCheck) then Some(BirthdateCheck)
      else if !Passes(form, HeightCheck) then Some(HeightCheck)
      else if !Passes(form, WeightCheck) then Some(WeightCheck)
      else if !Passes(form, ActivityCheck) then Some(ActivityCheck)
      else None
  {
    var c := CheckOrder;
    assert c[1..][1..][1..][1..][1..][1..] == [];
    assert FirstFailing(form, c[1..][1..][1..][1..][1..]) == if !Passes(form, ActivityCheck) then Some(ActivityCheck) else None;
    assert FirstFailing(form, c[1..][1..][1..][1..]) == if !Passes(form, WeightCheck) then Some(WeightCheck) else FirstFailing(form, c[1..][1..][1..][1..][1..]);
    assert FirstFailing(form, c[1..][1..][1..]) == if !Passes(form, HeightCheck) then Some(HeightCheck) else FirstFailing(form, c[1..][1..][1..][1..]);
    assert FirstFailing(form, c[1..][1..]) == if !Passes(form, BirthdateCheck) then Some(BirthdateCheck) else FirstFailing(form, c[1..][1..][1..]);
    assert FirstFailing(form, c[1..]) == if !Passes(form, GenderCheck) then Some(GenderCheck) else FirstFailing(form, c[1..][1..]);
  }

  /** Every check is in `CheckOrder`, so no failing check in that order means
      every check passes. */
  lemma NoFailingCheckMeansAllPass(form: ProfileForm)
    ensures FirstFailing(form, CheckOrder).None? <==> forall c :: Passes(form, c)
  {
    if FirstFailing(form, CheckOrder).None? {
      assert forall i :: 0 <= i < |CheckOrder| ==> Passes(form, CheckOrder[i]);
      forall c ensures Passes(form, c) {
        var i := match c
          case NameCheck => 0 case GenderCheck => 1 case BirthdateCheck => 2
          case HeightCheck => 3 case WeightCheck => 4 case ActivityCheck => 5;
        assert CheckOrder[i] == c;
      }
    }
  }

  /** `validate`: no message when every check passes, otherwise the message of
      the first check, in `CheckOrder`, that fails. */
  function Validate(form: ProfileForm): (r: Option<string>)
    ensures r.None? <==> forall c :: Passes(form, c)
    ensures r == (match FirstFailing(form, CheckOrder) case None => None case Some(c) => Some(Message(c)))
  {
    UnfoldCheckOrder(form);
    NoFailingCheckMeansAllPass(form);
    if |form.fullName| == 0 || JsText.Utf16Length(JsText.Trim(form.fullName)) < 2 then
      Some(Message(NameCheck))
    else if form.gender == Unset || (form.gender != Male && form.gender != Female) then
      Some(Message(GenderCheck))
    else if form.birthdate.None? || form.birthdate.value == "" then
      Some(Message(BirthdateCheck))
    else if Falsy(form.heightCm) || form.heightCm.value <= 0.0 then
      Some(Message(HeightCheck))
    else if Falsy(form.weightKg) || form.weightKg.value <= 0.0 then
      Some(Message(WeightCheck))
    else if form.activityLevel.None? then
      Some(Message(ActivityCheck))
    else
      None
  }

  /** A filled-in form used by the boundary examples below. */
  const SampleForm := ProfileForm("Al", Female, Some("1990-05-01"), Some(1.0), Some(60.0), Some(Light), None, None)

  lemma TrimTwoLetters()
    ensures JsText.Trim("Al") == "Al" && JsText.Utf16Length("Al") == 2
  {
  }

  lemma TrimOneLetter()
    ensures JsText.Trim("A") == "A" && JsText.Utf16Length("A") == 1
  {
  }

  lemma TrimPaddedLetter()
    ensures JsText.Trim(" A ") == "A"
  {
  }

  lemma TrimAstral()
    ensures JsText.Trim("\U{1F600}") == "\U{1F600}" && JsText.Utf16Length("\U{1F600}") == 2
  {
    JsText.Utf16LengthOfOneCharacter('\U{1F600}');
  }

  /** The sample form passes every check. */
  lemma SampleFormIsValid()
    ensures Validate(SampleForm) == None
  {
    TrimTwoLetters();
  }

  /** A name is rejected with one character, padding not counted. */
  lemma NameLengthBoundary()
    ensures Validate(SampleForm.(fullName := "A")) == Some("Informe seu nome completo.")
    ensures Validate(SampleForm.(fullName := " A ")) == Some("Informe seu nome completo.")
  {
    TrimOneLetter();
    TrimPaddedLetter();
  }

  /** A name of one astral character, such as an emoji, is two code units long
      and passes the name check. */
  lemma AstralNameIsLongEnough()
    ensures Validate(SampleForm.(fullName := "\U{1F600}")) == None
  {
    TrimAstral();
  }

  /** A height of 1 cm is accepted and one of 0 cm rejected, after the name check. */
  lemma HeightBoundary()
    ensures Validate(SampleForm.(heightCm := Some(0.0))) == Some("Informe a altura em cm.")
    ensures Validate(SampleForm.(fullName := "A", heightCm := Some(0.0))) == Some("Informe seu nome completo.")
  {
    TrimTwoLetters();
    TrimOneLetter();
  }

  /** The default form fails on its first check, the name. */
  lemma DefaultFormIsInvalid()
    ensures Validate(DefaultForm) == Some("Informe seu nome completo.")
    ensures DeriveMetrics(DefaultForm, Some(30)) == Metrics(None, None)
  {
  }

  /** A form that passes validation has a basal rate for every non-zero age. */
  lemma ValidFormHasTMB(form: ProfileForm, age: int)
    requires Validate(form).None? && age != 0
    ensures DeriveMetrics(form, Some(age)).tmb.Some?
  {
    assert Passes(form, GenderCheck) && Passes(form, HeightCheck) && Passes(form, WeightCheck);
  }

  // ---------------------------------------------------------------------------
  // Single-field updates
  // ---------------------------------------------------------------------------

  /** The keys of the form. */
  datatype Field = FullNameField | GenderField | BirthdateField | HeightField | WeightField
                 | ActivityField | GoalWeightField | PreferencesField

  /** The value of one field, whatever its type. */
  datatype FieldValue =
    | Text(text: string)
    | GenderValue(gender: Gender)
    | OptionalText(optText: Option<string>)
    | OptionalNumber(optNumber: Option<real>)
    | OptionalLevel(optLevel: Option<ActivityLevel>)
    | OptionalPreferences(optPreferences: Option<Preferences>)

  /** `form[key]`. */
  function Get(form: ProfileForm, key: Field): FieldValue {
    match key
    case FullNameField => Text(form.fullName)
    case GenderField => GenderValue(form.gender)
    case BirthdateField => OptionalText(form.birthdate)
    case HeightField => OptionalNumber(form.heightCm)
    case WeightField => OptionalNumber(form.weightKg)
    case ActivityField => OptionalLevel(form.activityLevel)
    case GoalWeightField => OptionalNumber(form.goalWeight)
    case PreferencesField => OptionalPreferences(form.preferences)
  }

  /** A field holding `''`, the unset gender, or `null`. */
  predicate IsEmpty(value: FieldValue) {
    match value
    case Text(text) => text == ""
    case GenderValue(gender) => gender == Unset
    case OptionalText(optText) => optText.None?
    case OptionalNumber(optNumber) => optNumber.None?
    case OptionalLevel(optLevel) => optLevel.None?
    case OptionalPreferences(optPreferences) => optPreferences.None?
  }

  /** Every field of the default form is empty. */
  lemma DefaultFormIsEmpty()
    ensures forall key :: IsEmpty(Get(DefaultForm, key))
  {
  }

  /** The default form is the only form whose every field is empty. */
  lemma OnlyEmptyFormIsDefault(form: ProfileForm)
    requires forall key :: IsEmpty(Get(form, key))
    ensures form == DefaultForm
  {
    assert IsEmpty(Get(form, FullNameField)) && IsEmpty(Get(form, GenderField));
    assert IsEmpty(Get(form, BirthdateField)) && IsEmpty(Get(form, HeightField));
    assert IsEmpty(Get(form, WeightField)) && IsEmpty(Get(form, ActivityField));
    assert IsEmpty(Get(form, GoalWeightField)) && IsEmpty(Get(form, PreferencesField));
  }

  /** `value` has the type `ProfileForm[key]`, as the type checker demands of every caller. */
  predicate FitsField(key: Field, value: FieldValue) {
    match key
    case FullNameField => value.Text?
    case GenderField => value.GenderValue?
    case BirthdateField => value.OptionalText?
    case HeightField | WeightField | GoalWeightField => value.OptionalNumber?
    case ActivityField => value.OptionalLevel?
    case PreferencesField => value.OptionalPreferences?
  }

  /** Two forms are equal exactly when every field agrees. */
  lemma {:induction false} FormExtensionality(a: ProfileForm, b: ProfileForm)
    requires forall k :: Get(a, k) == Get(b, k)
    ensures a == b
  {
    assert Get(a, FullNameField) == Get(b, FullNameField);
    assert Get(a, GenderField) == Get(b, GenderField);
    assert Get(a, BirthdateField) == Get(b, BirthdateField);
    assert Get(a, HeightField) == Get(b, HeightField);
    assert Get(a, WeightField) == Get(b, WeightField);
    assert Get(a, ActivityField) == Get(b, ActivityField);
    assert Get(a, GoalWeightField) == Get(b, GoalWeightField);
    assert Get(a, PreferencesField) == Get(b, PreferencesField);
  }

  /** `setField(key, value)`: `{ ...prev, [key]: value }`. */
  function SetField(form: ProfileForm, key: Field, value: FieldValue): (r: ProfileForm)
    requires FitsField(key, value)
    ensures Get(r, key) == value
    ensures forall k :: k != key ==> Get(r, k) == Get(form, k)
  {
    match key
    case FullNameField => form.(fullName := value.text)
    case GenderField => form.(gender := value.gender)
    case BirthdateField => form.(birthdate := value.optText)
    case HeightField => form.(heightCm := value.optNumber)
    case WeightField => form.(weightKg := value.optNumber)
    case ActivityField => form.(activityLevel := value.optLevel)
    case GoalWeightField => form.(goalWeight := value.optNumber)
    case PreferencesField => form.(preferences := value.optPreferences)
  }

  /** Writing a field's own value back changes nothing. */
  lemma SetFieldToCurrentValue(form: ProfileForm, key: Field)
    ensures FitsField(key, Get(form, key))
    ensures SetField(form, key, Get(form, key)) == form
  {
    FormExtensionality(SetField(form, key, Get(form, key)), form);
  }

  /** The last of two writes to the same field wins. */
  lemma SetFieldLastWriteWins(form: ProfileForm, key: Field, v1: FieldValue, v2: FieldValue)
    requires FitsField(key, v1) && FitsField(key, v2)
    ensures SetField(SetField(form, key, v1), key, v2) == SetField(form, key, v2)
  {
    FormExtensionality(SetField(SetField(form, key, v1), key, v2), SetField(form, key, v2));
  }

  /** Writes to different fields commute. */
  lemma SetFieldCommutes(form: ProfileForm, k1: Field, v1: FieldValue, k2: Field, v2: FieldValue)
    requires k1 != k2 && FitsField(k1, v1) && FitsField(k2, v2)
    ensures SetField(SetField(form, k1, v1), k2, v2) == SetField(SetField(form, k2, v2), k1, v1)
  {
    FormExtensionality(SetField(SetField(form, k1, v1), k2, v2), SetField(SetField(form, k2, v2), k1, v1));
  }

  // ---------------------------------------------------------------------------
  // Saving
  // ---------------------------------------------------------------------------

  /** The row sent to the `profiles` upsert. */
  datatype Payload = Payload(
    userId: string,
    fullName: string,
    gender: Gender,
    birthdate: Option<string>,
    heightCm: Option<real>,
    weightKg: Option<real>,
    activityLevel: Option<ActivityLevel>,
    goalWeight: Option<real>,
    preferences: Option<Preferences>,
    updatedAt: string)

  /** What `auth.getUser()` gives: a signed-in user, an error or no user, or a thrown exception. */
  datatype AuthOutcome = SignedIn(userId: string) | NotAuthenticated | AuthThrew(thrown: Thrown)

  /** What the upsert gives: success, an error value, or a thrown exception. */
  datatype UpsertOutcome = Upserted | UpsertError(message: Option<string>) | UpsertThrew(thrown: Thrown)

  /** The remote calls a save issues, in order. */
  datatype BackendCall = GetUser | Upsert(payload: Payload, onConflict: string)

  /** The value `saveProfile` returns, the `error` state it leaves, and the calls it made. */
  datatype SaveResult = SaveResult(ok: bool, error: Option<string>, calls: seq<BackendCall>)

  const NotAuthenticatedMessage := "Usuário não autenticado"
  const SaveFailedMessage := "Erro ao salvar perfil"

  /** The upsert payload: every form field copied, plus the owner and the save time. */
  function BuildPayload(form: ProfileForm, userId: string, now: string): Payload {
    Payload(userId, form.fullName, form.gender, form.birthdate, form.heightCm, form.weightKg,
            form.activityLevel, form.goalWeight, form.preferences, now)
  }

  /** How `loadProfile` fills the form from a stored profile row. */
  function FormFromRow(row: Payload): ProfileForm {
    ProfileForm(row.fullName, row.gender, row.birthdate, row.heightCm, row.weightKg,
                row.activityLevel, row.goalWeight, row.preferences)
  }

  /** A saved form loads back unchanged: the payload copies every field verbatim. */
  lemma SaveThenLoad(form: ProfileForm, userId: string, now: string)
    ensures FormFromRow(BuildPayload(form, userId, now)) == form
    ensures BuildPayload(form, userId, now).userId == userId && BuildPayload(form, userId, now).updatedAt == now
  {
  }

  /** `saveProfile`, given the outcomes of the remote calls and the current time
      as an ISO string. A validation failure returns before any remote call. */
  function SaveProfile(form: ProfileForm, auth: AuthOutcome, upsert: UpsertOutcome, now: string): (r: SaveResult)
    ensures Validate(form).Some? ==> !r.ok && r.error == Validate(form) && r.calls == []
    ensures Validate(form).None? ==> |r.calls| >= 1 && r.calls[0] == GetUser
    ensures r.ok <==> Validate(form).None? && auth.SignedIn? && upsert.Upserted?
    ensures r.ok <==> r.error.None?
    ensures forall i :: 0 <= i < |r.calls| && r.calls[i].Upsert? ==>
      && auth.SignedIn?
      && FormFromRow(r.calls[i].payload) == form
      && r.calls[i].payload.userId == auth.userId
      && r.calls[i].payload.updatedAt == now
      && r.calls[i].onConflict == "user_id"
    ensures auth.SignedIn? && Validate(form).None? ==> |r.calls| == 2 && r.calls[1].Upsert?
    ensures Validate(form).None? && auth.NotAuthenticated? ==>
      r.error == Some(NotAuthenticatedMessage) && r.calls == [GetUser]
    ensures Validate(form).None? && auth.AuthThrew? ==>
      r.error == Some(auth.thrown.message.GetOr(SaveFailedMessage)) && r.calls == [GetUser]
    ensures Validate(form).None? && auth.SignedIn? && upsert.UpsertError? ==>
      r.error == Some(upsert.message.GetOr(SaveFailedMessage))
    ensures Validate(form).None? && auth.SignedIn? && upsert.UpsertThrew? ==>
      r.error == Some(upsert.thrown.message.GetOr(SaveFailedMessage))
  {
    var validation := Validate(form);
    if validation.Some? then SaveResult(false, validation, [])
    else
      match auth
      case AuthThrew(t) => SaveResult(false, Some(t.message.GetOr(SaveFailedMessage)), [GetUser])
      case NotAuthenticated => SaveResult(false, Some(NotAuthenticatedMessage), [GetUser])
      case SignedIn(userId) =>
        var calls := [GetUser, Upsert(BuildPayload(form, userId, now), "user_id")];
        match upsert
        case Upserted => SaveResult(true, None, calls)
        case UpsertError(message) => SaveResult(false, Some(message.GetOr(SaveFailedMessage)), calls)
        case UpsertThrew(t) => SaveResult(false, Some(t.message.GetOr(SaveFailedMessage)), calls)
  }
}
