/** The vitals validator (utils/validation.ts): plausibility ranges for each
    measured vital, the emergency thresholds, and the rule that a chest-pain
    complaint makes heart rate and systolic pressure mandatory. */
module Validation {
  import opened Wrappers
  import opened Types
  import Text

  /** The keys of the `errors` dictionary: `temperature`, `spo2`,
      `heartRate`, `bp` and `general`. */
  datatype ErrorKey = TemperatureKey | Spo2Key | HeartRateKey | BpKey | GeneralKey

  const TemperatureMessage := "Temperature must be between 33°C and 43°C (Compatible with life)."
  const Spo2Message := "SPO2 must be between 50% and 100%."
  const HeartRateMessage := "Heart Rate invalid range (20-250)."
  const BpMessage := "Systolic must be greater than Diastolic."
  const GeneralMessage := "Vitals (HR, BP) are mandatory for Chest Pain."

  function Message(k: ErrorKey): string {
    match k
    case TemperatureKey => TemperatureMessage
    case Spo2Key => Spo2Message
    case HeartRateKey => HeartRateMessage
    case BpKey => BpMessage
    case GeneralKey => GeneralMessage
  }

  datatype ValidationResult = ValidationResult(
    isValid: bool,
    errors: map<ErrorKey, string>,
    isEmergency: bool)

  // ------------------------------------------------- the rules, declaratively

  /** A measured value outside the closed range [lo, hi]. */
  predicate OutsideRange(x: Option<real>, lo: real, hi: real) {
    x.Some? && (x.value < lo || x.value > hi)
  }

  predicate Above(x: Option<real>, bound: real) {
    x.Some? && x.value > bound
  }

  predicate Below(x: Option<real>, bound: real) {
    x.Some? && x.value < bound
  }

  predicate MentionsChestPain(complaint: string) {
    Text.Contains(Text.ToLower(complaint), "chest pain")
  }

  /** The rule behind error key `k` is violated by `p`. */
  predicate Violated(k: ErrorKey, p: PatientData) {
    var v := p.vitals;
    match k
    case TemperatureKey => OutsideRange(v.temperature, 33.0, 43.0)
    case Spo2Key => OutsideRange(v.spo2, 50.0, 100.0)
    case HeartRateKey => OutsideRange(v.heartRate, 20.0, 250.0)
    case BpKey => v.systolic.Some? && v.diastolic.Some? && v.systolic.value < v.diastolic.value
    case GeneralKey => MentionsChestPain(p.chiefComplaint) && (v.heartRate.None? || v.systolic.None?)
  }

  predicate TemperatureEmergency(v: Vitals) {
    Above(v.temperature, 40.0)
  }

  predicate Spo2Emergency(v: Vitals) {
    Below(v.spo2, 90.0)
  }

  predicate HeartRateEmergency(v: Vitals) {
    Above(v.heartRate, 150.0) || Below(v.heartRate, 40.0)
  }

  predicate BloodPressureEmergency(v: Vitals) {
    v.systolic.Some? && v.diastolic.Some? && (v.systolic.value > 200.0 || v.diastolic.value > 120.0)
  }

  /** Some emergency threshold is crossed, whatever the range checks say. */
  predicate Emergency(v: Vitals) {
    TemperatureEmergency(v) || Spo2Emergency(v) || HeartRateEmergency(v) || BloodPressureEmergency(v)
  }

  /** `errors` with the message for `k` recorded when its rule is violated. */
  function Record(errors: map<ErrorKey, string>, k: ErrorKey, violated: bool): map<ErrorKey, string> {
    if violated then errors[k := Message(k)] else errors
  }

  /** The outcome the validator must produce: one message per violated
      rule, valid exactly when none fired, emergency from the thresholds
      alone. */
  function Validate(p: PatientData): ValidationResult {
    var e0: map<ErrorKey, string> := map[];
    var e1 := Record(e0, TemperatureKey, Violated(TemperatureKey, p));
    var e2 := Record(e1, Spo2Key, Violated(Spo2Key, p));
    var e3 := Record(e2, HeartRateKey, Violated(HeartRateKey, p));
    var e4 := Record(e3, BpKey, Violated(BpKey, p));
    var e5 := Record(e4, GeneralKey, Violated(GeneralKey, p));
    ValidationResult(|e5| == 0, e5, Emergency(p.vitals))
  }

  // ------------------------------------------------------ the validator

  /** Fills the error dictionary check by check and raises the emergency
      flag as it goes, as `validateClinicalData` does. */
  method ValidateClinicalData(patient: PatientData) returns (r: ValidationResult)
    ensures r == Validate(patient)
  {
    var errors: map<ErrorKey, string> := map[];
    var isEmergency := false;
    errors, isEmergency := CheckTemperature(patient, errors, isEmergency);
    errors, isEmergency := CheckSpo2(patient, errors, isEmergency);
    errors, isEmergency := CheckHeartRate(patient, errors, isEmergency);
    errors, isEmergency := CheckBloodPressure(patient, errors, isEmergency);
    errors := CheckChestPain(patient, errors);
    r := ValidationResult(|errors| == 0, errors, isEmergency);
  }

  method CheckTemperature(patient: PatientData, errors: map<ErrorKey, string>, isEmergency: bool)
    returns (errors': map<ErrorKey, string>, isEmergency': bool)
    ensures errors' == Record(errors, TemperatureKey, Violated(TemperatureKey, patient))
    ensures isEmergency' == (isEmergency || TemperatureEmergency(patient.vitals))
  {
    errors', isEmergency' := errors, isEmergency;
    var vitals := patient.vitals;
    if vitals.temperature.Some? {
      var t := vitals.temperature.value;
      if t < 33.0 || t > 43.0 {
        errors' := errors'[TemperatureKey := Message(TemperatureKey)];
      }
      if t > 40.0 {
        isEmergency' := true;
      }
    }
  }

  method CheckSpo2(patient: PatientData, errors: map<ErrorKey, string>, isEmergency: bool)
    returns (errors': map<ErrorKey, string>, isEmergency': bool)
    ensures errors' == Record(errors, Spo2Key, Violated(Spo2Key, patient))
    ensures isEmergency' == (isEmergency || Spo2Emergency(patient.vitals))
  {
    errors', isEmergency' := errors, isEmergency;
    var vitals := patient.vitals;
    if vitals.spo2.Some? {
      var s := vitals.spo2.value;
      if s < 50.0 || s > 100.0 {
        errors' := errors'[Spo2Key := Message(Spo2Key)];
      }
      if s < 90.0 {
        isEmergency' := true;
      }
    }
  }

  method CheckHeartRate(patient: PatientData, errors: map<ErrorKey, string>, isEmergency: bool)
    returns (errors': map<ErrorKey, string>, isEmergency': bool)
    ensures errors' == Record(errors, HeartRateKey, Violated(HeartRateKey, patient))
    ensures isEmergency' == (isEmergency || HeartRateEmergency(patient.vitals))
  {
    errors', isEmergency' := errors, isEmergency;
    var vitals := patient.vitals;
    if vitals.heartRate.Some? {
      var hr := vitals.heartRate.value;
      if hr < 20.0 || hr > 250.0 {
        errors' := errors'[HeartRateKey := Message(HeartRateKey)];
      }
      if hr > 150.0 || hr < 40.0 {
        isEmergency' := true;
      }
    }
  }

  /** Blood pressure is judged only when both readings are present. */
  method CheckBloodPressure(patient: PatientData, errors: map<ErrorKey, string>, isEmergency: bool)
    returns (errors': map<ErrorKey, string>, isEmergency': bool)
    ensures errors' == Record(errors, BpKey, Violated(BpKey, patient))
    ensures isEmergency' == (isEmergency || BloodPressureEmergency(patient.vitals))
  {
    errors', isEmergency' := errors, isEmergency;
    var vitals := patient.vitals;
    if vitals.systolic.Some? && vitals.diastolic.Some? {
      var sys, dia := vitals.systolic.value, vitals.diastolic.value;
      if sys < dia {
        errors' := errors'[BpKey := Message(BpKey)];
      }
      if sys > 200.0 || dia > 120.0 {
        isEmergency' := true;
      }
    }
  }

  /** A chest-pain complaint makes heart rate and systolic pressure mandatory. */
  method CheckChestPain(patient: PatientData, errors: map<ErrorKey, string>)
    returns (errors': map<ErrorKey, string>)
    ensures errors' == Record(errors, GeneralKey, Violated(GeneralKey, patient))
  {
    errors' := errors;
    var vitals := patient.vitals;
    if Text.Contains(Text.ToLower(patient.chiefComplaint), "chest pain") {
      if vitals.heartRate.None? || vitals.systolic.None? {
        errors' := errors'[GeneralKey := Message(GeneralKey)];
      }
    }
  }

  // ------------------------------------------------- what the result means

  /** Exactly the violated rules have an entry, each with its own message. */
  lemma ErrorsExactlyViolatedRules(p: PatientData)
    ensures forall k :: k in Validate(p).errors <==> Violated(k, p)
    ensures forall k :: k in Validate(p).errors ==> Validate(p).errors[k] == Message(k)
  {
  }

  /** The record is valid exactly when the dictionary is empty. */
  lemma ValidIffNoErrors(p: PatientData)
    ensures Validate(p).isValid <==> Validate(p).errors == map[]
  {
    var e := Validate(p).errors;
    if |e| == 0 {
      assert forall k :: k !in e;
    }
  }

  /** The emergency flag is the disjunction of the six thresholds. */
  lemma EmergencyExactly(p: PatientData)
    ensures var v := p.vitals;
      Validate(p).isEmergency <==>
        || (v.temperature.Some? && v.temperature.value > 40.0)
        || (v.spo2.Some? && v.spo2.value < 90.0)
        || (v.heartRate.Some? && v.heartRate.value > 150.0)
        || (v.heartRate.Some? && v.heartRate.value < 40.0)
        || (v.systolic.Some? && v.diastolic.Some? && v.systolic.value > 200.0)
        || (v.systolic.Some? && v.diastolic.Some? && v.diastolic.value > 120.0)
  {
  }

  /** What each check reads: its own vitals, and the complaint for the
      chest-pain rule. */
  function CheckInputs(k: ErrorKey, p: PatientData): (seq<Option<real>>, string) {
    var v := p.vitals;
    match k
    case TemperatureKey => ([v.temperature], "")
    case Spo2Key => ([v.spo2], "")
    case HeartRateKey => ([v.heartRate], "")
    case BpKey => ([v.systolic, v.diastolic], "")
    case GeneralKey => ([v.heartRate, v.systolic], p.chiefComplaint)
  }

  /** Whether a key is reported depends only on that check's own inputs:
      no other field's value or error can change it. */
  lemma ChecksAreIndependent(p: PatientData, q: PatientData, k: ErrorKey)
    requires CheckInputs(k, p) == CheckInputs(k, q)
    ensures k in Validate(p).errors <==> k in Validate(q).errors
  {
    var (xs, c) := CheckInputs(k, p);
    assert xs == CheckInputs(k, q).0 && c == CheckInputs(k, q).1;
    match k
    case TemperatureKey => assert xs[0] == p.vitals.temperature == q.vitals.temperature;
    case Spo2Key => assert xs[0] == p.vitals.spo2 == q.vitals.spo2;
    case HeartRateKey => assert xs[0] == p.vitals.heartRate == q.vitals.heartRate;
    case BpKey =>
      assert xs[0] == p.vitals.systolic == q.vitals.systolic;
      assert xs[1] == p.vitals.diastolic == q.vitals.diastolic;
    case GeneralKey =>
      assert xs[0] == p.vitals.heartRate == q.vitals.heartRate;
      assert xs[1] == p.vitals.systolic == q.vitals.systolic;
  }

  /** The emergency flag ignores the complaint and every range error. */
  lemma EmergencyReadsOnlyVitals(p: PatientData, q: PatientData)
    requires p.vitals == q.vitals
    ensures Validate(p).isEmergency == Validate(q).isEmergency
  {
  }

  /** An unmeasured vital raises neither its own error nor an emergency:
      the result is what it would be with that vital's thresholds removed. */
  lemma AbsentVitalsAreSilent(p: PatientData)
    ensures p.vitals.temperature.None? ==> TemperatureKey !in Validate(p).errors && !TemperatureEmergency(p.vitals)
    ensures p.vitals.spo2.None? ==> Spo2Key !in Validate(p).errors && !Spo2Emergency(p.vitals)
    ensures p.vitals.heartRate.None? ==> HeartRateKey !in Validate(p).errors && !HeartRateEmergency(p.vitals)
    ensures p.vitals.systolic.None? || p.vitals.diastolic.None? ==>
      BpKey !in Validate(p).errors && !BloodPressureEmergency(p.vitals)
  {
  }

  /** Nothing measured and no chest pain: valid and not an emergency. */
  lemma NothingMeasuredIsValid(p: PatientData)
    requires p.vitals == Vitals(None, None, None, None, None)
    requires !MentionsChestPain(p.chiefComplaint)
    ensures Validate(p).isValid && !Validate(p).isEmergency
  {
    ValidIffNoErrors(p);
    ErrorsExactlyViolatedRules(p);
  }

  // ------------------------------------------------------------ boundaries

  /** 40 degrees is not an emergency; anything above it is. Both are
      plausible readings. */
  lemma TemperatureBoundary(p: PatientData, t: real)
    requires p.vitals == Vitals(Some(t), None, None, None, None)
    requires 33.0 <= t <= 43.0
    ensures TemperatureKey !in Validate(p).errors
    ensures Validate(p).isEmergency <==> t > 40.0
  {
  }

  /** Temperature 41 with SpO2 95: every reading plausible, yet an emergency. */
  lemma FeverScenario(p: PatientData)
    requires p.vitals == Vitals(Some(41.0), None, None, None, Some(95.0))
    requires !MentionsChestPain(p.chiefComplaint)
    ensures Validate(p).isValid && Validate(p).errors == map[]
    ensures Validate(p).isEmergency
  {
    ErrorsExactlyViolatedRules(p);
    ValidIffNoErrors(p);
  }

  /** SpO2 45 is both implausible and an emergency; both are reported. */
  lemma HypoxiaScenario(p: PatientData)
    requires p.vitals.spo2 == Some(45.0)
    ensures Spo2Key in Validate(p).errors && Validate(p).errors[Spo2Key] == Spo2Message
    ensures !Validate(p).isValid && Validate(p).isEmergency
  {
  }

  /** Equal systolic and diastolic pressures are accepted. */
  lemma EqualPressuresAccepted(p: PatientData)
    requires p.vitals.systolic.Some? && p.vitals.systolic == p.vitals.diastolic
    ensures BpKey !in Validate(p).errors
  {
  }

  // ------------------------------------------------------------ chest pain

  /** The complaint is read only through its lower-cased form: two patients
      whose complaints differ only in letter case, and whose vitals agree,
      get the same result. */
  lemma ComplaintReadIgnoringCase(p: PatientData, q: PatientData)
    requires Text.ToLower(p.chiefComplaint) == Text.ToLower(q.chiefComplaint)
    requires p.vitals == q.vitals
    ensures Validate(p) == Validate(q)
  {
  }

  /** An instance of the above: "Chest Pain" triggers the rule, and then a
      missing heart rate or systolic pressure is a general error. */
  lemma ChestPainIsCaseInsensitive(p: PatientData)
    requires p.chiefComplaint == "Chest Pain"
    requires p.vitals.heartRate.None? || p.vitals.systolic.None?
    ensures GeneralKey in Validate(p).errors && Validate(p).errors[GeneralKey] == GeneralMessage
  {
    var lowered := Text.ToLower(p.chiefComplaint);
    assert forall i | 0 <= i < |lowered| :: lowered[i] == "chest pain"[i];
    assert lowered == "chest pain";
    assert Text.OccursAt(lowered, "chest pain", 0);
  }

  /** The diastolic reading is not required by the chest-pain rule. */
  lemma ChestPainDoesNotNeedDiastolic(p: PatientData)
    requires p.vitals.heartRate.Some? && p.vitals.systolic.Some?
    ensures GeneralKey !in Validate(p).errors
  {
  }
}
