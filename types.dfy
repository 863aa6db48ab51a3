/** The records and enumerations of the triage application (types.ts), plus
    the history-store records that the storage service imports but that are
    declared outside types.ts. TypeScript string-literal unions become
    enumerations; each comes with its wire spelling and a parser that accepts
    exactly those spellings. */
module Types {
  import opened Wrappers

  // ---------------------------------------------------------------- patient

  datatype Gender = Male | Female

  /** Vital signs; `None` is the form's `''` ("not measured"). */
  datatype Vitals = Vitals(
    temperature: Option<real>,
    heartRate: Option<real>,
    systolic: Option<real>,
    diastolic: Option<real>,
    spo2: Option<real>)

  /** Age and weight are a number or `''`, the same sentinel as the vitals. */
  datatype PatientData = PatientData(
    name: string,
    age: Option<real>,
    gender: Gender,
    weight: Option<real>,
    allergies: string,
    chiefComplaint: string,
    vitals: Vitals)

  datatype SymptomsData = SymptomsData(
    selected: seq<string>,
    duration: string,
    severity: real,
    notes: Option<string>)

  // ---------------------------------------------------------- triage result

  datatype Urgency = Red | Yellow | Green

  datatype Recommendation = SelfCare | TreatAtPrimaryCare | UrgentReferral

  datatype Diagnosis = Diagnosis(name: string, confidence: real, explanation: seq<string>)

  datatype Medication = Medication(
    name: string,
    dosage: string,
    form: string,
    warnings: seq<string>,
    confidence: real)

  datatype MedicationSuggestion = MedicationSuggestion(
    diagnosisName: string,
    medications: seq<Medication>,
    note: string)

  datatype TriageResult = TriageResult(
    urgencyLevel: Urgency,
    diagnoses: seq<Diagnosis>,
    medicationSuggestions: seq<MedicationSuggestion>,
    riskFactors: seq<string>,
    reasoning: string,
    recommendation: Recommendation)

  datatype Referral = Referral(
    id: string,
    patientName: string,
    urgency: Urgency,
    primaryDiagnosis: string,
    timestamp: string)

  datatype NamedCount = NamedCount(name: string, count: real)

  datatype TriageCounts = TriageCounts(red: real, yellow: real, green: real)

  datatype AnalyticsData = AnalyticsData(
    timeframe: string,
    triageCounts: TriageCounts,
    commonDiagnoses: seq<NamedCount>,
    medicationUsage: seq<NamedCount>)

  // ---------------------------------------------------------- notifications

  datatype NotificationKind = Alert | Info

  /** `kind` is the TypeScript field `type`. */
  datatype Notification = Notification(
    id: string,
    title: string,
    message: string,
    kind: NotificationKind,
    timestamp: string,
    read: bool)

  // ------------------------------------------------------------------ views

  datatype AppView = Home | Wizard | Results | Inbox | Analytics

  const SymptomList: seq<string> :=
    ["Fever", "Cough", "Shortness of breath", "Chest pain",
     "Fatigue", "Nausea", "Rash", "Headache"]

  predicate Distinct<T(==)>(s: seq<T>) {
    forall i, j :: 0 <= i < j < |s| ==> s[i] != s[j]
  }

  /** The symptom checklist offers eight different tags. */
  lemma SymptomListDistinct()
    ensures |SymptomList| == 8 && Distinct(SymptomList)
  {
  }

  // ------------------------------------------------------- history records

  datatype AppMode = Clinic | Public

  datatype RiskLevel = Low | Medium | High

  /** The public self-check result; only the fields the core touches. */
  datatype PublicTriageResult = PublicTriageResult(
    riskLevel: RiskLevel,
    possibleConditions: seq<string>,
    advice: string)

  datatype ResultPayload = ClinicPayload(clinic: TriageResult) | PublicPayload(public: PublicTriageResult)

  /** A result as handed to the history store: the classifier payload plus
      the optional `caseId`, `id` and `timestamp` properties the store reads
      and backfills. */
  datatype CaseRecord = CaseRecord(
    payload: ResultPayload,
    caseId: Option<string>,
    id: Option<string>,
    timestamp: Option<string>)

  /** `kind` is the TypeScript field `type`. */
  datatype HistoryEntry = HistoryEntry(
    id: string,
    timestamp: string,
    kind: AppMode,
    summary: string,
    tags: seq<string>,
    data: CaseRecord)

  // -------------------------------------------------------- wire spellings

  function UrgencyName(u: Urgency): string {
    match u
    case Red => "Red"
    case Yellow => "Yellow"
    case Green => "Green"
  }

  /** The union `'Red' | 'Yellow' | 'Green'` admits exactly three strings. */
  function ParseUrgency(s: string): (r: Option<Urgency>)
    ensures r.Some? <==> s in {"Red", "Yellow", "Green"}
    ensures r.Some? ==> UrgencyName(r.value) == s
  {
    if s == "Red" then Some(Red)
    else if s == "Yellow" then Some(Yellow)
    else if s == "Green" then Some(Green)
    else None
  }

  lemma UrgencyRoundTrip(u: Urgency)
    ensures ParseUrgency(UrgencyName(u)) == Some(u)
  {
  }

  function RecommendationName(r: Recommendation): string {
    match r
    case SelfCare => "Self care"
    case TreatAtPrimaryCare => "Treat at primary care"
    case UrgentReferral => "Urgent referral recommended"
  }

  function ParseRecommendation(s: string): (r: Option<Recommendation>)
    ensures r.Some? <==> s in {"Self care", "Treat at primary care", "Urgent referral recommended"}
    ensures r.Some? ==> RecommendationName(r.value) == s
  {
    if s == "Self care" then Some(SelfCare)
    else if s == "Treat at primary care" then Some(TreatAtPrimaryCare)
    else if s == "Urgent referral recommended" then Some(UrgentReferral)
    else None
  }

  lemma RecommendationRoundTrip(r: Recommendation)
    ensures ParseRecommendation(RecommendationName(r)) == Some(r)
  {
  }

  function NotificationKindName(k: NotificationKind): string {
    match k
    case Alert => "alert"
    case Info => "info"
  }

  function ParseNotificationKind(s: string): (r: Option<NotificationKind>)
    ensures r.Some? <==> s in {"alert", "info"}
    ensures r.Some? ==> NotificationKindName(r.value) == s
  {
    if s == "alert" then Some(Alert) else if s == "info" then Some(Info) else None
  }

  lemma NotificationKindRoundTrip(k: NotificationKind)
    ensures ParseNotificationKind(NotificationKindName(k)) == Some(k)
  {
  }

  function ViewName(v: AppView): string {
    match v
    case Home => "HOME"
    case Wizard => "WIZARD"
    case Results => "RESULTS"
    case Inbox => "INBOX"
    case Analytics => "ANALYTICS"
  }

  /** `AppView` has exactly five states. */
  function ParseView(s: string): (r: Option<AppView>)
    ensures r.Some? <==> s in {"HOME", "WIZARD", "RESULTS", "INBOX", "ANALYTICS"}
    ensures r.Some? ==> ViewName(r.value) == s
  {
    if s == "HOME" then Some(Home)
    else if s == "WIZARD" then Some(Wizard)
    else if s == "RESULTS" then Some(Results)
    else if s == "INBOX" then Some(Inbox)
    else if s == "ANALYTICS" then Some(Analytics)
    else None
  }

  lemma ViewRoundTrip(v: AppView)
    ensures ParseView(ViewName(v)) == Some(v)
  {
  }
}
