/** Client code: sequences of events run against the model, with what a
    caller can conclude from the contracts alone. */
module Scenarios {
  import opened Wrappers
  import opened Types
  import opened AppState
  import opened Storage

  /** Submitting while offline queues the case, returns home and never
      calls the classifier. */
  method OfflineSubmission(patient: PatientData, symptoms: SymptomsData, outcome: AnalysisOutcome)
    returns (view: AppView, pending: nat, classifierCalled: bool, unread: nat)
    ensures view == Home && pending == 1 && !classifierCalled && unread == 1
  {
    var app := new App(false);
    classifierCalled := app.HandleAnalyze(patient, symptoms, outcome, "n1", "t1");
    view, pending, unread := app.view, app.pendingQueue, app.UnreadCount();
  }

  /** Two offline submissions, then the network returns and the timer
      fires: the queue is empty and one notification reports two records. */
  method SyncAfterTwoOfflineSubmissions(patient: PatientData, symptoms: SymptomsData)
    returns (pending: nat, latest: Notification, unread: nat)
    ensures pending == 0
    ensures latest.kind == Info && latest.title == SyncTitle && latest.message == SyncMessage(2)
    ensures unread == 3
  {
    var app := new App(false);
    var _ := app.HandleAnalyze(patient, symptoms, AnalysisFailed, "n1", "t1");
    var _ := app.HandleAnalyze(patient, symptoms, AnalysisFailed, "n2", "t2");
    app.HandleOnline();
    var fired := app.Settle("n3", "t3");
    pending, latest, unread := app.pendingQueue, app.notifications[0], app.UnreadCount();
  }

  /** Going online twice before the first timer fires schedules two
      timers, and both report: the synchronisation is not debounced. */
  method RepeatedOnlineEventsSyncTwice(patient: PatientData, symptoms: SymptomsData)
    returns (syncNotices: seq<Notification>, pending: nat)
    ensures |syncNotices| == 2
    ensures forall n :: n in syncNotices ==> n.title == SyncTitle && n.message == SyncMessage(1)
    ensures pending == 0
  {
    var app := new App(false);
    var _ := app.HandleAnalyze(patient, symptoms, AnalysisFailed, "n1", "t1");
    app.HandleOnline();
    app.HandleOffline();
    app.HandleOnline();
    var first := app.Settle("n2", "t2");
    var second := app.Settle("n3", "t3");
    syncNotices := app.notifications[..2];
    pending := app.pendingQueue;
  }

  /** A submission made after the timer was scheduled is cleared by it but
      not counted in its message. */
  method SubmissionAfterOnlineIsNotReported(patient: PatientData, symptoms: SymptomsData)
    returns (submitted: nat, reported: string, pending: nat)
    ensures submitted == 2 && reported == SyncMessage(1) && pending == 0
  {
    var app := new App(false);
    var _ := app.HandleAnalyze(patient, symptoms, AnalysisFailed, "n1", "t1");
    app.HandleOnline();
    app.HandleOffline();
    var _ := app.HandleAnalyze(patient, symptoms, AnalysisFailed, "n2", "t2");
    submitted := app.pendingQueue;
    var fired := app.Settle("n3", "t3");
    reported, pending := app.notifications[0].message, app.pendingQueue;
  }

  /** A Red result online: shown, alerted, then referred. */
  method RedCaseReferred(patient: PatientData, symptoms: SymptomsData, result: TriageResult)
    returns (alert: Notification, referral: Referral, view: AppView, current: Option<TriageResult>)
    requires result.urgencyLevel == Red
    ensures alert.kind == Alert && alert.title == UrgentTitle && !alert.read
    ensures referral.patientName == patient.name && referral.urgency == Red
    ensures referral.primaryDiagnosis == PrimaryDiagnosis(result)
    ensures view == Home && current == None
  {
    var app := new App(true);
    var called := app.HandleAnalyze(patient, symptoms, Analyzed(result), "n1", "t1");
    alert := app.notifications[0];
    app.HandleReferral("r1", "t2");
    referral, view, current := app.referrals[0], app.view, app.currentResult;
  }

  /** A public self-check saved without an identifier is found again from
      the lookup under the identifier the store assigned. */
  method PublicCaseLookup(result: PublicTriageResult, summary: string, tags: seq<string>)
    returns (found: Option<HistoryEntry>)
    ensures found.Some? && found.value.id == "case-1" && found.value.kind == Public
    ensures found.value.data.payload == PublicPayload(result)
    ensures found.value.data.caseId == Some("case-1")
  {
    var store := new LocalHistoryStore();
    store.SaveHistoryEntry(Public, CaseRecord(PublicPayload(result), None, None, None),
                           summary, tags, "case-1", "2024-01-01T00:00:00Z");
    found := store.FindEntryById("case-1");
  }

  /** Deleting in one mode leaves the other mode's copy to be found. */
  method DeleteIsPerMode(data: CaseRecord)
    returns (found: Option<HistoryEntry>)
    requires !Truthy(data.caseId) && !Truthy(data.id)
    ensures found.Some? && found.value.kind == Public && found.value.id == "case-2"
  {
    var store := new LocalHistoryStore();
    store.SaveHistoryEntry(Public, data, "public", [], "case-2", "t1");
    store.SaveHistoryEntry(Clinic, data, "clinic", [], "case-2", "t2");
    store.DeleteHistoryEntry(Clinic, "case-2");
    found := store.FindEntryById("case-2");
  }
}
