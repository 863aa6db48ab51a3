/** The application shell (the `App` component of App.tsx): which screen is
    shown, the offline submission counter and its synchronisation, the
    notification feed, the current triage result and the referral list.
    Each event handler is a method; the external classifier and analytics
    generator are inputs, and the two-second synchronisation timer is an
    explicit `Settle` step. */
module AppState {
  import opened Wrappers
  import opened Types
  import Text

  /** What the external classifier call produced. */
  datatype AnalysisOutcome = Analyzed(result: TriageResult) | AnalysisFailed

  // --------------------------------------------------------- notification text

  const OfflineTitle := "Saved to Offline Queue"
  const UrgentTitle := "URGENT: High Risk Patient"
  const SyncTitle := "Sync Complete"
  const SyncSuffix := " offline records processed successfully."

  function OfflineMessage(name: string): string {
    "Triage for " + name + " saved locally."
  }

  function UrgentMessage(name: string): string {
    "Patient " + name + " flagged as RED urgency. Immediate attention required."
  }

  function SyncMessage(count: nat): string {
    Text.NatToDecimal(count) + SyncSuffix
  }

  /** The synchronisation message starts with the decimal numeral of the
      count it reports, and nothing else precedes the fixed suffix. */
  lemma SyncMessageReportsCount(count: nat)
    ensures var m := SyncMessage(count);
      var n := |m| - |SyncSuffix|;
      0 < n && m[n..] == SyncSuffix && Text.IsDigits(m[..n]) && Text.DecimalValue(m[..n]) == count
  {
    var m := SyncMessage(count);
    var n := |m| - |SyncSuffix|;
    assert m[..n] == Text.NatToDecimal(count);
    assert m[n..] == SyncSuffix;
    Text.DecimalRoundTrip(count);
  }

  // ------------------------------------------------------------ derived values

  /** `notifications.filter(n => !n.read).length`, the badge count. */
  function CountUnread(ns: seq<Notification>): (r: nat)
    ensures r <= |ns|
  {
    if ns == [] then 0 else (if ns[0].read then 0 else 1) + CountUnread(ns[1..])
  }

  /** When nothing has been read, the badge counts every notification. */
  lemma {:induction false} AllUnreadCount(ns: seq<Notification>)
    requires forall n :: n in ns ==> !n.read
    ensures CountUnread(ns) == |ns|
    decreases |ns|
  {
    if ns != [] {
      assert ns[0] in ns;
      assert forall n :: n in ns[1..] ==> n in ns;
      AllUnreadCount(ns[1..]);
    }
  }

  /** `currentResult.diagnoses[0]?.name || 'Unknown'`: the first diagnosis
      name, unless there is none or it is empty. */
  function PrimaryDiagnosis(result: TriageResult): (name: string)
    ensures name != ""
    ensures |result.diagnoses| > 0 && result.diagnoses[0].name != "" ==> name == result.diagnoses[0].name
    ensures |result.diagnoses| == 0 || result.diagnoses[0].name == "" ==> name == "Unknown"
  {
    if |result.diagnoses| > 0 && result.diagnoses[0].name != "" then result.diagnoses[0].name
    else "Unknown"
  }

  // ------------------------------------------------------------------ the app

  class App {
    var view: AppView
    var loading: bool
    var currentResult: Option<TriageResult>
    var currentPatientName: string
    var referrals: seq<Referral>
    var analyticsData: Option<AnalyticsData>
    var isOffline: bool
    var pendingQueue: nat
    var notifications: seq<Notification>
    var showNotifications: bool
    /** The counts captured by synchronisation timers that have not fired
        yet, oldest first. */
    var scheduledSyncs: seq<nat>

    /** Between events: nothing is loading, no notification has been read
        (nothing marks one read), every scheduled synchronisation reports a
        positive count, and the results screen always has a result. */
    ghost predicate Valid()
      reads this
    {
      && !loading
      && (forall n :: n in notifications ==> !n.read)
      && (forall c :: c in scheduledSyncs ==> c > 0)
      && (view == Results ==> currentResult.Some?)
    }

    constructor (online: bool)
      ensures Valid()
      ensures view == Home && !loading && currentResult == None && currentPatientName == ""
      ensures referrals == [] && analyticsData == None
      ensures isOffline == !online && pendingQueue == 0 && notifications == []
      ensures !showNotifications && scheduledSyncs == []
    {
      view := Home;
      loading := false;
      currentResult := None;
      currentPatientName := "";
      referrals := [];
      analyticsData := None;
      isOffline := !online;
      pendingQueue := 0;
      notifications := [];
      showNotifications := false;
      scheduledSyncs := [];
    }

    /** The header badge. */
    function UnreadCount(): (r: nat)
      reads this
      ensures r <= |notifications|
      ensures Valid() ==> r == |notifications|
    {
      if forall n :: n in notifications ==> !n.read then
        AllUnreadCount(notifications);
        CountUnread(notifications)
      else
        CountUnread(notifications)
    }

    /** `addNotification`: prepends one unread entry. */
    method AddNotification(title: string, message: string, kind: NotificationKind,
                           freshId: string, now: string)
      modifies this`notifications
      ensures notifications == [Notification(freshId, title, message, kind, now, false)] + old(notifications)
      ensures CountUnread(notifications) == old(CountUnread(notifications)) + 1
    {
      var n := Notification(freshId, title, message, kind, now, false);
      notifications := [n] + notifications;
      assert notifications[1..] == old(notifications);
    }

    /** The browser reports that the network is gone. */
    method HandleOffline()
      requires Valid()
      modifies this`isOffline
      ensures Valid()
      ensures isOffline
    {
      isOffline := true;
    }

    /** The browser reports that the network is back: with submissions
        pending, a synchronisation timer is scheduled that will report the
        current count. Nothing guards against a timer already scheduled. */
    method HandleOnline()
      requires Valid()
      modifies this`isOffline, this`scheduledSyncs
      ensures Valid()
      ensures !isOffline
      ensures scheduledSyncs == old(scheduledSyncs) + (if pendingQueue > 0 then [pendingQueue] else [])
    {
      isOffline := false;
      if pendingQueue > 0 {
        scheduledSyncs := scheduledSyncs + [pendingQueue];
      }
    }

    /** The oldest synchronisation timer fires, if there is one: the queue
        is emptied and an 'info' notification reports the count the timer
        captured. */
    method Settle(freshId: string, now: string) returns (fired: bool)
      requires Valid()
      modifies this`pendingQueue, this`notifications, this`scheduledSyncs
      ensures Valid()
      ensures fired <==> old(scheduledSyncs) != []
      ensures fired ==> pendingQueue == 0 && scheduledSyncs == old(scheduledSyncs)[1..]
      ensures fired ==>
        notifications ==
          [Notification(freshId, SyncTitle, SyncMessage(old(scheduledSyncs)[0]), Info, now, false)]
          + old(notifications)
      ensures !fired ==>
        && pendingQueue == old(pendingQueue)
        && notifications == old(notifications)
        && scheduledSyncs == old(scheduledSyncs)
    {
      fired := scheduledSyncs != [];
      if fired {
        var count := scheduledSyncs[0];
        assert forall c :: c in scheduledSyncs[1..] ==> c in scheduledSyncs;
        scheduledSyncs := scheduledSyncs[1..];
        pendingQueue := 0;
        AddNotification(SyncTitle, SyncMessage(count), Info, freshId, now);
      }
    }

    /** `handleAnalyze`. Offline, the submission only bumps the counter, is
        acknowledged by an 'info' notification and returns to the home
        screen; the classifier is not called. Online, the classifier is
        called with the patient; a result is shown, with an 'alert'
        notification when it is Red; a failure leaves screen and result as
        they were. */
    method HandleAnalyze(patient: PatientData, symptoms: SymptomsData, outcome: AnalysisOutcome,
                         freshId: string, now: string)
      returns (classifierCalled: bool)
      requires Valid()
      modifies this`pendingQueue, this`notifications, this`view, this`loading
      modifies this`currentPatientName, this`currentResult
      ensures Valid()
      ensures classifierCalled <==> !isOffline
      ensures isOffline ==>
        && pendingQueue == old(pendingQueue) + 1
        && notifications ==
           [Notification(freshId, OfflineTitle, OfflineMessage(patient.name), Info, now, false)] + old(notifications)
        && view == Home
        && currentResult == old(currentResult)
        && currentPatientName == old(currentPatientName)
      ensures !isOffline ==>
        && pendingQueue == old(pendingQueue)
        && currentPatientName == patient.name
      ensures !isOffline && outcome.Analyzed? ==>
        && currentResult == Some(outcome.result)
        && view == Results
        && notifications ==
           (if outcome.result.urgencyLevel == Red
            then [Notification(freshId, UrgentTitle, UrgentMessage(patient.name), Alert, now, false)]
            else []) + old(notifications)
      ensures !isOffline && outcome.AnalysisFailed? ==>
        && currentResult == old(currentResult)
        && view == old(view)
        && notifications == old(notifications)
    {
      if isOffline {
        pendingQueue := pendingQueue + 1;
        AddNotification(OfflineTitle, OfflineMessage(patient.name), Info, freshId, now);
        view := Home;
        return false;
      }

      loading := true;
      currentPatientName := patient.name;
      classifierCalled := true;
      match outcome {
        case Analyzed(result) =>
          currentResult := Some(result);
          if result.urgencyLevel == Red {
            AddNotification(UrgentTitle, UrgentMessage(patient.name), Alert, freshId, now);
          }
          view := Results;
        case AnalysisFailed =>
          // The user is told by a browser alert and stays where they were.
      }
      loading := false;
    }

    /** `handleReferral`: with a result on screen, prepends a referral for
        the current patient and returns home with the result cleared;
        without one, does nothing. */
    method HandleReferral(freshId: string, now: string)
      requires Valid()
      modifies this`referrals, this`view, this`currentResult
      ensures Valid()
      ensures old(currentResult).None? ==>
        referrals == old(referrals) && view == old(view) && currentResult == None
      ensures old(currentResult).Some? ==>
        && referrals == [Referral(freshId, currentPatientName, old(currentResult).value.urgencyLevel,
                                  PrimaryDiagnosis(old(currentResult).value), now)] + old(referrals)
        && view == Home
        && currentResult == None
    {
      if currentResult.None? {
        return;
      }
      var result := currentResult.value;
      var referral := Referral(freshId, currentPatientName, result.urgencyLevel,
                               PrimaryDiagnosis(result), now);
      referrals := [referral] + referrals;
      view := Home;
      currentResult := None;
    }

    /** `handleOpenAnalytics`: shows the dashboard and asks the generator
        only the first time; its data is kept for later visits. */
    method HandleOpenAnalytics(generated: AnalyticsData) returns (generatorCalled: bool)
      requires Valid()
      modifies this`view, this`loading, this`analyticsData
      ensures Valid()
      ensures view == Analytics
      ensures generatorCalled <==> old(analyticsData).None?
      ensures analyticsData == if generatorCalled then Some(generated) else old(analyticsData)
    {
      view := Analytics;
      generatorCalled := analyticsData.None?;
      if generatorCalled {
        loading := true;
        analyticsData := Some(generated);
        loading := false;
      }
    }

    /** The home screen's "start triage" button. */
    method StartTriage()
      requires Valid()
      modifies this`view
      ensures Valid() && view == Wizard
    {
      view := Wizard;
    }

    /** The home screen's referral inbox button. */
    method OpenInbox()
      requires Valid()
      modifies this`view
      ensures Valid() && view == Inbox
    {
      view := Inbox;
    }

    /** The header's back and home buttons, the wizard's cancel and the
        results screen's home button: only the view changes, so a result
        on screen stays current. */
    method GoHome()
      requires Valid()
      modifies this`view
      ensures Valid() && view == Home
    {
      view := Home;
    }

    /** The header's bell: opens or closes the feed; nothing is marked read. */
    method ToggleNotifications()
      requires Valid()
      modifies this`showNotifications
      ensures Valid() && showNotifications == !old(showNotifications)
    {
      showNotifications := !showNotifications;
    }

    method CloseNotifications()
      requires Valid()
      modifies this`showNotifications
      ensures Valid() && !showNotifications
    {
      showNotifications := false;
    }
  }
}
