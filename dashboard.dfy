/**
 * The dashboard component: the signed-in session, the registry of incident
 * cases and the monitor log as fields of one object, and the handlers that
 * replace them (login, vision ingestion, declarant intake and the analyst
 * and governance actions, all of which go through one update).
 */
module Dashboard {
  import opened Types
  import opened Strings
  import opened Registry
  import opened Views
  import Mock

  datatype AuthState = LoginScreen | Authenticated

  const LoginErrorMessage: string := "Identifiants incorrects."

  /** The monitor log keeps at most this many assessments. */
  const LogCapacity: nat := 50

  /** The fixed credential table: username, password, and the user they sign in. */
  const Credentials: seq<(string, string, User)> := [
    ("declarant", "declarant", User("u1", "Personnel Terrain", Declarant)),
    ("Psychologues", "Psychologues", User("u2", "Dr. Karama (Psy)", Analyst)),
    ("Gouvernance", "Gouvernance", User("u3", "Direction SOS", Governance))
  ]

  /** The user of the first row whose username and password both match, if any. */
  function Lookup(table: seq<(string, string, User)>, username: string, password: string): (u: Option<User>)
    ensures u.Some? <==> exists i :: 0 <= i < |table| && table[i].0 == username && table[i].1 == password
    ensures u.Some? ==> exists i :: 0 <= i < |table| && table[i] == (username, password, u.value)
  {
    if table == [] then None
    else if table[0].0 == username && table[0].1 == password then Some(table[0].2)
    else Lookup(table[1..], username, password)
  }

  /**
   * Exactly three pairs sign in, each with its username as password: the
   * declarant, the psychologists (analyst) and governance. Anything else
   * signs nobody in.
   */
  lemma {:induction false} LoginOutcomes(username: string, password: string)
    ensures var u := Lookup(Credentials, username, password);
      && (u.Some? <==> username == password && username in {"declarant", "Psychologues", "Gouvernance"})
      && (u.Some? && username == "declarant" ==> u.value.role == Declarant && u.value.id == "u1")
      && (u.Some? && username == "Psychologues" ==> u.value.role == Analyst && u.value.id == "u2")
      && (u.Some? && username == "Gouvernance" ==> u.value.role == Governance && u.value.id == "u3")
  {
    var u := Lookup(Credentials, username, password);
    if u.Some? {
      var i :| 0 <= i < |Credentials| && Credentials[i] == (username, password, u.value);
      assert i == 0 || i == 1 || i == 2;
    } else {
      assert !(Credentials[0].0 == username && Credentials[0].1 == password);
      assert !(Credentials[1].0 == username && Credentials[1].1 == password);
      assert !(Credentials[2].0 == username && Credentials[2].1 == password);
    }
  }

  /** `[entry, ...prev].slice(0, 50)`: the entry first, then the newest older entries that still fit. */
  function PushLog(entry: AlertLogEntry, prev: seq<AlertLogEntry>): (r: seq<AlertLogEntry>)
    ensures |r| == Min(|prev| + 1, LogCapacity)
    ensures r[0] == entry
    ensures r[1..] == prev[..|r| - 1]
  {
    ([entry] + prev)[..Min(|prev| + 1, LogCapacity)]
  }

  /** Once the log is full, each new entry evicts exactly the oldest one. */
  lemma PushLogFull(entry: AlertLogEntry, prev: seq<AlertLogEntry>)
    requires |prev| == LogCapacity
    ensures PushLog(entry, prev) == [entry] + prev[..|prev| - 1]
  {
    var r := PushLog(entry, prev);
    assert r == [r[0]] + r[1..];
  }

  /** Whether an assessment opens a case: an alert is recommended and the risk is critical. */
  predicate RaisesCase(result: AIResponse)
  {
    result.alertRecommended && result.riskLevel == Critical
  }

  /** `"AI-" + Date.now().toString().slice(-4)`. */
  function AiCaseId(now: nat): string
  {
    "AI-" + TakeLast(Decimal(now), 4)
  }

  /** The case opened by a critical assessment. */
  function AiCase(result: AIResponse, thumbnail: string, now: nat): IncidentReport
  {
    IncidentReport(
      id := AiCaseId(now), timestamp := now, declarantId := "SYSTEM_AI",
      category := Violence, description := result.incidentSummary, isAnonymous := false,
      programme := "Village Tunis", abuserName := None, childName := None,
      urgency := result.riskLevel, status := Pending, attachments := [thumbnail], currentStep := 1,
      evaluationSummary := None, dpeReport := None, fullEvaluation := None, actionPlan := None,
      followUpReport := None, closingNotice := None, expertId := None, decisionNote := None,
      archivedDate := None, governanceId := None,
      auditTrail := [AuditLogEntry("AI", "AUTO_DETECTED", now, Declarant)],
      isAIDetected := Some(true), aggressionScore := None, escalationProbability := None,
      thumbnail := None, observedBehaviors := None, detectedFaces := None)
  }

  /**
   * A case opened from an assessment enters the workflow at its start: pending,
   * step 1, critical, violence, from SYSTEM_AI, with the image as its only
   * attachment and a single AUTO_DETECTED audit entry; it heads the
   * declarant feed and the analyst queue.
   */
  lemma AiCaseEntersWorkflow(result: AIResponse, thumbnail: string, now: nat, reports: seq<IncidentReport>)
    requires RaisesCase(result)
    ensures var c := AiCase(result, thumbnail, now);
      && c.status == Pending && c.currentStep == 1 && c.urgency == Critical && c.category == Violence
      && c.declarantId == "SYSTEM_AI" && c.attachments == [thumbnail] && c.isAIDetected == Some(true)
      && c.auditTrail == [AuditLogEntry("AI", "AUTO_DETECTED", now, Declarant)]
      && DeclarantFeed([c] + reports)[0] == c
      && AnalystQueue([c] + reports)[0] == c
  {
    var c := AiCase(result, thumbnail, now);
    assert Filter([c] + reports, IsPending) == [c] + Filter(reports, IsPending) by {
      assert ([c] + reports)[1..] == reports;
    }
    assert Filter([c] + reports, IsOpen) == [c] + Filter(reports, IsOpen) by {
      assert ([c] + reports)[1..] == reports;
    }
  }

  /**
   * Case ids from the vision monitor are not unique: two alerts ten seconds
   * apart (any two clock readings 10000 ms apart) produce the same id.
   */
  lemma AiCaseIdsCollide(now: nat)
    requires 1000 <= now
    ensures AiCaseId(now + 10000) == AiCaseId(now)
  {
    LastFourPeriodic(now);
  }

  /** The fields of the declarant's intake form. */
  datatype IntakeForm = IntakeForm(desc: string, cat: Category, programme: string, child: string, abuser: string, isAnon: bool)

  /**
   * The case a declarant submits; `idNumber` is the random four-digit number
   * of its id. The clock is read twice: `createdAt` dates the case,
   * `loggedAt` its CREATED audit entry.
   */
  function SubmittedCase(form: IntakeForm, idNumber: nat, createdAt: int, loggedAt: int): IncidentReport
  {
    IncidentReport(
      id := "SOS-" + Decimal(idNumber), timestamp := createdAt, declarantId := "MARIA",
      category := form.cat, description := form.desc, isAnonymous := form.isAnon,
      programme := form.programme, abuserName := Some(form.abuser), childName := Some(form.child),
      urgency := Medium, status := Pending, attachments := [], currentStep := 1,
      evaluationSummary := None, dpeReport := None, fullEvaluation := None, actionPlan := None,
      followUpReport := None, closingNotice := None, expertId := None, decisionNote := None,
      archivedDate := None, governanceId := None,
      auditTrail := [AuditLogEntry("MARIA", "CREATED", loggedAt, Declarant)],
      isAIDetected := None, aggressionScore := None, escalationProbability := None,
      thumbnail := None, observedBehaviors := None, detectedFaces := None)
  }

  /**
   * A submitted case is pending at step 1 with medium urgency, carries the
   * form's account and a single CREATED audit entry, has an id of the form
   * "SOS-" and four digits, and heads the declarant feed.
   */
  lemma SubmittedCaseEntersWorkflow(form: IntakeForm, idNumber: nat, createdAt: int, loggedAt: int, reports: seq<IncidentReport>)
    requires 1000 <= idNumber < 10000
    ensures var c := SubmittedCase(form, idNumber, createdAt, loggedAt);
      && c.status == Pending && c.currentStep == 1 && c.urgency == Medium
      && c.description == form.desc && c.category == form.cat && c.programme == form.programme
      && c.timestamp == createdAt && c.auditTrail == [AuditLogEntry("MARIA", "CREATED", loggedAt, Declarant)]
      && |c.id| == 8 && c.id[..4] == "SOS-"
      && DeclarantFeed([c] + reports)[0] == c
  {
    var c := SubmittedCase(form, idNumber, createdAt, loggedAt);
    DecimalLength(idNumber);
    assert Filter([c] + reports, IsPending) == [c] + Filter(reports, IsPending) by {
      assert ([c] + reports)[1..] == reports;
    }
  }

  lemma DecimalLength(n: nat)
    requires 1000 <= n < 10000
    ensures |Decimal(n)| == 4
  {
    DivTenTwice(n);
    assert 10 <= n / 100 < 100 && 1 <= n / 1000 < 10;
    assert |Decimal(n / 1000)| == 1;
    assert |Decimal(n / 100)| == 2;
    assert |Decimal(n / 10)| == 3;
  }

  /** A case from the vision monitor names SYSTEM_AI as its declarant and keeps its evidence image. */
  ghost predicate AiProvenance(r: IncidentReport)
  {
    r.isAIDetected == Some(true) ==> r.declarantId == "SYSTEM_AI" && r.attachments != []
  }

  class App {
    var authState: AuthState
    var loginError: string
    var currentUser: Option<User>
    var activeTab: Tab
    var reports: seq<IncidentReport>
    var logs: seq<AlertLogEntry>
    var isScanning: bool

    /** The log stays within its cap and no workflow action forges or strips vision provenance. */
    ghost predicate Valid()
      reads this
    {
      |logs| <= LogCapacity && forall i :: 0 <= i < |reports| ==> AiProvenance(reports[i])
    }

    /** The initial state: the login screen, an empty log and the demonstration cases. */
    constructor (now: int, draws: seq<Mock.Draw>)
      requires |draws| == Mock.MockCount
      requires forall i :: 0 <= i < |draws| ==> draws[i].ageMs < Mock.MaxAgeMs
      ensures Valid()
      ensures authState == LoginScreen && loginError == "" && currentUser == None && activeTab == NoTab
      ensures logs == [] && isScanning
      ensures multiset(reports) == multiset(Mock.MockCases(now, draws)) && Mock.SortedNewestFirst(reports)
    {
      var data := Mock.GenerateMockData(now, draws);
      authState, loginError, currentUser, activeTab := LoginScreen, "", None, NoTab;
      reports, logs, isScanning := data, [], true;
      new;
      forall i | 0 <= i < |reports| ensures AiProvenance(reports[i]) {
        assert reports[i] in multiset(Mock.MockCases(now, draws));
        var j :| 0 <= j < |draws| && Mock.MockCases(now, draws)[j] == reports[i];
      }
    }

    /**
     * Login: a matching pair signs its user in and opens the role's landing
     * tab; any other pair leaves the session as it was and shows the error.
     */
    method HandleLogin(username: string, password: string)
      requires Valid()
      modifies this
      ensures Valid()
      ensures var u := Lookup(Credentials, username, password);
        if u.Some? then
          && currentUser == u && authState == Authenticated
          && activeTab == LandingTab(u.value.role) && loginError == ""
        else
          && currentUser == old(currentUser) && authState == old(authState)
          && activeTab == old(activeTab) && loginError == LoginErrorMessage
      ensures reports == old(reports) && logs == old(logs) && isScanning == old(isScanning)
    {
      loginError := "";
      var user: Option<User> := None;
      if username == "declarant" && password == "declarant" {
        user := Some(User("u1", "Personnel Terrain", Declarant));
      } else if username == "Psychologues" && password == "Psychologues" {
        user := Some(User("u2", "Dr. Karama (Psy)", Analyst));
      } else if username == "Gouvernance" && password == "Gouvernance" {
        user := Some(User("u3", "Direction SOS", Governance));
      }
      LoginOutcomes(username, password);
      if user.Some? {
        currentUser := user;
        authState := Authenticated;
        if user.value.role == Declarant {
          activeTab := Hub;
        } else if user.value.role == Analyst {
          activeTab := Manage;
        } else {
          activeTab := GovernanceTab;
        }
      } else {
        loginError := LoginErrorMessage;
      }
    }

    /** Logout returns to the login screen; the last user stays recorded. */
    method Logout()
      modifies this`authState
      ensures authState == LoginScreen
    {
      authState := LoginScreen;
    }

    /** The registry update every view goes through. */
    method UpdateReport(id: string, newStatus: Status, patch: Patch)
      requires Valid()
      modifies this`reports
      ensures Valid()
      ensures reports == ApplyUpdate(old(reports), id, newStatus, patch)
    {
      reports := ApplyUpdate(reports, id, newStatus, patch);
      forall i | 0 <= i < |reports| ensures AiProvenance(reports[i]) {
        assert SameCase(old(reports)[i], reports[i]);
      }
    }

    /**
     * An assessment from the vision monitor always heads the log, capped at
     * fifty entries; it opens a new case at the head of the registry exactly
     * when it recommends an alert at critical risk.
     */
    method HandleAnalysisResult(result: AIResponse, thumbnail: string, logId: string, timeLabel: string, now: nat)
      requires Valid()
      modifies this`logs, this`reports
      ensures Valid()
      ensures logs == PushLog(AlertLogEntry(result, logId, timeLabel, Some(thumbnail)), old(logs))
      ensures reports == if RaisesCase(result) then [AiCase(result, thumbnail, now)] + old(reports) else old(reports)
    {
      var newLog := AlertLogEntry(result, logId, timeLabel, Some(thumbnail));
      logs := PushLog(newLog, logs);
      if result.alertRecommended && result.riskLevel == Critical {
        var newReport := AiCase(result, thumbnail, now);
        reports := [newReport] + reports;
      }
    }

    /** The declarant's submission is prepended to the registry. */
    method HandleSubmit(form: IntakeForm, idNumber: nat, createdAt: int, loggedAt: int)
      requires Valid()
      requires 1000 <= idNumber < 10000
      modifies this`reports
      ensures Valid()
      ensures reports == [SubmittedCase(form, idNumber, createdAt, loggedAt)] + old(reports)
    {
      reports := [SubmittedCase(form, idNumber, createdAt, loggedAt)] + reports;
    }

    /**
     * The analyst's advance of the open dossier: the payload names the next
     * step, status processing and the document of the dossier's step; it is
     * sent with status closed from step 5 and processing otherwise. The
     * workspace then shows the patched dossier, or nothing after step 5.
     */
    method HandleProgress(dossier: IncidentReport, stepData: string) returns (active: Option<IncidentReport>)
      requires Valid()
      modifies this`reports
      ensures Valid()
      ensures reports == ApplyUpdate(old(reports), dossier.id, ProgressStatus(dossier.currentStep),
                                     ProgressPatch(dossier.currentStep, stepData))
      ensures active == if dossier.currentStep == 5 then None
                        else Some(Spread(dossier, ProgressPatch(dossier.currentStep, stepData)))
    {
      var nextStep := dossier.currentStep + 1;
      var updatePayload := NoChange.(currentStep := Some(nextStep), status := Some(Processing));
      if dossier.currentStep == 1 { updatePayload := updatePayload.(dpeReport := Some(stepData)); }
      if dossier.currentStep == 2 { updatePayload := updatePayload.(fullEvaluation := Some(stepData)); }
      if dossier.currentStep == 3 { updatePayload := updatePayload.(actionPlan := Some(stepData)); }
      if dossier.currentStep == 4 { updatePayload := updatePayload.(followUpReport := Some(stepData)); }
      if dossier.currentStep == 5 {
        updatePayload := updatePayload.(closingNotice := Some(stepData));
        UpdateReport(dossier.id, Closed, updatePayload);
        active := None;
        return;
      }
      UpdateReport(dossier.id, Processing, updatePayload);
      active := Some(Spread(dossier, updatePayload));
    }

    /** "Classification: false": the dossier's case becomes a false report. */
    method MarkFalseReport(dossier: IncidentReport)
      requires Valid()
      modifies this`reports
      ensures Valid()
      ensures reports == ApplyUpdate(old(reports), dossier.id, FalseReport, NoChange)
    {
      UpdateReport(dossier.id, FalseReport, NoChange);
    }

    /** "Critical alert": urgency critical and status processing. */
    method RaiseCriticalAlert(dossier: IncidentReport)
      requires Valid()
      modifies this`reports
      ensures Valid()
      ensures reports == ApplyUpdate(old(reports), dossier.id, Processing, CriticalAlertPatch)
    {
      UpdateReport(dossier.id, Processing, CriticalAlertPatch);
    }

    /** Governance archive: status closed with the decision note and the archive time. */
    method Archive(decision: IncidentReport, note: string, now: int)
      requires Valid()
      modifies this`reports
      ensures Valid()
      ensures reports == ApplyUpdate(old(reports), decision.id, Closed, ArchivePatch(note, now))
    {
      UpdateReport(decision.id, Closed, ArchivePatch(note, now));
    }
  }
}
