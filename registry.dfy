/**
 * The in-memory incident registry: how an update merges a status and a
 * patch into the case with a given id, and the patches the three workflow
 * views send through it (advance a step, classify as false report, raise a
 * critical alert, archive).
 */
module Registry {
  import opened Types

  /**
   * The keys an update may carry. `None` means the key is absent from the
   * patch object, so the spread leaves that field as it was.
   */
  datatype Patch = Patch(
    status: Option<Status>,
    currentStep: Option<int>,
    urgency: Option<Urgency>,
    dpeReport: Option<string>,
    fullEvaluation: Option<string>,
    actionPlan: Option<string>,
    followUpReport: Option<string>,
    closingNotice: Option<string>,
    decisionNote: Option<string>,
    archivedDate: Option<int>)

  /** The empty patch `{}`. */
  const NoChange: Patch := Patch(None, None, None, None, None, None, None, None, None, None)

  /**
   * Two versions of a case agree on every field that no patch can carry: its
   * identity, its original account, its attachments, its audit trail and its
   * vision metadata.
   */
  ghost predicate SameCase(a: IncidentReport, b: IncidentReport)
  {
    && a.id == b.id && a.timestamp == b.timestamp && a.declarantId == b.declarantId
    && a.category == b.category && a.description == b.description
    && a.isAnonymous == b.isAnonymous && a.programme == b.programme
    && a.abuserName == b.abuserName && a.childName == b.childName
    && a.attachments == b.attachments && a.evaluationSummary == b.evaluationSummary
    && a.expertId == b.expertId && a.governanceId == b.governanceId
    && a.auditTrail == b.auditTrail && a.isAIDetected == b.isAIDetected
    && a.aggressionScore == b.aggressionScore
    && a.escalationProbability == b.escalationProbability
    && a.thumbnail == b.thumbnail && a.observedBehaviors == b.observedBehaviors
    && a.detectedFaces == b.detectedFaces
  }

  function Pick<T>(patched: Option<T>, kept: T): T
  {
    if patched.Some? then patched.value else kept
  }

  function PickOptional<T>(patched: Option<T>, kept: Option<T>): Option<T>
  {
    if patched.Some? then patched else kept
  }

  /** `{ ...r, ...p }`: every key present in p replaces the field of r. */
  function Spread(r: IncidentReport, p: Patch): IncidentReport
  {
    r.(status := Pick(p.status, r.status),
       currentStep := Pick(p.currentStep, r.currentStep),
       urgency := Pick(p.urgency, r.urgency),
       dpeReport := PickOptional(p.dpeReport, r.dpeReport),
       fullEvaluation := PickOptional(p.fullEvaluation, r.fullEvaluation),
       actionPlan := PickOptional(p.actionPlan, r.actionPlan),
       followUpReport := PickOptional(p.followUpReport, r.followUpReport),
       closingNotice := PickOptional(p.closingNotice, r.closingNotice),
       decisionNote := PickOptional(p.decisionNote, r.decisionNote),
       archivedDate := PickOptional(p.archivedDate, r.archivedDate))
  }

  /**
   * `{ ...r, status: newStatus, ...p }`. The patch is spread after the status,
   * so a status carried by the patch wins over `newStatus`; the identity,
   * attachments and audit trail of the case never change.
   */
  function Merge(r: IncidentReport, newStatus: Status, p: Patch): (m: IncidentReport)
    ensures SameCase(r, m)
    ensures m.status == (if p.status.Some? then p.status.value else newStatus)
    ensures p == NoChange ==> m == r.(status := newStatus)
  {
    Spread(r.(status := newStatus), p)
  }

  /**
   * `reports.map(r => r.id === id ? merged : r)`: every case whose id matches
   * is merged, every other case is kept as it is, in the same order.
   */
  function ApplyUpdate(reports: seq<IncidentReport>, id: string, newStatus: Status, p: Patch): (r: seq<IncidentReport>)
    ensures |r| == |reports|
    ensures forall i :: 0 <= i < |r| && reports[i].id != id ==> r[i] == reports[i]
    ensures forall i :: 0 <= i < |r| && reports[i].id == id ==> r[i] == Merge(reports[i], newStatus, p)
  {
    if reports == [] then []
    else
      var head := if reports[0].id == id then Merge(reports[0], newStatus, p) else reports[0];
      [head] + ApplyUpdate(reports[1..], id, newStatus, p)
  }

  /** An update never changes which case sits at which position. */
  lemma UpdateKeepsIds(reports: seq<IncidentReport>, id: string, newStatus: Status, p: Patch)
    ensures var r := ApplyUpdate(reports, id, newStatus, p);
      forall i :: 0 <= i < |reports| ==> SameCase(reports[i], r[i])
  {
  }

  /** An id that no case carries leaves the whole registry unchanged. */
  lemma UpdateUnknownId(reports: seq<IncidentReport>, id: string, newStatus: Status, p: Patch)
    requires forall i :: 0 <= i < |reports| ==> reports[i].id != id
    ensures ApplyUpdate(reports, id, newStatus, p) == reports
  {
  }

  /** Merging the same status and patch twice is merging them once. */
  lemma MergeIdempotent(r: IncidentReport, newStatus: Status, p: Patch)
    ensures Merge(Merge(r, newStatus, p), newStatus, p) == Merge(r, newStatus, p)
  {
  }

  /** Repeating an update changes nothing more. */
  lemma {:induction false} UpdateIdempotent(reports: seq<IncidentReport>, id: string, newStatus: Status, p: Patch)
    ensures ApplyUpdate(ApplyUpdate(reports, id, newStatus, p), id, newStatus, p) == ApplyUpdate(reports, id, newStatus, p)
  {
    if reports != [] {
      UpdateIdempotent(reports[1..], id, newStatus, p);
      MergeIdempotent(reports[0], newStatus, p);
    }
  }

  /** Updates addressed to two different ids touch disjoint cases, so their order does not matter. */
  lemma {:induction false} UpdatesOnDistinctIdsCommute(reports: seq<IncidentReport>, a: string, s: Status, p: Patch,
                                                       b: string, t: Status, q: Patch)
    requires a != b
    ensures ApplyUpdate(ApplyUpdate(reports, a, s, p), b, t, q) == ApplyUpdate(ApplyUpdate(reports, b, t, q), a, s, p)
  {
    if reports != [] {
      UpdatesOnDistinctIdsCommute(reports[1..], a, s, p, b, t, q);
    }
  }

  // ---------------------------------------------------------------------
  // The workflow: step documents and the patches of the analyst and
  // governance views.
  // ---------------------------------------------------------------------

  /** The document collected at step k: 1 DPE report, 2 full evaluation, 3 action plan, 4 follow-up, 5 closing notice. */
  function StepDocument(r: IncidentReport, k: int): Option<string>
  {
    if k == 1 then r.dpeReport
    else if k == 2 then r.fullEvaluation
    else if k == 3 then r.actionPlan
    else if k == 4 then r.followUpReport
    else if k == 5 then r.closingNotice
    else None
  }

  /**
   * The payload of a step advance from step k: the next step, status
   * processing, and the typed text under the key of step k (no key at all
   * for a step outside 1..5).
   */
  function ProgressPatch(k: int, text: string): (p: Patch)
  {
    NoChange.(
      currentStep := Some(k + 1),
      status := Some(Processing),
      dpeReport := if k == 1 then Some(text) else None,
      fullEvaluation := if k == 2 then Some(text) else None,
      actionPlan := if k == 3 then Some(text) else None,
      followUpReport := if k == 4 then Some(text) else None,
      closingNotice := if k == 5 then Some(text) else None)
  }

  /** The status the advance passes to the update: closed from step 5, processing otherwise. */
  function ProgressStatus(k: int): Status
  {
    if k == 5 then Closed else Processing
  }

  /**
   * Advancing from step k writes the text into the document of step k and no
   * other, moves to step k + 1 and stores status processing, and keeps every
   * other field, the urgency, the governance fields and the audit trail included.
   */
  lemma AdvanceEffect(r: IncidentReport, k: int, text: string)
    ensures var m := Merge(r, ProgressStatus(k), ProgressPatch(k, text));
      && m.currentStep == k + 1
      && m.status == Processing
      && (forall j :: StepDocument(m, j) == if 1 <= k <= 5 && j == k then Some(text) else StepDocument(r, j))
      && m == r.(status := m.status, currentStep := m.currentStep,
                 dpeReport := m.dpeReport, fullEvaluation := m.fullEvaluation, actionPlan := m.actionPlan,
                 followUpReport := m.followUpReport, closingNotice := m.closingNotice)
  {
  }

  /**
   * The closing step: although the update is sent with status closed, the
   * payload's own status processing is spread after it, so the case is stored
   * as processing, at step 6, with its closing notice.
   */
  lemma ClosingStepStoresProcessing(r: IncidentReport, text: string)
    ensures var m := Merge(r, Closed, ProgressPatch(5, text));
      m.status == Processing && m.status != Closed && m.currentStep == 6 && m.closingNotice == Some(text)
  {
  }

  /** The critical alert: urgency critical, no status key (the status comes from the update). */
  const CriticalAlertPatch: Patch := NoChange.(urgency := Some(Critical))

  /** The governance decision: the note and the archive time. */
  function ArchivePatch(note: string, now: int): Patch
  {
    NoChange.(decisionNote := Some(note), archivedDate := Some(now))
  }

  /** "False report" changes only the status. */
  lemma FalseReportEffect(r: IncidentReport)
    ensures Merge(r, FalseReport, NoChange) == r.(status := FalseReport)
  {
  }

  /** "Critical alert" sets urgency critical and status processing, whatever the status was. */
  lemma CriticalAlertEffect(r: IncidentReport)
    ensures var m := Merge(r, Processing, CriticalAlertPatch);
      m == r.(status := Processing, urgency := Critical) && m.currentStep == r.currentStep
  {
  }

  /**
   * Archiving sets status closed, the decision note and the archive time; the
   * step, the documents and the audit trail stay as they were.
   */
  lemma ArchiveEffect(r: IncidentReport, note: string, now: int)
    ensures Merge(r, Closed, ArchivePatch(note, now))
         == r.(status := Closed, decisionNote := Some(note), archivedDate := Some(now))
  {
  }

  /** A case classified as a false report can still be advanced, which puts it back to processing. */
  lemma FalseReportIsNotTerminal(r: IncidentReport, text: string)
    requires r.status == FalseReport
    ensures var m := Merge(r, ProgressStatus(r.currentStep), ProgressPatch(r.currentStep, text));
      m.status == Processing && m.currentStep == r.currentStep + 1
  {
  }
}
