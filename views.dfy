/**
 * The read side of the dashboard: the lists and counters each role view
 * computes from the registry, the step labels of the analyst workspace and
 * the tabs each role is shown.
 */
module Views {
  import opened Types
  import opened Registry

  /** `s.filter(f)`: the elements of s that satisfy f, in their order. */
  function Filter(s: seq<IncidentReport>, f: IncidentReport -> bool): (r: seq<IncidentReport>)
    ensures |r| <= |s|
    ensures forall x :: x in r <==> x in s && f(x)
    ensures forall i :: 0 <= i < |r| ==> f(r[i])
    ensures |s| == 1 ==> r == (if f(s[0]) then s else [])
  {
    if s == [] then []
    else if f(s[0]) then [s[0]] + Filter(s[1..], f)
    else Filter(s[1..], f)
  }

  /**
   * Filtering a concatenation filters each part and keeps them in order. With
   * the one-element case of `Filter`'s contract this pins down the result:
   * the selected elements, each as often as it occurs, in the input's order.
   */
  lemma {:induction false} FilterConcat(a: seq<IncidentReport>, b: seq<IncidentReport>, f: IncidentReport -> bool)
    ensures Filter(a + b, f) == Filter(a, f) + Filter(b, f)
  {
    if a == [] {
      assert a + b == b;
    } else {
      assert (a + b)[0] == a[0] && (a + b)[1..] == a[1..] + b;
      FilterConcat(a[1..], b, f);
    }
  }

  /** Filtering keeps everything exactly when every element satisfies the condition. */
  lemma {:induction false} FilterKeepsAll(s: seq<IncidentReport>, f: IncidentReport -> bool)
    ensures Filter(s, f) == s <==> forall i :: 0 <= i < |s| ==> f(s[i])
  {
    if s != [] {
      FilterKeepsAll(s[1..], f);
      if !f(s[0]) {
        assert |Filter(s, f)| < |s| by { assert Filter(s, f) == Filter(s[1..], f); }
      }
    }
  }

  predicate IsPending(r: IncidentReport) { r.status == Pending }
  predicate IsProcessing(r: IncidentReport) { r.status == Processing }
  predicate IsFalseReport(r: IncidentReport) { r.status == FalseReport }
  predicate IsClosed(r: IncidentReport) { r.status == Closed }
  predicate IsOpen(r: IncidentReport) { r.status != Closed }
  predicate IsCritical(r: IncidentReport) { r.urgency == Critical }

  /** The number of pending cases, shown as "new" in the analyst view. */
  function PendingCount(reports: seq<IncidentReport>): (n: nat)
    ensures n <= |reports|
    ensures n == 0 <==> forall i :: 0 <= i < |reports| ==> reports[i].status != Pending
  {
    var pending := Filter(reports, IsPending);
    assert pending != [] ==> pending[0] in pending;
    assert forall i :: 0 <= i < |reports| && IsPending(reports[i]) ==> reports[i] in pending;
    |pending|
  }

  function Min(a: int, b: int): int { if a <= b then a else b }

  /** The declarant feed: the first nine pending cases, in registry order. */
  function DeclarantFeed(reports: seq<IncidentReport>): (feed: seq<IncidentReport>)
    ensures |feed| == Min(9, PendingCount(reports))
    ensures forall x :: x in feed ==> x in reports && x.status == Pending
    ensures feed <= Filter(reports, IsPending)
  {
    var pending := Filter(reports, IsPending);
    if |pending| <= 9 then pending else pending[..9]
  }

  /** The analyst queue: every case that is not closed (false reports and pending cases included). */
  function AnalystQueue(reports: seq<IncidentReport>): (queue: seq<IncidentReport>)
    ensures forall x :: x in queue <==> x in reports && x.status != Closed
  {
    Filter(reports, IsOpen)
  }

  /** The governance table: every case for "all", otherwise the cases of the selected programme. */
  function ProgrammeFilter(reports: seq<IncidentReport>, selected: string): (shown: seq<IncidentReport>)
    ensures selected == "all" ==> shown == reports
    ensures selected != "all" ==> forall x :: x in shown <==> x in reports && x.programme == selected
  {
    if selected == "all" then reports else Filter(reports, (r: IncidentReport) => r.programme == selected)
  }

  datatype Stats = Stats(total: nat, critical: nat, processing: nat, archived: nat)

  /** The four counters of the governance view. */
  function GovernanceStats(reports: seq<IncidentReport>): (s: Stats)
    ensures s.critical <= s.total && s.processing + s.archived <= s.total
  {
    StatusPartition(reports);
    Stats(|reports|, |Filter(reports, IsCritical)|, |Filter(reports, IsProcessing)|, |Filter(reports, IsClosed)|)
  }

  /** Every case has exactly one of the four statuses, so the four status counts add up to the total. */
  lemma {:induction false} StatusPartition(reports: seq<IncidentReport>)
    ensures |Filter(reports, IsPending)| + |Filter(reports, IsProcessing)|
          + |Filter(reports, IsFalseReport)| + |Filter(reports, IsClosed)| == |reports|
  {
    if reports != [] {
      StatusPartition(reports[1..]);
    }
  }

  /** Archiving removes every case with that id from the analyst queue. */
  lemma ArchiveLeavesQueue(reports: seq<IncidentReport>, id: string, note: string, now: int)
    ensures forall x :: x in AnalystQueue(ApplyUpdate(reports, id, Closed, ArchivePatch(note, now))) ==> x.id != id
  {
    var r := ApplyUpdate(reports, id, Closed, ArchivePatch(note, now));
    forall x | x in AnalystQueue(r) ensures x.id != id {
      var i :| 0 <= i < |r| && r[i] == x;
      assert r[i].status != Closed;
    }
  }

  /** A case classified as a false report stays in the analyst queue. */
  lemma FalseReportStaysQueued(reports: seq<IncidentReport>, i: nat)
    requires i < |reports|
    ensures reports[i].(status := FalseReport) in AnalystQueue(ApplyUpdate(reports, reports[i].id, FalseReport, NoChange))
  {
    var r := ApplyUpdate(reports, reports[i].id, FalseReport, NoChange);
    assert r[i] == reports[i].(status := FalseReport);
  }

  /**
   * A case advanced past its closing step is stored as processing, so it
   * stays in the analyst queue. The step the workspace advances from is that
   * of the dossier it holds, which may be stale, so the registry's own step
   * is not assumed.
   */
  lemma ClosedStepStaysQueued(reports: seq<IncidentReport>, i: nat, text: string)
    requires i < |reports|
    ensures var r := ApplyUpdate(reports, reports[i].id, Closed, ProgressPatch(5, text));
      r[i] in AnalystQueue(r) && r[i].currentStep == 6
  {
    ClosingStepStoresProcessing(reports[i], text);
  }

  /** The label of the workspace for a step; any step outside 1..5 is the archive label. */
  function CurrentStepLabel(step: int): (text: string)
    ensures text == "Archivage" <==> !(1 <= step <= 5)
  {
    match step
    case 1 => "Rapport DPE & Notifications"
    case 2 => "Évaluation Clinique Complète"
    case 3 => "Définition du Plan d'Action"
    case 4 => "Rapports de Suivi & Final"
    case 5 => "Avis de Clôture Définitif"
    case _ => "Archivage"
  }

  /** The five workflow steps have five distinct labels, none of them the archive label. */
  lemma StepLabelsDistinct(i: int, j: int)
    ensures 1 <= i <= 5 && 1 <= j <= 5 && i != j ==> CurrentStepLabel(i) != CurrentStepLabel(j)
    ensures 1 <= i <= 5 <==> CurrentStepLabel(i) != "Archivage"
  {
  }

  datatype Tab = NoTab | Hub | Monitor | Manage | GovernanceTab

  /** The tab a role lands on after login. */
  function LandingTab(role: UserRole): (tab: Tab)
    ensures TabVisible(Some(role), tab)
    ensures tab != Hub <==> role != Declarant
  {
    match role
    case Declarant => Hub
    case Analyst => Manage
    case Governance => GovernanceTab
  }

  /** Whether the navigation shows a tab to the signed-in role (no role: no tab). */
  predicate TabVisible(role: Option<UserRole>, tab: Tab)
  {
    match tab
    case Hub => role == Some(Declarant) || role == Some(Governance)
    case Monitor => role == Some(Analyst) || role == Some(Governance)
    case Manage => role == Some(Analyst) || role == Some(Governance)
    case GovernanceTab => role == Some(Governance)
    case NoTab => false
  }

  /**
   * Every role sees the tab it lands on; governance sees every tab; a
   * declarant sees only the intake hub; no tab shows without a signed-in role.
   */
  lemma TabsPerRole(role: UserRole, tab: Tab)
    ensures TabVisible(Some(role), LandingTab(role))
    ensures tab != NoTab ==> TabVisible(Some(Governance), tab)
    ensures TabVisible(Some(Declarant), tab) <==> tab == Hub
    ensures TabVisible(Some(Analyst), tab) <==> tab == Monitor || tab == Manage
    ensures !TabVisible(None, tab)
  {
  }
}
