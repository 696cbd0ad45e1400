/**
 * The generator of the fifty demonstration cases the registry starts with.
 * The random draws (age, category, programme, scenario, anonymity, names)
 * and the clock are parameters; what is modelled is the deterministic part:
 * id, status, step and urgency by index, the INIT audit entry, and the final
 * ordering newest first.
 */
module Mock {
  import opened Types
  import opened Strings

  /** The values the generator draws at random for one case. */
  datatype Draw = Draw(ageMs: nat, category: Category, programme: string, description: string,
                       isAnonymous: bool, childName: string, abuserName: string)

  const MockCount: nat := 50

  /** Cases are back-dated by less than sixty days, in milliseconds. */
  const MaxAgeMs: nat := 60 * 24 * 60 * 60 * 1000

  function MockStatus(i: nat): Status
  {
    if i < 5 then Pending else if i < 15 then Processing else Closed
  }

  function MockUrgency(i: nat): Urgency
  {
    if i % 10 == 0 then Critical else if i % 4 == 0 then High else Medium
  }

  function MockStep(s: Status): int
  {
    if s == Pending then 1 else if s == Closed then 5 else 2
  }

  /** The i-th generated case, before sorting. */
  function MockCase(now: int, i: nat, d: Draw): IncidentReport
  {
    var ts := now - d.ageMs;
    var status := MockStatus(i);
    IncidentReport(
      id := "SOS-" + Decimal(4000 + i), timestamp := ts, declarantId := "USER_MOCK",
      category := d.category, description := d.description, isAnonymous := d.isAnonymous,
      programme := d.programme, abuserName := Some(d.abuserName), childName := Some(d.childName),
      urgency := MockUrgency(i), status := status, attachments := [], currentStep := MockStep(status),
      evaluationSummary := None, dpeReport := None, fullEvaluation := None, actionPlan := None,
      followUpReport := None, closingNotice := None, expertId := None, decisionNote := None,
      archivedDate := None, governanceId := None,
      auditTrail := [AuditLogEntry("SYS", "INIT", ts, Declarant)],
      isAIDetected := None, aggressionScore := None, escalationProbability := None,
      thumbnail := None, observedBehaviors := None, detectedFaces := None)
  }

  /**
   * The shape of every generated case: the first five are pending at step 1,
   * the next ten processing at step 2, the rest closed at step 5; every tenth
   * is critical, every other fourth high, the others medium; each carries one
   * INIT audit entry and no vision metadata.
   */
  lemma MockCaseShape(now: int, i: nat, d: Draw)
    ensures var c := MockCase(now, i, d);
      && (c.status == Pending <==> i < 5)
      && (c.status == Processing <==> 5 <= i < 15)
      && (c.status == Closed <==> 15 <= i)
      && c.currentStep == (if i < 5 then 1 else if i < 15 then 2 else 5)
      && (c.urgency == Critical <==> i % 10 == 0)
      && (c.urgency == High <==> i % 10 != 0 && i % 4 == 0)
      && c.timestamp == now - d.ageMs
      && |c.auditTrail| == 1 && c.auditTrail[0].action == "INIT"
      && c.isAIDetected == None
  {
  }

  /** The generated cases in generation order. */
  function MockCases(now: int, draws: seq<Draw>): (r: seq<IncidentReport>)
    ensures |r| == |draws|
    ensures forall i :: 0 <= i < |draws| ==> r[i] == MockCase(now, i, draws[i])
  {
    seq(|draws|, i requires 0 <= i < |draws| => MockCase(now, i, draws[i]))
  }

  ghost predicate SortedNewestFirst(s: seq<IncidentReport>)
  {
    forall i, j :: 0 <= i < j < |s| ==> s[i].timestamp >= s[j].timestamp
  }

  /** Inserts x before the first case that is not newer than it. */
  function InsertNewestFirst(x: IncidentReport, s: seq<IncidentReport>): (r: seq<IncidentReport>)
    requires SortedNewestFirst(s)
    ensures SortedNewestFirst(r)
    ensures multiset(r) == multiset(s) + multiset{x}
    ensures |r| == |s| + 1
  {
    if s == [] || s[0].timestamp <= x.timestamp then [x] + s
    else
      var rest := InsertNewestFirst(x, s[1..]);
      assert s == [s[0]] + s[1..];
      assert forall j :: 0 <= j < |rest| ==> s[0].timestamp >= rest[j].timestamp by {
        forall j | 0 <= j < |rest| ensures s[0].timestamp >= rest[j].timestamp {
          assert rest[j] in multiset(rest);
          if rest[j] != x {
            assert rest[j] in multiset(s[1..]);
          }
        }
      }
      [s[0]] + rest
  }

  /** `sort((a, b) => b.timestamp - a.timestamp)`: newest first, the same cases. */
  function SortNewestFirst(s: seq<IncidentReport>): (r: seq<IncidentReport>)
    ensures SortedNewestFirst(r)
    ensures multiset(r) == multiset(s)
    ensures |r| == |s|
  {
    if s == [] then []
    else
      assert s == [s[0]] + s[1..];
      InsertNewestFirst(s[0], SortNewestFirst(s[1..]))
  }

  /**
   * The fifty demonstration cases: exactly the generated cases, each once,
   * ordered newest first, every one back-dated by less than sixty days and
   * with the step that matches its status.
   */
  method GenerateMockData(now: int, draws: seq<Draw>) returns (data: seq<IncidentReport>)
    requires |draws| == MockCount
    requires forall i :: 0 <= i < |draws| ==> draws[i].ageMs < MaxAgeMs
    ensures |data| == MockCount
    ensures multiset(data) == multiset(MockCases(now, draws))
    ensures SortedNewestFirst(data)
    ensures forall x :: x in data ==> now - MaxAgeMs < x.timestamp <= now && x.currentStep == MockStep(x.status)
  {
    var mockData: seq<IncidentReport> := [];
    for i := 0 to MockCount
      invariant |mockData| == i
      invariant forall j :: 0 <= j < i ==> mockData[j] == MockCase(now, j, draws[j])
    {
      mockData := mockData + [MockCase(now, i, draws[i])];
    }
    assert mockData == MockCases(now, draws);
    data := SortNewestFirst(mockData);
    forall x | x in data
      ensures now - MaxAgeMs < x.timestamp <= now && x.currentStep == MockStep(x.status)
    {
      assert x in multiset(mockData);
      var j :| 0 <= j < |mockData| && mockData[j] == x;
    }
  }
}
