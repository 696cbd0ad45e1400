/**
 * The records of the incident dashboard: the four enumerations and the
 * shapes of an incident case, an audit entry, a user, a vision assessment
 * and a monitor log entry.
 */
module Types {

  datatype Option<+T> = None | Some(value: T)

  datatype UserRole = Declarant | Analyst | Governance

  datatype Category = Health | Behavior | Violence | Abuse | Other

  datatype Status = Pending | Processing | FalseReport | Closed

  datatype Urgency = Low | Medium | High | Critical

  datatype AuditLogEntry = AuditLogEntry(userId: string, action: string, timestamp: int, role: UserRole)

  /** A face box as [ymin, xmin, ymax, xmax] with its label. */
  datatype Face = Face(box: (int, int, int, int), faceLabel: string)

  /**
   * One incident case. The optional fields of the record are `Option`s.
   * `currentStep` and the documents `dpeReport`, `fullEvaluation`,
   * `followUpReport` and `closingNotice` are written by the dashboard although
   * the record type does not declare them; they are fields here.
   */
  datatype IncidentReport = IncidentReport(
    id: string,
    timestamp: int,
    declarantId: string,
    category: Category,
    description: string,
    isAnonymous: bool,
    programme: string,
    abuserName: Option<string>,
    childName: Option<string>,
    urgency: Urgency,
    status: Status,
    attachments: seq<string>,
    currentStep: int,
    // Level 2: analyst fields
    evaluationSummary: Option<string>,
    dpeReport: Option<string>,
    fullEvaluation: Option<string>,
    actionPlan: Option<string>,
    followUpReport: Option<string>,
    closingNotice: Option<string>,
    expertId: Option<string>,
    // Level 3: governance fields
    decisionNote: Option<string>,
    archivedDate: Option<int>,
    governanceId: Option<string>,
    auditTrail: seq<AuditLogEntry>,
    // Metadata of cases raised by the vision monitor
    isAIDetected: Option<bool>,
    aggressionScore: Option<int>,
    escalationProbability: Option<int>,
    thumbnail: Option<string>,
    observedBehaviors: Option<seq<string>>,
    detectedFaces: Option<seq<Face>>)

  datatype User = User(id: string, name: string, role: UserRole)

  /** The structured answer of the vision classifier. */
  datatype AIResponse = AIResponse(
    aggressionScore: int,
    escalationProbability: int,
    riskLevel: Urgency,
    escalationTrend: string,
    observedBehaviors: seq<string>,
    possibleDistressDetected: bool,
    alertRecommended: bool,
    adminAlertMessage: string,
    confidenceScore: int,
    incidentSummary: string,
    detectedFaces: Option<seq<Face>>)

  /** An assessment as kept in the monitor log: the response plus its log id, clock label and image. */
  datatype AlertLogEntry = AlertLogEntry(
    response: AIResponse,
    id: string,
    timestamp: string,
    imageThumbnail: Option<string>)
}
