# SOS Echo incident dashboard: a Dafny model of the case registry, the workflow and the capture gate

SOS Echo is a browser dashboard for a child-protection organisation. Three
roles sign in against a fixed credential table. A declarant files incident
cases from the field. An analyst (the psychologists) takes each case through
five documented steps. Governance oversees the registry and archives cases
with a decision note. A webcam monitor sends frames to a vision classifier.
When an assessment recommends an alert at critical risk, the monitor opens
a case of its own.

This project models the in-memory logic of that dashboard. Every case
mutation goes through one merge-by-id update. The update, the patches the
views send through it, the login, the ingestion of assessments, the
declarant intake, the read-side lists and counters, and the deterministic
part of the demonstration data are all modelled. So is the two-flag gate
that decides whether the monitor may send a frame.

Modules, one per part of the program:

- `Types` (types.dfy): the four enumerations and the records of the source's
  type declarations. `currentStep` and the documents `dpeReport`,
  `fullEvaluation`, `followUpReport` and `closingNotice` are not declared on
  the case record, but the dashboard writes them, so they are fields here.
- `Strings` (strings.dfy): decimal rendering, `slice(-k)` and `includes`.
- `Registry` (registry.dfy): the update `{ ...r, status, ...patch }` mapped
  over the case list, and the patches of the workflow actions.
- `Views` (views.dfy): the declarant feed, the analyst queue, the pending
  count, the governance programme filter and counters, the step labels and
  the tabs per role.
- `Mock` (mock.dfy): the generator of the fifty starting cases.
- `Dashboard` (dashboard.dfy): class `App`. Its fields are the session, the
  registry and the monitor log. Its methods are the handlers that replace them.
- `Camera` (camera.dfy): class `CaptureGate`. Its fields are the flags
  `analyzing` and `quotaExceeded`. Its methods are events: capture, upload,
  success, failure, cool-down expiry and manual retry.

The model follows the code where the code and the design intent differ:

- An update whose id matches no case leaves the list unchanged. It does not fail.
- No update appends to the audit trail.
- A false report is not terminal. It stays in the analyst queue and can be
  advanced, which puts it back to processing.
- Advancing from step 5 sends status closed. But the payload carries status
  processing and is spread last, so the case is stored as processing at
  step 6, and it stays in the analyst queue.
- The workflow accepts empty text and rewrites a document. The empty-text
  check is only a disabled button.
- Ids are not unique. Two vision alerts 10 000 ms apart get the same id.
- The step labels are the French strings of the source.

## Model

| member | source | states |
|---|---|---|
| `Registry.Merge` | App.tsx:100 | the merged case keeps its identity, attachments and audit trail; its status is the patch's status when the patch has one, otherwise the status passed in; an empty patch changes only the status |
| `Registry.ApplyUpdate` | App.tsx:99-101 | same length and order; every case whose id matches is merged, every other case is identical |
| `Registry.UpdateKeepsIds` | App.tsx:100 | every position keeps the same case identity, account, attachments and audit trail after an update |
| `Registry.UpdateUnknownId` | App.tsx:100 | an id that no case carries leaves the whole list unchanged |
| `Registry.MergeIdempotent` | App.tsx:100 | merging the same status and patch twice equals merging once |
| `Registry.UpdateIdempotent` | App.tsx:99-101 | repeating the same update changes nothing more |
| `Registry.UpdatesOnDistinctIdsCommute` | App.tsx:99-101 | updates to two different ids commute |
| `Registry.AdvanceEffect` | App.tsx:225-243 | about `ProgressPatch` and `ProgressStatus` merged into a case: from step k the advance stores step k+1 and status processing; it writes the text into the document of step k (1 DPE, 2 evaluation, 3 action plan, 4 follow-up, 5 closing notice) and into no other; every other field is unchanged, audit trail included |
| `Registry.ClosingStepStoresProcessing` | App.tsx:226-235 | the step-5 advance is sent as closed but stores processing, at step 6, with the closing notice |
| `Registry.FalseReportEffect` | App.tsx:293 | "false report" changes the status to false-report and nothing else |
| `Registry.CriticalAlertEffect` | App.tsx:294 | "critical alert" sets urgency critical and status processing whatever the prior status, and nothing else |
| `Registry.ArchiveEffect` | App.tsx:491 | archiving sets status closed, the decision note and the archive date, and nothing else |
| `Registry.FalseReportIsNotTerminal` | App.tsx:225-240 | a false-report case can still be advanced, which stores status processing and the next step |
| `Views.Filter` | App.tsx:262 | the filtered list holds exactly the elements that satisfy the condition and is no longer than the input; a one-element list is kept exactly when its element satisfies the condition |
| `Views.FilterConcat` | App.tsx:262 | filtering a concatenation is the concatenation of the filtered parts, so the selected elements keep the input's order and multiplicity |
| `Views.PendingCount` | App.tsx:250 | the "new" counter is at most the number of cases, and zero exactly when no case is pending |
| `Views.FilterKeepsAll` | App.tsx:425 | filtering returns the input exactly when every element satisfies the condition |
| `Views.DeclarantFeed` | App.tsx:193 | the feed holds min(9, pending count) cases, all pending, and is a prefix of the pending cases in order |
| `Views.AnalystQueue` | App.tsx:262 | a case is in the queue if and only if it is in the registry and not closed |
| `Views.ProgrammeFilter` | App.tsx:425 | "all" shows every case; any other selection shows exactly the cases of that programme |
| `Views.GovernanceStats` | App.tsx:449-452 | the critical count is at most the total; processing plus archived is at most the total |
| `Views.StatusPartition` | App.tsx:449-452 | the pending, processing, false-report and closed counts sum to the number of cases |
| `Views.ArchiveLeavesQueue` | App.tsx:491 | after archiving, no case with that id remains in the analyst queue |
| `Views.FalseReportStaysQueued` | App.tsx:293 | a case classified as false report stays in the analyst queue |
| `Views.ClosedStepStaysQueued` | App.tsx:233-235 | a case advanced from step 5 stays in the analyst queue at step 6 |
| `Views.CurrentStepLabel` | App.tsx:214-223 | a step gets the archive label "Archivage" exactly when it is outside 1..5 |
| `Views.StepLabelsDistinct` | App.tsx:214-223 | about `CurrentStepLabel`: the labels of steps 1 to 5 are pairwise distinct; a step gets the archive label exactly when it is outside 1..5 |
| `Views.LandingTab` | App.tsx:93-95 | the tab a role lands on after login is one the navigation shows to it; only a declarant lands on the hub |
| `Views.TabsPerRole` | App.tsx:128-147 | about `TabVisible` and `LandingTab`: each role sees its landing tab; governance sees every tab; a declarant sees only the hub; an analyst sees monitor and manage; nobody signed in sees no tab |
| `Mock.MockCaseShape` | App.tsx:33-51 | about `MockCase`, by index: pending at step 1 below 5, processing at step 2 below 15, closed at step 5 after; critical every tenth, high every other fourth; one INIT audit entry |
| `Mock.InsertNewestFirst` | App.tsx:53 | inserting into a newest-first list keeps it newest first and adds exactly the one case |
| `Mock.SortNewestFirst` | App.tsx:53 | the result is newest first and a permutation of the input |
| `Mock.GenerateMockData` | App.tsx:14-54 | fifty cases, exactly the generated ones, newest first, each dated within the last sixty days, each with the step its status implies |
| `Dashboard.Lookup` | App.tsx:86-89 | a user is found exactly when some row of the table matches both username and password, and it is that row's user |
| `Dashboard.LoginOutcomes` | App.tsx:86-96 | sign-in succeeds exactly for declarant/declarant, Psychologues/Psychologues and Gouvernance/Gouvernance, with roles declarant, analyst and governance |
| `Dashboard.PushLog` | App.tsx:68 | the new entry comes first; the log holds min(old length + 1, 50) entries; the rest are the previous entries in order, oldest dropped |
| `Dashboard.PushLogFull` | App.tsx:68 | on a full log the new entry evicts exactly the oldest entry |
| `Dashboard.AiCaseEntersWorkflow` | App.tsx:69-79 | about `AiCase`: an opened case is pending at step 1, critical, violence, from SYSTEM_AI, with the image as its only attachment and one AUTO_DETECTED audit entry, and heads the declarant feed and the analyst queue |
| `Dashboard.AiCaseIdsCollide` | App.tsx:71 | two clock readings 10 000 ms apart give the same case id |
| `Dashboard.SubmittedCaseEntersWorkflow` | App.tsx:169-172 | about `SubmittedCase`: a submitted case is pending at step 1, medium urgency, with the form's account, dated by the first clock reading, with one CREATED audit entry dated by the second and an id "SOS-" plus four digits, and heads the declarant feed |
| `Dashboard.App.constructor` | App.tsx:57-64 | login screen, no user, no error, empty log, scanning on, and the demonstration cases newest first |
| `Dashboard.App.HandleLogin` | App.tsx:83-97 | a matching pair signs its user in with the role's landing tab and no error; any other pair leaves the session and tab as they were and sets the error message |
| `Dashboard.App.Logout` | App.tsx:125 | back to the login screen |
| `Dashboard.App.UpdateReport` | App.tsx:99-101 | the registry becomes the update of the old registry; the log cap and vision provenance are preserved |
| `Dashboard.App.HandleAnalysisResult` | App.tsx:66-81 | the log becomes the capped push of the new entry; a case is prepended if and only if an alert is recommended at critical risk |
| `Dashboard.App.HandleSubmit` | App.tsx:169-172 | the submitted case is prepended to the registry |
| `Dashboard.App.HandleProgress` | App.tsx:225-243 | the registry is updated with the step's payload, sent as closed from step 5 and as processing otherwise; the workspace shows the patched dossier, or none after step 5 |
| `Dashboard.App.MarkFalseReport` | App.tsx:293 | the registry is updated with status false-report and an empty patch |
| `Dashboard.App.RaiseCriticalAlert` | App.tsx:294 | the registry is updated with status processing and urgency critical |
| `Dashboard.App.Archive` | App.tsx:491 | the registry is updated with status closed, the decision note and the archive date |
| `Strings.ContainsIffOccurs` | components/CameraView.tsx:77 | the substring search succeeds exactly when the substring occurs at some position |
| `Strings.LastFourPeriodic` | App.tsx:71 | numbers 10 000 apart end in the same four decimal characters |
| `Camera.RateLimitedIff` | components/CameraView.tsx:77-80 | about `IsRateLimited`: an error is rate-limited if and only if its message contains "429" or "quota" or its status is RESOURCE_EXHAUSTED |
| `Camera.CaptureGate.constructor` | components/CameraView.tsx:17-18 | both flags start false |
| `Camera.CaptureGate.CaptureAndAnalyze` | components/CameraView.tsx:55-85 | a frame is sent if and only if scanning is on, video, canvas and context exist, the video has a width and neither flag is set; otherwise no request is issued and no flag changes; a sent frame sets `analyzing` |
| `Camera.CaptureGate.HandleFileUpload` | components/CameraView.tsx:87-113 | an upload is sent if and only if there is a file and neither flag is set; otherwise nothing changes |
| `Camera.CaptureGate.Succeed` | components/CameraView.tsx:71-83 | the result is handed once to the dashboard's ingestion; both flags end false |
| `Camera.CaptureGate.Fail` | components/CameraView.tsx:75-83 | `analyzing` ends false; `quotaExceeded` is raised, with one cool-down scheduled, exactly for a rate-limit error, and is otherwise unchanged |
| `Camera.CaptureGate.CooldownExpired` | components/CameraView.tsx:79 | a scheduled cool-down end clears `quotaExceeded` |
| `Camera.CaptureGate.ManualRetry` | components/CameraView.tsx:164-167 | manual retry clears `quotaExceeded` |
| `Camera.CaptureGate.Remount` | App.tsx:150-152 | leaving and re-entering the monitor tab mounts the view afresh: both flags false, no cool-down of the old mount pending, no request issued |
| `Camera.CooldownBlocksCapture` | components/CameraView.tsx:115-121 | after a rate-limited failure, neither a capture nor an upload issues a request, and the periodic timer is not armed |

## Left out

- Rendering and styling: the JSX of App.tsx, components/Header.tsx, components/AlertDashboard.tsx and components/ReportGallery.tsx.
- PDF export through html2pdf (App.tsx:427-438) and the chart library imports: foreign libraries.
- services/gemini.ts is not part of this model. The classifier call is an event with two outcomes: a result (`Succeed`) or an error (`Fail`).
- Camera stream acquisition, canvas drawing, JPEG/base64 encoding and the FileReader of an upload: browser I/O. Their availability is given to the gate as booleans. A FileReader that never loads is not modelled; in the source it would leave `analyzing` set.
- Real time: the 30 s capture interval and the 45 s cool-down are events (`CaptureAndAnalyze`, `CooldownExpired`), not clock arithmetic.
- `Math.random`, `Date.now` and `toLocaleTimeString` are parameters. The ingestion handler reads the clock three times; the model uses one reading for the id, the timestamp and the audit entry.
- Camera.CaptureGate.Remount: the request the old mount had in flight is not tracked after the remount; its result reaches `App.HandleAnalysisResult` directly, and its clearing of the old mount's `analyzing` has no effect on the new gate.
- Camera.CaptureGate: its methods read the flags' current values, whereas the source's callbacks read the values captured at the last render.
- Dashboard.App.RaiseCriticalAlert: the browser `alert` dialog is left out.
- The view-local state is left out: the analyst's text buffer, the selected dossier and decision, the governance note and village selection, and the login form buffer. `HandleProgress` returns the dossier the workspace shows next.
- Registry.Patch carries only the keys the call sites send: status, step, urgency, the five documents, the decision note and the archive date. A patch with other keys is not modelled.
- Types.AIResponse: `risk_level` is an enumeration here. The source takes it unchecked from JSON, so at run time it may be any string.
- Mock.GenerateMockData: the random picks from the village, category, scenario, child and author tables are passed in as values, not as indices into those tables.
- Mock.SortNewestFirst: does not state that cases with equal timestamps keep their generation order, which the source's stable sort would give.

