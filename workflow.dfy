/** Workflow execution helpers (composables/useWorkflowTracker.ts): mapping
    the backend's execution and step records, classifying status strings,
    progress, failure and current-step queries, and duration formatting. */
module Workflow {
  import opened Wrappers
  import Text
  import Json
  import Arith

  datatype StepStatus = Pending | Active | Completed | Failed

  /** A timestamp as the backend sends it, together with the instant it denotes in milliseconds. */
  datatype Stamp = Stamp(text: string, millis: int)

  /** The step record of the status response. */
  datatype ApiStep = ApiStep(
    id: Option<string>, taskId: Option<string>,
    name: Option<string>, title: Option<string>,
    description: Option<string>, status: Option<string>,
    startedAt: Option<Stamp>, completedAt: Option<Stamp>,
    error: Option<string>, errorMessage: Option<string>,
    isBranching: Option<bool>, branches: Option<seq<string>>)

  /** WorkflowStep. */
  datatype Step = Step(
    id: string, name: string, description: Option<string>, status: StepStatus,
    startedAt: Option<Stamp>, completedAt: Option<Stamp>, duration: Option<int>,
    error: Option<string>, isBranching: bool, branches: seq<string>)

  /** The attributes of an execution record. */
  datatype ApiAttributes = ApiAttributes(
    executionId: Option<string>, workflowId: Option<string>, status: Option<string>,
    submittedAt: Option<string>, created: Option<string>, completedAt: Option<string>,
    steps: Option<seq<ApiStep>>, workflowName: Option<string>, submissionId: Option<string>)

  datatype ApiExecution = ApiExecution(id: Option<string>, attributes: Option<ApiAttributes>)

  /** WorkflowExecution; its status is the backend's string, not a StepStatus. */
  datatype Execution = Execution(
    id: string, workflowId: string, status: string, submittedAt: string,
    completedAt: Option<string>, steps: seq<Step>, name: Option<string>, submissionId: Option<string>)

  /** `a || b` for optional strings: a when it is a non-empty string, b otherwise. */
  function Either(a: Option<string>, b: Option<string>): (r: Option<string>)
    ensures r == a || r == b
    ensures a.Some? && a.value != "" ==> r == a
  {
    if a.Some? && a.value != "" then a else b
  }

  predicate StampPresent(s: Option<Stamp>) {
    s.Some? && s.value.text != ""
  }

  // ---------------------------------------------------------------------------
  // Status classification

  const CompletedWords: seq<string> := ["completed", "complete", "success", "approved"]
  const ActiveWords: seq<string> := ["active", "running", "in_progress", "processing"]
  const FailedWords: seq<string> := ["failed", "error", "rejected"]

  lemma WordListsDisjoint()
    ensures forall w :: w in CompletedWords ==> w !in ActiveWords && w !in FailedWords
    ensures forall w :: w in ActiveWords ==> w !in FailedWords
  {
    forall w | w in CompletedWords ensures w !in ActiveWords && w !in FailedWords {
      assert w[0] in "cesa";
    }
    forall w | w in ActiveWords ensures w !in FailedWords {
      assert w[0] in "arip";
    }
  }

  /** The lower-cased status, with 'pending' standing in for a missing or empty one. */
  function StatusWord(raw: Option<string>): (r: string)
    ensures raw.None? || raw.value == "" ==> r == "pending"
    ensures raw.Some? && raw.value != "" ==> |r| == |raw.value|
    ensures forall i :: 0 <= i < |r| ==> !('A' <= r[i] <= 'Z')
  {
    Text.Lower(Json.OrDefault(raw, "pending"))
  }

  /** mapStepStatus: each word list gives its status, everything else is pending. */
  function MapStepStatus(raw: Option<string>): (r: StepStatus)
    ensures r == Completed <==> StatusWord(raw) in CompletedWords
    ensures r == Active <==> StatusWord(raw) in ActiveWords
    ensures r == Failed <==> StatusWord(raw) in FailedWords
    ensures r == Pending <==> StatusWord(raw) !in CompletedWords + ActiveWords + FailedWords
  {
    WordListsDisjoint();
    var w := StatusWord(raw);
    if w in CompletedWords then Completed
    else if w in ActiveWords then Active
    else if w in FailedWords then Failed
    else Pending
  }

  /** The classification ignores letter case. */
  lemma MapStepStatusIgnoresCase(s: string)
    ensures MapStepStatus(Some(s)) == MapStepStatus(Some(Text.Lower(s)))
  {
    Text.LowerIdempotent(s);
    if s != "" {
      assert Text.Lower(s) != "";
    }
  }

  /** A missing or empty status is pending. */
  lemma MapStepStatusMissing()
    ensures MapStepStatus(None) == Pending && MapStepStatus(Some("")) == Pending
  {
    PendingWord();
    assert forall x :: x in CompletedWords + ActiveWords + FailedWords ==> x[0] != 'p' || |x| != 7;
  }

  lemma PendingWord()
    ensures StatusWord(None) == "pending" && StatusWord(Some("")) == "pending"
  {
    Text.LowerNoUpper("pending");
  }

  /** Upper-case spellings are classified as their lower-case forms. */
  lemma MapStepStatusUpperCase()
    ensures MapStepStatus(Some("SUCCESS")) == Completed
    ensures MapStepStatus(Some("Rejected")) == Failed
  {
    SuccessWord();
    assert CompletedWords[2] == "success";
    RejectedWord();
    assert FailedWords[2] == "rejected";
  }

  lemma SuccessWord()
    ensures StatusWord(Some("SUCCESS")) == "success"
  {
    var w := Text.Lower("SUCCESS");
    assert w[0] == 's' && w[1] == 'u' && w[2] == 'c' && w[3] == 'c' && w[4] == 'e' && w[5] == 's' && w[6] == 's';
  }

  lemma RejectedWord()
    ensures StatusWord(Some("Rejected")) == "rejected"
  {
    var w := Text.Lower("Rejected");
    assert w[0] == 'r';
    Text.LowerNoUpper("ejected");
    assert "Rejected"[1..] == "ejected";
  }

  // ---------------------------------------------------------------------------
  // Mapping backend records

  /** One step of mapSteps, at position `index`. */
  function MapStep(index: nat, s: ApiStep): (r: Step)
    ensures r.id != "" && r.name != ""
    ensures s.id.GetOr("") == "" && s.taskId.GetOr("") == "" ==> r.id == "step-" + Text.NatToString(index)
    ensures s.name.GetOr("") == "" && s.title.GetOr("") == "" ==> r.name == "Step " + Text.NatToString(index + 1)
    ensures r.duration.Some? <==> StampPresent(s.startedAt) && StampPresent(s.completedAt)
    ensures r.duration.Some? ==> r.duration.value == s.completedAt.value.millis - s.startedAt.value.millis
    ensures r.isBranching <==> s.isBranching == Some(true)
    ensures r.status == MapStepStatus(s.status)
  {
    Step(
      Json.OrDefault(Either(s.id, s.taskId), "step-" + Text.NatToString(index)),
      Json.OrDefault(Either(s.name, s.title), "Step " + Text.NatToString(index + 1)),
      s.description,
      MapStepStatus(s.status),
      s.startedAt,
      s.completedAt,
      if StampPresent(s.startedAt) && StampPresent(s.completedAt)
      then Some(s.completedAt.value.millis - s.startedAt.value.millis) else None,
      Either(s.error, s.errorMessage),
      s.isBranching == Some(true),
      s.branches.GetOr([]))
  }

  /** mapSteps: one step per record, in order, each mapped at its own position. */
  function MapSteps(steps: seq<ApiStep>): (r: seq<Step>)
    ensures |r| == |steps|
    ensures forall i :: 0 <= i < |steps| ==> r[i] == MapStep(i, steps[i])
  {
    seq(|steps|, i requires 0 <= i < |steps| => MapStep(i, steps[i]))
  }

  /** Steps that come without ids get distinct ids. */
  lemma DefaultStepIdsDistinct(steps: seq<ApiStep>, i: nat, j: nat)
    requires i < j < |steps|
    requires steps[i].id.GetOr("") == "" && steps[i].taskId.GetOr("") == ""
    requires steps[j].id.GetOr("") == "" && steps[j].taskId.GetOr("") == ""
    ensures MapSteps(steps)[i].id != MapSteps(steps)[j].id
  {
    var r := MapSteps(steps);
    if r[i].id == r[j].id {
      assert "step-" + Text.NatToString(i) == "step-" + Text.NatToString(j);
      assert Text.NatToString(i) == ("step-" + Text.NatToString(i))[5..];
      assert Text.NatToString(j) == ("step-" + Text.NatToString(j))[5..];
      Text.NatToStringInjective(i, j);
    }
  }

  /** mapApiResponseToExecution, with the current time's ISO text as `nowIso`. */
  function MapExecution(data: ApiExecution, nowIso: string): (r: Execution)
    ensures r.id != ""
    ensures r.status != ""
    ensures data.attributes.None? ==> r.status == "running" && r.steps == [] && r.workflowId == ""
    ensures data.attributes.Some? && data.attributes.value.steps.Some? ==>
              r.steps == MapSteps(data.attributes.value.steps.value)
  {
    var a := data.attributes.GetOr(ApiAttributes(None, None, None, None, None, None, None, None, None));
    Execution(
      Json.OrDefault(Either(data.id, a.executionId), "unknown"),
      Json.OrDefault(a.workflowId, ""),
      Json.OrDefault(a.status, "running"),
      Json.OrDefault(Either(a.submittedAt, a.created), nowIso),
      a.completedAt,
      MapSteps(a.steps.GetOr([])),
      a.workflowName,
      a.submissionId)
  }

  // ---------------------------------------------------------------------------
  // Queries over an execution

  /** getCompletedStepsCount: the number of completed steps. */
  function CompletedCount(steps: seq<Step>): (r: nat)
    ensures r <= |steps|
    ensures r == |steps| <==> forall i :: 0 <= i < |steps| ==> steps[i].status == Completed
    ensures r == 0 <==> forall i :: 0 <= i < |steps| ==> steps[i].status != Completed
  {
    if |steps| == 0 then 0
    else (if steps[0].status == Completed then 1 else 0) + CompletedCount(steps[1..])
  }

  /** calculateProgress: `Math.round(100 * completed / total)`, 0 without steps.
      Rounding half up of c/n * 100 is floor((200 c + n) / (2 n)). */
  function CalculateProgress(e: Execution): (r: nat)
    ensures r <= 100
    ensures |e.steps| == 0 ==> r == 0
    ensures |e.steps| > 0 ==> (r == 100 <==> 200 * CompletedCount(e.steps) >= 199 * |e.steps|)
    ensures |e.steps| > 0 ==> (r == 0 <==> 200 * CompletedCount(e.steps) < |e.steps|)
    ensures |e.steps| > 0 ==>
      2 * |e.steps| * r <= 200 * CompletedCount(e.steps) + |e.steps| < 2 * |e.steps| * (r + 1)
  {
    var n := |e.steps|;
    if n == 0 then 0
    else
      var c := CompletedCount(e.steps);
      RoundedPercent(c, n)
  }

  function RoundedPercent(c: nat, n: nat): (r: nat)
    requires 0 < n && c <= n
    ensures r <= 100
    ensures r == 100 <==> 200 * c >= 199 * n
    ensures r == 0 <==> 200 * c < n
    ensures 2 * n * r <= 200 * c + n < 2 * n * (r + 1)
  {
    RoundedPercentBounds(200 * c + n, 2 * n, c, n);
    (200 * c + n) / (2 * n)
  }

  lemma RoundedPercentBounds(a: nat, b: nat, c: nat, n: nat)
    requires 0 < n && c <= n && a == 200 * c + n && b == 2 * n
    ensures a / b <= 100
    ensures a / b == 100 <==> 200 * c >= 199 * n
    ensures a / b == 0 <==> 200 * c < n
    ensures b * (a / b) <= a < b * (a / b + 1)
  {
    assert a == b * (a / b) + a % b && 0 <= a % b < b;
    assert b * (a / b + 1) == b * (a / b) + b;
    Arith.DivBelow(a, b, 101);
    Arith.DivBelow(a, b, 100);
    Arith.DivBelow(a, b, 1);
  }

  /** Below 200 steps, the progress is 100 exactly when every step is completed. */
  lemma ProgressFullIffAllCompleted(e: Execution)
    requires 0 < |e.steps| < 200
    ensures CalculateProgress(e) == 100 <==> forall i :: 0 <= i < |e.steps| ==> e.steps[i].status == Completed
  {
    var c := CompletedCount(e.steps);
    var n := |e.steps|;
    if c < n {
      assert 200 * c <= 200 * n - 200;
    }
  }

  function CompletedStep(): Step {
    Step("s", "S", None, Completed, None, None, None, None, false, [])
  }

  /** Rounding makes 399 completed steps out of 400 read as 100 percent. */
  lemma AlmostCompleteReadsFull()
    ensures var steps := seq(399, _ => CompletedStep()) + [CompletedStep().(status := Pending)];
      var e := Execution("x", "w", "running", "", None, steps, None, None);
      CalculateProgress(e) == 100 && CompletedCount(steps) == 399
  {
    var done := seq(399, _ => CompletedStep());
    var steps := done + [CompletedStep().(status := Pending)];
    assert CompletedCount(done) == 399;
    CompletedCountAppend(done, [CompletedStep().(status := Pending)]);
  }

  lemma {:induction false} CompletedCountAppend(a: seq<Step>, b: seq<Step>)
    ensures CompletedCount(a + b) == CompletedCount(a) + CompletedCount(b)
    decreases |a|
  {
    if |a| == 0 {
      assert a + b == b;
    } else {
      assert (a + b)[1..] == a[1..] + b;
      CompletedCountAppend(a[1..], b);
    }
  }

  /** `steps.some(step => step.status === status)`. */
  function AnyStep(steps: seq<Step>, status: StepStatus): (r: bool)
    ensures r <==> exists i :: 0 <= i < |steps| && steps[i].status == status
  {
    if |steps| == 0 then false
    else steps[0].status == status || AnyStep(steps[1..], status)
  }

  /** isWorkflowComplete: the backend reports the execution completed, so
      such an execution has failed only if one of its steps failed. */
  function IsWorkflowComplete(e: Execution): (r: bool)
    ensures r <==> e.status == "completed"
    ensures r ==> (HasWorkflowFailed(e) <==> AnyStep(e.steps, Failed))
  {
    e.status == "completed"
  }

  /** hasWorkflowFailed: the execution failed, or one of its steps did. */
  function HasWorkflowFailed(e: Execution): (r: bool)
    ensures r <==> e.status == "failed" || exists i :: 0 <= i < |e.steps| && e.steps[i].status == Failed
  {
    e.status == "failed" || AnyStep(e.steps, Failed)
  }

  /** Completion is the backend's own status and says nothing about the steps:
      an execution reported completed can have a failed step, and is then both complete and failed. */
  lemma CompleteAndFailed()
    ensures var e := Execution("x", "w", "completed", "", None, [CompletedStep().(status := Failed)], None, None);
      IsWorkflowComplete(e) && HasWorkflowFailed(e) && CalculateProgress(e) == 0
  {
    var e := Execution("x", "w", "completed", "", None, [CompletedStep().(status := Failed)], None, None);
    assert e.steps[0].status == Failed;
  }

  /** getCurrentStep: the first active step, or null. */
  function CurrentStep(steps: seq<Step>): (r: Option<Step>)
    ensures r.None? <==> forall i :: 0 <= i < |steps| ==> steps[i].status != Active
    ensures r.Some? ==> exists i :: 0 <= i < |steps| && steps[i] == r.value && steps[i].status == Active
                          && forall j :: 0 <= j < i ==> steps[j].status != Active
  {
    if |steps| == 0 then None
    else if steps[0].status == Active then Some(steps[0])
    else
      var rest := CurrentStep(steps[1..]);
      assert rest.Some? ==> exists i :: 0 < i < |steps| && steps[i] == rest.value && steps[i].status == Active
                              && forall j :: 0 <= j < i ==> steps[j].status != Active by {
        if rest.Some? {
          var k :| 0 <= k < |steps[1..]| && steps[1..][k] == rest.value && steps[1..][k].status == Active
                   && forall j :: 0 <= j < k ==> steps[1..][j].status != Active;
          assert forall j :: 1 <= j < k + 1 ==> steps[j] == steps[1..][j - 1];
        }
      }
      rest
  }

  // ---------------------------------------------------------------------------
  // Display

  const DisplayNames: map<string, string> := map[
    "parking_permit" := "Parking Permit Application",
    "marriage_booking" := "Marriage Booking",
    "building_permit" := "Building Permit Application",
    "contact_form" := "Contact Form",
    "company_verification" := "Company Verification",
    "foi_request" := "Freedom of Information Request",
    "address_change" := "Address Change Request",
    "daycare_enrollment" := "Daycare Enrollment"]

  /** getWorkflowDisplayName: the known name, or 'Workflow' for any other id. */
  function DisplayName(workflowId: string): (r: string)
    ensures r != ""
    ensures r == "Workflow" <==> workflowId !in DisplayNames
    ensures workflowId in DisplayNames ==> r == DisplayNames[workflowId]
    ensures workflowId == "foi_request" ==> r == "Freedom of Information Request"
    ensures workflowId == "daycare_enrollment" ==> r == "Daycare Enrollment"
  {
    if workflowId in DisplayNames && DisplayNames[workflowId] != "" then DisplayNames[workflowId] else "Workflow"
  }

  /** formatDuration, with JavaScript's floor divisions. A non-negative
      duration shows the largest unit it reaches, whole, and then the whole
      part of what remains in the next smaller unit; on a negative duration
      every unit is negative and only the seconds are shown. */
  function FormatDuration(ms: int): (r: string)
    ensures ms >= 86400000 ==>
      r == Text.NatToString(ms / 86400000) + "d " + Text.NatToString(ms % 86400000 / 3600000) + "h"
    ensures 3600000 <= ms < 86400000 ==>
      r == Text.NatToString(ms / 3600000) + "h " + Text.NatToString(ms % 3600000 / 60000) + "m"
    ensures 60000 <= ms < 3600000 ==>
      r == Text.NatToString(ms / 60000) + "m " + Text.NatToString(ms % 60000 / 1000) + "s"
    ensures 0 <= ms < 60000 ==> r == Text.NatToString(ms / 1000) + "s"
    ensures ms < 0 ==> r == Text.IntToString(ms / 1000) + "s"
  {
    var seconds := ms / 1000;
    var minutes := seconds / 60;
    var hours := minutes / 60;
    var days := hours / 24;
    DurationUnits(ms);
    if days > 0 then Text.IntToString(days) + "d " + Text.IntToString(hours % 24) + "h"
    else if hours > 0 then Text.IntToString(hours) + "h " + Text.IntToString(minutes % 60) + "m"
    else if minutes > 0 then Text.IntToString(minutes) + "m " + Text.IntToString(seconds % 60) + "s"
    else Text.IntToString(seconds) + "s"
  }

  /** The chained floor divisions of a non-negative duration, in closed form. */
  lemma DurationUnits(ms: int)
    ensures ms >= 0 ==>
      && ms / 1000 / 60 == ms / 60000
      && ms / 1000 / 60 / 60 == ms / 3600000
      && ms / 1000 / 60 / 60 / 24 == ms / 86400000
      && ms / 1000 % 60 == ms % 60000 / 1000
      && ms / 1000 / 60 % 60 == ms % 3600000 / 60000
      && ms / 1000 / 60 / 60 % 24 == ms % 86400000 / 3600000
      && (ms / 86400000 > 0 <==> ms >= 86400000)
      && (ms / 3600000 > 0 <==> ms >= 3600000)
      && (ms / 60000 > 0 <==> ms >= 60000)
    ensures ms < 0 ==> ms / 1000 / 60 / 60 / 24 < 0 && ms / 1000 / 60 / 60 < 0 && ms / 1000 / 60 < 0
  {
    if ms >= 0 {
      Arith.DivDiv(ms, 1000, 60);
      Arith.DivDiv(ms, 60000, 60);
      Arith.DivDiv(ms, 3600000, 24);
      Arith.DivBelow(ms, 86400000, 1);
      Arith.DivBelow(ms, 3600000, 1);
      Arith.DivBelow(ms, 60000, 1);
    }
  }
}
