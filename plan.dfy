/** The plan document's data model (internal/plan/types.go): steps, their
    four statuses, the plan, the result of one agent run, and the selection
    of the step to run next. */
module PlanModel {
  import opened Text

  datatype StepStatus = Pending | Completed | Failed | Skipped

  /** The string value of each status constant. */
  function StatusName(s: StepStatus): string {
    match s
    case Pending => "pending"
    case Completed => "completed"
    case Failed => "failed"
    case Skipped => "skipped"
  }

  /** `LastRun` holds the timestamp text in the layout "2006-01-02 15:04:05";
      None stands for the nil pointer. */
  datatype Step = Step(
    number: nat,
    description: string,
    status: StepStatus,
    lastRun: Option<string>,
    notes: string,
    retryCount: nat)

  datatype Plan = Plan(projectName: string, context: string, steps: seq<Step>, rawContent: string)

  /** `status` is the optional explicit status; None stands for the empty
      string, the field's zero value. */
  datatype StepResult = StepResult(
    success: bool,
    output: string,
    reason: string,
    status: Option<StepStatus>,
    retryCount: int)

  /** A step that still needs work. */
  predicate IsRunnable(s: StepStatus) { s == Pending || s == Failed }

  /** The first index at or after `from` whose step is Pending or Failed. */
  function FirstRunnable(steps: seq<Step>, from: nat): (r: Option<nat>)
    requires from <= |steps|
    ensures r.Some? ==> from <= r.value < |steps| && IsRunnable(steps[r.value].status)
    ensures r.Some? ==> forall j :: from <= j < r.value ==> !IsRunnable(steps[j].status)
    ensures r.None? ==> forall j :: from <= j < |steps| ==> !IsRunnable(steps[j].status)
    decreases |steps| - from
  {
    if from == |steps| then None
    else if IsRunnable(steps[from].status) then Some(from)
    else FirstRunnable(steps, from + 1)
  }

  /** NextStep: the index of the first Pending or Failed step, or None when
      every step is Completed or Skipped (which includes the empty plan). */
  function NextStep(p: Plan): (r: Option<nat>)
    ensures r.Some? ==> r.value < |p.steps| && IsRunnable(p.steps[r.value].status)
    ensures r.Some? ==> forall j :: 0 <= j < r.value ==> p.steps[j].status in {Completed, Skipped}
    ensures r.None? <==> forall j :: 0 <= j < |p.steps| ==> p.steps[j].status in {Completed, Skipped}
  {
    FirstRunnable(p.steps, 0)
  }

  /** The loop of IsComplete over the steps from `from` on. */
  function AllDoneFrom(steps: seq<Step>, from: nat): (r: bool)
    requires from <= |steps|
    ensures r <==> forall j :: from <= j < |steps| ==> steps[j].status in {Completed, Skipped}
    decreases |steps| - from
  {
    if from == |steps| then true
    else if steps[from].status != Completed && steps[from].status != Skipped then false
    else AllDoneFrom(steps, from + 1)
  }

  /** IsComplete: true exactly when there are steps and all of them are
      Completed or Skipped. */
  function IsComplete(p: Plan): (r: bool)
    ensures r <==> |p.steps| > 0 && forall j :: 0 <= j < |p.steps| ==> p.steps[j].status in {Completed, Skipped}
    ensures |p.steps| == 0 ==> !r
  {
    AllDoneFrom(p.steps, 0) && |p.steps| > 0
  }

  /** For a plan with steps, being complete and having no next step coincide. */
  lemma CompleteIffNoNextStep(p: Plan)
    requires |p.steps| > 0
    ensures IsComplete(p) <==> NextStep(p).None?
  {}

  /** Selection reads nothing but the statuses: plans whose steps have the
      same statuses, in order, select the same index. */
  lemma SelectionByStatusOnly(p: Plan, q: Plan)
    requires |p.steps| == |q.steps|
    requires forall j :: 0 <= j < |p.steps| ==> p.steps[j].status == q.steps[j].status
    ensures NextStep(p) == NextStep(q)
  {}

  /** Marking the selected step moves the selection on: marked Completed or
      Skipped, the next selection lies past it (or there is none); marked
      Failed or Pending, the same step is selected again. */
  lemma SelectionAfterMark(p: Plan, st: StepStatus)
    requires NextStep(p).Some?
    ensures var i := NextStep(p).value;
      var q := p.(steps := p.steps[i := p.steps[i].(status := st)]);
      && (!IsRunnable(st) ==> NextStep(q).None? || NextStep(q).value > i)
      && (IsRunnable(st) ==> NextStep(q) == Some(i))
  {
    var i := NextStep(p).value;
    var q := p.(steps := p.steps[i := p.steps[i].(status := st)]);
    assert forall j :: 0 <= j < i ==> q.steps[j] == p.steps[j];
    if IsRunnable(st) {
      assert IsRunnable(q.steps[i].status);
    }
  }
}
