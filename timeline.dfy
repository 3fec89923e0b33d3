// The progress timeline of the public service tracker
// (src/components/tracker/Timeline.tsx). Statuses are the strings the database
// holds, so values outside the declared union (such as 'draft') are covered.
module Timeline {
  import opened Wrappers

  /** getCurrentStepIndex */
  function CurrentStepIndex(status: string): (i: nat)
    ensures i <= 2
    ensures i == 1 <==> status == "in_progress"
    ensures i == 2 <==> status == "completed"
  {
    if status == "pending" then 0
    else if status == "in_progress" then 1
    else if status == "completed" then 2
    else 0
  }

  /** The `date` attached to step `index` (0 received, 1 in progress, 2 finished). */
  function StepDate(index: nat, status: string, createdAt: string, updatedAt: string): Option<string>
    requires index < 3
  {
    if index == 0 then Some(createdAt)
    else if index == 1 then
      (if status == "in_progress" || status == "completed" then Some(updatedAt) else None)
    else if status == "completed" then Some(updatedAt) else None
  }

  datatype StepView = StepView(completed: bool, current: bool, shownDate: Option<string>)

  datatype TimelineView = CancelledNotice | Steps(steps: seq<StepView>)

  /** What the component renders. */
  function Render(status: string, createdAt: string, updatedAt: string): (v: TimelineView)
    ensures v.CancelledNotice? <==> status == "cancelled"
    ensures v.Steps? ==> |v.steps| == 3
  {
    if status == "cancelled" then CancelledNotice
    else
      var current := CurrentStepIndex(status);
      Steps(seq(3, i requires 0 <= i < 3 =>
        var completed := i <= current;
        var d := StepDate(i, status, createdAt, updatedAt);
        StepView(completed, i == current,
                 if d.Some? && d.value != "" && completed then d else None)))
  }

  /** Steps up to the current one are completed, the first always; exactly one is current. */
  lemma StepsShape(status: string, createdAt: string, updatedAt: string)
    requires status != "cancelled"
    ensures var s := Render(status, createdAt, updatedAt).steps;
      && (forall i :: 0 <= i < 3 ==> (s[i].completed <==> i <= CurrentStepIndex(status)))
      && s[0].completed
      && (forall i :: 0 <= i < 3 ==> (s[i].current <==> i == CurrentStepIndex(status)))
      && (forall i, j :: 0 <= i < 3 && 0 <= j < 3 && s[i].current && s[j].current ==> i == j)
      && (forall i :: 0 <= i < 3 && s[i].current ==> s[i].completed)
  {
  }

  /** A date is shown on the in-progress step only once work has started, and on the
    * finished step only when finished. */
  lemma StepDates(status: string, createdAt: string, updatedAt: string)
    requires status != "cancelled"
    ensures var s := Render(status, createdAt, updatedAt).steps;
      && (s[1].shownDate.Some? <==> (status == "in_progress" || status == "completed") && updatedAt != "")
      && (s[2].shownDate.Some? <==> status == "completed" && updatedAt != "")
      && (s[0].shownDate.Some? <==> createdAt != "")
  {
  }

  /** A status the switch does not name, such as 'draft', is shown as just received. */
  lemma UnknownStatusIsReceived(createdAt: string, updatedAt: string)
    ensures CurrentStepIndex("draft") == 0
    ensures var s := Render("draft", createdAt, updatedAt).steps;
      s[0].current && !s[1].completed && !s[2].completed
  {
  }
}
