/** The step-by-step scenario levels (IncidentResponse, RansomwareRescue):
    each step offers options, one of them correct; the player's picks are
    kept in an array indexed by step. */
module DecisionTree {
  import opened Wrappers

  /** An option of a step. Its display text is not modelled. */
  datatype Choice = Choice(id: string, correct: bool)

  /** A scenario step. Its description is not modelled. IncidentResponse
      never reads or writes its `completed` flag, and neither does the
      visible part of RansomwareRescue.tsx (lines 1-104). */
  datatype Step = Step(id: int, title: string, options: seq<Choice>, completed: bool)

  /** `options.find(opt => opt.id === value)`: the first option with that
      id, if any. */
  function FindOption(options: seq<Choice>, value: string): (r: Option<Choice>)
    ensures r.None? <==> forall i :: 0 <= i < |options| ==> options[i].id != value
    ensures r.Some? ==> r.value.id == value && r.value in options
  {
    if options == [] then None
    else if options[0].id == value then Some(options[0])
    else FindOption(options[1..], value)
  }

  /** The option found for an id is the first one carrying it. */
  lemma {:induction false} FindOptionIsFirst(options: seq<Choice>, value: string, k: nat)
    requires k < |options| && options[k].id == value
    requires forall j :: 0 <= j < k ==> options[j].id != value
    ensures FindOption(options, value) == Some(options[k])
  {
    if k > 0 {
      FindOptionIsFirst(options[1..], value, k - 1);
    }
  }

  /** Exactly one option is correct. */
  predicate ExactlyOneCorrect(options: seq<Choice>)
  {
    exists k :: 0 <= k < |options| && options[k].correct &&
      forall j :: 0 <= j < |options| && j != k ==> !options[j].correct
  }

  /** Whether a pick (absent in a hole of the array) names a correct option
      of the step: `step.options.find(opt => opt.id === pick)?.correct`. */
  predicate IsCorrectPick(step: Step, pick: Option<string>)
  {
    pick.Some? && FindOption(step.options, pick.value).Some? && FindOption(step.options, pick.value).value.correct
  }

  /** `copy = [...picks]; copy[at] = value`: a JavaScript array write. Writing
      past the end leaves holes (`None`) between the old end and `at`. */
  function Record(picks: seq<Option<string>>, at: nat, value: string): (r: seq<Option<string>>)
    ensures |r| == if at < |picks| then |picks| else at + 1
    ensures r[at] == Some(value)
    ensures forall i :: 0 <= i < |r| && i != at ==> r[i] == if i < |picks| then picks[i] else None
  {
    if at < |picks| then picks[at := Some(value)]
    else picks + seq(at - |picks|, _ => None) + [Some(value)]
  }

  /** `picks.filter((pick, i) => isCorrectPick(steps[i], pick)).length`. The
      filter reads `steps[i]` for every pick, so there are no more picks
      than steps. */
  function CorrectAnswers(steps: seq<Step>, picks: seq<Option<string>>): (n: nat)
    requires |picks| <= |steps|
    ensures n <= |picks|
    ensures n == |picks| <==> forall i :: 0 <= i < |picks| ==> IsCorrectPick(steps[i], picks[i])
  {
    if picks == [] then 0
    else
      var last := |picks| - 1;
      CorrectAnswers(steps, picks[..last]) + (if IsCorrectPick(steps[last], picks[last]) then 1 else 0)
  }

  /** Recording a pick at step `at` keeps every earlier pick, so a prefix
      of correct picks stays correct; when the new pick is correct too, the
      prefix grows by one. */
  lemma RecordKeepsCorrectPrefix(steps: seq<Step>, picks: seq<Option<string>>, at: nat, value: string)
    requires at < |steps| && at <= |picks|
    requires forall i :: 0 <= i < at ==> IsCorrectPick(steps[i], picks[i])
    ensures forall i :: 0 <= i < at ==> IsCorrectPick(steps[i], Record(picks, at, value)[i])
    ensures IsCorrectPick(steps[at], Some(value)) ==>
      forall i :: 0 <= i <= at ==> IsCorrectPick(steps[i], Record(picks, at, value)[i])
  {
  }

  /** When every pick is correct, all of them are counted. */
  lemma AllCorrectCounted(steps: seq<Step>, picks: seq<Option<string>>)
    requires |picks| <= |steps|
    requires forall i :: 0 <= i < |picks| ==> IsCorrectPick(steps[i], picks[i])
    ensures CorrectAnswers(steps, picks) == |picks|
  {
  }
}
