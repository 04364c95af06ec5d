/** The equation lesson: a cursor over solution steps (`EquationsLesson`, `EquationSteps`). */
module Equations {
  import opened Wrappers

  /** One line of a worked solution; an empty annotation is JavaScript's falsy "". */
  datatype EquationStep = EquationStep(equation: string, annotation: string)

  /** The worked solution of 2x + 5 = 13. */
  const SolutionSteps: seq<EquationStep> := [
    EquationStep("2x + 5 = 13", "Our starting equation"),
    EquationStep("2x + 5 - 5 = 13 - 5", "Subtract 5 from both sides"),
    EquationStep("2x = 8", "Simplify"),
    EquationStep("2x ÷ 2 = 8 ÷ 2", "Divide both sides by 2"),
    EquationStep("x = 4", "Solution!")
  ]

  /** "Previous Step": one step back, never below the first step. */
  function PreviousStep(s: int): (r: int)
    ensures r >= 0
    ensures s >= 1 ==> r == s - 1
    ensures s <= 1 ==> r == 0
  {
    if s - 1 > 0 then s - 1 else 0
  }

  /** "Next Step": one step forward, never past the last step. */
  function NextStep(s: int, len: int): (r: int)
    ensures r <= len - 1
    ensures s + 1 <= len - 1 ==> r == s + 1
    ensures s + 1 >= len - 1 ==> r == len - 1
  {
    if s + 1 < len - 1 then s + 1 else len - 1
  }

  /** From any cursor in [0, len-1], both buttons keep it there and move it by at most one. */
  lemma CursorStaysInRange(s: int, len: int)
    requires 0 <= s < len
    ensures 0 <= PreviousStep(s) < len && s - 1 <= PreviousStep(s) <= s
    ensures 0 <= NextStep(s, len) < len && s <= NextStep(s, len) <= s + 1
    ensures PreviousStep(s) == s <==> s == 0
    ensures NextStep(s, len) == s <==> s == len - 1
  {
  }

  /** How one step is drawn for a cursor position. */
  datatype StepView = StepView(
    equation: string,
    revealed: bool,              // full opacity rather than 0.2
    current: bool,               // highlighted in gold
    annotation: Option<string>)  // the annotation line, when it is drawn

  /** How `EquationSteps` draws each step for a given cursor. */
  function StepViews(steps: seq<EquationStep>, currentStep: int): (vs: seq<StepView>)
    ensures |vs| == |steps|
    ensures forall i :: 0 <= i < |steps| ==> vs[i].equation == steps[i].equation
    ensures forall i :: 0 <= i < |steps| ==> (vs[i].revealed <==> i <= currentStep)
    ensures forall i :: 0 <= i < |steps| ==> (vs[i].current <==> i == currentStep)
    // a step after the cursor never shows its annotation
    ensures forall i :: 0 <= i < |steps| && currentStep < i ==> vs[i].annotation == None
    // a revealed step shows its annotation exactly when it has one
    ensures forall i :: 0 <= i <= currentStep && i < |steps| ==>
              vs[i].annotation == (if steps[i].annotation == "" then None else Some(steps[i].annotation))
  {
    seq(|steps|, i requires 0 <= i < |steps| =>
      StepView(steps[i].equation, i <= currentStep, i == currentStep,
               if steps[i].annotation != "" && i <= currentStep then Some(steps[i].annotation) else None))
  }

  /** The number of revealed steps. */
  function RevealedCount(vs: seq<StepView>): (n: nat)
    ensures n <= |vs|
  {
    if vs == [] then 0 else (if vs[|vs| - 1].revealed then 1 else 0) + RevealedCount(vs[..|vs| - 1])
  }

  /** With the cursor at s in [0, len-1], exactly the first s+1 steps are revealed. */
  lemma {:induction false} RevealedCountIsPrefix(vs: seq<StepView>, s: int)
    requires -1 <= s < |vs|
    requires forall i :: 0 <= i < |vs| ==> (vs[i].revealed <==> i <= s)
    ensures RevealedCount(vs) == s + 1
  {
    if vs != [] {
      var init := vs[..|vs| - 1];
      if s == |vs| - 1 {
        assert forall i :: 0 <= i < |init| ==> (init[i].revealed <==> i <= s - 1) by {
          forall i | 0 <= i < |init| ensures init[i].revealed <==> i <= s - 1 {
            assert init[i] == vs[i];
          }
        }
        RevealedCountIsPrefix(init, s - 1);
      } else {
        assert forall i :: 0 <= i < |init| ==> (init[i].revealed <==> i <= s) by {
          forall i | 0 <= i < |init| ensures init[i].revealed <==> i <= s {
            assert init[i] == vs[i];
          }
        }
        RevealedCountIsPrefix(init, s);
      }
    }
  }

  /** "Next Step" away from the end reveals exactly one more step, with its annotation. */
  lemma NextRevealsOneStep(steps: seq<EquationStep>, s: int)
    requires 0 <= s < |steps| - 1
    ensures RevealedCount(StepViews(steps, NextStep(s, |steps|))) == RevealedCount(StepViews(steps, s)) + 1
    ensures steps[s + 1].annotation != "" ==>
              StepViews(steps, NextStep(s, |steps|))[s + 1].annotation == Some(steps[s + 1].annotation)
    ensures StepViews(steps, s)[s + 1].annotation == None
  {
    RevealedCountIsPrefix(StepViews(steps, s), s);
    RevealedCountIsPrefix(StepViews(steps, s + 1), s + 1);
  }

  class EquationsLesson {
    const steps: seq<EquationStep>
    var currentStep: int

    ghost predicate Valid()
      reads this
    {
      0 <= currentStep < |steps|
    }

    /** The lesson opens on the first step of the worked solution. */
    constructor ()
      ensures Valid() && steps == SolutionSteps && currentStep == 0
    {
      steps := SolutionSteps;
      currentStep := 0;
    }

    /** What the step list shows now. */
    function Views(): seq<StepView>
      reads this
    {
      StepViews(steps, currentStep)
    }

    method Previous()
      requires Valid()
      modifies this
      ensures Valid()
      ensures currentStep == PreviousStep(old(currentStep))
    {
      currentStep := PreviousStep(currentStep);
    }

    method Next()
      requires Valid()
      modifies this
      ensures Valid()
      ensures currentStep == NextStep(old(currentStep), |steps|)
    {
      currentStep := NextStep(currentStep, |steps|);
    }
  }
}
