/**
 * The weekly reflection wizard: five questions answered one step at a time,
 * where Next moves on only past a non-blank answer and Complete hands over
 * the answers from the last step.
 */
module Wizard {
  import opened Common
  import opened Text
  import opened Days

  /** The question ids: `ordinance`, `habit`, `mission`, `people`, `commitment`. */
  datatype QuestionId = OrdinanceQ | HabitQ | MissionQ | PeopleQ | CommitmentQ

  /** The questions in step order. */
  const QuestionIds: seq<QuestionId> := [OrdinanceQ, HabitQ, MissionQ, PeopleQ, CommitmentQ]
  const TotalSteps := 5

  lemma QuestionIdsDistinct()
    ensures |QuestionIds| == TotalSteps
    ensures forall i, j :: 0 <= i < j < TotalSteps ==> QuestionIds[i] != QuestionIds[j]
  {
  }

  /** The progress shown at step `i`: `Math.round((i + 1) / 5 * 100)`, exactly 20 per step. */
  function StepProgress(i: int): (p: int)
    requires 0 <= i < TotalSteps
    ensures p == 20 * (i + 1)
    ensures 20 <= p <= 100
    ensures p == 100 <==> i == TotalSteps - 1
  {
    Percent(i + 1, TotalSteps)
  }

  /** The step after Next: one further, capped at the last, and only past a valid answer. */
  function AfterNext(i: int, valid: bool): (j: int)
    requires 0 <= i < TotalSteps
    ensures 0 <= j < TotalSteps
    ensures !valid ==> j == i
    ensures valid && i < TotalSteps - 1 ==> j == i + 1
    ensures valid && i == TotalSteps - 1 ==> j == i
  {
    if valid then Min(TotalSteps - 1, i + 1) else i
  }

  /** The step after Back: one before, never below the first. */
  function AfterBack(i: int): (j: int)
    requires 0 <= i < TotalSteps
    ensures 0 <= j < TotalSteps
    ensures i == 0 ==> j == 0
    ensures i > 0 ==> j == i - 1
  {
    Max(0, i - 1)
  }

  /** Back undoes a successful Next, and Next past a valid answer undoes Back. */
  lemma BackUndoesNext(i: int)
    requires 0 <= i < TotalSteps - 1
    ensures AfterBack(AfterNext(i, true)) == i
    ensures AfterNext(AfterBack(i + 1), true) == i + 1
  {
  }

  /** `responses[id] || ""`. */
  function AnswerIn(responses: map<QuestionId, string>, id: QuestionId): string
  {
    if id in responses then responses[id] else []
  }

  /**
   * A string with a character other than white space: what is left of it
   * after `trim()` is non-empty.
   */
  predicate Filled(s: string)
  {
    exists i :: 0 <= i < |s| && !IsSpace(s[i])
  }

  lemma FilledIffNotBlank(s: string)
    ensures Filled(s) <==> !IsBlank(s)
  {
    BlankIffAllSpace(s);
  }

  /** Every question before step `n` has an answer that is not blank once trimmed. */
  ghost predicate AnsweredBefore(responses: map<QuestionId, string>, n: int)
    requires n <= TotalSteps
  {
    n <= 0 || (AnsweredBefore(responses, n - 1) && Filled(AnswerIn(responses, QuestionIds[n - 1])))
  }

  lemma {:induction false} AnsweredBeforeEach(responses: map<QuestionId, string>, n: int, j: int)
    requires n <= TotalSteps && AnsweredBefore(responses, n) && 0 <= j < n
    ensures Filled(AnswerIn(responses, QuestionIds[j]))
    decreases n
  {
    if j < n - 1 {
      AnsweredBeforeEach(responses, n - 1, j);
    }
  }

  /** Answers the earlier questions share leave the claim about them as it was. */
  lemma {:induction false} AnsweredBeforeKept(r: map<QuestionId, string>, r': map<QuestionId, string>, n: int)
    requires n <= TotalSteps && AnsweredBefore(r, n)
    requires forall j :: 0 <= j < n ==> AnswerIn(r, QuestionIds[j]) == AnswerIn(r', QuestionIds[j])
    ensures AnsweredBefore(r', n)
    decreases n
  {
    if n > 0 {
      AnsweredBeforeKept(r, r', n - 1);
    }
  }

  class ReflectionWizard {
    var stepIndex: int
    var responses: map<QuestionId, string>
    var touched: bool

    /**
     * The step stays in range, and every question before the current step
     * holds a non-blank answer (Next only moves past one, and editing
     * touches only the current question).
     */
    ghost predicate Valid()
      reads this`stepIndex, this`responses
    {
      0 <= stepIndex < TotalSteps && AnsweredBefore(responses, stepIndex)
    }

    function Response(id: QuestionId): string
      reads this`responses
    {
      AnswerIn(responses, id)
    }

    function ActiveId(): QuestionId
      reads this`stepIndex
      requires 0 <= stepIndex < TotalSteps
    {
      QuestionIds[stepIndex]
    }

    /** The current answer, trimmed, is non-empty. */
    predicate CurrentValid()
      reads this`stepIndex, this`responses
      requires 0 <= stepIndex < TotalSteps
    {
      Filled(Response(ActiveId()))
    }

    predicate IsFinalStep()
      reads this`stepIndex
    {
      stepIndex == TotalSteps - 1
    }

    /** The "Please enter a response" hint. */
    predicate ShowsHint()
      reads this`stepIndex, this`responses, this`touched
      requires 0 <= stepIndex < TotalSteps
    {
      touched && !CurrentValid()
    }

    constructor()
      ensures Valid()
      ensures stepIndex == 0 && responses == map[] && !touched
    {
      stepIndex := 0;
      responses := map[];
      touched := false;
    }

    /** Typing into the answer box: only the current question's answer changes. */
    method Edit(text: string)
      requires Valid()
      modifies this`responses
      ensures Valid()
      ensures responses == old(responses)[ActiveId() := text]
      ensures forall id :: id != ActiveId() ==> Response(id) == old(Response(id))
    {
      QuestionIdsDistinct();
      var before := responses;
      responses := responses[ActiveId() := text];
      AnsweredBeforeKept(before, responses, stepIndex);
    }

    /** Leaving the answer box. */
    method Blur()
      requires Valid()
      modifies this`touched
      ensures Valid() && touched
    {
      touched := true;
    }

    method Back()
      requires Valid()
      modifies this`stepIndex, this`touched
      ensures Valid()
      ensures stepIndex == AfterBack(old(stepIndex)) && !touched
    {
      touched := false;
      stepIndex := AfterBack(stepIndex);
    }

    /** Next: past a blank answer it only raises the hint. */
    method Next()
      requires Valid()
      modifies this`stepIndex, this`touched
      ensures Valid()
      ensures stepIndex == AfterNext(old(stepIndex), old(CurrentValid()))
      ensures touched == !old(CurrentValid())
    {
      if !CurrentValid() {
        touched := true;
        return;
      }
      touched := false;
      stepIndex := AfterNext(stepIndex, true);
    }

    /**
     * Complete Reflection: offered on the final step and enabled while its
     * answer is non-blank; it hands over the answers, and then every
     * question has a non-blank answer.
     */
    method Complete() returns (submitted: Option<map<QuestionId, string>>)
      requires Valid()
      ensures submitted.Some? <==> IsFinalStep() && CurrentValid()
      ensures submitted.Some? ==> submitted.value == responses
      ensures submitted.Some? ==> forall j :: 0 <= j < TotalSteps ==> !IsBlank(Response(QuestionIds[j]))
    {
      if IsFinalStep() && CurrentValid() {
        forall j | 0 <= j < TotalSteps
          ensures !IsBlank(Response(QuestionIds[j]))
        {
          AnsweredBeforeEach(responses, TotalSteps, j);
          FilledIffNotBlank(Response(QuestionIds[j]));
        }
      }
      if IsFinalStep() && CurrentValid() {
        submitted := Some(responses);
      } else {
        submitted := None;
      }
    }
  }
}
