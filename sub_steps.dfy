/** The sub-step bar of `fill-form`: the step classification over `SUB_STEPS`,
    where completed and active sub-steps share the filled badge style. */
module SubSteps {
  import opened Wrappers
  import opened Steps
  import opened ProgressSteps

  function SubStepBar(currentSubStep: string): (r: seq<StepView>)
    ensures |r| == |SUB_STEPS| && forall i | 0 <= i < |r| :: r[i].id == SUB_STEPS[i]
  {
    Indicator(SUB_STEPS, currentSubStep)
  }

  /** The badge style: filled unless pending. */
  predicate Filled(v: StepView) {
    v.status != Pending
  }

  /** The filled badges are exactly those up to and including the current sub-step,
      and the highlighted labels are the same ones. */
  lemma FilledUpToCurrent(currentSubStep: string)
    ensures forall i | 0 <= i < |SUB_STEPS| ::
      (Filled(SubStepBar(currentSubStep)[i]) <==> i <= IndexOf(SUB_STEPS, currentSubStep))
    ensures forall i | 0 <= i < |SUB_STEPS| ::
      (Filled(SubStepBar(currentSubStep)[i]) <==> SubStepBar(currentSubStep)[i].highlighted)
  {
  }

  /** On the skills sub-step the three earlier ones are checked off. */
  lemma SkillsChecksEarlier()
    ensures forall i | 0 <= i < 3 :: SubStepBar("skills")[i].badge == Check
    ensures SubStepBar("skills")[3].status == Active && SubStepBar("skills")[3].connector == None
  {
    StepIndices();
  }

  /** Each known sub-step is active exactly in its own entry. */
  lemma CurrentSubStepActive(currentSubStep: string)
    requires currentSubStep in SUB_STEPS
    ensures forall i | 0 <= i < |SUB_STEPS| ::
      (SubStepBar(currentSubStep)[i].status == Active <==> SUB_STEPS[i] == currentSubStep)
  {
    StepListsDistinct();
    ActiveIsCurrent(SUB_STEPS, currentSubStep);
  }
}
