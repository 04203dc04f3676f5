/** The CV builder hook: the wizard position `(currentStep, currentSubStep)`, the
    working document, the `isProcessing` flag, and the session updates each
    navigation or edit queues for the server. */
module Wizard {
  import opened Wrappers
  import opened Schema
  import opened Steps

  /** The body of one queued `PUT /api/cv-session/:token`: only the keys the caller
      passed are present. */
  datatype Update = Update(cvData: Option<CvData>, currentStep: Option<string>, currentSubStep: Option<string>)

  function StepUpdate(step: string): Update { Update(None, Some(step), None) }
  function SubStepUpdate(subStep: string): Update { Update(None, None, Some(subStep)) }
  function CvDataUpdate(d: CvData): Update { Update(Some(d), None, None) }

  /** `Partial<CvData>` as `updateCvData` receives it: the keys it carries. */
  datatype CvDataPatch = CvDataPatch(
    personalInfo: Option<PersonalInfo>, experiences: Option<seq<Experience>>,
    education: Option<seq<Education>>, skills: Option<seq<Skill>>)

  /** `{ ...cvData, ...updates }`: a shallow merge at the top level. */
  function MergeCvData(d: CvData, patch: CvDataPatch): CvData {
    CvData(
      if patch.personalInfo.Some? then patch.personalInfo.value else d.personalInfo,
      if patch.experiences.Some? then patch.experiences.value else d.experiences,
      if patch.education.Some? then patch.education.value else d.education,
      if patch.skills.Some? then patch.skills.value else d.skills)
  }

  /** Keys not carried by the patch keep their values; carried keys are replaced
      wholesale, so merging the same patch twice changes nothing more. */
  lemma MergeCvDataProperties(d: CvData, patch: CvDataPatch)
    ensures patch.personalInfo.None? ==> MergeCvData(d, patch).personalInfo == d.personalInfo
    ensures patch.experiences.None? ==> MergeCvData(d, patch).experiences == d.experiences
    ensures patch.education.None? ==> MergeCvData(d, patch).education == d.education
    ensures patch.skills.None? ==> MergeCvData(d, patch).skills == d.skills
    ensures patch.personalInfo.Some? ==> MergeCvData(d, patch).personalInfo == patch.personalInfo.value
    ensures patch.experiences.Some? ==> MergeCvData(d, patch).experiences == patch.experiences.value
    ensures patch.education.Some? ==> MergeCvData(d, patch).education == patch.education.value
    ensures patch.skills.Some? ==> MergeCvData(d, patch).skills == patch.skills.value
    ensures MergeCvData(MergeCvData(d, patch), patch) == MergeCvData(d, patch)
    ensures MergeCvData(d, CvDataPatch(None, None, None, None)) == d
  {
  }

  /** The wizard position. */
  datatype Position = Position(step: string, subStep: string)

  const INITIAL: Position := Position("fill-form", "personal-info")

  /** What one navigation call does: the new position, the updates it queues in
      order, and whether it starts the processing timer. */
  datatype Navigation = Navigation(pos: Position, sent: seq<Update>, startsProcessing: bool)

  /** `nextStep`. */
  function Next(p: Position): Navigation {
    if p.step == "fill-form" then
      var i := IndexOf(SUB_STEPS, p.subStep);
      if i < |SUB_STEPS| - 1 then
        Navigation(p.(subStep := SUB_STEPS[i + 1]), [SubStepUpdate(SUB_STEPS[i + 1])], false)
      else
        Navigation(p.(step := "processing"), [StepUpdate("processing")], true)
    else
      var i := IndexOf(STEPS, p.step);
      if i < |STEPS| - 1 then
        Navigation(p.(step := STEPS[i + 1]), [StepUpdate(STEPS[i + 1])], false)
      else
        Navigation(p, [], false)
  }

  /** `previousStep`. */
  function Previous(p: Position): Navigation {
    if p.step == "fill-form" then
      var i := IndexOf(SUB_STEPS, p.subStep);
      if i > 0 then
        Navigation(p.(subStep := SUB_STEPS[i - 1]), [SubStepUpdate(SUB_STEPS[i - 1])], false)
      else
        Navigation(p, [], false)
    else
      var i := IndexOf(STEPS, p.step);
      if i > 0 then
        var prev := STEPS[i - 1];
        if prev == "fill-form" then
          Navigation(Position(prev, "skills"), [StepUpdate(prev), SubStepUpdate("skills")], false)
        else
          Navigation(p.(step := prev), [StepUpdate(prev)], false)
      else
        Navigation(p, [], false)
  }

  /** A session as the client receives it from `GET /api/cv-session/:token`. */
  datatype LoadedSession = LoadedSession(
    sessionToken: string, cvData: CvData, currentStep: string, currentSubStep: string, isPaid: bool)

  class CvBuilder {
    var sessionToken: string
    var session: Option<LoadedSession>
    var currentStep: string
    var currentSubStep: string
    var cvData: CvData
    var isProcessing: bool
    /** Processing timers started and not yet fired. */
    var pendingTimers: nat
    /** Every update queued for the server, oldest first. */
    var sent: seq<Update>

    /** While the processing card shows, a timer that will hide it is pending. */
    ghost predicate Valid()
      reads this
    {
      isProcessing ==> pendingTimers > 0
    }

    function Pos(): Position
      reads this
    {
      Position(currentStep, currentSubStep)
    }

    constructor ()
      ensures Valid()
      ensures Pos() == INITIAL && cvData == EmptyCvData() && !isProcessing
      ensures sessionToken == "" && session == None && pendingTimers == 0 && sent == []
    {
      sessionToken := "";
      session := None;
      currentStep := "fill-form";
      currentSubStep := "personal-info";
      cvData := EmptyCvData();
      isProcessing := false;
      pendingTimers := 0;
      sent := [];
    }

    /** `initializeSession`: the token from `POST /api/cv-session`, or `None` when
        the request failed (the hook then only shows a notification). */
    method InitializeSession(token: Option<string>)
      requires Valid()
      modifies this`sessionToken
      ensures Valid()
      ensures sessionToken == if token.Some? then token.value else old(sessionToken)
    {
      if token.Some? {
        sessionToken := token.value;
      }
    }

    /** The session-load effect: a fetched session overwrites the document, the
        step and the sub-step wholesale. */
    method LoadSession(s: LoadedSession)
      requires Valid()
      modifies this`session, this`cvData, this`currentStep, this`currentSubStep
      ensures Valid()
      ensures session == Some(s) && cvData == s.cvData
      ensures currentStep == s.currentStep && currentSubStep == s.currentSubStep
    {
      session := Some(s);
      cvData := s.cvData;
      currentStep := s.currentStep;
      currentSubStep := s.currentSubStep;
    }

    /** `updateCvData`: merge and queue one update carrying only the merged document. */
    method UpdateCvData(patch: CvDataPatch)
      requires Valid()
      modifies this`cvData, this`sent
      ensures Valid()
      ensures cvData == MergeCvData(old(cvData), patch)
      ensures sent == old(sent) + [CvDataUpdate(cvData)]
    {
      cvData := MergeCvData(cvData, patch);
      sent := sent + [CvDataUpdate(cvData)];
    }

    /** `goToStep`: no validation; queues one update carrying only the step. */
    method GoToStep(step: string)
      requires Valid()
      modifies this`currentStep, this`sent
      ensures Valid()
      ensures currentStep == step && sent == old(sent) + [StepUpdate(step)]
    {
      currentStep := step;
      sent := sent + [StepUpdate(step)];
    }

    /** `goToSubStep`: no validation; queues one update carrying only the sub-step. */
    method GoToSubStep(subStep: string)
      requires Valid()
      modifies this`currentSubStep, this`sent
      ensures Valid()
      ensures currentSubStep == subStep && sent == old(sent) + [SubStepUpdate(subStep)]
    {
      currentSubStep := subStep;
      sent := sent + [SubStepUpdate(subStep)];
    }

    /** `nextStep`; leaving the last sub-step also raises `isProcessing` and starts
        the 3000 ms timer. */
    method NextStep()
      requires Valid()
      modifies this`currentStep, this`currentSubStep, this`sent, this`isProcessing, this`pendingTimers
      ensures Valid()
      ensures Pos() == Next(old(Pos())).pos && sent == old(sent) + Next(old(Pos())).sent
      ensures isProcessing == (old(isProcessing) || Next(old(Pos())).startsProcessing)
      ensures pendingTimers == old(pendingTimers) + if Next(old(Pos())).startsProcessing then 1 else 0
    {
      if currentStep == "fill-form" {
        var i := IndexOf(SUB_STEPS, currentSubStep);
        if i < |SUB_STEPS| - 1 {
          GoToSubStep(SUB_STEPS[i + 1]);
        } else {
          GoToStep("processing");
          isProcessing := true;
          pendingTimers := pendingTimers + 1;
        }
      } else {
        var i := IndexOf(STEPS, currentStep);
        if i < |STEPS| - 1 {
          GoToStep(STEPS[i + 1]);
        }
      }
    }

    /** `previousStep`. */
    method PreviousStep()
      requires Valid()
      modifies this`currentStep, this`currentSubStep, this`sent
      ensures Valid()
      ensures Pos() == Previous(old(Pos())).pos && sent == old(sent) + Previous(old(Pos())).sent
    {
      if currentStep == "fill-form" {
        var i := IndexOf(SUB_STEPS, currentSubStep);
        if i > 0 {
          GoToSubStep(SUB_STEPS[i - 1]);
        }
      } else {
        var i := IndexOf(STEPS, currentStep);
        if i > 0 {
          var prev := STEPS[i - 1];
          if prev == "fill-form" {
            GoToStep(prev);
            GoToSubStep("skills");
          } else {
            GoToStep(prev);
          }
        }
      }
    }

    /** The processing timer fires: the flag drops and the wizard jumps to
        `preview-customize`, wherever it is by then. */
    method ProcessingTimerFires()
      requires Valid() && pendingTimers > 0
      modifies this`currentStep, this`sent, this`isProcessing, this`pendingTimers
      ensures Valid()
      ensures !isProcessing && pendingTimers == old(pendingTimers) - 1
      ensures currentStep == "preview-customize"
      ensures sent == old(sent) + [StepUpdate("preview-customize")]
    {
      pendingTimers := pendingTimers - 1;
      isProcessing := false;
      GoToStep("preview-customize");
    }
  }

  /** A client of the class: from a fresh builder, three `nextStep` calls walk the
      sub-steps, a fourth enters `processing`, and the timer lands on
      `preview-customize`; one `previousStep` from there gives `processing`, and a
      second gives `(fill-form, skills)`. */
  method WalkThrough() returns (b: CvBuilder)
    ensures b.Pos() == Position("fill-form", "skills") && !b.isProcessing
  {
    StepIndices();
    b := new CvBuilder();
    b.NextStep();
    b.NextStep();
    b.NextStep();
    assert b.Pos() == Position("fill-form", "skills") && b.sent ==
      [SubStepUpdate("experience"), SubStepUpdate("education"), SubStepUpdate("skills")];
    b.NextStep();
    assert b.currentStep == "processing" && b.isProcessing && b.pendingTimers == 1;
    b.ProcessingTimerFires();
    assert b.Pos() == Position("preview-customize", "skills") && !b.isProcessing;
    b.PreviousStep();
    assert b.Pos() == Position("processing", "skills");
    b.PreviousStep();
  }

  // ---------------------------------------------------------------------------
  // Properties of the navigation functions

  /** In `fill-form`, before the last sub-step, `nextStep` advances the sub-step by
      exactly one, keeps the step and queues one sub-step update. */
  lemma NextAdvancesSubStep(p: Position)
    requires p.step == "fill-form" && 0 <= IndexOf(SUB_STEPS, p.subStep) < |SUB_STEPS| - 1
    ensures Next(p).pos.step == "fill-form"
    ensures IndexOf(SUB_STEPS, Next(p).pos.subStep) == IndexOf(SUB_STEPS, p.subStep) + 1
    ensures Next(p).sent == [SubStepUpdate(Next(p).pos.subStep)] && !Next(p).startsProcessing
  {
    StepListsDistinct();
    IndexOfDistinct(SUB_STEPS, IndexOf(SUB_STEPS, p.subStep) + 1);
  }

  /** Three `nextStep` calls from the initial position reach `(fill-form, skills)`. */
  lemma ThreeNextsReachSkills()
    ensures Next(Next(Next(INITIAL).pos).pos).pos == Position("fill-form", "skills")
  {
    StepIndices();
  }

  /** `nextStep` at the last sub-step enters `processing` and starts the timer. */
  lemma NextFromSkillsStartsProcessing(subStep: string)
    requires subStep == "skills"
    ensures Next(Position("fill-form", subStep)) ==
      Navigation(Position("processing", subStep), [StepUpdate("processing")], true)
  {
    StepIndices();
  }

  /** Outside `fill-form`, `nextStep` moves to the following step and keeps the
      sub-step; it is a no-op at `preview-customize`, and an unknown step (index -1)
      moves to `fill-form`. */
  lemma NextOutsideFillForm(p: Position)
    requires p.step != "fill-form"
    ensures Next(p).pos.subStep == p.subStep && !Next(p).startsProcessing
    ensures p.step == "processing" ==> Next(p).pos.step == "preview-customize"
    ensures p.step == "preview-customize" ==> Next(p) == Navigation(p, [], false)
    ensures p.step !in STEPS ==> Next(p) == Navigation(p.(step := "fill-form"), [StepUpdate("fill-form")], false)
  {
    StepIndices();
  }

  /** In `fill-form`, `previousStep` moves back one sub-step and is a no-op at
      `personal-info` (and at an unknown sub-step). */
  lemma PreviousInFillForm(p: Position)
    requires p.step == "fill-form"
    ensures IndexOf(SUB_STEPS, p.subStep) <= 0 ==> Previous(p) == Navigation(p, [], false)
    ensures IndexOf(SUB_STEPS, p.subStep) > 0 ==>
      Previous(p).pos.step == "fill-form" &&
      IndexOf(SUB_STEPS, Previous(p).pos.subStep) == IndexOf(SUB_STEPS, p.subStep) - 1
  {
    StepListsDistinct();
    if IndexOf(SUB_STEPS, p.subStep) > 0 {
      IndexOfDistinct(SUB_STEPS, IndexOf(SUB_STEPS, p.subStep) - 1);
    }
  }

  /** `previousStep` from `processing` lands on the last sub-step, queueing the step
      and then the sub-step; from `preview-customize` it gives `processing` with the
      sub-step kept; from an unknown step it does nothing. */
  lemma PreviousOutsideFillForm(p: Position)
    requires p.step != "fill-form"
    ensures p.step == "processing" ==>
      Previous(p) == Navigation(Position("fill-form", "skills"), [StepUpdate("fill-form"), SubStepUpdate("skills")], false)
    ensures p.step == "preview-customize" ==>
      Previous(p) == Navigation(p.(step := "processing"), [StepUpdate("processing")], false)
    ensures p.step !in STEPS ==> Previous(p) == Navigation(p, [], false)
  {
    StepIndices();
  }

  /** Going forward from the last sub-step and back again returns there, not to the
      first sub-step. */
  lemma ForwardThenBackLandsOnLastSubStep()
    ensures Previous(Next(Position("fill-form", "skills")).pos).pos == Position("fill-form", "skills")
    ensures Previous(Previous(Position("preview-customize", "skills")).pos).pos == Position("fill-form", "skills")
  {
    StepIndices();
  }

  /** Every navigation call queues at most two updates, each carrying exactly one
      of the position fields and never the document. */
  lemma NavigationSendsPositionOnly(p: Position)
    ensures forall u | u in Next(p).sent + Previous(p).sent ::
      u.cvData.None? && (u.currentStep.Some? != u.currentSubStep.Some?)
    ensures |Next(p).sent| <= 1 && |Previous(p).sent| <= 2
  {
  }
}
