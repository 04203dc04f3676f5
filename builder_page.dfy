/** The builder page: a spinner until a session is loaded, then the progress bar,
    the sub-step bar and the form of the current sub-step while filling in the
    form, the import panel on an untouched personal-info step, the preview
    (watermarked while unpaid), the premium panel while unpaid and the processing
    card while processing. */
module BuilderPage {
  import opened Wrappers
  import opened Schema
  import opened Steps
  import opened Wizard
  import ProgressSteps
  import SubSteps
  import CvPreview

  /** The form on the page and the part of the document it edits. */
  datatype Form =
    | PersonalInfoForm(personalInfo: PersonalInfo)
    | ExperienceForm(experiences: seq<Experience>)
    | EducationForm(education: seq<Education>)
    | SkillsForm(skills: seq<Skill>)

  /** `renderCurrentForm`. */
  function CurrentForm(step: string, subStep: string, d: CvData): (f: Option<Form>)
    ensures f.Some? <==> step == "fill-form"
    ensures f == Some(ExperienceForm(d.experiences)) <==> step == "fill-form" && subStep == "experience"
    ensures f == Some(EducationForm(d.education)) <==> step == "fill-form" && subStep == "education"
    ensures f == Some(SkillsForm(d.skills)) <==> step == "fill-form" && subStep == "skills"
    ensures step == "fill-form" && subStep !in ["experience", "education", "skills"] ==>
      f == Some(PersonalInfoForm(d.personalInfo))
  {
    if step != "fill-form" then None
    else if subStep == "experience" then Some(ExperienceForm(d.experiences))
    else if subStep == "education" then Some(EducationForm(d.education))
    else if subStep == "skills" then Some(SkillsForm(d.skills))
    else Some(PersonalInfoForm(d.personalInfo))
  }

  datatype View =
    | Spinner
    | Page(progress: seq<ProgressSteps.StepView>, subSteps: Option<seq<ProgressSteps.StepView>>,
           importPanel: bool, form: Option<Form>, preview: CvPreview.Preview,
           premiumPanel: Option<string>, processingCard: bool)

  /** The page for the hook's state; the premium panel carries the session token. */
  function RenderPage(session: Option<LoadedSession>, step: string, subStep: string, d: CvData, isProcessing: bool): (v: View)
    ensures v.Spinner? <==> session.None?
    ensures v.Page? ==> v.progress == ProgressSteps.ProgressBar(step) && v.form == CurrentForm(step, subStep, d)
    ensures v.Page? ==> (v.subSteps.Some? <==> step == "fill-form")
    ensures v.Page? && v.subSteps.Some? ==> v.subSteps.value == SubSteps.SubStepBar(subStep)
    ensures v.Page? ==>
      (v.importPanel <==> step == "fill-form" && subStep == "personal-info" && d.personalInfo.fullName == "")
    ensures v.Page? ==> v.preview == CvPreview.Render(d, !session.value.isPaid)
    ensures v.Page? ==> (v.preview.watermarked <==> !session.value.isPaid)
    ensures v.Page? ==> (v.premiumPanel.Some? <==> !session.value.isPaid)
    ensures v.Page? && v.premiumPanel.Some? ==> v.premiumPanel.value == session.value.sessionToken
    ensures v.Page? ==> (v.processingCard <==> isProcessing)
  {
    if session.None? then Spinner
    else
      var paid := session.value.isPaid;
      Page(ProgressSteps.ProgressBar(step),
           if step == "fill-form" then Some(SubSteps.SubStepBar(subStep)) else None,
           step == "fill-form" && subStep == "personal-info" && d.personalInfo.fullName == "",
           CurrentForm(step, subStep, d),
           CvPreview.Render(d, !paid),
           if paid then None else Some(session.value.sessionToken),
           isProcessing)
  }

  /** The page the builder's current state shows. */
  function ViewOf(b: CvBuilder): View
    reads b
  {
    RenderPage(b.session, b.currentStep, b.currentSubStep, b.cvData, b.isProcessing)
  }

  // ---------------------------------------------------------------------------
  // Properties

  /** The import panel only ever shows beside the personal-info form. */
  lemma ImportPanelBesidePersonalInfo(s: LoadedSession, step: string, subStep: string, d: CvData, isProcessing: bool)
    ensures RenderPage(Some(s), step, subStep, d, isProcessing).importPanel ==>
      RenderPage(Some(s), step, subStep, d, isProcessing).form == Some(PersonalInfoForm(d.personalInfo))
  {
  }

  /** An unrecognised sub-step inside `fill-form` shows the personal-info form. */
  lemma UnknownSubStepFallsBack(subStep: string, d: CvData)
    requires subStep !in SUB_STEPS
    ensures CurrentForm("fill-form", subStep, d) == Some(PersonalInfoForm(d.personalInfo))
  {
  }

  /** A session reloaded with the step the server stores for a new session
      (`personal-info`, which is a sub-step name) shows no form, no sub-step bar
      and every step pending. */
  lemma ReloadedNewSessionShowsNoForm(s: LoadedSession, subStep: string, d: CvData, isProcessing: bool)
    ensures RenderPage(Some(s), "personal-info", subStep, d, isProcessing).form == None
    ensures RenderPage(Some(s), "personal-info", subStep, d, isProcessing).subSteps == None
    ensures forall i | 0 <= i < |STEPS| ::
      RenderPage(Some(s), "personal-info", subStep, d, isProcessing).progress[i].status == ProgressSteps.Pending
  {
    ProgressSteps.StoredStepAllPending();
  }

  /** The watermark and the premium panel come and go together. */
  lemma WatermarkIffPremium(s: LoadedSession, step: string, subStep: string, d: CvData, isProcessing: bool)
    ensures RenderPage(Some(s), step, subStep, d, isProcessing).preview.watermarked <==>
      RenderPage(Some(s), step, subStep, d, isProcessing).premiumPanel.Some?
  {
  }

  // ---------------------------------------------------------------------------
  // Clicks on the indicators

  /** A click on entry `i` of the progress bar navigates there from anywhere. */
  method ClickStep(b: CvBuilder, i: nat)
    requires b.Valid() && i < |STEPS|
    modifies b
    ensures b.Valid()
    ensures b.currentStep == ProgressSteps.ProgressBar(old(b.currentStep))[i].id
    ensures b.sent == old(b.sent) + [StepUpdate(STEPS[i])]
    ensures b.currentSubStep == old(b.currentSubStep) && b.cvData == old(b.cvData)
  {
    var id := ProgressSteps.ProgressBar(b.currentStep)[i].id;
    b.GoToStep(id);
  }

  /** A click on entry `i` of the sub-step bar navigates there from anywhere. */
  method ClickSubStep(b: CvBuilder, i: nat)
    requires b.Valid() && i < |SUB_STEPS|
    modifies b
    ensures b.Valid()
    ensures b.currentSubStep == SubSteps.SubStepBar(old(b.currentSubStep))[i].id
    ensures b.sent == old(b.sent) + [SubStepUpdate(SUB_STEPS[i])]
    ensures b.currentStep == old(b.currentStep) && b.cvData == old(b.cvData)
  {
    var id := SubSteps.SubStepBar(b.currentSubStep)[i].id;
    b.GoToSubStep(id);
  }

  /** A client of the page: leaving the skills sub-step hides the forms and shows
      the processing card until the timer fires, after which the preview step
      shows neither. */
  method ProcessingFlow(s: LoadedSession) returns (b: CvBuilder)
    ensures ViewOf(b).Page? && ViewOf(b).form == None && !ViewOf(b).processingCard
    ensures b.currentStep == "preview-customize"
  {
    b := new CvBuilder();
    b.LoadSession(s.(currentStep := "fill-form", currentSubStep := "skills"));
    StepIndices();
    b.NextStep();
    assert ViewOf(b).Page? && ViewOf(b).form == None && ViewOf(b).processingCard;
    b.ProcessingTimerFires();
  }
}
