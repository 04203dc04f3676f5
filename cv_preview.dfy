/** The live preview of the document: which sections show, the name and title
    fallbacks, the date-range label, the truncation of long descriptions on a
    watermarked preview, and skills grouped by category. */
module CvPreview {
  import opened Wrappers
  import opened Schema
  import opened Grouping

  const TRUNCATE_AT: nat := 150
  const ELLIPSIS := "..."
  const PRESENT := "Present"

  /** A description as the preview shows it: cut to its first 150 characters plus
      an ellipsis on a watermarked preview when it is longer than that. */
  function ShownDescription(description: string, watermarked: bool): (r: string)
    ensures watermarked && |description| > TRUNCATE_AT ==>
      |r| == TRUNCATE_AT + 3 && r[..TRUNCATE_AT] == description[..TRUNCATE_AT] && r[TRUNCATE_AT..] == ELLIPSIS
    ensures !(watermarked && |description| > TRUNCATE_AT) ==> r == description
  {
    if |description| > TRUNCATE_AT && watermarked then description[..TRUNCATE_AT] + ELLIPSIS else description
  }

  /** Truncating an already shown description changes nothing more. */
  lemma ShownDescriptionIdempotent(description: string, watermarked: bool)
    ensures ShownDescription(ShownDescription(description, watermarked), watermarked) == ShownDescription(description, watermarked)
  {
    var r := ShownDescription(description, watermarked);
    if watermarked && |description| > TRUNCATE_AT {
      assert r[..TRUNCATE_AT] + ELLIPSIS == r;
    }
  }

  /** The end of a date range: `Present` for a current entry or a falsy end date. */
  function EndLabel(isCurrent: bool, endDate: Option<string>): (r: string)
    ensures r != ""
    ensures isCurrent || endDate.None? || endDate == Some("") ==> r == PRESENT
    ensures r != PRESENT ==> !isCurrent && endDate == Some(r)
    ensures !isCurrent && endDate.Some? && endDate.value != "" ==> r == endDate.value
  {
    if isCurrent then PRESENT
    else if endDate.Some? && endDate.value != "" then endDate.value
    else PRESENT
  }

  function DateRange(startDate: string, isCurrent: bool, endDate: Option<string>): string {
    startDate + " - " + EndLabel(isCurrent, endDate)
  }

  /** Experience and education entries with the same dates get the same label. */
  lemma SameDateRule(e: Experience, f: Education)
    requires e.startDate == f.startDate && e.isCurrent == f.isCurrent && e.endDate == f.endDate
    ensures DateRange(e.startDate, e.isCurrent, e.endDate) == DateRange(f.startDate, f.isCurrent, f.endDate)
  {
  }

  /** `s || fallback` for the heading lines. */
  function OrFallback(s: string, fallback: string): (r: string)
    requires fallback != ""
    ensures r != ""
    ensures s != "" ==> r == s
    ensures s == "" ==> r == fallback
  {
    if s != "" then s else fallback
  }

  // ---------------------------------------------------------------------------
  // The rendered preview

  datatype ExperienceView = ExperienceView(jobTitle: string, company: string, dates: string, description: Option<string>)
  datatype EducationView = EducationView(heading: string, institution: string, gpa: Option<string>, dates: string)
  datatype SkillGroupView = SkillGroupView(category: string, names: seq<string>)

  /** What the preview shows; a section that is `None` is not rendered. */
  datatype Preview = Preview(
    watermarked: bool, name: string, title: string, contacts: seq<string>,
    summary: Option<string>, experiences: Option<seq<ExperienceView>>,
    education: Option<seq<EducationView>>, skills: Option<seq<SkillGroupView>>,
    emptyState: bool)

  function Category(s: Skill): string { s.category }

  /** `{s && ...}`: an optional line shows only when the value is a non-empty string. */
  function ShownIfTruthy(s: Option<string>): (r: Option<string>)
    ensures r.Some? <==> s.Some? && s.value != ""
    ensures r.Some? ==> r == s
  {
    if s.Some? && s.value != "" then s else None
  }

  function ViewExperience(e: Experience, watermarked: bool): ExperienceView {
    ExperienceView(e.jobTitle, e.company, DateRange(e.startDate, e.isCurrent, e.endDate),
                   if e.description != "" then Some(ShownDescription(e.description, watermarked)) else None)
  }

  function ViewEducation(e: Education): EducationView {
    EducationView(e.degree + " in " + e.field, e.institution, ShownIfTruthy(e.gpa),
                  DateRange(e.startDate, e.isCurrent, e.endDate))
  }

  function Names(skills: seq<Skill>): (r: seq<string>)
    ensures |r| == |skills| && forall i | 0 <= i < |skills| :: r[i] == skills[i].name
  {
    seq(|skills|, i requires 0 <= i < |skills| => skills[i].name)
  }

  /** The category groups: one per category in first-appearance order, each listing
      its skills' names in list order. */
  function SkillGroups(skills: seq<Skill>): (r: seq<SkillGroupView>)
    ensures |r| == |Keys(skills, Category)|
    ensures forall i | 0 <= i < |r| ::
      r[i].category == Keys(skills, Category)[i] &&
      r[i].names == Names(Members(skills, Category, Keys(skills, Category)[i]))
  {
    var ks := Keys(skills, Category);
    seq(|ks|, i requires 0 <= i < |ks| => SkillGroupView(ks[i], Names(Members(skills, Category, ks[i]))))
  }

  function Contacts(p: PersonalInfo): seq<string> {
    (if p.email != "" then [p.email] else []) + (if p.phone != "" then [p.phone] else []) +
    (if p.location != "" then [p.location] else [])
  }

  /** Nothing but the empty-state message: no name and no entries at all. */
  predicate IsBlank(d: CvData) {
    d.personalInfo.fullName == "" && |d.experiences| == 0 && |d.education| == 0 && |d.skills| == 0
  }

  function Render(d: CvData, watermarked: bool): (r: Preview)
    ensures r.watermarked == watermarked
    ensures r.name != "" && r.title != ""
    ensures r.summary.Some? <==> d.personalInfo.summary.Some? && d.personalInfo.summary.value != ""
    ensures r.experiences.Some? <==> |d.experiences| > 0
    ensures r.education.Some? <==> |d.education| > 0
    ensures r.skills.Some? <==> |d.skills| > 0
    ensures r.emptyState <==> IsBlank(d)
    ensures r.skills.Some? ==> r.skills.value == SkillGroups(d.skills)
    ensures r.education.Some? ==> |r.education.value| == |d.education|
    ensures r.education.Some? ==> forall i | 0 <= i < |d.education| ::
      (r.education.value[i].gpa.Some? <==> d.education[i].gpa.Some? && d.education[i].gpa.value != "")
  {
    var p := d.personalInfo;
    var ks := Keys(d.skills, Category);
    KeysEmptyIff(d.skills, Category);
    Preview(
      watermarked,
      OrFallback(p.fullName, "Your Name"),
      OrFallback(p.title, "Your Professional Title"),
      Contacts(p),
      ShownIfTruthy(p.summary),
      if |d.experiences| > 0 then
        Some(seq(|d.experiences|, i requires 0 <= i < |d.experiences| => ViewExperience(d.experiences[i], watermarked)))
      else None,
      if |d.education| > 0 then
        Some(seq(|d.education|, i requires 0 <= i < |d.education| => ViewEducation(d.education[i])))
      else None,
      if |ks| > 0 then Some(SkillGroups(d.skills)) else None,
      IsBlank(d))
  }

  /** `skillsByCategory`: the grouping loop over the skills, which yields exactly
      the groups the preview lists. */
  method SkillsByCategory(skills: seq<Skill>) returns (categories: seq<string>, groups: map<string, seq<Skill>>)
    ensures categories == Keys(skills, Category) && Distinct(categories)
    ensures forall k :: k in groups <==> k in categories
    ensures forall k | k in groups :: groups[k] == Members(skills, Category, k)
    ensures |categories| > 0 <==> |skills| > 0
  {
    categories, groups := GroupBy(skills, Category);
    KeysDistinct(skills, Category);
    KeysEmptyIff(skills, Category);
  }

  // ---------------------------------------------------------------------------
  // Properties

  /** Each skill is listed under its own category, every listed skill carries the
      category it is listed under, and the group sizes add up to the skill count. */
  lemma SkillGroupsPartition(skills: seq<Skill>)
    ensures forall i | 0 <= i < |skills| :: skills[i] in Members(skills, Category, skills[i].category)
    ensures forall k, s | s in Members(skills, Category, k) :: s.category == k
    ensures TotalSize(Keys(skills, Category), skills, Category) == |skills|
  {
    forall i | 0 <= i < |skills| ensures skills[i] in Members(skills, Category, skills[i].category) {
      MembersContainElement(skills, Category, i);
    }
    forall k ensures forall s | s in Members(skills, Category, k) :: s.category == k {
      MembersHaveKey(skills, Category, k);
    }
    GroupsPartition(skills, Category);
  }

  /** The empty-state message never shows beside an entry section. */
  lemma EmptyStateExclusive(d: CvData, watermarked: bool)
    ensures Render(d, watermarked).emptyState ==>
      Render(d, watermarked).experiences.None? && Render(d, watermarked).education.None? &&
      Render(d, watermarked).skills.None? && Render(d, watermarked).name == "Your Name"
  {
  }

  /** A new session's document shows the empty state, the fallbacks and no section. */
  lemma EmptyDocumentPreview(watermarked: bool)
    ensures Render(EmptyCvData(), watermarked) ==
      Preview(watermarked, "Your Name", "Your Professional Title", [], None, None, None, None, true)
  {
  }

  /** An unwatermarked preview shows descriptions verbatim; a watermarked one cuts
      only those longer than 150 characters. */
  lemma PaidPreviewVerbatim(e: Experience)
    requires e.description != ""
    ensures ViewExperience(e, false).description == Some(e.description)
    ensures |e.description| <= TRUNCATE_AT ==> ViewExperience(e, true).description == Some(e.description)
  {
  }
}
