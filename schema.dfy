/** The CV document, its loosely typed JSON form, and the validator that the zod
    schemas of the shared schema file define: a predicate over the document plus a
    normaliser that fills in defaults for missing lists and for `isCurrent`. */
module Schema {
  import opened Wrappers

  /** A JSON value as `JSON.parse` produces it. Numbers are kept as integers:
      the validator only ever asks whether a value is a number at all. */
  datatype Json =
    | JNull
    | JBool(b: bool)
    | JNum(n: int)
    | JStr(s: string)
    | JArr(items: seq<Json>)
    | JObj(fields: map<string, Json>)

  datatype PersonalInfo = PersonalInfo(
    fullName: string, title: string, email: string, phone: string, location: string,
    summary: Option<string>)

  datatype Experience = Experience(
    jobTitle: string, company: string, startDate: string, endDate: Option<string>,
    isCurrent: bool, description: string)

  datatype Education = Education(
    institution: string, degree: string, field: string, startDate: string,
    endDate: Option<string>, isCurrent: bool, gpa: Option<string>)

  /** The level is a string at run time; the schema restricts it to `SKILL_LEVELS`. */
  datatype Skill = Skill(name: string, level: string, category: string)

  datatype CvData = CvData(
    personalInfo: PersonalInfo, experiences: seq<Experience>, education: seq<Education>,
    skills: seq<Skill>)

  /** A step of the path to the offending value inside the input. */
  datatype PathStep = Key(name: string) | Index(i: nat)
  type Path = seq<PathStep>

  /** A rejected input: where the first violation is and the schema's message for it. */
  datatype Issue = Issue(path: Path, message: string)

  /** The skill levels the enum admits, in declaration order. */
  const SKILL_LEVELS: seq<string> := ["beginner", "intermediate", "advanced", "expert"]

  /** Column defaults of the `cv_sessions` and `payments` tables. */
  const DEFAULT_STEP: string := "personal-info"
  const DEFAULT_CURRENCY: string := "usd"

  /** The shape of an e-mail address: one `@` with a non-empty local part before it
      and a dotted domain after it. */
  predicate EmailParts(local: string, domain: string) {
    && local != [] && domain != []
    && '@' !in local && '@' !in domain
    && '.' in domain && domain[0] != '.' && domain[|domain| - 1] != '.'
  }

  predicate IsEmail(s: string) {
    exists k | 0 <= k < |s| :: s[k] == '@' && EmailParts(s[..k], s[k + 1..])
  }

  lemma EmptyIsNotEmail()
    ensures !IsEmail("")
  {
  }

  // ---------------------------------------------------------------------------
  // The schema as a predicate over the typed document

  predicate ValidPersonalInfo(p: PersonalInfo) {
    p.fullName != "" && p.title != "" && IsEmail(p.email) && p.phone != "" && p.location != ""
  }

  predicate ValidExperience(e: Experience) {
    e.jobTitle != "" && e.company != "" && e.startDate != "" && e.description != ""
  }

  predicate ValidEducation(e: Education) {
    e.institution != "" && e.degree != "" && e.field != "" && e.startDate != ""
  }

  predicate ValidSkill(s: Skill) {
    s.name != "" && s.level in SKILL_LEVELS && s.category != ""
  }

  predicate ValidCvData(d: CvData) {
    && ValidPersonalInfo(d.personalInfo)
    && (forall i | 0 <= i < |d.experiences| :: ValidExperience(d.experiences[i]))
    && (forall i | 0 <= i < |d.education| :: ValidEducation(d.education[i]))
    && (forall i | 0 <= i < |d.skills| :: ValidSkill(d.skills[i]))
  }

  /** The document a new session starts with: five empty strings, an empty summary
      and three empty lists. */
  function EmptyCvData(): (d: CvData)
    ensures d.personalInfo.summary == Some("")
    ensures d.experiences == [] && d.education == [] && d.skills == []
  {
    CvData(PersonalInfo("", "", "", "", "", Some("")), [], [], [])
  }

  // ---------------------------------------------------------------------------
  // Field readers: one per kind of zod field used by the schemas

  function Lookup(m: map<string, Json>, k: string): Option<Json> {
    if k in m then Some(m[k]) else None
  }

  /** `z.string().min(1, message)`. */
  function RequiredString(m: map<string, Json>, k: string, path: Path, message: string): (r: Result<string, Issue>)
    ensures r.Ok? <==> k in m && m[k].JStr? && m[k].s != ""
    ensures r.Ok? ==> m[k] == JStr(r.value)
  {
    match Lookup(m, k)
    case None => Err(Issue(path + [Key(k)], "Required"))
    case Some(JStr(s)) => if s != "" then Ok(s) else Err(Issue(path + [Key(k)], message))
    case Some(_) => Err(Issue(path + [Key(k)], "Expected string"))
  }

  /** `z.string().email(message)`. */
  function EmailString(m: map<string, Json>, k: string, path: Path, message: string): (r: Result<string, Issue>)
    ensures r.Ok? <==> k in m && m[k].JStr? && IsEmail(m[k].s)
    ensures r.Ok? ==> m[k] == JStr(r.value)
  {
    match Lookup(m, k)
    case None => Err(Issue(path + [Key(k)], "Required"))
    case Some(JStr(s)) => if IsEmail(s) then Ok(s) else Err(Issue(path + [Key(k)], message))
    case Some(_) => Err(Issue(path + [Key(k)], "Expected string"))
  }

  /** `z.string().optional()`: a missing key gives `None`; `null` is not accepted. */
  function OptionalString(m: map<string, Json>, k: string, path: Path): (r: Result<Option<string>, Issue>)
    ensures r.Ok? <==> k !in m || m[k].JStr?
    ensures r == Ok(None) <==> k !in m
    ensures r.Ok? && r.value.Some? ==> m[k] == JStr(r.value.value)
  {
    match Lookup(m, k)
    case None => Ok(None)
    case Some(JStr(s)) => Ok(Some(s))
    case Some(_) => Err(Issue(path + [Key(k)], "Expected string"))
  }

  /** `z.boolean().default(false)`: a missing key gives `false`. */
  function BooleanDefaultFalse(m: map<string, Json>, k: string, path: Path): (r: Result<bool, Issue>)
    ensures r.Ok? <==> k !in m || m[k].JBool?
    ensures k !in m ==> r == Ok(false)
    ensures k in m && r.Ok? ==> m[k] == JBool(r.value)
  {
    match Lookup(m, k)
    case None => Ok(false)
    case Some(JBool(b)) => Ok(b)
    case Some(_) => Err(Issue(path + [Key(k)], "Expected boolean"))
  }

  /** `z.enum(SKILL_LEVELS)`. */
  function LevelEnum(m: map<string, Json>, k: string, path: Path): (r: Result<string, Issue>)
    ensures r.Ok? <==> k in m && m[k].JStr? && m[k].s in SKILL_LEVELS
    ensures r.Ok? ==> m[k] == JStr(r.value)
  {
    match Lookup(m, k)
    case None => Err(Issue(path + [Key(k)], "Required"))
    case Some(JStr(s)) => if s in SKILL_LEVELS then Ok(s) else Err(Issue(path + [Key(k)], "Invalid enum value"))
    case Some(_) => Err(Issue(path + [Key(k)], "Invalid enum value"))
  }

  // ---------------------------------------------------------------------------
  // The object schemas

  /** `personalInfoSchema`. */
  function ValidatePersonalInfo(j: Json, path: Path): (r: Result<PersonalInfo, Issue>)
    ensures r.Ok? ==> ValidPersonalInfo(r.value)
  {
    match j
    case JObj(m) =>
      var fullName :- RequiredString(m, "fullName", path, "Full name is required");
      var title :- RequiredString(m, "title", path, "Title is required");
      var email :- EmailString(m, "email", path, "Valid email is required");
      var phone :- RequiredString(m, "phone", path, "Phone number is required");
      var location :- RequiredString(m, "location", path, "Location is required");
      var summary :- OptionalString(m, "summary", path);
      Ok(PersonalInfo(fullName, title, email, phone, location, summary))
    case _ => Err(Issue(path, "Expected object"))
  }

  /** `experienceSchema`. */
  function ValidateExperience(j: Json, path: Path): (r: Result<Experience, Issue>)
    ensures r.Ok? ==> ValidExperience(r.value)
  {
    match j
    case JObj(m) =>
      var jobTitle :- RequiredString(m, "jobTitle", path, "Job title is required");
      var company :- RequiredString(m, "company", path, "Company name is required");
      var startDate :- RequiredString(m, "startDate", path, "Start date is required");
      var endDate :- OptionalString(m, "endDate", path);
      var isCurrent :- BooleanDefaultFalse(m, "isCurrent", path);
      var description :- RequiredString(m, "description", path, "Description is required");
      Ok(Experience(jobTitle, company, startDate, endDate, isCurrent, description))
    case _ => Err(Issue(path, "Expected object"))
  }

  /** `educationSchema`. */
  function ValidateEducation(j: Json, path: Path): (r: Result<Education, Issue>)
    ensures r.Ok? ==> ValidEducation(r.value)
  {
    match j
    case JObj(m) =>
      var institution :- RequiredString(m, "institution", path, "Institution is required");
      var degree :- RequiredString(m, "degree", path, "Degree is required");
      var field :- RequiredString(m, "field", path, "Field of study is required");
      var startDate :- RequiredString(m, "startDate", path, "Start date is required");
      var endDate :- OptionalString(m, "endDate", path);
      var isCurrent :- BooleanDefaultFalse(m, "isCurrent", path);
      var gpa :- OptionalString(m, "gpa", path);
      Ok(Education(institution, degree, field, startDate, endDate, isCurrent, gpa))
    case _ => Err(Issue(path, "Expected object"))
  }

  /** `skillSchema`. */
  function ValidateSkill(j: Json, path: Path): (r: Result<Skill, Issue>)
    ensures r.Ok? ==> ValidSkill(r.value)
  {
    match j
    case JObj(m) =>
      var name :- RequiredString(m, "name", path, "Skill name is required");
      var level :- LevelEnum(m, "level", path);
      var category :- RequiredString(m, "category", path, "Category is required");
      Ok(Skill(name, level, category))
    case _ => Err(Issue(path, "Expected object"))
  }

  /** `z.array(schema)` over the elements `items`, the first of which sits at index
      `from` of the array: accepted iff every element is, keeping the order. */
  function ValidateItems<T>(items: seq<Json>, check: (Json, Path) -> Result<T, Issue>, path: Path, from: nat)
    : (r: Result<seq<T>, Issue>)
    ensures r.Ok? <==> forall i | 0 <= i < |items| :: check(items[i], path + [Index(from + i)]).Ok?
    ensures r.Ok? ==> |r.value| == |items|
    ensures r.Ok? ==> forall i | 0 <= i < |items| :: check(items[i], path + [Index(from + i)]) == Ok(r.value[i])
    decreases |items|
  {
    if items == [] then Ok([])
    else
      var head :- check(items[0], path + [Index(from)]);
      var tail :- ValidateItems(items[1..], check, path, from + 1);
      assert forall i | 1 <= i < |items| :: items[i] == items[1..][i - 1] && from + i == from + 1 + (i - 1);
      Ok([head] + tail)
  }

  /** `z.array(schema).default([])` under key `k`: a missing key gives `[]`. */
  function ArrayDefaultEmpty<T>(m: map<string, Json>, k: string, check: (Json, Path) -> Result<T, Issue>)
    : (r: Result<seq<T>, Issue>)
    ensures k !in m ==> r == Ok([])
    ensures k in m && r.Ok? ==> m[k].JArr?
    ensures k in m && m[k].JArr? ==> r == ValidateItems(m[k].items, check, [Key(k)], 0)
  {
    match Lookup(m, k)
    case None => Ok([])
    case Some(JArr(items)) => ValidateItems(items, check, [Key(k)], 0)
    case Some(_) => Err(Issue([Key(k)], "Expected array"))
  }

  /** The `experiences` key of `cvDataSchema`. */
  function ExperiencesField(m: map<string, Json>): (r: Result<seq<Experience>, Issue>)
    ensures r == ArrayDefaultEmpty(m, "experiences", ValidateExperience)
    ensures r.Ok? ==> forall i | 0 <= i < |r.value| :: ValidExperience(r.value[i])
  {
    var r := ArrayDefaultEmpty(m, "experiences", ValidateExperience);
    if r.Ok? && "experiences" in m then
      ExperienceItemsValid(m["experiences"].items, [Key("experiences")], r.value);
      r
    else r
  }

  lemma ExperienceItemsValid(items: seq<Json>, path: Path, xs: seq<Experience>)
    requires ValidateItems(items, ValidateExperience, path, 0) == Ok(xs)
    ensures forall i | 0 <= i < |xs| :: ValidExperience(xs[i])
  {
    forall i | 0 <= i < |xs| ensures ValidExperience(xs[i]) {
      assert ValidateExperience(items[i], path + [Index(0 + i)]) == Ok(xs[i]);
    }
  }

  /** The `education` key of `cvDataSchema`. */
  function EducationField(m: map<string, Json>): (r: Result<seq<Education>, Issue>)
    ensures r == ArrayDefaultEmpty(m, "education", ValidateEducation)
    ensures r.Ok? ==> forall i | 0 <= i < |r.value| :: ValidEducation(r.value[i])
  {
    var r := ArrayDefaultEmpty(m, "education", ValidateEducation);
    if r.Ok? && "education" in m then
      EducationItemsValid(m["education"].items, [Key("education")], r.value);
      r
    else r
  }

  lemma EducationItemsValid(items: seq<Json>, path: Path, xs: seq<Education>)
    requires ValidateItems(items, ValidateEducation, path, 0) == Ok(xs)
    ensures forall i | 0 <= i < |xs| :: ValidEducation(xs[i])
  {
    forall i | 0 <= i < |xs| ensures ValidEducation(xs[i]) {
      assert ValidateEducation(items[i], path + [Index(0 + i)]) == Ok(xs[i]);
    }
  }

  /** The `skills` key of `cvDataSchema`. */
  function SkillsField(m: map<string, Json>): (r: Result<seq<Skill>, Issue>)
    ensures r == ArrayDefaultEmpty(m, "skills", ValidateSkill)
    ensures r.Ok? ==> forall i | 0 <= i < |r.value| :: ValidSkill(r.value[i])
  {
    var r := ArrayDefaultEmpty(m, "skills", ValidateSkill);
    if r.Ok? && "skills" in m then
      SkillItemsValid(m["skills"].items, [Key("skills")], r.value);
      r
    else r
  }

  lemma SkillItemsValid(items: seq<Json>, path: Path, xs: seq<Skill>)
    requires ValidateItems(items, ValidateSkill, path, 0) == Ok(xs)
    ensures forall i | 0 <= i < |xs| :: ValidSkill(xs[i])
  {
    forall i | 0 <= i < |xs| ensures ValidSkill(xs[i]) {
      assert ValidateSkill(items[i], path + [Index(0 + i)]) == Ok(xs[i]);
    }
  }

  /** The `personalInfo` key of `cvDataSchema`: required. */
  function PersonalInfoField(m: map<string, Json>): (r: Result<PersonalInfo, Issue>)
    ensures "personalInfo" !in m ==> r == Err(Issue([Key("personalInfo")], "Required"))
    ensures "personalInfo" in m ==> r == ValidatePersonalInfo(m["personalInfo"], [Key("personalInfo")])
  {
    match Lookup(m, "personalInfo")
    case None => Err(Issue([Key("personalInfo")], "Required"))
    case Some(p) => ValidatePersonalInfo(p, [Key("personalInfo")])
  }

  /** `cvDataSchema.parse`: the validated, normalised document or the first issue. */
  function ValidateCvData(j: Json): (r: Result<CvData, Issue>)
    ensures r.Ok? ==> ValidCvData(r.value)
  {
    match j
    case JObj(m) =>
      var personalInfo :- PersonalInfoField(m);
      var experiences :- ExperiencesField(m);
      var education :- EducationField(m);
      var skills :- SkillsField(m);
      Ok(CvData(personalInfo, experiences, education, skills))
    case _ => Err(Issue([], "Expected object"))
  }

  // ---------------------------------------------------------------------------
  // Serialisation of the typed document (what `JSON.stringify` would give)

  function OptionalEntry(k: string, o: Option<string>): map<string, Json> {
    if o.Some? then map[k := JStr(o.value)] else map[]
  }

  function EncodePersonalInfo(p: PersonalInfo): Json {
    JObj(map["fullName" := JStr(p.fullName), "title" := JStr(p.title), "email" := JStr(p.email),
             "phone" := JStr(p.phone), "location" := JStr(p.location)]
         + OptionalEntry("summary", p.summary))
  }

  function EncodeExperience(e: Experience): Json {
    JObj(map["jobTitle" := JStr(e.jobTitle), "company" := JStr(e.company),
             "startDate" := JStr(e.startDate), "isCurrent" := JBool(e.isCurrent),
             "description" := JStr(e.description)]
         + OptionalEntry("endDate", e.endDate))
  }

  function EncodeEducation(e: Education): Json {
    JObj(map["institution" := JStr(e.institution), "degree" := JStr(e.degree),
             "field" := JStr(e.field), "startDate" := JStr(e.startDate),
             "isCurrent" := JBool(e.isCurrent)]
         + OptionalEntry("endDate", e.endDate) + OptionalEntry("gpa", e.gpa))
  }

  function EncodeSkill(s: Skill): Json {
    JObj(map["name" := JStr(s.name), "level" := JStr(s.level), "category" := JStr(s.category)])
  }

  function EncodeExperiences(xs: seq<Experience>): (r: seq<Json>)
    ensures |r| == |xs| && forall i | 0 <= i < |xs| :: r[i] == EncodeExperience(xs[i])
  {
    seq(|xs|, i requires 0 <= i < |xs| => EncodeExperience(xs[i]))
  }

  function EncodeEducations(xs: seq<Education>): (r: seq<Json>)
    ensures |r| == |xs| && forall i | 0 <= i < |xs| :: r[i] == EncodeEducation(xs[i])
  {
    seq(|xs|, i requires 0 <= i < |xs| => EncodeEducation(xs[i]))
  }

  function EncodeSkills(xs: seq<Skill>): (r: seq<Json>)
    ensures |r| == |xs| && forall i | 0 <= i < |xs| :: r[i] == EncodeSkill(xs[i])
  {
    seq(|xs|, i requires 0 <= i < |xs| => EncodeSkill(xs[i]))
  }

  function EncodeCvData(d: CvData): Json {
    JObj(map[
      "personalInfo" := EncodePersonalInfo(d.personalInfo),
      "experiences" := JArr(EncodeExperiences(d.experiences)),
      "education" := JArr(EncodeEducations(d.education)),
      "skills" := JArr(EncodeSkills(d.skills))])
  }

  // ---------------------------------------------------------------------------
  // Round trips: a typed value is accepted iff the schema predicate holds, and
  // then it comes back unchanged

  lemma PersonalInfoRoundTrip(p: PersonalInfo, path: Path)
    ensures ValidatePersonalInfo(EncodePersonalInfo(p), path).Ok? <==> ValidPersonalInfo(p)
    ensures ValidPersonalInfo(p) ==> ValidatePersonalInfo(EncodePersonalInfo(p), path) == Ok(p)
  {
    var m := EncodePersonalInfo(p).fields;
    assert m["fullName"] == JStr(p.fullName) && m["title"] == JStr(p.title);
    assert m["email"] == JStr(p.email) && m["phone"] == JStr(p.phone) && m["location"] == JStr(p.location);
    assert p.summary.Some? ==> m["summary"] == JStr(p.summary.value);
    assert p.summary.None? ==> "summary" !in m;
  }

  lemma ExperienceRoundTrip(e: Experience, path: Path)
    ensures ValidateExperience(EncodeExperience(e), path).Ok? <==> ValidExperience(e)
    ensures ValidExperience(e) ==> ValidateExperience(EncodeExperience(e), path) == Ok(e)
  {
    var m := EncodeExperience(e).fields;
    assert m["jobTitle"] == JStr(e.jobTitle) && m["company"] == JStr(e.company);
    assert m["startDate"] == JStr(e.startDate) && m["description"] == JStr(e.description);
    assert m["isCurrent"] == JBool(e.isCurrent);
    assert e.endDate.Some? ==> m["endDate"] == JStr(e.endDate.value);
    assert e.endDate.None? ==> "endDate" !in m;
  }

  lemma EducationRoundTrip(e: Education, path: Path)
    ensures ValidateEducation(EncodeEducation(e), path).Ok? <==> ValidEducation(e)
    ensures ValidEducation(e) ==> ValidateEducation(EncodeEducation(e), path) == Ok(e)
  {
    var m := EncodeEducation(e).fields;
    assert m["institution"] == JStr(e.institution) && m["degree"] == JStr(e.degree);
    assert m["field"] == JStr(e.field) && m["startDate"] == JStr(e.startDate);
    assert m["isCurrent"] == JBool(e.isCurrent);
    assert e.endDate.Some? ==> m["endDate"] == JStr(e.endDate.value);
    assert e.endDate.None? ==> "endDate" !in m;
    assert e.gpa.Some? ==> m["gpa"] == JStr(e.gpa.value);
    assert e.gpa.None? ==> "gpa" !in m;
  }

  lemma SkillRoundTrip(s: Skill, path: Path)
    ensures ValidateSkill(EncodeSkill(s), path).Ok? <==> ValidSkill(s)
    ensures ValidSkill(s) ==> ValidateSkill(EncodeSkill(s), path) == Ok(s)
  {
    var m := EncodeSkill(s).fields;
    assert m["name"] == JStr(s.name) && m["level"] == JStr(s.level) && m["category"] == JStr(s.category);
  }

  lemma ExperiencesRoundTrip(xs: seq<Experience>, path: Path)
    ensures var items := EncodeExperiences(xs);
      && (ValidateItems(items, ValidateExperience, path, 0).Ok? <==> forall i | 0 <= i < |xs| :: ValidExperience(xs[i]))
      && ((forall i | 0 <= i < |xs| :: ValidExperience(xs[i])) ==> ValidateItems(items, ValidateExperience, path, 0) == Ok(xs))
  {
    var items := EncodeExperiences(xs);
    forall i | 0 <= i < |xs|
      ensures ValidateExperience(items[i], path + [Index(0 + i)]).Ok? <==> ValidExperience(xs[i])
      ensures ValidExperience(xs[i]) ==> ValidateExperience(items[i], path + [Index(0 + i)]) == Ok(xs[i])
    {
      ExperienceRoundTrip(xs[i], path + [Index(0 + i)]);
    }
    var r := ValidateItems(items, ValidateExperience, path, 0);
    if r.Ok? {
      assert forall i | 0 <= i < |xs| :: r.value[i] == xs[i];
      assert r.value == xs;
    }
  }

  lemma EducationRoundTripAll(xs: seq<Education>, path: Path)
    ensures var items := EncodeEducations(xs);
      && (ValidateItems(items, ValidateEducation, path, 0).Ok? <==> forall i | 0 <= i < |xs| :: ValidEducation(xs[i]))
      && ((forall i | 0 <= i < |xs| :: ValidEducation(xs[i])) ==> ValidateItems(items, ValidateEducation, path, 0) == Ok(xs))
  {
    var items := EncodeEducations(xs);
    forall i | 0 <= i < |xs|
      ensures ValidateEducation(items[i], path + [Index(0 + i)]).Ok? <==> ValidEducation(xs[i])
      ensures ValidEducation(xs[i]) ==> ValidateEducation(items[i], path + [Index(0 + i)]) == Ok(xs[i])
    {
      EducationRoundTrip(xs[i], path + [Index(0 + i)]);
    }
    var r := ValidateItems(items, ValidateEducation, path, 0);
    if r.Ok? {
      assert forall i | 0 <= i < |xs| :: r.value[i] == xs[i];
      assert r.value == xs;
    }
  }

  lemma SkillsRoundTrip(xs: seq<Skill>, path: Path)
    ensures var items := EncodeSkills(xs);
      && (ValidateItems(items, ValidateSkill, path, 0).Ok? <==> forall i | 0 <= i < |xs| :: ValidSkill(xs[i]))
      && ((forall i | 0 <= i < |xs| :: ValidSkill(xs[i])) ==> ValidateItems(items, ValidateSkill, path, 0) == Ok(xs))
  {
    var items := EncodeSkills(xs);
    forall i | 0 <= i < |xs|
      ensures ValidateSkill(items[i], path + [Index(0 + i)]).Ok? <==> ValidSkill(xs[i])
      ensures ValidSkill(xs[i]) ==> ValidateSkill(items[i], path + [Index(0 + i)]) == Ok(xs[i])
    {
      SkillRoundTrip(xs[i], path + [Index(0 + i)]);
    }
    var r := ValidateItems(items, ValidateSkill, path, 0);
    if r.Ok? {
      assert forall i | 0 <= i < |xs| :: r.value[i] == xs[i];
      assert r.value == xs;
    }
  }

  /** `ValidateCvData` on an object combines the results of its four keys in order. */
  function Combine(p: Result<PersonalInfo, Issue>, e: Result<seq<Experience>, Issue>,
                   f: Result<seq<Education>, Issue>, s: Result<seq<Skill>, Issue>): Result<CvData, Issue>
  {
    if p.Err? then Err(p.error) else if e.Err? then Err(e.error) else if f.Err? then Err(f.error)
    else if s.Err? then Err(s.error) else Ok(CvData(p.value, e.value, f.value, s.value))
  }

  lemma ValidateCvDataUnfold(m: map<string, Json>)
    ensures ValidateCvData(JObj(m)) == Combine(PersonalInfoField(m), ExperiencesField(m), EducationField(m), SkillsField(m))
  {
  }

  lemma ExperiencesFieldRoundTrip(d: CvData)
    ensures ExperiencesField(EncodeCvData(d).fields).Ok? <==> forall i | 0 <= i < |d.experiences| :: ValidExperience(d.experiences[i])
    ensures (forall i | 0 <= i < |d.experiences| :: ValidExperience(d.experiences[i])) ==> ExperiencesField(EncodeCvData(d).fields) == Ok(d.experiences)
  {
    ExperiencesRoundTrip(d.experiences, [Key("experiences")]);
    assert EncodeCvData(d).fields["experiences"] == JArr(EncodeExperiences(d.experiences));
  }

  lemma EducationFieldRoundTrip(d: CvData)
    ensures EducationField(EncodeCvData(d).fields).Ok? <==> forall i | 0 <= i < |d.education| :: ValidEducation(d.education[i])
    ensures (forall i | 0 <= i < |d.education| :: ValidEducation(d.education[i])) ==> EducationField(EncodeCvData(d).fields) == Ok(d.education)
  {
    EducationRoundTripAll(d.education, [Key("education")]);
    assert EncodeCvData(d).fields["education"] == JArr(EncodeEducations(d.education));
  }

  lemma SkillsFieldRoundTrip(d: CvData)
    ensures SkillsField(EncodeCvData(d).fields).Ok? <==> forall i | 0 <= i < |d.skills| :: ValidSkill(d.skills[i])
    ensures (forall i | 0 <= i < |d.skills| :: ValidSkill(d.skills[i])) ==> SkillsField(EncodeCvData(d).fields) == Ok(d.skills)
  {
    SkillsRoundTrip(d.skills, [Key("skills")]);
    assert EncodeCvData(d).fields["skills"] == JArr(EncodeSkills(d.skills));
  }

  lemma PersonalInfoFieldRoundTrip(d: CvData)
    ensures PersonalInfoField(EncodeCvData(d).fields).Ok? <==> ValidPersonalInfo(d.personalInfo)
    ensures ValidPersonalInfo(d.personalInfo) ==> PersonalInfoField(EncodeCvData(d).fields) == Ok(d.personalInfo)
  {
    PersonalInfoRoundTrip(d.personalInfo, [Key("personalInfo")]);
    assert EncodeCvData(d).fields["personalInfo"] == EncodePersonalInfo(d.personalInfo);
  }

  /** A serialised document is accepted iff it satisfies the schema predicate, and
      an accepted one comes back unchanged. */
  lemma CvDataRoundTrip(d: CvData)
    ensures ValidateCvData(EncodeCvData(d)).Ok? <==> ValidCvData(d)
    ensures ValidCvData(d) ==> ValidateCvData(EncodeCvData(d)) == Ok(d)
  {
    var m := EncodeCvData(d).fields;
    ValidateCvDataUnfold(m);
    PersonalInfoFieldRoundTrip(d);
    ExperiencesFieldRoundTrip(d);
    EducationFieldRoundTrip(d);
    SkillsFieldRoundTrip(d);
  }

  /** Validating the output of a successful validation accepts it unchanged. */
  lemma ValidateIdempotent(j: Json)
    requires ValidateCvData(j).Ok?
    ensures ValidateCvData(EncodeCvData(ValidateCvData(j).value)) == ValidateCvData(j)
  {
    CvDataRoundTrip(ValidateCvData(j).value);
  }

  /** The document a new session starts with is rejected, at its first required field. */
  lemma EmptyCvDataRejected()
    ensures ValidateCvData(EncodeCvData(EmptyCvData()))
         == Err(Issue([Key("personalInfo"), Key("fullName")], "Full name is required"))
    ensures !ValidCvData(EmptyCvData())
  {
    var m := EncodeCvData(EmptyCvData()).fields;
    assert m["personalInfo"] == EncodePersonalInfo(EmptyCvData().personalInfo);
    assert EncodePersonalInfo(EmptyCvData().personalInfo).fields["fullName"] == JStr("");
    assert [Key("personalInfo")] + [Key("fullName")] == [Key("personalInfo"), Key("fullName")];
  }

  /** Missing lists become empty lists. */
  lemma MissingListsDefaultToEmpty(m: map<string, Json>)
    requires ValidateCvData(JObj(m)).Ok?
    ensures "experiences" !in m ==> ValidateCvData(JObj(m)).value.experiences == []
    ensures "education" !in m ==> ValidateCvData(JObj(m)).value.education == []
    ensures "skills" !in m ==> ValidateCvData(JObj(m)).value.skills == []
  {
  }

  /** The document is accepted iff its personal information and every element of each
      present list are accepted; a present list must be an array. */
  lemma CvDataAcceptedIffAllElementsAre(m: map<string, Json>)
    ensures ValidateCvData(JObj(m)).Ok? <==>
      && "personalInfo" in m && ValidatePersonalInfo(m["personalInfo"], [Key("personalInfo")]).Ok?
      && ("experiences" in m ==> m["experiences"].JArr? && forall i | 0 <= i < |m["experiences"].items| ::
            ValidateExperience(m["experiences"].items[i], [Key("experiences"), Index(i)]).Ok?)
      && ("education" in m ==> m["education"].JArr? && forall i | 0 <= i < |m["education"].items| ::
            ValidateEducation(m["education"].items[i], [Key("education"), Index(i)]).Ok?)
      && ("skills" in m ==> m["skills"].JArr? && forall i | 0 <= i < |m["skills"].items| ::
            ValidateSkill(m["skills"].items[i], [Key("skills"), Index(i)]).Ok?)
  {
    assert forall i: nat :: [Key("experiences")] + [Index(0 + i)] == [Key("experiences"), Index(i)];
    assert forall i: nat :: [Key("education")] + [Index(0 + i)] == [Key("education"), Index(i)];
    assert forall i: nat :: [Key("skills")] + [Index(0 + i)] == [Key("skills"), Index(i)];
  }

  /** `personalInfoSchema` accepts an object iff the four required strings are
      non-empty, the e-mail is valid and the summary is absent or a string. */
  lemma PersonalInfoAcceptedIff(j: Json, path: Path)
    ensures ValidatePersonalInfo(j, path).Ok? <==>
      && j.JObj?
      && (forall k | k in ["fullName", "title", "phone", "location"] :: k in j.fields && j.fields[k].JStr? && j.fields[k].s != "")
      && "email" in j.fields && j.fields["email"].JStr? && IsEmail(j.fields["email"].s)
      && ("summary" in j.fields ==> j.fields["summary"].JStr?)
  {
  }

  /** `experienceSchema` accepts an object iff the four required strings are
      non-empty, `endDate` is absent or a string and `isCurrent` is absent or a
      boolean; a missing `isCurrent` becomes `false`. */
  lemma ExperienceAcceptedIff(j: Json, path: Path)
    ensures ValidateExperience(j, path).Ok? <==>
      && j.JObj?
      && (forall k | k in ["jobTitle", "company", "startDate", "description"] :: k in j.fields && j.fields[k].JStr? && j.fields[k].s != "")
      && ("endDate" in j.fields ==> j.fields["endDate"].JStr?)
      && ("isCurrent" in j.fields ==> j.fields["isCurrent"].JBool?)
    ensures ValidateExperience(j, path).Ok? && "isCurrent" !in j.fields ==> !ValidateExperience(j, path).value.isCurrent
  {
  }

  /** `educationSchema` accepts an object iff the four required strings are non-empty
      and the optional fields have the right types; a missing `isCurrent` becomes `false`. */
  lemma EducationAcceptedIff(j: Json, path: Path)
    ensures ValidateEducation(j, path).Ok? <==>
      && j.JObj?
      && (forall k | k in ["institution", "degree", "field", "startDate"] :: k in j.fields && j.fields[k].JStr? && j.fields[k].s != "")
      && ("endDate" in j.fields ==> j.fields["endDate"].JStr?)
      && ("isCurrent" in j.fields ==> j.fields["isCurrent"].JBool?)
      && ("gpa" in j.fields ==> j.fields["gpa"].JStr?)
    ensures ValidateEducation(j, path).Ok? && "isCurrent" !in j.fields ==> !ValidateEducation(j, path).value.isCurrent
  {
  }

  /** `skillSchema` accepts an object iff name and category are non-empty and the
      level is one of the four levels. */
  lemma SkillAcceptedIff(j: Json, path: Path)
    ensures ValidateSkill(j, path).Ok? <==>
      && j.JObj?
      && "name" in j.fields && j.fields["name"].JStr? && j.fields["name"].s != ""
      && "level" in j.fields && j.fields["level"].JStr? && j.fields["level"].s in SKILL_LEVELS
      && "category" in j.fields && j.fields["category"].JStr? && j.fields["category"].s != ""
  {
  }

  /** No cross-field rule: `isCurrent` and the dates never affect acceptance beyond
      `startDate` being non-empty. */
  lemma NoCrossFieldCheck(e: Experience, f: Education, isCurrent: bool, endDate: Option<string>, startDate: string)
    requires startDate != ""
    ensures ValidExperience(e) ==> ValidExperience(e.(isCurrent := isCurrent, endDate := endDate, startDate := startDate))
    ensures ValidEducation(f) ==> ValidEducation(f.(isCurrent := isCurrent, endDate := endDate, startDate := startDate))
  {
  }

  /** A document whose personal info lacks `email` is rejected, and when the two
      fields checked before it are filled in, the issue names exactly that field. */
  lemma MissingEmailReported(d: CvData)
    requires d.personalInfo.fullName != "" && d.personalInfo.title != ""
    ensures var info := JObj(EncodePersonalInfo(d.personalInfo).fields - {"email"});
      ValidateCvData(JObj(EncodeCvData(d).fields["personalInfo" := info])) ==
        Err(Issue([Key("personalInfo"), Key("email")], "Required"))
  {
    var info := JObj(EncodePersonalInfo(d.personalInfo).fields - {"email"});
    var m := EncodeCvData(d).fields["personalInfo" := info];
    assert "email" !in info.fields;
    assert info.fields["fullName"] == JStr(d.personalInfo.fullName);
    assert info.fields["title"] == JStr(d.personalInfo.title);
    var path := [Key("personalInfo")];
    assert m["personalInfo"] == info;
    assert RequiredString(info.fields, "fullName", path, "Full name is required") == Ok(d.personalInfo.fullName);
    assert RequiredString(info.fields, "title", path, "Title is required") == Ok(d.personalInfo.title);
    assert EmailString(info.fields, "email", path, "Valid email is required") == Err(Issue(path + [Key("email")], "Required"));
    assert info.JObj?;
    assert ValidatePersonalInfo(info, path) == Err(Issue(path + [Key("email")], "Required"));
    assert path + [Key("email")] == [Key("personalInfo"), Key("email")];
  }
}
