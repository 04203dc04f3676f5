/** The skills step: a draft skill assembled from a text field and two selects, an
    add button guarded by the draft being complete, the list grouped by category
    with each entry tagged by its original index, and removal by that index. */
module SkillsForm {
  import opened Schema
  import opened Grouping
  import opened FieldArray

  datatype LevelOption = LevelOption(value: string, display: string)

  const LEVEL_OPTIONS: seq<LevelOption> := [
    LevelOption("beginner", "Beginner"), LevelOption("intermediate", "Intermediate"),
    LevelOption("advanced", "Advanced"), LevelOption("expert", "Expert")]

  const SKILL_CATEGORIES: seq<string> := [
    "Programming Languages", "Web Development", "Database", "Cloud Services", "DevOps",
    "Design", "Project Management", "Communication", "Languages", "Other"]

  function LevelValues(options: seq<LevelOption>): (r: seq<string>)
    ensures |r| == |options| && forall i | 0 <= i < |options| :: r[i] == options[i].value
  {
    if options == [] then [] else [options[0].value] + LevelValues(options[1..])
  }

  /** The level choices are exactly the schema's levels, in the same order. */
  lemma LevelChoicesAreSchemaLevels()
    ensures LevelValues(LEVEL_OPTIONS) == SKILL_LEVELS
  {
  }

  /** The new-skill draft; `""` stands for a field not yet filled in. */
  datatype Draft = Draft(name: string, level: string, category: string)

  const EMPTY_DRAFT := Draft("", "", "")

  /** The guard of `handleAddSkill`. */
  predicate CanAdd(d: Draft) {
    d.name != "" && d.level != "" && d.category != ""
  }

  /** The add button's `disabled` expression. */
  predicate AddDisabled(d: Draft) {
    d.name == "" || d.level == "" || d.category == ""
  }

  /** The button is disabled exactly when the handler would reject the draft. */
  lemma AddDisabledIffRejected(d: Draft)
    ensures AddDisabled(d) <==> !CanAdd(d)
  {
  }

  /** A list entry with its original position. */
  datatype Tagged = Tagged(index: nat, skill: Skill)

  function Tag(xs: seq<Skill>): (r: seq<Tagged>)
    ensures |r| == |xs| && forall i | 0 <= i < |xs| :: r[i] == Tagged(i, xs[i])
  {
    seq(|xs|, i requires 0 <= i < |xs| => Tagged(i, xs[i]))
  }

  function TaggedCategory(t: Tagged): string { t.skill.category }

  predicate Increasing(ts: seq<Tagged>) {
    forall a, b | 0 <= a < b < |ts| :: ts[a].index < ts[b].index
  }

  /** Filtering a list whose indices increase keeps them increasing. */
  lemma {:induction false} MembersIncreasing(ts: seq<Tagged>, k: string)
    requires Increasing(ts)
    ensures Increasing(Members(ts, TaggedCategory, k))
  {
    if ts != [] {
      var init := ts[..|ts| - 1];
      var last := ts[|ts| - 1];
      MembersIncreasing(init, k);
      MembersAreElements(init, TaggedCategory, k);
      assert forall t | t in init :: t.index < last.index;
    }
  }

  class SkillsEditor {
    var fields: seq<Skill>
    var draft: Draft
    /** The lists passed to `onUpdate`, oldest first. */
    var forwarded: seq<seq<Skill>>

    /** The selects only offer the listed levels and categories. */
    ghost predicate Valid()
      reads this
    {
      (draft.level == "" || draft.level in SKILL_LEVELS) &&
      (draft.category == "" || draft.category in SKILL_CATEGORIES)
    }

    /** The initial list is the given data, with no default entry. */
    constructor (data: seq<Skill>)
      ensures Valid() && fields == data && draft == EMPTY_DRAFT && forwarded == []
    {
      fields := data;
      draft := EMPTY_DRAFT;
      forwarded := [];
    }

    function ShowsEmptyMessage(): bool
      reads this
    {
      |fields| == 0
    }

    method TypeName(name: string)
      requires Valid()
      modifies this`draft
      ensures Valid() && draft == old(draft).(name := name)
    {
      draft := draft.(name := name);
    }

    method ChooseLevel(i: nat)
      requires Valid() && i < |LEVEL_OPTIONS|
      modifies this`draft
      ensures Valid() && draft == old(draft).(level := LEVEL_OPTIONS[i].value)
    {
      LevelChoicesAreSchemaLevels();
      draft := draft.(level := LEVEL_OPTIONS[i].value);
    }

    method ChooseCategory(i: nat)
      requires Valid() && i < |SKILL_CATEGORIES|
      modifies this`draft
      ensures Valid() && draft == old(draft).(category := SKILL_CATEGORIES[i])
    {
      draft := draft.(category := SKILL_CATEGORIES[i]);
    }

    /** `handleAddSkill`: a complete draft is appended, exactly as entered, and the
        draft is cleared; an incomplete one changes nothing. An added skill always
        satisfies the schema. */
    method AddSkill()
      requires Valid()
      modifies this`fields, this`draft, this`forwarded
      ensures Valid()
      ensures CanAdd(old(draft)) ==>
        fields == old(fields) + [Skill(old(draft).name, old(draft).level, old(draft).category)] &&
        draft == EMPTY_DRAFT && forwarded == old(forwarded) + [fields] && ValidSkill(fields[|fields| - 1])
      ensures !CanAdd(old(draft)) ==>
        fields == old(fields) && draft == old(draft) && forwarded == old(forwarded)
    {
      if CanAdd(draft) {
        fields := fields + [Skill(draft.name, draft.level, draft.category)];
        draft := EMPTY_DRAFT;
        forwarded := forwarded + [fields];
      }
    }

    /** The remove button of the entry with original index `i`. */
    method Remove(i: nat)
      requires Valid() && i < |fields|
      modifies this`fields, this`forwarded
      ensures Valid()
      ensures fields == RemoveAt(old(fields), i) && forwarded == old(forwarded) + [fields]
    {
      fields := RemoveAt(fields, i);
      forwarded := forwarded + [fields];
    }

    /** `groupedSkills`: the tagged entries grouped by category. */
    method Grouped() returns (categories: seq<string>, groups: map<string, seq<Tagged>>)
      ensures categories == Keys(Tag(fields), TaggedCategory) && Distinct(categories)
      ensures forall k :: k in groups <==> k in categories
      ensures forall k | k in groups :: groups[k] == Members(Tag(fields), TaggedCategory, k)
      ensures forall k | k in groups :: Increasing(groups[k])
      ensures forall k, t | k in groups && t in groups[k] ::
        t.index < |fields| && fields[t.index] == t.skill && t.skill.category == k
      ensures forall i | 0 <= i < |fields| ::
        fields[i].category in groups && Tagged(i, fields[i]) in groups[fields[i].category]
      ensures TotalSize(categories, Tag(fields), TaggedCategory) == |fields|
    {
      var tagged := Tag(fields);
      categories, groups := GroupBy(tagged, TaggedCategory);
      KeysDistinct(tagged, TaggedCategory);
      GroupsPartition(tagged, TaggedCategory);
      forall k | k in groups
        ensures Increasing(groups[k])
        ensures forall t | t in groups[k] :: t.index < |fields| && fields[t.index] == t.skill && t.skill.category == k
      {
        MembersIncreasing(tagged, k);
        MembersAreElements(tagged, TaggedCategory, k);
        MembersHaveKey(tagged, TaggedCategory, k);
      }
      forall i | 0 <= i < |fields|
        ensures fields[i].category in groups && Tagged(i, fields[i]) in groups[fields[i].category]
      {
        MembersContainElement(tagged, TaggedCategory, i);
      }
    }
  }

  /** The remove button of a grouped entry deletes that very skill and keeps the
      others in order. */
  lemma RemoveTaggedEntry(xs: seq<Skill>, t: Tagged, k: string)
    requires t in Members(Tag(xs), TaggedCategory, k)
    ensures t.index < |xs| && xs[t.index] == t.skill
    ensures RemoveAt(xs, t.index) == xs[..t.index] + xs[t.index + 1..]
  {
    MembersAreElements(Tag(xs), TaggedCategory, k);
  }
}
