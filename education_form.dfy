/** The education step: the initial list, the default entry, append and guarded
    remove, and the forwarding of the watched list to the parent. */
module EducationForm {
  import opened Wrappers
  import opened Schema
  import opened FieldArray

  /** `getDefaultEducation`. */
  function DefaultEducation(): (e: Education)
    ensures e.institution == "" && e.degree == "" && e.field == "" && e.startDate == ""
    ensures e.endDate == Some("") && e.gpa == Some("") && !e.isCurrent
  {
    Education("", "", "", "", Some(""), false, Some(""))
  }

  function InitialEducation(data: seq<Education>): (r: seq<Education>)
    ensures |r| >= 1
    ensures |data| > 0 ==> r == data
    ensures |data| == 0 ==> r == [DefaultEducation()]
  {
    if |data| > 0 then data else [DefaultEducation()]
  }

  lemma DefaultEducationInvalid()
    ensures !ValidEducation(DefaultEducation())
  {
  }

  class EducationEditor {
    var fields: seq<Education>
    /** The lists passed to `onUpdate`, oldest first. */
    var forwarded: seq<seq<Education>>

    ghost predicate Valid()
      reads this
    {
      |fields| >= 1
    }

    constructor (data: seq<Education>)
      ensures Valid() && fields == InitialEducation(data) && forwarded == []
    {
      fields := InitialEducation(data);
      forwarded := [];
    }

    predicate RemoveOffered()
      reads this
    {
      |fields| > 1
    }

    /** The watch subscription: the whole list is passed on, and only when the
        watched value holds a list. */
    method WatchFires(values: Js<seq<Education>>)
      modifies this`forwarded
      ensures values.Val? ==> forwarded == old(forwarded) + [values.value]
      ensures values.Undefined? ==> forwarded == old(forwarded)
    {
      if values.Val? {
        forwarded := forwarded + [values.value];
      }
    }

    method Append()
      requires Valid()
      modifies this`fields, this`forwarded
      ensures Valid()
      ensures fields == old(fields) + [DefaultEducation()] && forwarded == old(forwarded) + [fields]
    {
      fields := fields + [DefaultEducation()];
      WatchFires(Val(fields));
    }

    method Remove(i: nat)
      requires Valid() && RemoveOffered() && i < |fields|
      modifies this`fields, this`forwarded
      ensures Valid()
      ensures fields == RemoveAt(old(fields), i) && forwarded == old(forwarded) + [fields]
    {
      fields := RemoveAt(fields, i);
      WatchFires(Val(fields));
    }

    method Edit(i: nat, e: Education)
      requires Valid() && i < |fields|
      modifies this`fields, this`forwarded
      ensures Valid()
      ensures fields == SetAt(old(fields), i, e) && forwarded == old(forwarded) + [fields]
    {
      fields := SetAt(fields, i, e);
      WatchFires(Val(fields));
    }
  }
}
