/** The experience step: the initial list, the default entry, append and guarded
    remove, and the AI enhancement of one entry's description, guarded on the
    client by the same three fields the server checks. */
module ExperienceForm {
  import opened Wrappers
  import opened Schema
  import opened FieldArray
  import Routes

  /** `getDefaultExperience`. */
  function DefaultExperience(): (e: Experience)
    ensures e.jobTitle == "" && e.company == "" && e.startDate == "" && e.description == ""
    ensures e.endDate == Some("") && !e.isCurrent
  {
    Experience("", "", "", Some(""), false, "")
  }

  /** The list the form starts with. */
  function InitialExperiences(data: seq<Experience>): (r: seq<Experience>)
    ensures |r| >= 1
    ensures |data| > 0 ==> r == data
    ensures |data| == 0 ==> r == [DefaultExperience()]
  {
    if |data| > 0 then data else [DefaultExperience()]
  }

  /** A default entry is not yet acceptable to the schema. */
  lemma DefaultExperienceInvalid()
    ensures !ValidExperience(DefaultExperience())
  {
  }

  /** The client-side guard of `handleEnhanceDescription`. */
  predicate CanEnhance(e: Experience) {
    e.jobTitle != "" && e.company != "" && e.description != ""
  }

  /** The body of `POST /api/enhance-description`. */
  function EnhanceRequest(e: Experience): Routes.EnhanceBody {
    Routes.EnhanceBody(Val(e.description), Val(e.jobTitle), Val(e.company))
  }

  /** The client sends a request exactly when the server's guard would pass it. */
  lemma ClientGuardMatchesServer(e: Experience)
    ensures CanEnhance(e) <==> Routes.EnhanceGuard(EnhanceRequest(e))
  {
  }

  class ExperienceEditor {
    var fields: seq<Experience>
    /** The entry whose enhancement is running, if any. */
    var enhancingIndex: Option<nat>
    /** Enhancement requests sent, oldest first. */
    var requests: seq<Routes.EnhanceBody>
    /** The lists passed to `onUpdate`, oldest first. */
    var forwarded: seq<seq<Experience>>

    /** Through the form the list never becomes empty. */
    ghost predicate Valid()
      reads this
    {
      |fields| >= 1
    }

    constructor (data: seq<Experience>)
      ensures Valid() && fields == InitialExperiences(data)
      ensures enhancingIndex == None && requests == [] && forwarded == []
    {
      fields := InitialExperiences(data);
      enhancingIndex := None;
      requests := [];
      forwarded := [];
    }

    /** The remove button is rendered only while there is more than one entry. */
    predicate RemoveOffered()
      reads this
    {
      |fields| > 1
    }

    method Append()
      requires Valid()
      modifies this`fields, this`forwarded
      ensures Valid()
      ensures fields == old(fields) + [DefaultExperience()] && forwarded == old(forwarded) + [fields]
    {
      fields := fields + [DefaultExperience()];
      forwarded := forwarded + [fields];
    }

    method Remove(i: nat)
      requires Valid() && RemoveOffered() && i < |fields|
      modifies this`fields, this`forwarded
      ensures Valid()
      ensures fields == RemoveAt(old(fields), i) && forwarded == old(forwarded) + [fields]
    {
      fields := RemoveAt(fields, i);
      forwarded := forwarded + [fields];
    }

    /** Typing into the fields of entry `i`. */
    method Edit(i: nat, e: Experience)
      requires Valid() && i < |fields|
      modifies this`fields, this`forwarded
      ensures Valid()
      ensures fields == SetAt(old(fields), i, e) && forwarded == old(forwarded) + [fields]
    {
      fields := SetAt(fields, i, e);
      forwarded := forwarded + [fields];
    }

    /** The enhance button of entry `i` (disabled while that entry is enhancing):
        an incomplete entry sends nothing and changes nothing; otherwise the
        request is sent and the entry is marked as enhancing. */
    method StartEnhance(i: nat) returns (sent: Option<Routes.EnhanceBody>)
      requires Valid() && i < |fields| && enhancingIndex != Some(i)
      modifies this`enhancingIndex, this`requests
      ensures Valid()
      ensures !CanEnhance(fields[i]) ==>
        sent == None && enhancingIndex == old(enhancingIndex) && requests == old(requests)
      ensures CanEnhance(fields[i]) ==>
        sent == Some(EnhanceRequest(fields[i])) && enhancingIndex == Some(i) && requests == old(requests) + [sent.value]
      ensures sent.Some? ==> Routes.EnhanceGuard(sent.value)
    {
      if !CanEnhance(fields[i]) {
        return None;
      }
      enhancingIndex := Some(i);
      sent := Some(EnhanceRequest(fields[i]));
      requests := requests + [sent.value];
    }

    /** The request for entry `i` settles: on success only that entry's description
        is replaced by the answer; either way nothing is enhancing afterwards. */
    method FinishEnhance(i: nat, answer: Result<string, string>)
      requires Valid() && i < |fields|
      modifies this`fields, this`enhancingIndex, this`forwarded
      ensures Valid() && enhancingIndex == None
      ensures answer.Ok? ==>
        fields == SetAt(old(fields), i, old(fields)[i].(description := answer.value)) &&
        forwarded == old(forwarded) + [fields]
      ensures answer.Err? ==> fields == old(fields) && forwarded == old(forwarded)
    {
      if answer.Ok? {
        fields := SetAt(fields, i, fields[i].(description := answer.value));
        forwarded := forwarded + [fields];
      }
      enhancingIndex := None;
    }
  }

  /** A client of the editor: from no data, the single default entry cannot be
      enhanced and cannot be removed; after an append it can be removed again. */
  method DefaultEntryFlow() returns (editor: ExperienceEditor)
    ensures editor.fields == [DefaultExperience()] && editor.requests == []
  {
    editor := new ExperienceEditor([]);
    assert !editor.RemoveOffered();
    var sent := editor.StartEnhance(0);
    assert sent == None;
    editor.Append();
    assert editor.RemoveOffered();
    editor.Remove(1);
    RemoveAppended([DefaultExperience()], DefaultExperience());
  }
}
