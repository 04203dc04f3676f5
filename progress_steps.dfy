/** The step indicators: each entry of an ordered id list is classified against the
    position of the current id (`findIndex`, -1 when absent) as completed, active or
    pending, which decides its badge, its label colour and the colour of the
    connector after it. The progress bar shows `STEPS`; the sub-step bar reuses the
    same classification over `SUB_STEPS`. */
module ProgressSteps {
  import opened Wrappers
  import opened Steps

  datatype Status = Completed | Active | Pending

  /** A check mark, or the one-based position. */
  datatype Badge = Check | Number(n: nat)

  function StatusOf(index: nat, current: int): (s: Status)
    ensures s == Completed <==> index < current
    ensures s == Active <==> index == current
    ensures s == Pending <==> index > current
  {
    if index < current then Completed else if index == current then Active else Pending
  }

  function BadgeOf(index: nat, current: int): (b: Badge)
    ensures b == Check <==> StatusOf(index, current) == Completed
    ensures b != Check ==> b == Number(index + 1)
  {
    if index < current then Check else Number(index + 1)
  }

  /** One entry of an indicator; `connector` is absent after the last entry and
      otherwise says whether it is coloured. */
  datatype StepView = StepView(id: string, status: Status, badge: Badge, highlighted: bool, connector: Option<bool>)

  function ViewStep(ids: seq<string>, index: nat, current: int): StepView
    requires index < |ids|
  {
    StepView(ids[index], StatusOf(index, current), BadgeOf(index, current), index <= current,
             if index < |ids| - 1 then Some(index < current) else None)
  }

  /** The entries of an indicator over `ids` for the current id. */
  function Indicator(ids: seq<string>, currentId: string): (r: seq<StepView>)
    ensures |r| == |ids|
    ensures forall i | 0 <= i < |r| :: r[i].id == ids[i] && r[i].status == StatusOf(i, IndexOf(ids, currentId))
    ensures forall i | 0 <= i < |r| :: (r[i].badge == Check <==> r[i].status == Completed)
    ensures forall i | 0 <= i < |r| :: r[i].badge != Check ==> r[i].badge == Number(i + 1)
    ensures forall i | 0 <= i < |r| :: (r[i].highlighted <==> r[i].status != Pending)
    ensures forall i | 0 <= i < |r| :: (r[i].connector.Some? <==> i < |ids| - 1)
    ensures forall i | 0 <= i < |r| && r[i].connector.Some? :: (r[i].connector.value <==> r[i].status == Completed)
  {
    var c := IndexOf(ids, currentId);
    seq(|ids|, i requires 0 <= i < |ids| => ViewStep(ids, i, c))
  }

  /** The progress bar over the top-level steps. */
  function ProgressBar(currentStep: string): (r: seq<StepView>)
    ensures |r| == |STEPS| && forall i | 0 <= i < |r| :: r[i].id == STEPS[i]
  {
    Indicator(STEPS, currentStep)
  }

  // ---------------------------------------------------------------------------
  // Properties

  /** Completed entries come first, then at most one active entry, then pending ones. */
  lemma StatusesOrdered(ids: seq<string>, currentId: string, i: nat, j: nat)
    requires i <= j < |ids|
    ensures Indicator(ids, currentId)[j].status == Completed ==> Indicator(ids, currentId)[i].status == Completed
    ensures Indicator(ids, currentId)[i].status == Pending ==> Indicator(ids, currentId)[j].status == Pending
    ensures i < j && Indicator(ids, currentId)[i].status == Active ==> Indicator(ids, currentId)[j].status == Pending
  {
  }

  /** For an id in a list without repetitions, exactly the entry carrying it is active. */
  lemma ActiveIsCurrent(ids: seq<string>, currentId: string)
    requires Distinct(ids) && currentId in ids
    ensures forall i | 0 <= i < |ids| :: (Indicator(ids, currentId)[i].status == Active <==> ids[i] == currentId)
  {
    forall i | 0 <= i < |ids|
      ensures Indicator(ids, currentId)[i].status == Active <==> ids[i] == currentId
    {
      IndexOfDistinct(ids, i);
    }
  }

  /** An id not in the list makes every entry pending, unhighlighted and numbered. */
  lemma UnknownIdAllPending(ids: seq<string>, currentId: string)
    requires currentId !in ids
    ensures forall i | 0 <= i < |ids| ::
      Indicator(ids, currentId)[i].status == Pending && !Indicator(ids, currentId)[i].highlighted &&
      Indicator(ids, currentId)[i].badge == Number(i + 1)
  {
  }

  /** The step a new session is stored with is not a top-level step, so a reloaded
      session shows every step pending. */
  lemma StoredStepAllPending()
    ensures forall i | 0 <= i < |STEPS| :: ProgressBar("personal-info")[i].status == Pending
  {
    StepIndices();
  }

  /** In `preview-customize` the earlier steps are completed and carry check marks. */
  lemma LastStepCompletesOthers()
    ensures ProgressBar("preview-customize")[0].badge == Check && ProgressBar("preview-customize")[1].badge == Check
    ensures ProgressBar("preview-customize")[2].status == Active && ProgressBar("preview-customize")[2].badge == Number(3)
  {
    StepIndices();
  }
}
