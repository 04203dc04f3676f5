/** The two ordered step lists of the wizard and the position lookup that the hook
    (`indexOf`) and both progress indicators (`findIndex` by id) use. */
module Steps {

  /** The top-level steps, in order. */
  const STEPS: seq<string> := ["fill-form", "processing", "preview-customize"]

  /** The sub-steps of `fill-form`, in order. */
  const SUB_STEPS: seq<string> := ["personal-info", "experience", "education", "skills"]

  /** The first position of `x` in `xs`, or -1 when it does not occur. */
  function IndexOf(xs: seq<string>, x: string): (i: int)
    ensures -1 <= i < |xs|
    ensures i == -1 <==> x !in xs
    ensures 0 <= i ==> xs[i] == x && x !in xs[..i]
  {
    if xs == [] then -1
    else if xs[0] == x then 0
    else
      var j := IndexOf(xs[1..], x);
      assert j >= 0 ==> xs[..j + 1] == [xs[0]] + xs[1..][..j];
      if j < 0 then -1 else j + 1
  }

  predicate Distinct(xs: seq<string>) {
    forall i, j | 0 <= i < j < |xs| :: xs[i] != xs[j]
  }

  /** In a list without repetitions, the lookup finds every position back. */
  lemma IndexOfDistinct(xs: seq<string>, k: nat)
    requires Distinct(xs) && k < |xs|
    ensures IndexOf(xs, xs[k]) == k
  {
  }

  lemma StepListsDistinct()
    ensures Distinct(STEPS) && Distinct(SUB_STEPS)
  {
  }

  /** The step ids in order of their position in `STEPS`. */
  lemma StepIndices()
    ensures IndexOf(STEPS, "fill-form") == 0 && IndexOf(STEPS, "processing") == 1
    ensures IndexOf(STEPS, "preview-customize") == 2
    ensures IndexOf(SUB_STEPS, "personal-info") == 0 && IndexOf(SUB_STEPS, "experience") == 1
    ensures IndexOf(SUB_STEPS, "education") == 2 && IndexOf(SUB_STEPS, "skills") == 3
    ensures IndexOf(STEPS, "personal-info") == -1
  {
    StepListsDistinct();
    IndexOfDistinct(STEPS, 0);
    IndexOfDistinct(STEPS, 1);
    IndexOfDistinct(STEPS, 2);
    IndexOfDistinct(SUB_STEPS, 0);
    IndexOfDistinct(SUB_STEPS, 1);
    IndexOfDistinct(SUB_STEPS, 2);
    IndexOfDistinct(SUB_STEPS, 3);
  }
}
