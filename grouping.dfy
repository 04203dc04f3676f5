/** Grouping a list by a string key with `reduce` into a plain object: the object's
    keys appear in first-appearance order, and each key's array receives the
    elements with that key by `push`, in list order. Used for skills by category
    in the preview and in the skills form. */
module Grouping {

  /** The keys of the accumulator after the whole list: each key once, in the order
      of its first occurrence. */
  function Keys<T>(xs: seq<T>, key: T -> string): (ks: seq<string>)
    ensures |ks| <= |xs|
    ensures forall i | 0 <= i < |xs| :: key(xs[i]) in ks
    ensures forall k | k in ks :: exists i | 0 <= i < |xs| :: key(xs[i]) == k
  {
    if xs == [] then []
    else
      var init := xs[..|xs| - 1];
      var k := key(xs[|xs| - 1]);
      var ks := Keys(init, key);
      assert forall i | 0 <= i < |init| :: xs[i] == init[i];
      if k in ks then ks else ks + [k]
  }

  /** The array of key `k` after the whole list: the elements with that key, in order. */
  function Members<T>(xs: seq<T>, key: T -> string, k: string): (ms: seq<T>)
    ensures |ms| <= |xs|
  {
    if xs == [] then []
    else
      var init := xs[..|xs| - 1];
      Members(init, key, k) + if key(xs[|xs| - 1]) == k then [xs[|xs| - 1]] else []
  }

  /** The grouping loop: for each element, create its key's array when the key is
      new, then push the element; returns the accumulator's keys in order and the
      accumulator itself. */
  method GroupBy<T>(xs: seq<T>, key: T -> string) returns (keys: seq<string>, groups: map<string, seq<T>>)
    ensures keys == Keys(xs, key)
    ensures forall k :: k in groups <==> k in keys
    ensures forall k | k in groups :: groups[k] == Members(xs, key, k)
  {
    keys := [];
    groups := map[];
    for i := 0 to |xs|
      invariant keys == Keys(xs[..i], key)
      invariant forall k :: k in groups <==> k in keys
      invariant forall k | k in groups :: groups[k] == Members(xs[..i], key, k)
    {
      var k := key(xs[i]);
      assert xs[..i + 1][..i] == xs[..i];
      if k !in groups {
        MembersOfUnusedKey(xs[..i], key, k);
        keys := keys + [k];
        groups := groups[k := []];
      }
      groups := groups[k := groups[k] + [xs[i]]];
    }
    assert xs[..|xs|] == xs;
  }

  // ---------------------------------------------------------------------------
  // Properties

  predicate Distinct(ks: seq<string>) {
    forall i, j | 0 <= i < j < |ks| :: ks[i] != ks[j]
  }

  lemma {:induction false} KeysDistinct<T>(xs: seq<T>, key: T -> string)
    ensures Distinct(Keys(xs, key))
  {
    if xs != [] {
      KeysDistinct(xs[..|xs| - 1], key);
    }
  }

  /** Groups appear in first-appearance order: the keys of a prefix of the list are
      a prefix of the keys of the list. */
  lemma {:induction false} KeysOfPrefix<T>(xs: seq<T>, key: T -> string, n: nat)
    requires n <= |xs|
    ensures Keys(xs[..n], key) <= Keys(xs, key)
  {
    if n < |xs| {
      var init := xs[..|xs| - 1];
      assert init[..n] == xs[..n];
      KeysOfPrefix(init, key, n);
    } else {
      assert xs[..n] == xs;
    }
  }

  /** There is a group iff there is an element. */
  lemma KeysEmptyIff<T>(xs: seq<T>, key: T -> string)
    ensures |Keys(xs, key)| == 0 <==> |xs| == 0
  {
    if xs != [] {
      assert key(xs[0]) in Keys(xs, key);
    }
  }

  lemma {:induction false} MembersHaveKey<T>(xs: seq<T>, key: T -> string, k: string)
    ensures forall m | m in Members(xs, key, k) :: key(m) == k
  {
    if xs != [] {
      MembersHaveKey(xs[..|xs| - 1], key, k);
    }
  }

  lemma {:induction false} MembersContainElement<T>(xs: seq<T>, key: T -> string, i: nat)
    requires i < |xs|
    ensures xs[i] in Members(xs, key, key(xs[i]))
  {
    var init := xs[..|xs| - 1];
    if i < |xs| - 1 {
      assert xs[i] == init[i];
      MembersContainElement(init, key, i);
    }
  }

  lemma {:induction false} MembersAreElements<T>(xs: seq<T>, key: T -> string, k: string)
    ensures forall m | m in Members(xs, key, k) :: m in xs
  {
    if xs != [] {
      var init := xs[..|xs| - 1];
      MembersAreElements(init, key, k);
      assert forall m | m in init :: m in xs;
    }
  }

  /** Members distribute over concatenation: grouping keeps the list order. */
  lemma {:induction false} MembersAppend<T>(xs: seq<T>, ys: seq<T>, key: T -> string, k: string)
    ensures Members(xs + ys, key, k) == Members(xs, key, k) + Members(ys, key, k)
  {
    if ys != [] {
      var zs := xs + ys;
      assert zs[..|zs| - 1] == xs + ys[..|ys| - 1];
      assert zs[|zs| - 1] == ys[|ys| - 1];
      MembersAppend(xs, ys[..|ys| - 1], key, k);
    } else {
      assert xs + ys == xs;
    }
  }

  /** A key the list does not use has no members. */
  lemma {:induction false} MembersOfUnusedKey<T>(xs: seq<T>, key: T -> string, k: string)
    requires k !in Keys(xs, key)
    ensures Members(xs, key, k) == []
  {
    if xs != [] {
      var init := xs[..|xs| - 1];
      assert Keys(init, key) <= Keys(xs, key);
      MembersOfUnusedKey(init, key, k);
    }
  }

  /** The total size of the groups, in key order. */
  function TotalSize<T>(ks: seq<string>, xs: seq<T>, key: T -> string): nat {
    if ks == [] then 0 else |Members(xs, key, ks[0])| + TotalSize(ks[1..], xs, key)
  }

  lemma {:induction false} TotalSizeAppendKey<T>(ks: seq<string>, k: string, xs: seq<T>, key: T -> string)
    ensures TotalSize(ks + [k], xs, key) == TotalSize(ks, xs, key) + |Members(xs, key, k)|
  {
    if ks == [] {
      assert [k][1..] == [];
    } else {
      assert (ks + [k])[1..] == ks[1..] + [k];
      TotalSizeAppendKey(ks[1..], k, xs, key);
    }
  }

  /** Adding an element grows exactly the group of its key, by one. */
  lemma {:induction false} TotalSizeAddElement<T>(ks: seq<string>, xs: seq<T>, x: T, key: T -> string)
    requires Distinct(ks)
    ensures TotalSize(ks, xs + [x], key) == TotalSize(ks, xs, key) + if key(x) in ks then 1 else 0
  {
    if ks != [] {
      var zs := xs + [x];
      assert zs[..|zs| - 1] == xs;
      assert Distinct(ks[1..]) by {
        forall i, j | 0 <= i < j < |ks[1..]| ensures ks[1..][i] != ks[1..][j] {
          assert ks[1..][i] == ks[i + 1] && ks[1..][j] == ks[j + 1];
        }
      }
      assert key(x) in ks[1..] ==> key(x) != ks[0] by {
        if key(x) in ks[1..] {
          var j :| 0 <= j < |ks[1..]| && ks[1..][j] == key(x);
          assert ks[j + 1] == key(x);
        }
      }
      assert key(x) in ks <==> key(x) == ks[0] || key(x) in ks[1..];
      TotalSizeAddElement(ks[1..], xs, x, key);
    }
  }

  /** Each element is in exactly one group: the group sizes add up to the list's length. */
  lemma {:induction false} GroupsPartition<T>(xs: seq<T>, key: T -> string)
    ensures TotalSize(Keys(xs, key), xs, key) == |xs|
  {
    if xs != [] {
      var init := xs[..|xs| - 1];
      var x := xs[|xs| - 1];
      assert init + [x] == xs;
      GroupsPartition(init, key);
      KeysDistinct(init, key);
      TotalSizeAddElement(Keys(init, key), init, x, key);
      if key(x) !in Keys(init, key) {
        TotalSizeAppendKey(Keys(init, key), key(x), xs, key);
        MembersOfUnusedKey(init, key, key(x));
      }
    }
  }
}
