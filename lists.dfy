/**
 * The JavaScript array operations the pages use on their static lists:
 * `filter` with a side-effect-free callback (the elements it accepts, in their
 * original order) and `find` (the first element it accepts), and the
 * `{ key, label }` category buttons whose labels the badges look up.
 */
module Lists {
  import opened Optional

  /** `s.filter(keep)`. */
  function Filter<T>(s: seq<T>, keep: T -> bool): (r: seq<T>)
    ensures |r| <= |s|
    ensures forall x :: x in r ==> x in s && keep(x)
    decreases |s|
  {
    if s == [] then []
    else Filter(s[..|s| - 1], keep) + (if keep(s[|s| - 1]) then [s[|s| - 1]] else [])
  }

  /** The positions of `s` whose elements `keep` accepts, in increasing order. */
  function KeptIndices<T>(s: seq<T>, keep: T -> bool): (idx: seq<nat>)
    decreases |s|
  {
    if s == [] then []
    else KeptIndices(s[..|s| - 1], keep) + (if keep(s[|s| - 1]) then [|s| - 1] else [])
  }

  /** `a` is `b` read at the strictly increasing positions `idx`: an order-preserving
    * subsequence. */
  ghost predicate SubsequenceAt<T>(a: seq<T>, b: seq<T>, idx: seq<nat>)
  {
    && |idx| == |a|
    && (forall i :: 0 <= i < |idx| ==> idx[i] < |b| && a[i] == b[idx[i]])
    && (forall i, j :: 0 <= i < j < |idx| ==> idx[i] < idx[j])
  }

  /** The filtered list is the original read at exactly the accepted positions, in order:
    * nothing accepted is dropped, nothing rejected is kept, nothing is reordered. */
  lemma {:induction false} FilterIsSubsequence<T>(s: seq<T>, keep: T -> bool)
    ensures SubsequenceAt(Filter(s, keep), s, KeptIndices(s, keep))
    ensures forall i :: 0 <= i < |s| ==> (keep(s[i]) <==> i in KeptIndices(s, keep))
    decreases |s|
  {
    if s != [] {
      var init := s[..|s| - 1];
      FilterIsSubsequence(init, keep);
      var r, idx := Filter(init, keep), KeptIndices(init, keep);
      assert forall i :: 0 <= i < |idx| ==> idx[i] < |init|;
      assert forall i :: 0 <= i < |init| ==> init[i] == s[i];
      if keep(s[|s| - 1]) {
        assert Filter(s, keep) == r + [s[|s| - 1]];
        assert KeptIndices(s, keep) == idx + [|s| - 1];
      } else {
        assert Filter(s, keep) == r;
        assert KeptIndices(s, keep) == idx;
      }
    }
  }

  /** An element is in the filtered list exactly when it is in the list and accepted. */
  lemma {:induction false} FilterMembership<T>(s: seq<T>, keep: T -> bool, x: T)
    ensures x in Filter(s, keep) <==> x in s && keep(x)
    decreases |s|
  {
    if s != [] {
      var init := s[..|s| - 1];
      FilterMembership(init, keep, x);
      assert s == init + [s[|s| - 1]];
    }
  }

  /** A list whose every element is accepted comes back unchanged. */
  lemma {:induction false} FilterKeepsAll<T>(s: seq<T>, keep: T -> bool)
    requires forall i :: 0 <= i < |s| ==> keep(s[i])
    ensures Filter(s, keep) == s
    decreases |s|
  {
    if s != [] {
      FilterKeepsAll(s[..|s| - 1], keep);
      assert s[..|s| - 1] + [s[|s| - 1]] == s;
    }
  }

  /** Filtering a concatenation filters each part. */
  lemma {:induction false} FilterAppend<T>(a: seq<T>, b: seq<T>, keep: T -> bool)
    ensures Filter(a + b, keep) == Filter(a, keep) + Filter(b, keep)
    decreases |b|
  {
    if b == [] {
      assert a + b == a;
    } else {
      var init := b[..|b| - 1];
      FilterAppend(a, init, keep);
      assert (a + b)[..|a + b| - 1] == a + init;
      var last := if keep(b[|b| - 1]) then [b[|b| - 1]] else [];
      assert Filter(a + b, keep) == Filter(a + init, keep) + last;
      assert Filter(b, keep) == Filter(init, keep) + last;
    }
  }

  /** Filtering a second time with the same callback changes nothing. */
  lemma FilterIdempotent<T>(s: seq<T>, keep: T -> bool)
    ensures Filter(Filter(s, keep), keep) == Filter(s, keep)
  {
    var r := Filter(s, keep);
    forall i | 0 <= i < |r|
      ensures keep(r[i])
    {
      assert r[i] in r;
    }
    FilterKeepsAll(r, keep);
  }

  /** Filtering with a callback that rejects every element gives the empty list. */
  lemma {:induction false} FilterDropsAll<T>(s: seq<T>, keep: T -> bool)
    requires forall i :: 0 <= i < |s| ==> !keep(s[i])
    ensures Filter(s, keep) == []
    decreases |s|
  {
    if s != [] {
      FilterDropsAll(s[..|s| - 1], keep);
    }
  }

  // ---------------------------------------------------------------------------
  // find

  /** `s.find(p)`: the first element `p` accepts, or `undefined`. */
  function Find<T>(s: seq<T>, p: T -> bool): (r: Option<T>)
    ensures r.Some? ==> r.value in s && p(r.value)
    ensures r.None? <==> forall i :: 0 <= i < |s| ==> !p(s[i])
    ensures forall i :: 0 <= i < |s| && p(s[i]) && (forall j :: 0 <= j < i ==> !p(s[j]))
                        ==> r == Some(s[i])
  {
    FindFrom(s, p, 0)
  }

  function FindFrom<T>(s: seq<T>, p: T -> bool, from: nat): (r: Option<T>)
    requires from <= |s|
    ensures r.Some? ==> exists i :: from <= i < |s| && s[i] == r.value && p(s[i])
    ensures r.None? <==> forall i :: from <= i < |s| ==> !p(s[i])
    ensures forall i :: from <= i < |s| && p(s[i]) && (forall j :: from <= j < i ==> !p(s[j]))
                        ==> r == Some(s[i])
    decreases |s| - from
  {
    if from == |s| then None
    else if p(s[from]) then Some(s[from])
    else FindFrom(s, p, from + 1)
  }

  // ---------------------------------------------------------------------------
  // Category buttons

  /** One category button: the key it selects and its label. */
  datatype CategoryButton = CategoryButton(key: string, caption: string)

  /** `keys` zipped with `t` of the matching label keys: how both pages build `categories`
    * from the `t` of `useLanguage()`. */
  function Buttons(keys: seq<string>, labelKeys: seq<string>, t: string -> string): (cs: seq<CategoryButton>)
    requires |keys| == |labelKeys|
    ensures |cs| == |keys|
    ensures forall i :: 0 <= i < |cs| ==> cs[i] == CategoryButton(keys[i], t(labelKeys[i]))
  {
    seq(|keys|, i requires 0 <= i < |keys| => CategoryButton(keys[i], t(labelKeys[i])))
  }

  /** `categories.find((c) => c.key === key)?.label`. */
  function LabelOf(buttons: seq<CategoryButton>, key: string): (caption: Option<string>)
    ensures caption.Some? <==> exists i :: 0 <= i < |buttons| && buttons[i].key == key
  {
    var found := Find(buttons, (c: CategoryButton) => c.key == key);
    if found.Some? then Some(found.value.caption) else None
  }

  /** No two elements of `s` are equal. */
  predicate Distinct(s: seq<string>)
  {
    forall j, k :: 0 <= j < k < |s| ==> s[j] != s[k]
  }

  /** With distinct keys, looking up a button's own key gives that button's label. */
  lemma LabelOfOwnKey(keys: seq<string>, labelKeys: seq<string>, t: string -> string, k: nat)
    requires |keys| == |labelKeys| && Distinct(keys) && k < |keys|
    ensures LabelOf(Buttons(keys, labelKeys, t), keys[k]) == Some(t(labelKeys[k]))
  {
    var cs := Buttons(keys, labelKeys, t);
    var p := (c: CategoryButton) => c.key == keys[k];
    assert forall j :: 0 <= j < k ==> !p(cs[j]);
    assert p(cs[k]);
    assert Find(cs, p) == Some(cs[k]);
  }
}
