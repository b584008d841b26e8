/**
 * Index selection as the encoders do it with `np.where(mask)[0].tolist()`, and
 * the concatenation of per-group lists.
 */
module Indices {
  import opened Wrappers

  /** The positions below `n` where the mask `p` holds, in ascending order. */
  function Where(n: nat, p: nat -> bool): (r: seq<nat>)
    ensures forall k :: 0 <= k < |r| ==> r[k] < n && p(r[k])
    ensures forall j, k :: 0 <= j < k < |r| ==> r[j] < r[k]
    decreases n
  {
    if n == 0 then [] else Where(n - 1, p) + (if p(n - 1) then [n - 1] else [])
  }

  /** Every position below `n` where the mask holds is selected. */
  lemma {:induction false} WhereComplete(n: nat, p: nat -> bool, i: nat)
    requires i < n && p(i)
    ensures i in Where(n, p)
    decreases n
  {
    if i < n - 1 {
      WhereComplete(n - 1, p, i);
    }
  }

  /** Each selected position is listed exactly once, and nothing else is listed. */
  lemma {:induction false} WhereOnce(n: nat, p: nat -> bool, i: nat)
    ensures multiset(Where(n, p))[i] == if i < n && p(i) then 1 else 0
    decreases n
  {
    if n > 0 {
      var m := n - 1;
      WhereOnce(m, p, i);
      WhereStep(m, p);
      var added: multiset<nat> := if p(m) then multiset{m} else multiset{};
      assert added[i] == if i == m && p(m) then 1 else 0;
    }
  }

  /** A mask that is the disjoint union of two masks selects the union of their selections. */
  lemma {:induction false} WhereSplit(n: nat, p: nat -> bool, q: nat -> bool, h: nat -> bool)
    requires forall i: nat :: i < n ==> (h(i) <==> p(i) || q(i))
    requires forall i: nat :: i < n ==> !(p(i) && q(i))
    ensures multiset(Where(n, h)) == multiset(Where(n, p)) + multiset(Where(n, q))
    decreases n
  {
    if n > 0 {
      var m := n - 1;
      WhereSplit(m, p, q, h);
      WhereStep(m, h);
      WhereStep(m, p);
      WhereStep(m, q);
    }
  }

  lemma WhereStep(m: nat, p: nat -> bool)
    ensures multiset(Where(m + 1, p)) == multiset(Where(m, p)) + (if p(m) then multiset{m} else multiset{})
  {
    var w := Where(m, p);
    if p(m) {
      assert Where(m + 1, p) == w + [m];
      assert multiset(w + [m]) == multiset(w) + multiset([m]);
    } else {
      assert Where(m + 1, p) == w;
    }
  }

  /** Two masks that agree below `n` select the same positions. */
  lemma {:induction false} WhereSame(n: nat, p: nat -> bool, q: nat -> bool)
    requires forall i: nat :: i < n ==> (p(i) <==> q(i))
    ensures Where(n, p) == Where(n, q)
    decreases n
  {
    if n > 0 {
      WhereSame(n - 1, p, q);
    }
  }

  /**
   * Python `xs[k]` on a list: a negative index counts from the end, and an index out
   * of range raises IndexError.
   */
  function PyIndex<T>(xs: seq<T>, k: int): (r: Result<T>)
    ensures 0 <= k < |xs| ==> r == Ok(xs[k])
    ensures -|xs| <= k < 0 ==> r == Ok(xs[|xs| + k])
    ensures r.Err? <==> !(-|xs| <= k < |xs|)
    ensures r.Err? ==> r.error == IndexError("list index out of range")
  {
    if 0 <= k < |xs| then Ok(xs[k])
    else if -|xs| <= k < 0 then Ok(xs[|xs| + k])
    else Err(IndexError("list index out of range"))
  }

  /**
   * An index in range, negative or not, reads the element at its residue modulo the
   * length: Python's wrap-around of negative indices.
   */
  lemma PyIndexWraps<T>(xs: seq<T>, k: int)
    requires PyIndex(xs, k).Ok?
    ensures xs != [] && PyIndex(xs, k).value == xs[k % |xs|]
  {
    if k < 0 {
      assert k % |xs| == |xs| + k;
    } else {
      assert k % |xs| == k;
    }
  }

  /** `xs[-1]` of a non-empty list is its last element; of an empty list it raises IndexError. */
  lemma PyIndexLast<T>(xs: seq<T>)
    ensures xs != [] ==> PyIndex(xs, -1) == Ok(xs[|xs| - 1])
    ensures xs == [] ==> PyIndex(xs, -1) == Err(IndexError("list index out of range"))
  {
  }

  /** `[x for xs in ss for x in xs]`. */
  function Flatten<T>(ss: seq<seq<T>>): seq<T>
    decreases |ss|
  {
    if ss == [] then [] else Flatten(ss[..|ss| - 1]) + ss[|ss| - 1]
  }

  /** The first `t + 1` parts flatten to the first `t` parts followed by part `t`. */
  lemma FlattenSnoc<T>(ss: seq<seq<T>>, t: nat)
    requires t < |ss|
    ensures Flatten(ss[..t + 1]) == Flatten(ss[..t]) + ss[t]
  {
    assert ss[..t + 1][..t] == ss[..t];
  }

  lemma {:induction false} FlattenAppend<T>(a: seq<seq<T>>, b: seq<seq<T>>)
    ensures Flatten(a + b) == Flatten(a) + Flatten(b)
    decreases |b|
  {
    if b != [] {
      var b0 := b[..|b| - 1];
      assert (a + b)[..|a + b| - 1] == a + b0;
      FlattenAppend(a, b0);
    } else {
      assert a + b == a;
    }
  }
}
