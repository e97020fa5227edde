/** Small shared vocabulary: optional values, results, the reply of a store query,
    and the order-preserving filter that the pages use (`Array.prototype.filter`). */
module Common {

  datatype Option<+T> = None | Some(value: T)

  datatype Result<+T, +E> = Success(value: T) | Failure(error: E)

  /** JavaScript truthiness of a `string | null`: null and the empty string are falsy. */
  predicate Truthy(v: Option<string>) {
    v.Some? && v.value != ""
  }

  /** What a page receives from a store query: the rows, a null `data` field, or a
      thrown error (caught by the page's `catch`). */
  datatype Fetched<+T> = Rows(rows: seq<T>) | NullData | Failed

  /** The elements of `s` satisfying `p`, in their original order. */
  function Filter<T>(s: seq<T>, p: T -> bool): (r: seq<T>)
    ensures |r| <= |s|
    ensures forall i :: 0 <= i < |r| ==> r[i] in s && p(r[i])
    ensures forall i :: 0 <= i < |s| && p(s[i]) ==> s[i] in r
    decreases |s|
  {
    if s == [] then []
    else Filter(s[..|s| - 1], p) + (if p(s[|s| - 1]) then [s[|s| - 1]] else [])
  }

  /** The first element of `s` satisfying `p`: what a `LIMIT 1` query returns from a
      table read in order. */
  function FirstWhere<T>(s: seq<T>, p: T -> bool): (r: Option<T>)
    ensures r.Some? <==> exists i :: 0 <= i < |s| && p(s[i])
    ensures r.Some? ==> exists i :: 0 <= i < |s| && s[i] == r.value && p(s[i]) && forall j :: 0 <= j < i ==> !p(s[j])
    decreases |s|
  {
    if s == [] then None
    else if p(s[0]) then Some(s[0])
    else
      var r := FirstWhere(s[1..], p);
      assert forall i :: 1 <= i < |s| ==> s[i] == s[1..][i - 1];
      r
  }

  /** Filtering distributes over concatenation: the kept elements stay in their order. */
  lemma {:induction false} FilterConcat<T>(s: seq<T>, t: seq<T>, p: T -> bool)
    ensures Filter(s + t, p) == Filter(s, p) + Filter(t, p)
    decreases |t|
  {
    if t == [] {
      assert s + t == s;
    } else {
      var t' := t[..|t| - 1];
      assert (s + t)[..|s + t| - 1] == s + t';
      FilterConcat(s, t', p);
    }
  }

  /** Every element goes to exactly one side of a predicate. */
  lemma {:induction false} FilterPartition<T>(s: seq<T>, p: T -> bool, q: T -> bool)
    requires forall x :: q(x) == !p(x)
    ensures |Filter(s, p)| + |Filter(s, q)| == |s|
    decreases |s|
  {
    if s != [] {
      FilterPartition(s[..|s| - 1], p, q);
    }
  }

  /** Filtering keeps a sequence sorted by any integer key. */
  lemma {:induction false} FilterKeepsSorted<T>(s: seq<T>, p: T -> bool, key: T -> int)
    requires forall i, j :: 0 <= i < j < |s| ==> key(s[i]) <= key(s[j])
    ensures forall i, j :: 0 <= i < j < |Filter(s, p)| ==> key(Filter(s, p)[i]) <= key(Filter(s, p)[j])
    decreases |s|
  {
    if s != [] {
      var init := s[..|s| - 1];
      var last := s[|s| - 1];
      FilterKeepsSorted(init, p, key);
      var r0 := Filter(init, p);
      forall x | x in r0
        ensures key(x) <= key(last)
      {
        var k :| 0 <= k < |init| && init[k] == x;
        assert s[k] == x;
      }
      var r := Filter(s, p);
      assert r == r0 + (if p(last) then [last] else []);
      forall i, j | 0 <= i < j < |r|
        ensures key(r[i]) <= key(r[j])
      {
        if j >= |r0| {
          assert r[j] == last && r[i] == r0[i];
          assert r0[i] in r0;
        } else {
          assert r[i] == r0[i] && r[j] == r0[j];
        }
      }
    }
  }

  /** `r` is the subsequence of `s` at the strictly increasing positions `idx`; every
      picked element passes `p` and every position where `p` holds is picked. */
  ghost predicate PicksExactly<T>(r: seq<T>, s: seq<T>, p: T -> bool, idx: seq<nat>) {
    && |idx| == |r|
    && (forall k :: 0 <= k < |idx| ==> idx[k] < |s| && r[k] == s[idx[k]] && p(r[k]))
    && (forall k, l :: 0 <= k < l < |idx| ==> idx[k] < idx[l])
    && (forall i :: 0 <= i < |s| && p(s[i]) ==> i in idx)
  }

  /** A passing element appended to `s` is picked at its position. */
  lemma PicksSnocPass<T>(r: seq<T>, s: seq<T>, p: T -> bool, idx: seq<nat>, x: T) returns (idx': seq<nat>)
    requires PicksExactly(r, s, p, idx) && p(x)
    ensures PicksExactly(r + [x], s + [x], p, idx')
  {
    idx' := idx + [|s|];
    assert forall k :: 0 <= k < |idx| ==> idx'[k] == idx[k] && (r + [x])[k] == r[k] && (s + [x])[idx[k]] == s[idx[k]];
    assert forall i :: 0 <= i < |s| ==> (s + [x])[i] == s[i];
  }

  /** A failing element appended to `s` is not picked. */
  lemma PicksSnocFail<T>(r: seq<T>, s: seq<T>, p: T -> bool, idx: seq<nat>, x: T)
    requires PicksExactly(r, s, p, idx) && !p(x)
    ensures PicksExactly(r, s + [x], p, idx)
  {
    assert forall k :: 0 <= k < |idx| ==> (s + [x])[idx[k]] == s[idx[k]];
    assert forall i :: 0 <= i < |s| ==> (s + [x])[i] == s[i];
  }

  /** `Filter` is the order-preserving subsequence of the elements that pass: it picks
      them at increasing positions, and picks exactly the positions that pass. */
  lemma {:induction false} FilterPicks<T>(s: seq<T>, p: T -> bool) returns (idx: seq<nat>)
    ensures PicksExactly(Filter(s, p), s, p, idx)
    decreases |s|
  {
    if s == [] {
      idx := [];
    } else {
      var init := s[..|s| - 1];
      var last := s[|s| - 1];
      var idx0 := FilterPicks(init, p);
      assert s == init + [last];
      if p(last) {
        assert Filter(s, p) == Filter(init, p) + [last];
        idx := PicksSnocPass(Filter(init, p), init, p, idx0, last);
      } else {
        assert Filter(s, p) == Filter(init, p);
        PicksSnocFail(Filter(init, p), init, p, idx0, last);
        idx := idx0;
      }
    }
  }
}
