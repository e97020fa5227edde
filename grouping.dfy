/** Group-by with summation, as the finance page does it with a JavaScript `Map`:
    keys are kept in first-insertion order (a `Map` iterates its entries in the order
    their keys were first `set`), and each key carries the sum of its rows. All the
    functions walk the rows left to right, peeling off the last row, which is the
    order `forEach` visits them in. */
module Grouping {

  /** All elements differ. */
  ghost predicate Distinct<K>(ks: seq<K>) {
    forall i, j :: 0 <= i < j < |ks| ==> ks[i] != ks[j]
  }

  /** `rows.reduce((acc, r) => acc + f(r), 0)`. */
  function Total<T>(rows: seq<T>, f: T -> int): int
    decreases |rows|
  {
    if rows == [] then 0 else Total(rows[..|rows| - 1], f) + f(rows[|rows| - 1])
  }

  lemma TotalSnoc<T>(rows: seq<T>, r: T, f: T -> int)
    ensures Total(rows + [r], f) == Total(rows, f) + f(r)
  {
    assert (rows + [r])[..|rows|] == rows;
  }

  /** The keys of `rows`, each once, in the order of their first occurrence: the key
      order of a `Map` after `set(key(r), ...)` for each row `r` in turn. */
  function KeyOrder<T, K(==)>(rows: seq<T>, key: T -> K): seq<K>
    decreases |rows|
  {
    if rows == [] then []
    else
      var prior := KeyOrder(rows[..|rows| - 1], key);
      var k := key(rows[|rows| - 1]);
      if k in prior then prior else prior + [k]
  }

  /** Sum of `f` over the rows whose key is `k`. */
  function SumWhere<T, K(==)>(rows: seq<T>, key: T -> K, f: T -> int, k: K): int
    decreases |rows|
  {
    if rows == [] then 0
    else
      var last := rows[|rows| - 1];
      SumWhere(rows[..|rows| - 1], key, f, k) + (if key(last) == k then f(last) else 0)
  }

  /** Sum, over the keys `ks`, of each key's group sum. */
  function SumOver<T, K(==)>(ks: seq<K>, rows: seq<T>, key: T -> K, f: T -> int): int
    decreases |ks|
  {
    if ks == [] then 0
    else SumOver(ks[..|ks| - 1], rows, key, f) + SumWhere(rows, key, f, ks[|ks| - 1])
  }

  /** The last row's key is appended exactly when it has not been seen before. */
  lemma KeyOrderSnoc<T, K>(rows: seq<T>, r: T, key: T -> K)
    ensures KeyOrder(rows + [r], key)
         == if key(r) in KeyOrder(rows, key) then KeyOrder(rows, key) else KeyOrder(rows, key) + [key(r)]
  {
    assert (rows + [r])[..|rows|] == rows;
  }

  lemma {:induction false} KeyOrderDistinct<T, K>(rows: seq<T>, key: T -> K)
    ensures Distinct(KeyOrder(rows, key))
    decreases |rows|
  {
    if rows != [] {
      KeyOrderDistinct(rows[..|rows| - 1], key);
    }
  }

  /** A key is listed exactly when some row has it. */
  lemma {:induction false} KeyOrderMembers<T, K>(rows: seq<T>, key: T -> K, k: K)
    ensures k in KeyOrder(rows, key) <==> exists i :: 0 <= i < |rows| && key(rows[i]) == k
    decreases |rows|
  {
    if rows != [] {
      var init := rows[..|rows| - 1];
      KeyOrderMembers(init, key, k);
      if k in KeyOrder(init, key) {
        var i :| 0 <= i < |init| && key(init[i]) == k;
        assert key(rows[i]) == k;
      }
      if exists i :: 0 <= i < |rows| && key(rows[i]) == k {
        var i :| 0 <= i < |rows| && key(rows[i]) == k;
        if i < |init| {
          assert key(init[i]) == k;
        }
      }
    }
  }

  /** The keys of any prefix of the rows come first, in the same order: keys are listed
      in first-occurrence order. */
  lemma {:induction false} KeyOrderPrefix<T, K>(rows: seq<T>, key: T -> K, m: nat)
    requires m <= |rows|
    ensures KeyOrder(rows[..m], key) <= KeyOrder(rows, key)
    decreases |rows|
  {
    if m < |rows| {
      var init := rows[..|rows| - 1];
      assert rows[..m] == init[..m];
      KeyOrderPrefix(init, key, m);
    } else {
      assert rows[..m] == rows;
    }
  }

  /** Appending a row adds its value to its own key's sum only. */
  lemma SumWhereSnoc<T, K>(rows: seq<T>, r: T, key: T -> K, f: T -> int, k: K)
    ensures SumWhere(rows + [r], key, f, k) == SumWhere(rows, key, f, k) + (if key(r) == k then f(r) else 0)
  {
    assert (rows + [r])[..|rows|] == rows;
  }

  /** A key that no row has sums to nothing. */
  lemma {:induction false} SumWhereAbsent<T, K>(rows: seq<T>, key: T -> K, f: T -> int, k: K)
    requires k !in KeyOrder(rows, key)
    ensures SumWhere(rows, key, f, k) == 0
    decreases |rows|
  {
    if rows != [] {
      var init := rows[..|rows| - 1];
      assert KeyOrder(init, key) <= KeyOrder(rows, key);
      SumWhereAbsent(init, key, f, k);
    }
  }

  /** Appending a row adds its value to the one group among distinct keys that it
      belongs to, if any. */
  lemma {:induction false} SumOverSnoc<T, K>(ks: seq<K>, rows: seq<T>, r: T, key: T -> K, f: T -> int)
    requires Distinct(ks)
    ensures SumOver(ks, rows + [r], key, f) == SumOver(ks, rows, key, f) + (if key(r) in ks then f(r) else 0)
    decreases |ks|
  {
    assert (rows + [r])[..|rows|] == rows;
    if ks != [] {
      var init := ks[..|ks| - 1];
      SumOverSnoc(init, rows, r, key, f);
      assert key(r) in ks <==> key(r) in init || key(r) == ks[|ks| - 1];
      if key(r) == ks[|ks| - 1] {
        assert key(r) !in init;
      }
    }
  }

  /** Conservation: the group sums add up to the sum over all rows. */
  lemma {:induction false} GroupsConserve<T, K>(rows: seq<T>, key: T -> K, f: T -> int)
    ensures SumOver(KeyOrder(rows, key), rows, key, f) == Total(rows, f)
    decreases |rows|
  {
    if rows != [] {
      var init := rows[..|rows| - 1];
      var r := rows[|rows| - 1];
      assert rows == init + [r];
      var prior := KeyOrder(init, key);
      GroupsConserve(init, key, f);
      KeyOrderDistinct(init, key);
      SumOverSnoc(prior, init, r, key, f);
      if key(r) !in prior {
        SumWhereAbsent(init, key, f, key(r));
        assert SumWhere(rows, key, f, key(r)) == f(r);
        assert (prior + [key(r)])[..|prior|] == prior;
      }
    }
  }

  /** When the rows come sorted by key, each new key is larger than every key before it,
      so the key list is strictly increasing. */
  lemma {:induction false} KeyOrderAscending<T>(rows: seq<T>, key: T -> int)
    requires forall i, j :: 0 <= i < j < |rows| ==> key(rows[i]) <= key(rows[j])
    ensures forall i, j :: 0 <= i < j < |KeyOrder(rows, key)| ==> KeyOrder(rows, key)[i] < KeyOrder(rows, key)[j]
    decreases |rows|
  {
    if rows != [] {
      var init := rows[..|rows| - 1];
      var r := rows[|rows| - 1];
      var prior := KeyOrder(init, key);
      KeyOrderAscending(init, key);
      if key(r) !in prior {
        forall p | p in prior
          ensures p < key(r)
        {
          KeyOrderMembers(init, key, p);
          var i :| 0 <= i < |init| && key(init[i]) == p;
          assert key(rows[i]) <= key(r);
        }
        var ks := KeyOrder(rows, key);
        assert ks == prior + [key(r)];
        forall i, j | 0 <= i < j < |ks|
          ensures ks[i] < ks[j]
        {
          if j == |prior| {
            assert ks[i] in prior;
          } else {
            assert ks[i] == prior[i] && ks[j] == prior[j];
          }
        }
      }
    }
  }

  /** A table listing, for each key of `ks`, a value `g` equal to that key's group sum
      adds up to the sum over the keys of the group sums. */
  lemma {:induction false} TotalOfTable<E, T, K>(es: seq<E>, g: E -> int, ks: seq<K>, rows: seq<T>, key: T -> K, f: T -> int)
    requires |es| == |ks|
    requires forall i :: 0 <= i < |es| ==> g(es[i]) == SumWhere(rows, key, f, ks[i])
    ensures Total(es, g) == SumOver(ks, rows, key, f)
    decreases |es|
  {
    if es != [] {
      TotalOfTable(es[..|es| - 1], g, ks[..|ks| - 1], rows, key, f);
    }
  }
}
