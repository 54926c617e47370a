/** Small helpers shared by the model: an optional value and the row filter
    that every query of the store is built from. */
module Common {

  datatype Option<+T> = None | Some(value: T)

  /** The rows of `s` that satisfy `keep`, in their original order: a
      `WHERE` clause over a table whose rows are kept in primary-key order. */
  function Filter<T(!new)>(s: seq<T>, keep: T -> bool): (r: seq<T>)
    ensures |r| <= |s|
    ensures forall x :: x in r <==> x in s && keep(x)
    ensures forall x :: multiset(r)[x] == if keep(x) then multiset(s)[x] else 0
  {
    if s == [] then []
    else
      assert s == [s[0]] + s[1..];
      if keep(s[0]) then [s[0]] + Filter(s[1..], keep) else Filter(s[1..], keep)
  }

  /** Filtering a concatenation filters each part in place, so the kept rows
      stay in their original order. */
  lemma {:induction false} FilterAppend<T(!new)>(s1: seq<T>, s2: seq<T>, keep: T -> bool)
    ensures Filter(s1 + s2, keep) == Filter(s1, keep) + Filter(s2, keep)
  {
    if s1 == [] {
      assert s1 + s2 == s2;
    } else {
      var s := s1 + s2;
      assert s == [s1[0]] + (s1[1..] + s2);
      assert s[1..] == s1[1..] + s2;
      FilterAppend(s1[1..], s2, keep);
      if keep(s1[0]) {
        calc {
          Filter(s, keep);
          [s1[0]] + Filter(s1[1..] + s2, keep);
          [s1[0]] + (Filter(s1[1..], keep) + Filter(s2, keep));
          ([s1[0]] + Filter(s1[1..], keep)) + Filter(s2, keep);
          Filter(s1, keep) + Filter(s2, keep);
        }
      } else {
        calc {
          Filter(s, keep);
          Filter(s1[1..] + s2, keep);
          Filter(s1[1..], keep) + Filter(s2, keep);
          Filter(s1, keep) + Filter(s2, keep);
        }
      }
    }
  }

  /** `k` copies of `x`. */
  function Repeat<T(!new)>(x: T, k: nat): (r: seq<T>)
    ensures |r| == k
    ensures forall y :: multiset(r)[y] == if y == x then k else 0
  {
    if k == 0 then [] else [x] + Repeat(x, k - 1)
  }

  /** Every row of `s`, in order, each repeated `copies` of itself times: the
      rows a join yields when each row meets `copies(row)` partner rows. */
  function Expand<T(!new)>(s: seq<T>, copies: T -> nat): (r: seq<T>)
    ensures forall x :: multiset(r)[x] == multiset(s)[x] * copies(x)
    ensures forall x :: x in r <==> x in s && copies(x) > 0
  {
    if s == [] then []
    else
      var head := Repeat(s[0], copies(s[0]));
      var tail := Expand(s[1..], copies);
      assert s == [s[0]] + s[1..];
      forall x ensures multiset(head + tail)[x] == multiset(s)[x] * copies(x) {
        ExpandCount(multiset(s[1..])[x], x == s[0], copies(x));
      }
      forall x ensures x in head + tail <==> x in s && copies(x) > 0 {
        assert x in head + tail <==> multiset(head + tail)[x] > 0;
        PositiveProduct(multiset(s)[x], copies(x));
      }
      head + tail
  }

  lemma ExpandCount(n: nat, isHead: bool, c: nat)
    ensures (if isHead then c else 0) + n * c == (if isHead then 1 + n else n) * c
  {
  }

  lemma PositiveProduct(m: nat, c: nat)
    ensures m * c > 0 <==> m > 0 && c > 0
  {
  }

  /** Every earlier row is related to every later row by `ok`. */
  predicate Pairwise<T>(s: seq<T>, ok: (T, T) -> bool)
  {
    forall i, j :: 0 <= i < j < |s| ==> ok(s[i], s[j])
  }

  /** Filtering keeps the rows in order, so a pairwise property survives it. */
  lemma {:induction false} FilterPairwise<T(!new)>(s: seq<T>, keep: T -> bool, ok: (T, T) -> bool)
    requires Pairwise(s, ok)
    ensures Pairwise(Filter(s, keep), ok)
  {
    if s != [] {
      var rest := Filter(s[1..], keep);
      assert Pairwise(s[1..], ok) by {
        forall i, j | 0 <= i < j < |s[1..]| ensures ok(s[1..][i], s[1..][j]) {
          assert s[1..][i] == s[i + 1] && s[1..][j] == s[j + 1];
        }
      }
      FilterPairwise(s[1..], keep, ok);
      if keep(s[0]) {
        var r := [s[0]] + rest;
        forall i, j | 0 <= i < j < |r| ensures ok(r[i], r[j]) {
          if i == 0 {
            assert r[j] in s[1..];
            var k :| 0 <= k < |s[1..]| && s[1..][k] == r[j];
            assert s[k + 1] == r[j];
          } else {
            assert r[i] == rest[i - 1] && r[j] == rest[j - 1];
          }
        }
      }
    }
  }
}
