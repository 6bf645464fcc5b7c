/**
 * The order in which the instance store lists records. Stored ids print as
 * fixed-width lower-case hex (the text of Mongo ObjectIds), so the
 * lexicographic order on their text is the order of the ObjectIds themselves:
 * the order of `sort({ _id: -1 })` read backwards. The same order settles
 * which match an unsorted `findOne` returns, a choice Mongo leaves open.
 */
module Ordering {

  /** Strict lexicographic order on text. */
  predicate Below(a: string, b: string)
  {
    if a == [] then b != []
    else if b == [] then false
    else a[0] < b[0] || (a[0] == b[0] && Below(a[1..], b[1..]))
  }

  lemma BelowIrreflexive(a: string)
    ensures !Below(a, a)
  {
  }

  lemma {:induction false} BelowAsymmetric(a: string, b: string)
    requires Below(a, b)
    ensures !Below(b, a)
  {
    if a != [] && b != [] && a[0] == b[0] {
      BelowAsymmetric(a[1..], b[1..]);
    }
  }

  lemma {:induction false} BelowTransitive(a: string, b: string, c: string)
    requires Below(a, b) && Below(b, c)
    ensures Below(a, c)
  {
    if a != [] && b != [] && c != [] && a[0] == b[0] && b[0] == c[0] {
      BelowTransitive(a[1..], b[1..], c[1..]);
    }
  }

  lemma {:induction false} BelowTotal(a: string, b: string)
    requires a != b
    ensures Below(a, b) || Below(b, a)
  {
    if a != [] && b != [] && a[0] == b[0] {
      assert a == [a[0]] + a[1..] && b == [b[0]] + b[1..];
      BelowTotal(a[1..], b[1..]);
    }
  }

  /** `m` is the greatest element of `s`. */
  predicate IsTop(m: string, s: set<string>)
  {
    m in s && forall y :: y in s ==> !Below(m, y)
  }

  lemma TopAbove(m: string, s: set<string>)
    requires IsTop(m, s)
    ensures forall y :: y in s && y != m ==> Below(y, m)
  {
    forall y | y in s && y != m
      ensures Below(y, m)
    {
      BelowTotal(y, m);
    }
  }

  lemma {:induction false} TopExists(s: set<string>)
    requires s != {}
    ensures exists m :: IsTop(m, s)
  {
    var y :| y in s;
    if s == {y} {
      BelowIrreflexive(y);
      assert IsTop(y, s);
    } else {
      var rest := s - {y};
      TopExists(rest);
      var m :| IsTop(m, rest);
      if Below(m, y) {
        forall z | z in s
          ensures !Below(y, z)
        {
          if z == y {
            BelowIrreflexive(y);
          } else if Below(y, z) {
            BelowTransitive(m, y, z);
          }
        }
        assert IsTop(y, s);
      } else {
        assert IsTop(m, s);
      }
    }
  }

  lemma TopUnique(s: set<string>)
    ensures forall m1, m2 :: IsTop(m1, s) && IsTop(m2, s) ==> m1 == m2
  {
    forall m1, m2 | IsTop(m1, s) && IsTop(m2, s)
      ensures m1 == m2
    {
      if m1 != m2 {
        BelowTotal(m1, m2);
      }
    }
  }

  /** The greatest element of a non-empty set. */
  function Top(s: set<string>): (m: string)
    requires s != {}
    ensures IsTop(m, s)
  {
    TopExists(s);
    TopUnique(s);
    var m :| IsTop(m, s);
    m
  }

  /** Strictly decreasing: every later element is below every earlier one. */
  predicate StrictlyDescending(r: seq<string>)
  {
    forall i, j :: 0 <= i < j < |r| ==> Below(r[j], r[i])
  }

  /** The elements of `s`, greatest first. */
  function Descending(s: set<string>): (r: seq<string>)
    ensures |r| == |s|
    ensures forall i :: 0 <= i < |r| ==> r[i] in s
    ensures forall x :: x in s ==> x in r
    decreases s
  {
    if s == {} then []
    else [Top(s)] + Descending(s - {Top(s)})
  }

  /** `Descending` lists greatest first. */
  lemma {:induction false} DescendingIsStrict(s: set<string>)
    ensures StrictlyDescending(Descending(s))
    decreases s
  {
    if s != {} {
      var m := Top(s);
      var rest := Descending(s - {m});
      DescendingIsStrict(s - {m});
      TopAbove(m, s);
      assert forall k :: 0 <= k < |rest| ==> rest[k] in s - {m};
      ConsDescending(m, rest);
      assert Descending(s) == [m] + rest;
    }
  }

  /** Putting an element above all of a strictly descending listing in front keeps it strictly descending. */
  lemma ConsDescending(m: string, rest: seq<string>)
    requires StrictlyDescending(rest)
    requires forall k :: 0 <= k < |rest| ==> Below(rest[k], m)
    ensures StrictlyDescending([m] + rest)
  {
    var r := [m] + rest;
    forall i, j | 0 <= i < j < |r|
      ensures Below(r[j], r[i])
    {
      assert r[j] == rest[j - 1];
      if i > 0 {
        assert r[i] == rest[i - 1];
      }
    }
  }

  /** How many elements of `s` lie strictly above `x`: its position in `Descending(s)`. */
  function Rank(s: set<string>, x: string): nat
  {
    |set y | y in s && Below(x, y)|
  }

  lemma {:induction false} DescendingRank(s: set<string>, i: nat)
    requires i < |s|
    ensures Rank(s, Descending(s)[i]) == i
    decreases s
  {
    var m := Top(s);
    var rest := s - {m};
    var all := Descending(s);
    assert all == [m] + Descending(rest);
    if i == 0 {
      assert all[0] == m;
      NothingAboveTop(s, m);
    } else {
      var x := Descending(rest)[i - 1];
      assert all[i] == x && x in rest;
      DescendingRank(rest, i - 1);
      RankWithTop(s, m, x);
    }
  }

  /** The top element has rank zero. */
  lemma NothingAboveTop(s: set<string>, m: string)
    requires IsTop(m, s)
    ensures Rank(s, m) == 0
  {
    assert (set y | y in s && Below(m, y)) == {};
  }

  /** Below the top element, the rank in `s` is one more than the rank without the top. */
  lemma RankWithTop(s: set<string>, m: string, x: string)
    requires IsTop(m, s) && x in s && x != m
    ensures Rank(s, x) == Rank(s - {m}, x) + 1
  {
    TopAbove(m, s);
    var above := set y | y in s && Below(x, y);
    var aboveInRest := set y | y in s - {m} && Below(x, y);
    assert above == aboveInRest + {m};
    assert m !in aboveInRest;
  }

  /** Index `k` of `x` in `Descending(s)` is its rank. */
  lemma IndexIsRank(s: set<string>, x: string, k: nat)
    requires k < |Descending(s)| && Descending(s)[k] == x
    ensures Rank(s, x) == k
  {
    DescendingRank(s, k);
  }

  /** Where a page of `skip`/`limit` starts and ends in a listing of `n` elements; a limit of zero means no limit. */
  function PageStart(n: nat, skip: nat): (from: nat)
    ensures from <= n
    ensures from == skip || (from == n && skip >= n)
  {
    if skip < n then skip else n
  }

  function PageEnd(n: nat, skip: nat, limit: nat): (upto: nat)
    ensures PageStart(n, skip) <= upto <= n
    ensures limit != 0 ==> upto - PageStart(n, skip) <= limit
    ensures limit == 0 ==> upto == n
  {
    var from := PageStart(n, skip);
    if limit == 0 || from + limit > n then n else from + limit
  }

  /** A slice of a strictly descending listing is strictly descending. */
  lemma SliceDescending(all: seq<string>, from: nat, upto: nat)
    requires StrictlyDescending(all) && from <= upto <= |all|
    ensures StrictlyDescending(all[from..upto])
  {
    var w := all[from..upto];
    forall i, j | 0 <= i < j < |w|
      ensures Below(w[j], w[i])
    {
      assert w[i] == all[from + i] && w[j] == all[from + j];
    }
  }

  /** In a strictly descending listing, an element lies in a slice exactly when its index does. */
  lemma InSlice(all: seq<string>, from: nat, upto: nat, k: nat)
    requires StrictlyDescending(all) && from <= upto <= |all| && k < |all|
    ensures all[k] in all[from..upto] <==> from <= k < upto
  {
    if all[k] in all[from..upto] {
      var j :| 0 <= j < upto - from && all[from..upto][j] == all[k];
      assert all[from + j] == all[k];
      if from + j != k {
        BelowIrreflexive(all[k]);
      }
    }
  }

  /**
   * The page `skip`/`limit` of the elements of `s`, greatest first. A limit of
   * zero means no limit, and a skip past the end leaves nothing.
   */
  function Page(s: set<string>, skip: nat, limit: nat): (w: seq<string>)
    ensures StrictlyDescending(w)
    ensures forall i :: 0 <= i < |w| ==> w[i] in s
    ensures forall x :: x in s ==>
      (x in w <==> skip <= Rank(s, x) && (limit == 0 || Rank(s, x) < skip + limit))
    ensures limit != 0 ==> |w| <= limit
  {
    var all := Descending(s);
    var from := PageStart(|all|, skip);
    var upto := PageEnd(|all|, skip, limit);
    DescendingIsStrict(s);
    SliceDescending(all, from, upto);
    PageMembers(s, skip, limit);
    all[from..upto]
  }

  /** Which elements a page holds, by rank. */
  lemma PageMembers(s: set<string>, skip: nat, limit: nat)
    ensures var all := Descending(s);
      var w := all[PageStart(|all|, skip)..PageEnd(|all|, skip, limit)];
      forall x :: x in s ==>
        (x in w <==> skip <= Rank(s, x) && (limit == 0 || Rank(s, x) < skip + limit))
  {
    var all := Descending(s);
    var from := PageStart(|all|, skip);
    var upto := PageEnd(|all|, skip, limit);
    var w := all[from..upto];
    DescendingIsStrict(s);
    forall x | x in s
      ensures x in w <==> skip <= Rank(s, x) && (limit == 0 || Rank(s, x) < skip + limit)
    {
      var k :| 0 <= k < |all| && all[k] == x;
      IndexIsRank(s, x, k);
      InSlice(all, from, upto, k);
    }
  }

  /** The least element of a non-empty set. */
  function Least(s: set<string>): (x: string)
    requires s != {}
    ensures x in s
    ensures forall y :: y in s && y != x ==> Below(x, y)
  {
    var all := Descending(s);
    var x := all[|all| - 1];
    DescendingIsStrict(s);
    forall y | y in s && y != x
      ensures Below(x, y)
    {
      var k :| 0 <= k < |all| && all[k] == y;
    }
    x
  }
}
