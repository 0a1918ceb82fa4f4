/**
 * Python's ordering of strings (code point by code point, a proper prefix
 * first) and the two sorts the scanners apply to lists of names: ascending
 * (sorted) and descending (list.sort(reverse=True)).
 */
module Sorting {

  /** a <= b in Python's string order. */
  predicate LexLe(a: string, b: string)
    decreases |a|
  {
    a == [] || (b != [] && (a[0] < b[0] || (a[0] == b[0] && LexLe(a[1..], b[1..]))))
  }

  lemma {:induction false} LexLeTotal(a: string, b: string)
    ensures LexLe(a, b) || LexLe(b, a)
    decreases |a|
  {
    if a != [] && b != [] && a[0] == b[0] {
      LexLeTotal(a[1..], b[1..]);
    }
  }

  lemma {:induction false} LexLeReflexive(a: string)
    ensures LexLe(a, a)
    decreases |a|
  {
    if a != [] {
      LexLeReflexive(a[1..]);
    }
  }

  lemma {:induction false} LexLeTransitive(a: string, b: string, c: string)
    requires LexLe(a, b) && LexLe(b, c)
    ensures LexLe(a, c)
    decreases |a|
  {
    if a != [] && a[0] == b[0] && b[0] == c[0] {
      LexLeTransitive(a[1..], b[1..], c[1..]);
    }
  }

  lemma {:induction false} LexLeAntisymmetric(a: string, b: string)
    requires LexLe(a, b) && LexLe(b, a)
    ensures a == b
    decreases |a|
  {
    if a != [] {
      LexLeAntisymmetric(a[1..], b[1..]);
      assert a == [a[0]] + a[1..] && b == [b[0]] + b[1..];
    }
  }

  predicate Ascending(s: seq<string>)
  {
    forall i, j | 0 <= i < j < |s| :: LexLe(s[i], s[j])
  }

  predicate Descending(s: seq<string>)
  {
    forall i, j | 0 <= i < j < |s| :: LexLe(s[j], s[i])
  }

  /** x placed in front of the first element of an ascending list that is not below it. */
  function InsertAsc(x: string, s: seq<string>): (r: seq<string>)
    requires Ascending(s)
    ensures Ascending(r) && multiset(r) == multiset(s) + multiset{x}
    decreases |s|
  {
    if s == [] then [x]
    else if LexLe(x, s[0]) then
      (forall j | 0 < j < |s| ensures LexLe(x, s[j]) { LexLeTransitive(x, s[0], s[j]); }
       [x] + s)
    else
      LexLeTotal(x, s[0]);
      var t := InsertAsc(x, s[1..]);
      assert s == [s[0]] + s[1..];
      assert forall k | 0 <= k < |t| :: LexLe(s[0], t[k]) by {
        forall k | 0 <= k < |t| ensures LexLe(s[0], t[k]) {
          assert t[k] in multiset(t);
          if t[k] != x {
            assert t[k] in multiset(s[1..]);
            var j :| 0 <= j < |s[1..]| && s[1..][j] == t[k];
            assert s[j + 1] == t[k];
          }
        }
      }
      [s[0]] + t
  }

  /** sorted(xs): an insertion sort, ascending. */
  function SortAsc(xs: seq<string>): (r: seq<string>)
    ensures Ascending(r) && multiset(r) == multiset(xs) && |r| == |xs|
    decreases |xs|
  {
    if xs == [] then []
    else
      assert xs == xs[..|xs| - 1] + [xs[|xs| - 1]];
      assert multiset(xs) == multiset(xs[..|xs| - 1]) + multiset{xs[|xs| - 1]};
      InsertAsc(xs[|xs| - 1], SortAsc(xs[..|xs| - 1]))
  }

  function Reverse(s: seq<string>): (r: seq<string>)
    ensures |r| == |s| && forall k | 0 <= k < |s| :: r[k] == s[|s| - 1 - k]
    ensures multiset(r) == multiset(s)
    decreases |s|
  {
    if s == [] then []
    else
      assert s == [s[0]] + s[1..];
      Reverse(s[1..]) + [s[0]]
  }

  /** list.sort(reverse=True) on strings: the ascending order read backwards. */
  function SortDesc(xs: seq<string>): (r: seq<string>)
    ensures Descending(r) && multiset(r) == multiset(xs) && |r| == |xs|
  {
    ReverseAscending(SortAsc(xs));
    Reverse(SortAsc(xs))
  }

  lemma ReverseAscending(a: seq<string>)
    requires Ascending(a)
    ensures Descending(Reverse(a))
  {
    var r := Reverse(a);
    forall i, j | 0 <= i < j < |r| ensures LexLe(r[j], r[i]) {
      assert r[i] == a[|a| - 1 - i] && r[j] == a[|a| - 1 - j];
    }
  }

  /** Two ascending orderings of the same names are the same list: the sorted order is unique. */
  lemma {:induction false} AscendingUnique(s: seq<string>, t: seq<string>)
    requires Ascending(s) && Ascending(t) && multiset(s) == multiset(t)
    ensures s == t
    decreases |s|
  {
    if s == [] {
      assert |multiset(t)| == 0;
    } else {
      AscendingHeads(s, t);
      TailMultisets(s, t);
      assert Ascending(s[1..]) && Ascending(t[1..]);
      AscendingUnique(s[1..], t[1..]);
      assert s == [s[0]] + s[1..] && t == [t[0]] + t[1..];
    }
  }

  /** Both orderings start with the least name. */
  lemma AscendingHeads(s: seq<string>, t: seq<string>)
    requires Ascending(s) && Ascending(t) && multiset(s) == multiset(t) && s != []
    ensures t != [] && s[0] == t[0]
  {
    assert s[0] in multiset(t);
    var i :| 0 <= i < |t| && t[i] == s[0];
    assert t[0] in multiset(s);
    var j :| 0 <= j < |s| && s[j] == t[0];
    LexLeReflexive(s[0]);
    LexLeReflexive(t[0]);
    assert LexLe(t[0], t[i]) && LexLe(s[0], s[j]);
    LexLeAntisymmetric(s[0], t[0]);
  }

  lemma TailMultisets(s: seq<string>, t: seq<string>)
    requires s != [] && t != [] && s[0] == t[0] && multiset(s) == multiset(t)
    ensures multiset(s[1..]) == multiset(t[1..])
  {
    assert s == [s[0]] + s[1..] && t == [t[0]] + t[1..];
    assert multiset(s[1..]) == multiset(s) - multiset{s[0]};
    assert multiset(t[1..]) == multiset(t) - multiset{t[0]};
  }

  // ------------------------------------------------ lists without repeats

  /** No name appears twice. */
  predicate Distinct(s: seq<string>)
  {
    forall i, j | 0 <= i < j < |s| :: s[i] != s[j]
  }

  /** In a list without repeats every name is counted once or not at all. */
  lemma {:induction false} DistinctCounts(s: seq<string>, x: string)
    requires Distinct(s)
    ensures multiset(s)[x] == if x in s then 1 else 0
    decreases |s|
  {
    if s != [] {
      var rest := s[1..];
      assert s == [s[0]] + rest;
      assert Distinct(rest) by {
        forall i, j | 0 <= i < j < |rest| ensures rest[i] != rest[j] {
          assert rest[i] == s[i + 1] && rest[j] == s[j + 1];
        }
      }
      DistinctCounts(rest, x);
      assert multiset(s) == multiset([s[0]]) + multiset(rest);
    }
  }

  /** A name at two positions is counted at least twice. */
  lemma RepeatCounts(s: seq<string>, i: nat, j: nat)
    requires i < j < |s| && s[i] == s[j]
    ensures multiset(s)[s[i]] >= 2
  {
    assert s == s[..j] + s[j..];
    assert s[i] in s[..j] by { assert s[..j][i] == s[i]; }
    assert s[j] in s[j..] by { assert s[j..][0] == s[j]; }
    assert multiset(s) == multiset(s[..j]) + multiset(s[j..]);
  }

  /** A list that counts every name at most once has no repeats. */
  lemma CountsDistinct(s: seq<string>)
    requires forall x :: multiset(s)[x] <= 1
    ensures Distinct(s)
  {
    forall i, j | 0 <= i < j < |s| ensures s[i] != s[j] {
      if s[i] == s[j] {
        RepeatCounts(s, i, j);
      }
    }
  }

  /** Two lists without repeats that hold the same names are permutations of each other. */
  lemma DistinctSameMultiset(s: seq<string>, t: seq<string>)
    requires Distinct(s) && Distinct(t)
    requires forall x :: x in s <==> x in t
    ensures multiset(s) == multiset(t)
  {
    forall x ensures multiset(s)[x] == multiset(t)[x] {
      DistinctCounts(s, x);
      DistinctCounts(t, x);
    }
  }

  /** Sorting a list without repeats gives a list without repeats. */
  lemma SortAscDistinct(xs: seq<string>)
    requires Distinct(xs)
    ensures Distinct(SortAsc(xs))
  {
    forall x ensures multiset(SortAsc(xs))[x] <= 1 {
      DistinctCounts(xs, x);
    }
    CountsDistinct(SortAsc(xs));
  }

  /** Inserting a new name into a list without repeats keeps it without repeats. */
  lemma InsertAscDistinct(x: string, t: seq<string>)
    requires Ascending(t) && Distinct(t) && x !in t
    ensures Distinct(InsertAsc(x, t))
    ensures forall y :: y in InsertAsc(x, t) <==> y == x || y in t
    ensures |InsertAsc(x, t)| == |t| + 1
  {
    var r := InsertAsc(x, t);
    assert |multiset(r)| == |multiset(t)| + 1;
    forall y ensures multiset(r)[y] <= 1 {
      DistinctCounts(t, y);
    }
    CountsDistinct(r);
    forall y ensures y in r <==> y == x || y in t {
      assert y in r <==> y in multiset(r);
      assert y in t <==> y in multiset(t);
    }
  }

  /** sorted(list(names)) for a set: its names ascending, each once. */
  ghost function SortedOf(names: set<string>): (r: seq<string>)
    ensures Ascending(r) && Distinct(r) && |r| == |names|
    ensures forall x :: x in r <==> x in names
    decreases |names|
  {
    if names == {} then []
    else
      var x :| x in names;
      var t := SortedOf(names - {x});
      InsertAscDistinct(x, t);
      InsertAsc(x, t)
  }

  /** Any ascending list without repeats that holds exactly the names of a set is that set sorted. */
  lemma SortedOfUnique(s: seq<string>, names: set<string>)
    requires Ascending(s) && Distinct(s)
    requires forall x :: x in s <==> x in names
    ensures s == SortedOf(names)
  {
    DistinctSameMultiset(s, SortedOf(names));
    AscendingUnique(s, SortedOf(names));
  }
}
