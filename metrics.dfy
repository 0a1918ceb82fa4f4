/**
 * The composite counts shared by the report variants: the number of chart
 * numbers two equipment sets have in common (glaucoma is HFA with OCT, the
 * LASIK base is ORB with TOPO), read from a table of per-equipment sets
 * where a missing equipment counts as the empty set.
 */
module Metrics {

  /** The reservation counts: {'verion': .., 'lensx': .., 'ex500': ..}. */
  datatype Tally = Tally(verion: nat, lensx: nat, ex500: nat)

  function Total(t: Tally): nat { t.verion + t.lensx + t.ex500 }

  /** |a & b|: how many numbers appear in both sets. */
  function CoCount(a: set<string>, b: set<string>): (n: nat)
    ensures n <= |a| && n <= |b|
    ensures n + |a + b| == |a| + |b|
    ensures n == 0 <==> a !! b
  {
    InclusionExclusion(a, b);
    |a * b|
  }

  /** Counting the union counts the common part twice. */
  lemma {:induction false} InclusionExclusion(a: set<string>, b: set<string>)
    ensures |a * b| + |a + b| == |a| + |b|
    ensures |a * b| <= |a| && |a * b| <= |b|
    decreases |a|
  {
    SubsetSize(a * b, b);
    if a == {} {
      assert a * b == {} && a + b == b;
    } else {
      var x :| x in a;
      var rest := a - {x};
      InclusionExclusion(rest, b);
      if x in b {
        assert a * b == (rest * b) + {x};
        assert a + b == rest + b;
      } else {
        assert a * b == rest * b;
        assert a + b == (rest + b) + {x};
      }
    }
  }

  lemma {:induction false} SubsetSize(s: set<string>, t: set<string>)
    requires s <= t
    ensures |s| <= |t|
    decreases |s|
  {
    if s != {} {
      var x :| x in s;
      SubsetSize(s - {x}, t - {x});
    }
  }

  /** The chart numbers scanned for one equipment, or the empty set when it was not scanned. */
  function SetOf(table: map<string, set<string>>, id: string): (s: set<string>)
    ensures id !in table ==> s == {}
    ensures id in table ==> s == table[id]
  {
    if id in table then table[id] else {}
  }

  /**
   * calculate_glaucoma: the patients seen on both HFA and OCT today. An
   * equipment missing from the table counts as nobody.
   */
  function Glaucoma(table: map<string, set<string>>): (n: nat)
    ensures "HFA" !in table || "OCT" !in table ==> n == 0
    ensures n <= |SetOf(table, "HFA")| && n <= |SetOf(table, "OCT")|
    ensures n == |SetOf(table, "HFA") * SetOf(table, "OCT")|
  {
    CoCount(SetOf(table, "HFA"), SetOf(table, "OCT"))
  }

  /** Glaucoma counts exactly the numbers present in both sets. */
  lemma GlaucomaExample()
    ensures Glaucoma(map["HFA" := {"101", "102"}, "OCT" := {"102", "103"}]) == 1
  {
    var t := map["HFA" := {"101", "102"}, "OCT" := {"102", "103"}];
    assert SetOf(t, "HFA") * SetOf(t, "OCT") == {"102"};
  }
}
