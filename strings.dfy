/**
 * Text helpers shared by every scanner: the optional value, ASCII digits and
 * decimal rendering (Python's str()/int() on identifiers), prefix/suffix/
 * substring tests, ASCII lower-casing and Python's str.replace.
 */
module Strings {

  datatype Option<+T> = None | Some(value: T)

  // ---------------------------------------------------------------- digits

  predicate IsDigit(c: char) { '0' <= c <= '9' }

  predicate AllDigits(s: string) { forall i | 0 <= i < |s| :: IsDigit(s[i]) }

  function DigitValue(c: char): nat
    requires IsDigit(c)
  {
    c as int - '0' as int
  }

  function DigitChar(n: nat): (c: char)
    requires n < 10
    ensures IsDigit(c) && DigitValue(c) == n
  {
    ('0' as int + n) as char
  }

  /** The base-10 value of a digit string, most significant digit first. */
  function DigitsValue(s: string): nat
    requires AllDigits(s)
    decreases |s|
  {
    if s == [] then 0 else 10 * DigitsValue(s[..|s| - 1]) + DigitValue(s[|s| - 1])
  }

  /** Python's int() applied to a captured identifier; None stands for the ValueError. */
  function ParseNat(s: string): (r: Option<nat>)
    ensures r.Some? <==> |s| > 0 && AllDigits(s)
  {
    if |s| > 0 && AllDigits(s) then Some(DigitsValue(s)) else None
  }

  /** Python's str() of a natural number: decimal, no leading zero. */
  function NatToString(n: nat): (r: string)
    ensures |r| > 0 && AllDigits(r)
    ensures r[0] == '0' ==> n == 0
    decreases n
  {
    if n < 10 then [DigitChar(n)] else NatToString(n / 10) + [DigitChar(n % 10)]
  }

  /** Widths of str(n) for the one- to four-digit numbers the dates use. */
  lemma NatToStringWidth(n: nat)
    ensures n < 10 ==> |NatToString(n)| == 1
    ensures 10 <= n < 100 ==> |NatToString(n)| == 2
    ensures 100 <= n < 1000 ==> |NatToString(n)| == 3
    ensures 1000 <= n < 10000 ==> |NatToString(n)| == 4
  {
    if n >= 10 {
      NatToStringWidth(n / 10);
    }
  }

  /** A digit string in canonical form: "0", or no leading zero. */
  predicate Canonical(s: string)
  {
    |s| > 0 && AllDigits(s) && (|s| == 1 || s[0] != '0')
  }

  lemma {:induction false} ParseNatToString(n: nat)
    ensures ParseNat(NatToString(n)) == Some(n)
  {
    if n >= 10 {
      ParseNatToString(n / 10);
      var s := NatToString(n);
      assert s[..|s| - 1] == NatToString(n / 10);
      assert DigitsValue(s) == 10 * DigitsValue(NatToString(n / 10)) + n % 10;
    } else {
      var s := NatToString(n);
      assert s[..0] == [];
      assert DigitsValue(s) == DigitValue(s[0]);
    }
  }

  lemma {:induction false} LeadingDigitPositive(s: string)
    requires |s| > 0 && AllDigits(s) && s[0] != '0'
    ensures DigitsValue(s) >= 1
    decreases |s|
  {
    if |s| > 1 {
      LeadingDigitPositive(s[..|s| - 1]);
    }
  }

  /** Canonical digit strings are exactly the renderings of their own value. */
  lemma {:induction false} CanonicalRoundTrip(s: string)
    requires Canonical(s)
    ensures NatToString(DigitsValue(s)) == s
    decreases |s|
  {
    if |s| > 1 {
      var p := s[..|s| - 1];
      assert Canonical(p);
      CanonicalRoundTrip(p);
      LeadingDigitPositive(p);
      var v := DigitsValue(s);
      assert v / 10 == DigitsValue(p) && v % 10 == DigitValue(s[|s| - 1]);
      assert s == p + [s[|s| - 1]];
    }
  }

  lemma NatToStringCanonical(n: nat)
    ensures Canonical(NatToString(n))
  {
  }

  /** A two-character zero-padded rendering, as strftime's %m and %d. */
  function Pad2(n: nat): (r: string)
    requires n < 100
    ensures |r| == 2 && AllDigits(r)
  {
    [DigitChar(n / 10), DigitChar(n % 10)]
  }

  /** Below ten, the padded form is a zero followed by str(n); from ten on they agree. */
  lemma Pad2VersusNatToString(n: nat)
    requires n < 100
    ensures n < 10 ==> Pad2(n) == "0" + NatToString(n)
    ensures n >= 10 ==> Pad2(n) == NatToString(n)
  {
    if n >= 10 {
      assert NatToString(n / 10) == [DigitChar(n / 10)];
    }
  }

  // ------------------------------------------------------ prefixes and such

  predicate StartsWith(s: string, p: string) { |p| <= |s| && s[..|p|] == p }

  predicate EndsWith(s: string, p: string) { |p| <= |s| && s[|s| - |p|..] == p }

  /** p occurs in s at index i. */
  predicate OccursAt(s: string, p: string, i: int)
  {
    0 <= i && i + |p| <= |s| && s[i..i + |p|] == p
  }

  /** Python's `p in s` on strings. */
  predicate Contains(s: string, p: string)
  {
    exists i | 0 <= i <= |s| :: OccursAt(s, p, i)
  }

  /** s contains at least one of the strings ps. */
  predicate ContainsAny(s: string, ps: seq<string>)
  {
    exists k | 0 <= k < |ps| :: Contains(s, ps[k])
  }

  /** s ends with at least one of the strings es. */
  predicate EndsWithAny(s: string, es: seq<string>)
  {
    exists k | 0 <= k < |es| :: EndsWith(s, es[k])
  }

  /** Python's `c in s` for one character. */
  predicate HasChar(s: string, c: char)
  {
    exists i | 0 <= i < |s| :: s[i] == c
  }

  /** A character occurs in a concatenation exactly when it occurs in one of the parts. */
  lemma HasCharAppend(a: string, b: string, c: char)
    ensures HasChar(a + b, c) <==> HasChar(a, c) || HasChar(b, c)
  {
    if HasChar(b, c) {
      var i :| 0 <= i < |b| && b[i] == c;
      assert (a + b)[|a| + i] == c;
    }
    if HasChar(a, c) {
      var i :| 0 <= i < |a| && a[i] == c;
      assert (a + b)[i] == c;
    }
    if HasChar(a + b, c) {
      var i :| 0 <= i < |a + b| && (a + b)[i] == c;
      if i >= |a| { assert b[i - |a|] == c; } else { assert a[i] == c; }
    }
  }

  lemma ContainsInLonger(a: string, s: string, b: string, p: string)
    requires Contains(s, p)
    ensures Contains(a + s + b, p)
  {
    var i :| 0 <= i <= |s| && OccursAt(s, p, i);
    assert (a + s + b)[|a| + i..|a| + i + |p|] == s[i..i + |p|];
    assert OccursAt(a + s + b, p, |a| + i);
  }

  lemma ContainsItself(p: string)
    ensures Contains(p, p)
  {
    assert OccursAt(p, p, 0);
  }

  // ------------------------------------------------------------- lower case

  function LowerChar(c: char): char
  {
    if 'A' <= c <= 'Z' then (c as int + 32) as char else c
  }

  /** str.lower(), restricted to ASCII letters. */
  function Lower(s: string): (r: string)
    ensures |r| == |s|
    ensures forall i | 0 <= i < |s| :: r[i] == LowerChar(s[i])
  {
    seq(|s|, i requires 0 <= i < |s| => LowerChar(s[i]))
  }

  lemma LowerSlice(s: string, i: nat)
    requires i <= |s|
    ensures Lower(s[i..]) == Lower(s)[i..]
  {
  }

  // ----------------------------------------------------------- str.replace

  /**
   * Python's s.replace(pat, rep): every non-overlapping occurrence of pat,
   * scanning left to right, is replaced by rep.
   */
  function Replace(s: string, pat: string, rep: string): string
    requires |pat| > 0
    decreases |s|
  {
    if |s| < |pat| then s
    else if s[..|pat|] == pat then rep + Replace(s[|pat|..], pat, rep)
    else [s[0]] + Replace(s[1..], pat, rep)
  }

  /** When pat does not occur, replace leaves the string unchanged. */
  lemma {:induction false} ReplaceAbsent(s: string, pat: string, rep: string)
    requires |pat| > 0 && !Contains(s, pat)
    ensures Replace(s, pat, rep) == s
    decreases |s|
  {
    if |s| >= |pat| {
      assert !OccursAt(s, pat, 0);
      forall i ensures !OccursAt(s[1..], pat, i) {
        if OccursAt(s[1..], pat, i) {
          assert s[1..][i..i + |pat|] == s[i + 1..i + 1 + |pat|];
          assert OccursAt(s, pat, i + 1);
        }
      }
      ReplaceAbsent(s[1..], pat, rep);
    }
  }

  /** When pat occurs, the replacement text is present afterwards. */
  lemma {:induction false} ReplacePresent(s: string, pat: string, rep: string)
    requires |pat| > 0 && Contains(s, pat)
    ensures Contains(Replace(s, pat, rep), rep)
    decreases |s|
  {
    var r := Replace(s, pat, rep);
    if s[..|pat|] == pat {
      ContainsInLonger([], rep, Replace(s[|pat|..], pat, rep), rep) by { ContainsItself(rep); }
      assert r == [] + rep + Replace(s[|pat|..], pat, rep);
    } else {
      var i :| 0 <= i <= |s| && OccursAt(s, pat, i);
      assert i != 0;
      assert s[1..][i - 1..i - 1 + |pat|] == s[i..i + |pat|];
      assert OccursAt(s[1..], pat, i - 1);
      ReplacePresent(s[1..], pat, rep);
      ContainsInLonger([s[0]], Replace(s[1..], pat, rep), [], rep);
      assert r == [s[0]] + Replace(s[1..], pat, rep) + [];
    }
  }

  /** Characters of the result come from the input or from the replacement. */
  lemma {:induction false} ReplaceChars(s: string, pat: string, rep: string, c: char)
    requires |pat| > 0 && !HasChar(s, c) && !HasChar(rep, c)
    ensures !HasChar(Replace(s, pat, rep), c)
    decreases |s|
  {
    if |s| >= |pat| {
      if s[..|pat|] == pat {
        assert !HasChar(s[|pat|..], c) by {
          forall i | 0 <= i < |s| - |pat| ensures s[|pat|..][i] != c { assert s[|pat|..][i] == s[|pat| + i]; }
        }
        ReplaceChars(s[|pat|..], pat, rep, c);
      } else {
        assert !HasChar(s[1..], c) by {
          forall i | 0 <= i < |s| - 1 ensures s[1..][i] != c { assert s[1..][i] == s[i + 1]; }
        }
        ReplaceChars(s[1..], pat, rep, c);
      }
    }
  }

  /** A string without the character c contains no token that has c in it. */
  lemma NoCharNoToken(s: string, t: string, c: char)
    requires !HasChar(s, c) && HasChar(t, c)
    ensures !Contains(s, t)
  {
    var j :| 0 <= j < |t| && t[j] == c;
    forall i | 0 <= i <= |s| ensures !OccursAt(s, t, i) {
      if i + |t| <= |s| {
        assert s[i..i + |t|][j] == s[i + j] != c;
      }
    }
  }

  /** Replacing a token that shares no character with t keeps every occurrence of t. */
  lemma {:induction false} ReplaceKeeps(s: string, pat: string, rep: string, t: string)
    requires |pat| > 0 && Contains(s, t)
    requires forall c | c in t :: c !in pat
    ensures Contains(Replace(s, pat, rep), t)
    decreases |s|, 1
  {
    var i :| 0 <= i <= |s| && OccursAt(s, t, i);
    if |s| < |pat| {
    } else if s[..|pat|] == pat {
      KeepsPastHit(s, pat, rep, t, i);
    } else if i == 0 {
      // t starts here; either it lies entirely before an occurrence of pat or the tail keeps it
      KeepsAtFront(s, pat, rep, t);
    } else {
      KeepsPastMiss(s, pat, rep, t, i);
    }
  }

  /** After a replaced occurrence of pat, the occurrence of t lies wholly in the tail. */
  lemma {:induction false} KeepsPastHit(s: string, pat: string, rep: string, t: string, i: nat)
    requires |pat| > 0 && |s| >= |pat| && s[..|pat|] == pat && OccursAt(s, t, i)
    requires forall c | c in t :: c !in pat
    ensures Contains(Replace(s, pat, rep), t)
    decreases |s|, 0
  {
    ReplaceUnfoldHit(s, pat, rep);
    if |t| == 0 {
      assert OccursAt(Replace(s, pat, rep), t, 0);
    } else {
      // the occurrence of t cannot overlap the replaced prefix
      assert s[i] == t[0] && t[0] in t;
      forall m | 0 <= m < |pat| ensures s[m] in pat {
        assert s[m] == s[..|pat|][m];
      }
      assert i >= |pat|;
      var tail := s[|pat|..];
      assert tail[i - |pat|..i - |pat| + |t|] == s[i..i + |t|];
      assert OccursAt(tail, t, i - |pat|);
      ReplaceKeeps(tail, pat, rep, t);
      ContainsInLonger(rep, Replace(tail, pat, rep), [], t);
      assert rep + Replace(tail, pat, rep) + [] == Replace(s, pat, rep);
    }
  }

  /** Past a first character that starts no occurrence of pat, the occurrence of t lies in the rest. */
  lemma {:induction false} KeepsPastMiss(s: string, pat: string, rep: string, t: string, i: nat)
    requires |pat| > 0 && |s| >= |pat| && s[..|pat|] != pat && 0 < i && OccursAt(s, t, i)
    requires forall c | c in t :: c !in pat
    ensures Contains(Replace(s, pat, rep), t)
    decreases |s|, 0
  {
    ReplaceUnfoldMiss(s, pat, rep);
    var rest := s[1..];
    assert rest[i - 1..i - 1 + |t|] == s[i..i + |t|];
    assert OccursAt(rest, t, i - 1);
    ReplaceKeeps(rest, pat, rep, t);
    ContainsInLonger([s[0]], Replace(rest, pat, rep), [], t);
    assert [s[0]] + Replace(rest, pat, rep) + [] == Replace(s, pat, rep);
  }

  /** Replace leaves untouched any prefix made of characters not in pat. */
  lemma {:induction false} ReplaceSkipsPrefix(s: string, pat: string, rep: string, k: nat)
    requires |pat| > 0 && k <= |s|
    requires forall j | 0 <= j < k :: s[j] !in pat
    ensures Replace(s, pat, rep) == s[..k] + Replace(s[k..], pat, rep)
    decreases k
  {
    if k > 0 {
      assert s[0] !in pat;
      if |s| < |pat| {
        assert Replace(s[k..], pat, rep) == s[k..];
        assert s == s[..k] + s[k..];
      } else {
        assert s[..|pat|] != pat by {
          assert s[..|pat|][0] == s[0];
          assert pat[0] in pat;
        }
        ReplaceUnfoldMiss(s, pat, rep);
        var rest := s[1..];
        forall j | 0 <= j < k - 1 ensures rest[j] !in pat {
          assert rest[j] == s[j + 1];
        }
        ReplaceSkipsPrefix(rest, pat, rep, k - 1);
        assert rest[k - 1..] == s[k..];
        assert s[..k] == [s[0]] + rest[..k - 1];
      }
    }
  }

  lemma KeepsAtFront(s: string, pat: string, rep: string, t: string)
    requires |pat| > 0 && OccursAt(s, t, 0)
    requires forall c | c in t :: c !in pat
    ensures Contains(Replace(s, pat, rep), t)
  {
    forall j | 0 <= j < |t| ensures s[j] !in pat { assert s[j] == t[j]; assert t[j] in t; }
    ReplaceSkipsPrefix(s, pat, rep, |t|);
    assert s[..|t|] == t;
    ContainsInLonger([], t, Replace(s[|t|..], pat, rep), t) by { ContainsItself(t); }
    assert [] + t + Replace(s[|t|..], pat, rep) == Replace(s, pat, rep);
  }

  /** A string in which the first character of pat never appears is left as it is. */
  lemma {:induction false} ReplaceNoStart(s: string, pat: string, rep: string)
    requires |pat| > 0 && !HasChar(s, pat[0])
    ensures Replace(s, pat, rep) == s
    decreases |s|
  {
    if |s| >= |pat| {
      assert s[..|pat|][0] == s[0];
      assert !HasChar(s[1..], pat[0]) by {
        forall i | 0 <= i < |s| - 1 ensures s[1..][i] != pat[0] { assert s[1..][i] == s[i + 1]; }
      }
      ReplaceNoStart(s[1..], pat, rep);
    }
  }

  /** The seam between a and b cannot lie inside an occurrence of pat. */
  predicate SeamMarked(a: string, b: string, pat: string)
  {
    a == [] || b == [] || !HasChar(pat, a[|a| - 1]) || !HasChar(pat, b[0])
  }

  /**
   * Replacing in a concatenation replaces in each half, when the seam is
   * marked by a character that pat does not contain.
   */
  lemma {:induction false} ReplaceAppend(a: string, b: string, pat: string, rep: string)
    requires |pat| > 0 && SeamMarked(a, b, pat)
    ensures Replace(a + b, pat, rep) == Replace(a, pat, rep) + Replace(b, pat, rep)
    decreases |a|
  {
    if a == [] {
      assert a + b == b;
    } else if |a + b| < |pat| {
      assert Replace(b, pat, rep) == b;
    } else if (a + b)[..|pat|] == pat {
      SeamNotCovered(a, b, pat);
      ReplaceAppendHit(a, b, pat, rep);
    } else {
      ReplaceAppendMiss(a, b, pat, rep);
    }
  }

  /** An occurrence at the start of a + b lies inside a when the seam is marked. */
  lemma SeamNotCovered(a: string, b: string, pat: string)
    requires |pat| > 0 && a != [] && |a + b| >= |pat| && (a + b)[..|pat|] == pat
    requires SeamMarked(a, b, pat)
    ensures |a| >= |pat| && a[..|pat|] == pat
  {
    var s := a + b;
    forall j | 0 <= j < |pat| ensures s[j] == pat[j] && HasChar(pat, pat[j]) {
      assert s[..|pat|][j] == s[j];
    }
    assert s[|a| - 1] == a[|a| - 1];
    assert b != [] ==> s[|a|] == b[0];
    assert |a| >= |pat|;
    assert a[..|pat|] == s[..|pat|];
  }

  lemma ReplaceUnfoldHit(s: string, pat: string, rep: string)
    requires |pat| > 0 && |s| >= |pat| && s[..|pat|] == pat
    ensures Replace(s, pat, rep) == rep + Replace(s[|pat|..], pat, rep)
  {
  }

  lemma ReplaceUnfoldMiss(s: string, pat: string, rep: string)
    requires |pat| > 0 && s != [] && (|s| < |pat| || s[..|pat|] != pat)
    ensures Replace(s, pat, rep) == [s[0]] + Replace(s[1..], pat, rep)
  {
    if |s| < |pat| {
      assert Replace(s[1..], pat, rep) == s[1..];
      assert s == [s[0]] + s[1..];
    }
  }

  lemma {:induction false} ReplaceAppendHit(a: string, b: string, pat: string, rep: string)
    requires |pat| > 0 && |a| >= |pat| && a[..|pat|] == pat && SeamMarked(a, b, pat)
    ensures Replace(a + b, pat, rep) == Replace(a, pat, rep) + Replace(b, pat, rep)
    decreases |a|, 0
  {
    var a' := a[|pat|..];
    assert (a + b)[..|pat|] == pat;
    assert (a + b)[|pat|..] == a' + b;
    assert SeamMarked(a', b, pat) by {
      assert a' == [] || a'[|a'| - 1] == a[|a| - 1];
    }
    calc {
      Replace(a + b, pat, rep);
      { ReplaceUnfoldHit(a + b, pat, rep); }
      rep + Replace(a' + b, pat, rep);
      { ReplaceAppend(a', b, pat, rep); }
      rep + (Replace(a', pat, rep) + Replace(b, pat, rep));
      (rep + Replace(a', pat, rep)) + Replace(b, pat, rep);
      { ReplaceUnfoldHit(a, pat, rep); }
      Replace(a, pat, rep) + Replace(b, pat, rep);
    }
  }

  lemma {:induction false} ReplaceAppendMiss(a: string, b: string, pat: string, rep: string)
    requires |pat| > 0 && a != [] && |a + b| >= |pat| && (a + b)[..|pat|] != pat
    requires SeamMarked(a, b, pat)
    ensures Replace(a + b, pat, rep) == Replace(a, pat, rep) + Replace(b, pat, rep)
    decreases |a|, 0
  {
    MissPrefix(a, b, pat);
    calc {
      Replace(a + b, pat, rep);
      { ReplaceUnfoldMiss(a + b, pat, rep); }
      [a[0]] + Replace(a[1..] + b, pat, rep);
      { ReplaceAppend(a[1..], b, pat, rep); }
      [a[0]] + (Replace(a[1..], pat, rep) + Replace(b, pat, rep));
      ([a[0]] + Replace(a[1..], pat, rep)) + Replace(b, pat, rep);
      { ReplaceUnfoldMiss(a, pat, rep); }
      Replace(a, pat, rep) + Replace(b, pat, rep);
    }
  }

  lemma MissPrefix(a: string, b: string, pat: string)
    requires |pat| > 0 && a != [] && |a + b| >= |pat| && (a + b)[..|pat|] != pat
    requires SeamMarked(a, b, pat)
    ensures (a + b)[1..] == a[1..] + b && (a + b)[0] == a[0]
    ensures SeamMarked(a[1..], b, pat)
    ensures |a| < |pat| || a[..|pat|] != pat
  {
    assert a[1..] == [] || a[1..][|a[1..]| - 1] == a[|a| - 1];
    assert |a| >= |pat| ==> a[..|pat|] == (a + b)[..|pat|];
  }
}
