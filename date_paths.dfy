/**
 * Where today's folder of an equipment share is expected: the hard-coded
 * strftime layouts of the fast report, and the YYYY/MM/DD token substitution
 * applied to a configured folder_structure in its two orders.
 */
module DatePaths {
  import opened Strings
  import opened Dates
  import opened Files

  /** The equipment ids with a dated layout in the fast report. */
  predicate HasFastLayout(id: string)
  {
    id == "TOPO" || id == "ORB" || id == "OCT" || id == "OQAS"
  }

  /**
   * The strftime folder of the fast report: %Y\%m\TOPO %m.%d,
   * %Y\%Y.%m\ORB %m.%d, %Y\%m\%d and %Y\%m\%d.%m.
   */
  function FastLayout(id: string, d: Date): (r: string)
    requires Valid(d) && HasFastLayout(id)
  {
    if id == "TOPO" then Year4(d) + "\\" + Month2(d) + "\\TOPO " + MonthDay(d)
    else if id == "ORB" then Year4(d) + "\\" + YearMonth(d) + "\\ORB " + MonthDay(d)
    else if id == "OCT" then Year4(d) + "\\" + Month2(d) + "\\" + Day2(d)
    else Year4(d) + "\\" + Month2(d) + "\\" + DayMonth(d)
  }

  /** The same layouts as a list of path components, as they are joined one by one. */
  function FastLayoutComps(id: string, d: Date): (r: seq<string>)
    requires Valid(d) && HasFastLayout(id)
    ensures |r| == 3 && r[0] == Year4(d)
  {
    if id == "TOPO" then [Year4(d), Month2(d), "TOPO " + MonthDay(d)]
    else if id == "ORB" then [Year4(d), YearMonth(d), "ORB " + MonthDay(d)]
    else if id == "OCT" then [Year4(d), Month2(d), Day2(d)]
    else [Year4(d), Month2(d), DayMonth(d)]
  }

  /** Joining the strftime text under a base gives exactly the three components. */
  lemma FastLayoutSplits(id: string, d: Date)
    requires Valid(d) && HasFastLayout(id)
    ensures Components(FastLayout(id, d)) == FastLayoutComps(id, d)
  {
    var cs := FastLayoutComps(id, d);
    forall k | 0 <= k < 3 ensures |cs[k]| > 0 && forall i | 0 <= i < |cs[k]| :: !IsSep(cs[k][i]) {
      NoSepInRenderings(d);
    }
    ComponentsOfThree(cs[0], cs[1], cs[2]);
    assert FastLayout(id, d) == cs[0] + "\\" + cs[1] + "\\" + cs[2];
  }

  /** No rendering of a date holds a path separator. */
  lemma NoSepInRenderings(d: Date)
    requires Valid(d)
    ensures forall i | 0 <= i < 4 :: !IsSep(Year4(d)[i])
    ensures forall i | 0 <= i < 2 :: !IsSep(Month2(d)[i]) && !IsSep(Day2(d)[i])
    ensures forall i | 0 <= i < 5 :: !IsSep(MonthDay(d)[i]) && !IsSep(DayMonth(d)[i])
    ensures forall i | 0 <= i < 7 :: !IsSep(YearMonth(d)[i])
  {
  }

  lemma ComponentsOfOne(a: string)
    requires |a| > 0 && forall i | 0 <= i < |a| :: !IsSep(a[i])
    ensures Components(a) == [a]
  {
    FirstSepFrom(a, 0, |a|);
    assert a[..|a|] == a;
    assert a[|a|..] == [];
  }

  lemma ComponentsCons(a: string, b: string)
    requires |a| > 0 && forall i | 0 <= i < |a| :: !IsSep(a[i])
    ensures Components(a + "\\" + b) == [a] + Components(b)
  {
    var s := a + "\\" + b;
    assert s[0] == a[0];
    FirstSepAt(s, |a|);
    assert s[..|a|] == a;
    assert s[|a|..] == "\\" + b;
    assert Components(s[|a|..]) == Components(b) by {
      assert ("\\" + b)[1..] == b;
    }
  }

  lemma FirstSepAt(s: string, n: nat)
    requires n < |s| && IsSep(s[n]) && forall i | 0 <= i < n :: !IsSep(s[i])
    ensures FirstSep(s, 0) == n
  {
    FirstSepFrom(s, 0, n);
  }

  lemma {:induction false} FirstSepFrom(s: string, i: nat, n: nat)
    requires i <= n <= |s| && (n < |s| ==> IsSep(s[n])) && forall k | i <= k < n :: !IsSep(s[k])
    ensures FirstSep(s, i) == n
    decreases n - i
  {
    if i < n {
      FirstSepFrom(s, i + 1, n);
    }
  }

  lemma ComponentsOfThree(a: string, b: string, c: string)
    requires |a| > 0 && forall i | 0 <= i < |a| :: !IsSep(a[i])
    requires |b| > 0 && forall i | 0 <= i < |b| :: !IsSep(b[i])
    requires |c| > 0 && forall i | 0 <= i < |c| :: !IsSep(c[i])
    ensures Components(a + "\\" + b + "\\" + c) == [a, b, c]
  {
    ComponentsOfOne(c);
    ComponentsCons(b, c);
    assert a + "\\" + b + "\\" + c == a + "\\" + (b + "\\" + c);
    ComponentsCons(a, b + "\\" + c);
  }

  /**
   * get_today_folder_path of the fast report: for the four dated layouts the
   * joined path when it exists, else None; every other id gets its base back.
   */
  function FastTodayFolder(fs: FileSystem, base: Path, id: string, d: Date): (r: Option<Path>)
    requires Valid(d)
    ensures !HasFastLayout(id) ==> r == Some(base)
    ensures HasFastLayout(id) ==>
      (r.Some? <==> Exists(fs, Path(base.root, base.comps + FastLayoutComps(id, d))))
    ensures HasFastLayout(id) && r.Some? ==> r.value == Path(base.root, base.comps + FastLayoutComps(id, d))
  {
    if !HasFastLayout(id) then Some(base)
    else
      FastLayoutSplits(id, d);
      var full := Join(base, FastLayout(id, d));
      if Exists(fs, full) then Some(full) else None
  }

  /**
   * guess_today_folder of the directory-pattern analyser: the same four
   * layouts built component by component, falling back to the base.
   */
  function AnalyzerTodayFolder(fs: FileSystem, base: Path, id: string, d: Date): Path
    requires Valid(d)
  {
    if !HasFastLayout(id) then base
    else
      var p := Path(base.root, base.comps + FastLayoutComps(id, d));
      if Exists(fs, p) then p else base
  }

  /** The analyser resolves what the fast report resolves, and the base where the report gives None. */
  lemma AnalyzerAgreesWithFastReport(fs: FileSystem, base: Path, id: string, d: Date)
    requires Valid(d)
    ensures AnalyzerTodayFolder(fs, base, id, d) ==
      (match FastTodayFolder(fs, base, id, d) case Some(p) => p case None => base)
  {
  }

  // ------------------------------------------------------ token substitution

  /** Substitutes the year, then the padded month, then the padded day into a folder template. */
  function SimpleSubstitution(t: string, d: Date): string
    requires Valid(d)
  {
    Replace(Replace(Replace(t, "YYYY", Year4(d)), "MM", Month2(d)), "DD", Day2(d))
  }

  /** The date-debug order: YYYY.MM, YYYY, MM.DD, MM, DD. */
  function LongestFirstSubstitution(t: string, d: Date): string
    requires Valid(d)
  {
    Replace(LongestFirstNoDay(t, d), "DD", Day2(d))
  }

  /** The date-debug order without its last step, as the script applies it to the fundus share. */
  function LongestFirstNoDay(t: string, d: Date): string
    requires Valid(d)
  {
    var s1 := Replace(t, "YYYY.MM", YearMonth(d));
    var s2 := Replace(s1, "YYYY", Year4(d));
    var s3 := Replace(s2, "MM.DD", MonthDay(d));
    Replace(s3, "MM", Month2(d))
  }

  /** build_date_folder_path of the upgraded report: the substituted text joined under the base. */
  function SubstitutedFolder(base: Path, t: string, d: Date): Path
    requires Valid(d)
  {
    Join(base, SimpleSubstitution(t, d))
  }

  /** guess_today_folder of the pre-run check: the base itself for an empty or missing structure. */
  function PreRunTodayFolder(base: Path, t: Option<string>, d: Date): (r: Path)
    requires Valid(d)
    ensures (t.None? || t.value == "") ==> r == base
    ensures t.Some? && t.value != "" ==> r == SubstitutedFolder(base, t.value, d)
  {
    if t.None? || t.value == "" then base else SubstitutedFolder(base, t.value, d)
  }

  /** Text that holds none of the token letters, so no substitution step touches it. */
  predicate TokenFree(s: string)
  {
    !HasChar(s, 'Y') && !HasChar(s, 'M') && !HasChar(s, 'D')
  }

  lemma TokenFreeAppend(a: string, b: string)
    ensures TokenFree(a + b) <==> TokenFree(a) && TokenFree(b)
  {
    HasCharAppend(a, b, 'Y');
    HasCharAppend(a, b, 'M');
    HasCharAppend(a, b, 'D');
  }

  lemma DigitsTokenFree(s: string)
    requires AllDigits(s)
    ensures TokenFree(s)
  {
  }

  /** Every rendering a substitution inserts is free of token letters. */
  lemma RenderingsTokenFree(d: Date)
    requires Valid(d)
    ensures TokenFree(Year4(d)) && TokenFree(Month2(d)) && TokenFree(Day2(d))
    ensures TokenFree(YearMonth(d)) && TokenFree(MonthDay(d))
  {
    DigitsTokenFree(Year4(d));
    DigitsTokenFree(Month2(d));
    DigitsTokenFree(Day2(d));
    assert TokenFree(".");
    TokenFreeAppend(Year4(d), ".");
    TokenFreeAppend(Year4(d) + ".", Month2(d));
    TokenFreeAppend(Month2(d), ".");
    TokenFreeAppend(Month2(d) + ".", Day2(d));
  }

  /** The literal parts of the templates below. */
  lemma LiteralsTokenFree()
    ensures TokenFree("\\") && TokenFree(".") && TokenFree("\\TOPO ") && TokenFree("\\ORB ")
  {
    assert "\\TOPO " == "\\TO" + "PO ";
    TokenFreeAppend("\\TO", "PO ");
    assert "\\ORB " == "\\O" + "RB ";
    TokenFreeAppend("\\O", "RB ");
  }

  /** The template tails that still hold later tokens lack the letter of the token being replaced. */
  lemma TemplateTailsLackTokens()
    ensures !HasChar("\\MM\\DD", 'Y') && !HasChar("\\DD", 'M')
    ensures !HasChar("\\MM\\TOPO MM.DD", 'Y') && !HasChar(".DD", 'M')
    ensures !HasChar("\\ORB MM.DD", 'Y')
  {
    assert "\\MM\\DD" == "\\MM\\" + "DD";
    HasCharAppend("\\MM\\", "DD", 'Y');
    assert "\\MM\\TOPO MM.DD" == "\\MM\\" + "TOPO " + "MM.DD";
    HasCharAppend("\\MM\\", "TOPO ", 'Y');
    HasCharAppend("\\MM\\" + "TOPO ", "MM.DD", 'Y');
    assert "\\ORB MM.DD" == "\\ORB " + "MM.DD";
    HasCharAppend("\\ORB ", "MM.DD", 'Y');
  }

  /** Text lacking a token's first letter passes through that token's replace unchanged. */
  lemma TokenFreeUnchanged(t: string, pat: string, rep: string)
    requires |pat| > 0 && (pat[0] == 'Y' || pat[0] == 'M' || pat[0] == 'D') && TokenFree(t)
    ensures Replace(t, pat, rep) == t
  {
    ReplaceNoStart(t, pat, rep);
  }

  /** A structure without the letters Y, M and D passes through both substitution orders unchanged. */
  lemma TokenFreeStructureUnchanged(t: string, d: Date)
    requires Valid(d) && TokenFree(t)
    ensures SimpleSubstitution(t, d) == t
    ensures LongestFirstSubstitution(t, d) == t
  {
    TokenFreeUnchanged(t, "YYYY", Year4(d));
    TokenFreeUnchanged(t, "MM", Month2(d));
    TokenFreeUnchanged(t, "DD", Day2(d));
    TokenFreeUnchanged(t, "YYYY.MM", YearMonth(d));
    TokenFreeUnchanged(t, "MM.DD", MonthDay(d));
  }

  /**
   * One occurrence of a token between text that cannot start it and seams
   * that cannot extend it is replaced, and the scan goes on after it.
   */
  lemma ReplaceAfter(a: string, pat: string, c: string, rep: string)
    requires |pat| > 0 && !HasChar(a, pat[0])
    requires a == [] || !HasChar(pat, a[|a| - 1])
    requires c == [] || !HasChar(pat, c[0])
    ensures Replace(a + pat + c, pat, rep) == a + rep + Replace(c, pat, rep)
  {
    ReplaceNoStart(a, pat, rep);
    ReplaceAppend(a + pat, c, pat, rep);
    ReplaceAppend(a, pat, pat, rep);
    assert pat[|pat|..] == [];
  }

  /** The only occurrence of a token is replaced. */
  lemma ReplaceOnce(a: string, pat: string, c: string, rep: string)
    requires |pat| > 0 && !HasChar(a, pat[0]) && !HasChar(c, pat[0])
    requires a == [] || !HasChar(pat, a[|a| - 1])
    requires c == [] || !HasChar(pat, c[0])
    ensures Replace(a + pat + c, pat, rep) == a + rep + c
  {
    ReplaceAfter(a, pat, c, rep);
    ReplaceNoStart(c, pat, rep);
  }

  /** YYYY\MM\DD becomes the fast report's OCT layout. */
  lemma SimpleOnDayTemplate(d: Date)
    requires Valid(d)
    ensures SimpleSubstitution("YYYY\\MM\\DD", d) == FastLayout("OCT", d)
  {
    var y, m, dd := Year4(d), Month2(d), Day2(d);
    RenderingsTokenFree(d);
    DayTemplateYear(y);
    DayTemplateMonth(y, m);
    DayTemplateDay(y, m, dd);
  }

  lemma DayTemplateDay(y: string, m: string, dd: string)
    requires TokenFree(y) && TokenFree(m)
    ensures Replace(y + "\\" + m + "\\DD", "DD", dd) == y + "\\" + m + "\\" + dd
  {
    LiteralsTokenFree();
    var a := y + "\\" + m + "\\";
    TokenFreeAppend(y, "\\");
    TokenFreeAppend(y + "\\", m);
    TokenFreeAppend(y + "\\" + m, "\\");
    assert y + "\\" + m + "\\DD" == a + "DD" + [];
    ReplaceOnce(a, "DD", [], dd);
  }

  /** YYYY\MM\TOPO MM.DD becomes the fast report's TOPO layout: both MM tokens are replaced. */
  lemma SimpleOnTopoTemplate(d: Date)
    requires Valid(d)
    ensures SimpleSubstitution("YYYY\\MM\\TOPO MM.DD", d) == FastLayout("TOPO", d)
  {
    var y, m, dd := Year4(d), Month2(d), Day2(d);
    RenderingsTokenFree(d);
    TopoTemplateYear(y);
    // MM, twice
    var s2 := TopoTemplateMonth(y, m);
    // DD
    var s3 := TopoTemplateDay(y, m, dd);
    assert s3 == FastLayout("TOPO", d);
  }

  lemma TopoTemplateYear(y: string)
    ensures Replace("YYYY\\MM\\TOPO MM.DD", "YYYY", y) == y + "\\MM\\TOPO MM.DD"
  {
    TemplateTailsLackTokens();
    assert "YYYY\\MM\\TOPO MM.DD" == "YYYY" + "\\MM\\TOPO MM.DD";
    assert !HasChar("YYYY", '\\') by {
      assert forall i | 0 <= i < 4 :: "YYYY"[i] == 'Y';
    }
    TokenFirst("YYYY", "\\MM\\TOPO MM.DD", y);
  }

  /** A template that starts with a token and holds no other start of it. */
  lemma TokenFirst(pat: string, tail: string, rep: string)
    requires |pat| > 0 && !HasChar(tail, pat[0]) && tail != [] && !HasChar(pat, tail[0])
    ensures Replace(pat + tail, pat, rep) == rep + tail
  {
    assert [] + pat + tail == pat + tail;
    ReplaceOnce([], pat, tail, rep);
  }

  lemma TopoTailMonth(m: string)
    ensures Replace("\\TOPO MM.DD", "MM", m) == "\\TOPO " + m + ".DD"
  {
    LiteralsTokenFree();
    TemplateTailsLackTokens();
    assert "\\TOPO MM.DD" == "\\TOPO " + "MM" + ".DD";
    ReplaceOnce("\\TOPO ", "MM", ".DD", m);
  }

  lemma TopoTemplateMonth(y: string, m: string) returns (s: string)
    requires TokenFree(y)
    ensures s == y + "\\" + m + "\\TOPO " + m + ".DD" && Replace(y + "\\MM\\TOPO MM.DD", "MM", m) == s
  {
    s := y + "\\" + m + "\\TOPO " + m + ".DD";
    LiteralsTokenFree();
    TemplateTailsLackTokens();
    TokenFreeAppend(y, "\\");
    assert y + "\\MM\\TOPO MM.DD" == (y + "\\") + "MM" + "\\TOPO MM.DD";
    ReplaceAfter(y + "\\", "MM", "\\TOPO MM.DD", m);
    TopoTailMonth(m);
  }

  lemma TopoTemplateDay(y: string, m: string, dd: string) returns (s: string)
    requires TokenFree(y) && TokenFree(m)
    ensures s == y + "\\" + m + "\\TOPO " + (m + "." + dd)
    ensures Replace(y + "\\" + m + "\\TOPO " + m + ".DD", "DD", dd) == s
  {
    s := y + "\\" + m + "\\TOPO " + (m + "." + dd);
    LiteralsTokenFree();
    var a := y + "\\" + m + "\\TOPO " + m + ".";
    TokenFreeAppend(y, "\\");
    TokenFreeAppend(y + "\\", m);
    TokenFreeAppend(y + "\\" + m, "\\TOPO ");
    TokenFreeAppend(y + "\\" + m + "\\TOPO ", m);
    TokenFreeAppend(y + "\\" + m + "\\TOPO " + m, ".");
    assert y + "\\" + m + "\\TOPO " + m + ".DD" == a + "DD" + [];
    ReplaceOnce(a, "DD", [], dd);
  }

  /** YYYY\YYYY.MM\ORB MM.DD, substituted longest token first, becomes the fast report's ORB layout. */
  lemma LongestFirstOnOrbTemplate(d: Date)
    requires Valid(d)
    ensures LongestFirstSubstitution("YYYY\\YYYY.MM\\ORB MM.DD", d) == FastLayout("ORB", d)
  {
    var y, m, dd := Year4(d), Month2(d), Day2(d);
    var ym, md := YearMonth(d), MonthDay(d);
    RenderingsTokenFree(d);
    var s1 := OrbTemplateYearMonth(ym);
    var s2 := OrbTemplateYear(y, ym);
    var s3 := OrbTemplateMonthDay(y, ym, md);
    assert TokenFree(s3) by {
      LiteralsTokenFree();
      TokenFreeAppend(y, "\\");
      TokenFreeAppend(y + "\\", ym);
      TokenFreeAppend(y + "\\" + ym, "\\ORB ");
      TokenFreeAppend(y + "\\" + ym + "\\ORB ", md);
    }
    TokenFreeUnchanged(s3, "MM", m);
    TokenFreeUnchanged(s3, "DD", dd);
  }

  lemma OrbTemplateYearMonth(ym: string) returns (s: string)
    ensures s == "YYYY\\" + ym + "\\ORB MM.DD"
    ensures Replace("YYYY\\YYYY.MM\\ORB MM.DD", "YYYY.MM", ym) == s
  {
    s := "YYYY\\" + ym + "\\ORB MM.DD";
    assert "YYYY\\YYYY.MM\\ORB MM.DD" == "YYYY\\" + "YYYY.MM\\ORB MM.DD";
    assert Replace("YYYY\\", "YYYY.MM", ym) == "YYYY\\";
    ReplaceAppend("YYYY\\", "YYYY.MM\\ORB MM.DD", "YYYY.MM", ym);
    OrbTailYearMonth(ym);
  }

  lemma OrbTailYearMonth(ym: string)
    ensures Replace("YYYY.MM\\ORB MM.DD", "YYYY.MM", ym) == ym + "\\ORB MM.DD"
  {
    TemplateTailsLackTokens();
    assert !HasChar("YYYY.MM", '\\') by {
      assert "YYYY.MM" == "YYYY" + ".MM";
      HasCharAppend("YYYY", ".MM", '\\');
    }
    assert "YYYY.MM\\ORB MM.DD" == "YYYY.MM" + "\\ORB MM.DD";
    TokenFirst("YYYY.MM", "\\ORB MM.DD", ym);
  }

  lemma OrbTemplateYear(y: string, ym: string) returns (s: string)
    requires TokenFree(ym)
    ensures s == y + "\\" + ym + "\\ORB MM.DD"
    ensures Replace("YYYY\\" + ym + "\\ORB MM.DD", "YYYY", y) == s
  {
    s := y + "\\" + ym + "\\ORB MM.DD";
    LiteralsTokenFree();
    TemplateTailsLackTokens();
    var c := "\\" + ym + "\\ORB MM.DD";
    HasCharAppend("\\", ym, 'Y');
    HasCharAppend("\\" + ym, "\\ORB MM.DD", 'Y');
    assert "YYYY\\" + ym + "\\ORB MM.DD" == [] + "YYYY" + c;
    ReplaceOnce([], "YYYY", c, y);
  }

  lemma OrbTemplateMonthDay(y: string, ym: string, md: string) returns (s: string)
    requires TokenFree(y) && TokenFree(ym)
    ensures s == y + "\\" + ym + "\\ORB " + md
    ensures Replace(y + "\\" + ym + "\\ORB MM.DD", "MM.DD", md) == s
  {
    s := y + "\\" + ym + "\\ORB " + md;
    LiteralsTokenFree();
    var a := y + "\\" + ym + "\\ORB ";
    TokenFreeAppend(y, "\\");
    TokenFreeAppend(y + "\\", ym);
    TokenFreeAppend(y + "\\" + ym, "\\ORB ");
    assert y + "\\" + ym + "\\ORB MM.DD" == a + "MM.DD" + [];
    ReplaceOnce(a, "MM.DD", [], md);
  }

  /**
   * The date-debug script's fundus substitution stops before DD, so on
   * YYYY\MM\DD the day token stays as literal text.
   */
  lemma FundusDebugKeepsDay(d: Date)
    requires Valid(d)
    ensures LongestFirstNoDay("YYYY\\MM\\DD", d) == Year4(d) + "\\" + Month2(d) + "\\DD"
  {
    var y, m := Year4(d), Month2(d);
    RenderingsTokenFree(d);
    FundusNoYearMonth(YearMonth(d));
    DayTemplateYear(y);
    FundusNoMonthDay(y, MonthDay(d));
    DayTemplateMonth(y, m);
  }

  lemma FundusNoYearMonth(ym: string)
    ensures Replace("YYYY\\MM\\DD", "YYYY.MM", ym) == "YYYY\\MM\\DD"
  {
    TemplateTailsLackTokens();
    assert "YYYY\\MM\\DD" == "YYYY" + "\\MM\\DD";
    ReplaceAppend("YYYY", "\\MM\\DD", "YYYY.MM", ym);
    assert Replace("YYYY", "YYYY.MM", ym) == "YYYY";
    ReplaceNoStart("\\MM\\DD", "YYYY.MM", ym);
  }

  lemma FundusNoMonthDay(y: string, md: string)
    requires TokenFree(y)
    ensures Replace(y + "\\MM\\DD", "MM.DD", md) == y + "\\MM\\DD"
  {
    LiteralsTokenFree();
    TemplateTailsLackTokens();
    TokenFreeAppend(y, "\\");
    assert y + "\\MM\\DD" == (y + "\\") + "MM" + "\\DD";
    ReplaceAppend((y + "\\") + "MM", "\\DD", "MM.DD", md);
    ReplaceAppend(y + "\\", "MM", "MM.DD", md);
    ReplaceNoStart(y + "\\", "MM.DD", md);
    assert Replace("MM", "MM.DD", md) == "MM";
    ReplaceNoStart("\\DD", "MM.DD", md);
  }

  lemma DayTemplateYear(y: string)
    ensures Replace("YYYY\\MM\\DD", "YYYY", y) == y + "\\MM\\DD"
  {
    TemplateTailsLackTokens();
    assert "YYYY\\MM\\DD" == "YYYY" + "\\MM\\DD";
    assert !HasChar("YYYY", '\\') by {
      assert forall i | 0 <= i < 4 :: "YYYY"[i] == 'Y';
    }
    TokenFirst("YYYY", "\\MM\\DD", y);
  }

  lemma DayTemplateMonth(y: string, m: string)
    requires TokenFree(y)
    ensures Replace(y + "\\MM\\DD", "MM", m) == y + "\\" + m + "\\DD"
  {
    LiteralsTokenFree();
    TemplateTailsLackTokens();
    TokenFreeAppend(y, "\\");
    assert y + "\\MM\\DD" == (y + "\\") + "MM" + "\\DD";
    ReplaceOnce(y + "\\", "MM", "\\DD", m);
  }
}
