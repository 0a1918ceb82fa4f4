# Chart-number scanning engine of the daily report automation

This project models the engine behind a clinic's daily report. For each piece
of examination equipment (SP, TOPO, ORB, OCT, HFA, OQAS, IOL700 and the fundus
cameras) it works out today's folder on the equipment's share. It then lists
or walks that folder. It keeps the entries that are fresh by date stamp in the
name, by creation date, or by neither, depending on the program. From each
kept entry's name it extracts a patient chart number with a regular
expression and validates it against the configured range. The result is the
set of today's patients per equipment. From those sets it computes composite
counts:

- glaucoma = HFA ∩ OCT;
- LASIK = (ORB ∩ TOPO) ∪ SCR;
- fundus = a union over folders;
- reservation tallies from the cells of a workbook.

Several programs of the repository each carry their own variant of this
engine. The model keeps each variant as written, and the lemmas relate the
variants to each other. The programs are:

- the fast report, `daily_report_fast.py`;
- the first report, `daily_report.py`;
- the upgraded report, `daily_report_upgraded.py`;
- the incremental file cache, `file_cache_manager.py`;
- the MCP server tools, `daily_report_mcp.py`;
- the diagnostic scripts: `check_hfa.py`, `debug_scan_date.py`,
  `remove_max_validation.py`, `pre_run_check.py`,
  `analyze_directory_patterns.py`, `guess_today_folder.py`,
  `backup_style_scan.py` and `folder_structure_analyzer.py`.

Modelling choices:

- **Shares.** A share is a tree of entries. Each entry has a name, a
  folder/file flag, an optional creation date (`None` when `getctime` fails),
  a listable flag (false when listing it raises) and its children in listing
  order (`Files`).
- **Dates.** Dates are `(year, month, day)` values with zero-padded
  renderings (`Dates`).
- **Regular expressions.** The regex engine is a parameter
  `search(pattern, name)`. It returns no match, or the tuple of groups, where
  each group is optional (`Patterns`). The HFA diagnostic script also reads
  `match.lastindex`, so its search returns a `MatchObject` that carries the
  lastindex the engine reports. Python's lastindex is the last group to
  close, which is not always the highest-numbered group that took part.
- **Validator verdicts.** A validator verdict is Accept, Reject or Raise.
  Raise stands for the `TypeError` that the chained comparison raises when a
  configured bound is JSON null. A scan whose `except` clause ends a loop
  returns what it had collected; `Scan.Collect` models that.

Two objects whose fields the source rewrites are Dafny classes: the cache
folder of `file_cache_manager.py` (`FileCache.CacheFolder`) and the patched
source file of `remove_max_validation.py` (`MaxPatch.Workspace`). Other
mutable state is passed along as values. This covers the `chart_numbers` and
`results` dictionaries of `DailyReportSystem`, the fields of
`FolderAnalyzer`, and the shared set that `scan_recursive` fills. Every loop
of the source is a method with a loop, proved equal to a specification
function. The lemmas about those functions state what the programs promise.

## Model

| member | source | states |
|---|---|---|
| Strings.ParseNat | daily_report_fast.py:84 | int() of a captured identifier succeeds exactly on a non-empty ASCII digit string |
| Strings.NatToString | daily_report_upgraded.py:153 | str(n) is a non-empty digit string that starts with '0' only for zero |
| Strings.ParseNatToString | daily_report_upgraded.py:153 | int(str(n)) == n: the rendering parses back to the number |
| Strings.CanonicalRoundTrip | daily_report_fast.py:82-84 | a digit string without a leading zero is exactly str() of its own value |
| Strings.NatToStringWidth | daily_report_upgraded.py:153 | str(year) has four characters for years 1000..9999, the same as strftime('%Y') |
| Strings.Pad2 | daily_report_upgraded.py:154-155 | f"{n:02d}" for n < 100 is two digits |
| Strings.Pad2VersusNatToString | guess_today_folder.py:32-33 | below ten the padded form is '0' followed by str(n); from ten on the two agree |
| Strings.Lower | daily_report_fast.py:155 | lower() keeps the length and lowers each character in place |
| Strings.LowerSlice | daily_report_fast.py:155 | lowering a suffix is the suffix of the lowered string |
| Strings.HasCharAppend | daily_report_fast.py:174 | a character occurs in a concatenation iff it occurs in one of the parts |
| Strings.ContainsInLonger | daily_report_fast.py:174 | a substring of s is a substring of any text around s |
| Strings.ContainsItself | backup_style_scan.py:33 | every string contains itself |
| Strings.ReplaceAbsent | daily_report_upgraded.py:153-155 | str.replace leaves the text unchanged when the token does not occur |
| Strings.ReplacePresent | daily_report_upgraded.py:153-155 | when the token occurs, the replacement text is present afterwards |
| Strings.ReplaceChars | file_cache_manager.py:32 | a character absent from the input and the replacement is absent from the result |
| Strings.NoCharNoToken | daily_report_upgraded.py:153-155 | a text lacking a character contains no token that holds it |
| Strings.ReplaceKeeps | debug_scan_date.py:49-53 | replacing a token that shares no character with t keeps every occurrence of t |
| Strings.ReplaceSkipsPrefix | debug_scan_date.py:49-53 | replace leaves untouched a prefix made of characters not in the token |
| Strings.ReplaceNoStart | debug_scan_date.py:49-53 | a text without the token's first character is left as it is |
| Strings.ReplaceAppend | debug_scan_date.py:49-53 | when the seam cannot be part of an occurrence, replace distributes over concatenation |
| Dates.DaysInMonth | backup_style_scan.py:55 | every month has 28 to 31 days |
| Dates.BeforeIsStrictTotalOrder | daily_report_fast.py:233 | date comparison is irreflexive, transitive, total and asymmetric |
| Dates.Year4 | daily_report_fast.py:101 | strftime('%Y') is four digits |
| Dates.Month2 | daily_report_fast.py:101 | strftime('%m') is two digits |
| Dates.Day2 | daily_report_fast.py:105 | strftime('%d') is two digits |
| Dates.Compact | daily_report_fast.py:164 | strftime('%Y%m%d') is eight digits |
| Dates.Dashed | daily_report_fast.py:165 | strftime('%Y-%m-%d') is ten characters with dashes at 4 and 7 |
| Dates.Dotted | daily_report_fast.py:166 | strftime('%Y.%m.%d') is ten characters with dots at 4 and 7 |
| Dates.MonthDay | backup_style_scan.py:58 | strftime('%m.%d') is five characters with a dot at 2 |
| Dates.MonthDayDash | folder_structure_analyzer.py:186 | strftime('%m-%d') is five characters with a dash at 2 |
| Dates.DayMonth | daily_report_fast.py:107 | the '%d.%m' part of the OQAS layout is five characters with a dot at 2 |
| Dates.YearMonth | daily_report_fast.py:103 | strftime('%Y.%m') is seven characters with a dot at 4 |
| Dates.MonthDayShort | guess_today_folder.py:32-33 | the unpadded month.day is three to five characters |
| Dates.CompactInjective | daily_report_fast.py:164 | two distinct dates never share a YYYYMMDD stamp |
| Dates.Pad2Injective | daily_report_upgraded.py:154-155 | two distinct months (or days) never share a padded rendering |
| Dates.Yesterday | backup_style_scan.py:55 | today - timedelta(days=1) is a valid date before today |
| Dates.Tomorrow | backup_style_scan.py:55 | the next day is a valid date after the given one |
| Dates.YesterdayTomorrow | backup_style_scan.py:55 | stepping forward then back returns to the same date |
| Dates.TomorrowYesterday | backup_style_scan.py:55 | stepping back then forward returns to the same date |
| Dates.NothingBetweenYesterdayAndToday | backup_style_scan.py:55 | no date lies strictly between yesterday and today |
| Files.Components | daily_report_fast.py:112 | os.path.join splits a relative part into non-empty components without separators |
| Files.FirstSep | daily_report_fast.py:112 | finds the first separator at or after i, with none before it |
| Files.Find | daily_report_fast.py:196 | looking a name up in a listing finds a child of that name, or reports that none has it |
| Files.ListDir | daily_report_fast.py:150 | os.listdir succeeds only on an existing folder |
| Files.Names | daily_report_fast.py:150 | the listed names, one per entry, in listing order |
| Files.FindListed | daily_report_fast.py:196 | in a folder with distinct names, looking up a listed name finds that very entry |
| Files.ChildLocates | daily_report_fast.py:196 | os.path.join(folder, name) of a listed entry locates that entry |
| Files.LocateAppend | daily_report_fast.py:112 | locating one component further is looking the name up among the folder's children |
| Files.SubDirs | daily_report_fast.py:262 | the dirs of an os.walk triple are exactly the listed folders |
| Files.NonDirs | daily_report_fast.py:262 | the files of an os.walk triple are exactly the listed non-folders |
| Files.WalkStaysBelow | daily_report_fast.py:262 | every directory os.walk yields lies at or below its top |
| Files.WalkChildrenStaysBelow | daily_report_fast.py:262 | the walk of a folder's children stays strictly below the folder |
| Validation.ChartNumberVerdict | daily_report_fast.py:79-89 | accepts exactly a canonical digit string within both integer bounds; raises exactly when a null bound reaches the comparison; a leading zero, a parse failure or a missing key is a rejection |
| Validation.PatchedVerdict | remove_max_validation.py:60-79 | the patched validator accepts exactly a canonical string at or above min and, when max is an integer, at or below it; it raises only for a null min |
| Validation.LeadingZeroRejected | daily_report.py:86-87 | both validators reject a string longer than one character that starts with '0' |
| Validation.PatchedAgreesWithBoundedConfig | remove_max_validation.py:66-75 | the patch changes nothing for integer bounds; with a null max it accepts where the original raised and rejects where it rejected |
| Validation.DiagnoseChartNumber | check_hfa.py:151-160 | (True, '유효') exactly for a canonical in-range string; the leading-zero reason comes first, then '숫자 변환 실패' for a parse failure |
| Validation.DiagnosisAgreesWithReport | check_hfa.py:151-160 | the diagnostic validator crashes exactly when the report validator raises, and otherwise says yes exactly when it accepts |
| Validation.RangeOnlyAccepts | debug_scan_date.py:114-120 | the range-only check holds exactly when group 1 parses and lies within both integer bounds |
| Validation.RangeOnlyIsWeaker | debug_scan_date.py:114-120 | the range-only check accepts everything the report validator accepts, and also '0123', which the report validator rejects |
| Patterns.Group | daily_report_fast.py:178 | match.group(i) raises exactly beyond the pattern's groups and otherwise yields that group |
| Patterns.LastIndex | check_hfa.py:114 | the highest-numbered group that took part, or None when none did; this is lastindex only when no group encloses a later one (`Patterns.Sequential`) |
| Patterns.ExtractTwoGroup | daily_report_upgraded.py:114-119 | with two groups the first when non-empty, else the second; otherwise the first, or None without groups |
| Patterns.ExtractLastIndexGuarded | check_hfa.py:114 | group 1 when non-empty; otherwise, by the lastindex the engine reports, group 2 exactly as captured when it is above 1 and None when it is 1; a crash exactly for a group-less pattern, a None lastindex, or a lastindex above 1 with one group; for a coherent match object a crash exactly when group 1 is empty and no group took part |
| Patterns.ExtractMcp | daily_report_mcp.py:71 | group 1 when non-empty, else group 2 when present; IndexError exactly for a group-less pattern |
| Patterns.ExtractionRulesAgree | daily_report_mcp.py:71 | for one or two groups, whenever the upgraded report picks a non-empty identifier the MCP rule picks the same one, and so does the HFA-check rule when no group encloses the other |
| Patterns.ThreeGroupsDisagree | daily_report_upgraded.py:117-119 | with three sequential groups the upgraded rule yields the empty group 1 where the other two take group 2 |
| Scan.Collect | daily_report_upgraded.py:162-172 | the fold never loses what the loop started with |
| Scan.FirstFail | daily_report_upgraded.py:162-172 | the index of the first raising entry, with none before it |
| Scan.Added | daily_report_upgraded.py:168-169 | the identifiers added, exactly those of the adding outcomes |
| Scan.CollectMeaning | daily_report_upgraded.py:162-172 | the result is the start set plus every identifier added before the first exception, and an exception is reported iff one occurred |
| Scan.CollectWithoutFail | daily_report_upgraded.py:162-172 | without an exception the result is exactly the identifiers added |
| Scan.CollectSound | daily_report_upgraded.py:162-172 | every identifier in the result was added by some entry |
| Scan.CollectAppend | daily_report_fast.py:262-287 | folding two listings in turn is folding their concatenation |
| Scan.Step | daily_report_fast.py:180 | one loop step adds exactly the outcome's identifier and raises exactly on a failing outcome |
| Scan.StepCollect | daily_report_fast.py:172-182 | a loop that has folded a prefix goes on with the next entry |
| Scan.FailedCollect | daily_report_fast.py:294-297 | once an exception is raised, the rest of the listing changes nothing |
| Scan.Group1Outcome | daily_report_fast.py:176-180 | adds exactly a canonical group 1 the validator accepts, skips a non-match or a rejected group, and otherwise raises |
| Sorting.InsertAsc | daily_report_mcp.py:77 | inserting into an ascending list keeps it ascending and adds exactly that name |
| Sorting.SortAsc | daily_report_mcp.py:77 | sorted() gives an ascending permutation of its input |
| Sorting.Reverse | daily_report_fast.py:193 | reversal is a permutation reading the list backwards |
| Sorting.SortDesc | daily_report_fast.py:193 | sort(reverse=True) gives a descending permutation of the queue |
| Sorting.ReverseAscending | daily_report_fast.py:193 | reading an ascending list backwards is descending |
| Sorting.AscendingUnique | daily_report_mcp.py:77 | two ascending orderings of the same names are equal: the sorted result is unique |
| Sorting.DistinctCounts | daily_report_mcp.py:77 | a list without repeats counts each name once or not at all |
| Sorting.DistinctSameMultiset | daily_report_mcp.py:77 | two repeat-free lists with the same names are permutations of each other |
| Sorting.SortAscDistinct | daily_report_mcp.py:77 | sorting a repeat-free list keeps it repeat-free |
| Sorting.InsertAscDistinct | daily_report_mcp.py:77 | inserting a new name keeps the list repeat-free and adds exactly that name |
| Sorting.SortedOf | daily_report_mcp.py:77 | sorted(list(s)) is ascending, repeat-free and holds exactly the set's names |
| Sorting.SortedOfUnique | daily_report_mcp.py:77 | any ascending repeat-free list of exactly the set's names is sorted(list(s)) |
| Metrics.CoCount | daily_report_fast.py:304-305 | \|a & b\| is at most each size, is zero iff the sets are disjoint, and obeys inclusion-exclusion |
| Metrics.InclusionExclusion | daily_report.py:257 | \|a ∩ b\| + \|a ∪ b\| == \|a\| + \|b\| |
| Metrics.SubsetSize | daily_report.py:257 | a subset is no larger than its superset |
| Metrics.Glaucoma | daily_report_fast.py:299-308 | glaucoma counts the numbers in both HFA and OCT, is bounded by each, and is zero when either equipment is missing |
| Metrics.GlaucomaExample | daily_report.py:225-242 | HFA {101, 102} and OCT {102, 103} give one glaucoma patient |
| DatePaths.FastLayoutComps | daily_report_fast.py:100-107 | each of the four dated layouts is three components, the first the year |
| DatePaths.FastLayoutSplits | daily_report_fast.py:112 | joining the strftime text under the base gives exactly those three components |
| DatePaths.NoSepInRenderings | daily_report_fast.py:101-107 | no date rendering holds a path separator |
| DatePaths.FastTodayFolder | daily_report_fast.py:91-117 | a non-dated id gets its base back, never None; a dated id gets the joined layout iff it exists, else None |
| DatePaths.AnalyzerAgreesWithFastReport | analyze_directory_patterns.py:24-52 | the analyser resolves what the fast report resolves, and the base where the fast report gives None |
| DatePaths.PreRunTodayFolder | pre_run_check.py:42-58 | an empty or missing structure gives the base itself; otherwise YYYY, MM, DD substituted in that order and joined under the base |
| DatePaths.RenderingsTokenFree | daily_report_upgraded.py:153-155 | no rendering a substitution inserts holds the letters Y, M or D |
| DatePaths.TokenFreeUnchanged | daily_report_upgraded.py:153-155 | text without a token's first letter passes through that token's replace unchanged |
| DatePaths.TokenFreeStructureUnchanged | debug_scan_date.py:48-53 | a structure without Y, M and D passes through both substitution orders unchanged |
| DatePaths.ReplaceAfter | daily_report_upgraded.py:153-155 | one occurrence between text that cannot start or extend it is replaced and the scan continues after it |
| DatePaths.ReplaceOnce | daily_report_upgraded.py:153-155 | the only occurrence of a token is replaced, the rest kept |
| DatePaths.SimpleOnDayTemplate | daily_report_upgraded.py:151-156 | the simple order turns 'YYYY\MM\DD' into the fast report's OCT layout |
| DatePaths.SimpleOnTopoTemplate | pre_run_check.py:53-56 | the simple order turns 'YYYY\MM\TOPO MM.DD' into the fast report's TOPO layout, both MM replaced |
| DatePaths.LongestFirstOnOrbTemplate | debug_scan_date.py:48-53 | longest-token-first turns 'YYYY\YYYY.MM\ORB MM.DD' into the fast report's ORB layout |
| DatePaths.FundusDebugKeepsDay | debug_scan_date.py:160-164 | the fundus substitution has no DD step, so 'YYYY\MM\DD' keeps DD literally |
| FastReport.EntryOutcome | daily_report_fast.py:268-287 | a walked name adds only when (for files) its extension passes, it matches, and its group 1 validates |
| FastReport.AddEntries | daily_report_fast.py:268-278 | the name loop equals the fold of its outcomes |
| FastReport.ScanWalkStep | daily_report_fast.py:262-287 | one os.walk triple processes its files and then its folders, as the fold of their outcomes |
| FastReport.WalkScan | daily_report_fast.py:262-287 | the walk branch is the fold of every triple's outcomes, stopping at the first exception |
| FastReport.Candidates | daily_report_fast.py:155 | a name is a candidate iff its lower-case form ends with a configured extension |
| FastReport.DatedOutcome | daily_report_fast.py:172-180 | a candidate without any of today's three stamps adds nothing in the first loop |
| FastReport.Queued | daily_report_fast.py:181-182 | queued names are undated candidates, and with use_creation_time every undated candidate is queued |
| FastReport.NothingQueuedWithoutCreationTime | daily_report_fast.py:181-182 | without use_creation_time nothing is queued |
| FastReport.CheckFileDate | daily_report_fast.py:195-211 | a date is reported only for a file and is its creation date; an identifier only for a file created today whose group 1 matches and validates |
| FastReport.FoundMeans | daily_report_fast.py:228-231 | the batch's finds are exactly the identifiers its probes returned |
| FastReport.OldCount | daily_report_fast.py:233-234 | batch_old_count never exceeds the batch |
| FastReport.NextCounter | daily_report_fast.py:232-238 | the stale counter grows by at most one per batch, and a batch with a find leaves it at most one |
| FastReport.ProbeBatch | daily_report_fast.py:219-238 | one batch loop yields the batch's finds and the counter after the reset and the stale test |
| FastReport.ProbeQueue | daily_report_fast.py:193-249 | the batched probe loop equals the specification over the reverse-sorted queue, starting at counter 0 |
| FastReport.ProbeSound | daily_report_fast.py:228-231 | every identifier of the probe loop came from a probe that found it |
| FastReport.FirstBatchesProbed | daily_report_fast.py:246-249 | with the counter at c, the next 3 - c batches are always probed, so every find in them is kept |
| FastReport.FindKeepsScanning | daily_report_fast.py:232-247 | a batch with a find never ends the loop |
| FastReport.SplitCandidates | daily_report_fast.py:172-182 | dated candidates are matched at once and undated ones queued when use_creation_time is set |
| FastReport.FallbackListing | daily_report_fast.py:141-254 | the fallback listing equals its specification |
| FastReport.ScanDirectoryFast | daily_report_fast.py:119-297 | a missing base gives the empty set; a missing dated folder with scan_type other than 'file' gives the empty set; every returned number validates |
| FastReport.WalkSound | daily_report_fast.py:262-287 | each walked number comes from a file with a configured extension (for 'file' and 'both') or a folder (for 'both' only) |
| FastReport.FallbackIsFresh | daily_report_fast.py:172-231 | every number of the fallback comes from a candidate that carries a today stamp, or was probed and created today |
| FastReport.FastScanValidates | daily_report_fast.py:119-297 | every branch returns only numbers the validator accepts |
| FastReport.FlatEquipmentWalkedUndated | daily_report_fast.py:262-278 | an old, undated file of a flat equipment is counted as today's, since the walk has no date filter |
| FastMetrics.FundusProbe | daily_report_fast.py:359-372 | an item (file or folder) yields a number iff it exists, was created today, and its group 1 validates |
| FastMetrics.ProbeFolder | daily_report_fast.py:374-380 | the probe loop over a folder's undated items equals the probed set |
| FastMetrics.ScanFundusFolder | daily_report_fast.py:322-383 | one folder of the loop equals its specification |
| FastMetrics.CalculateFundus | daily_report_fast.py:310-388 | the count is the size of the one set unioned over the configured folders |
| FastMetrics.FundusChartsAppend | daily_report_fast.py:322 | the fundus set of two folder lists is the union of their sets |
| FastMetrics.PlaceholderAddsNothing | daily_report_fast.py:323-325 | a '[TODO' folder adds nothing, wherever it stands |
| FastMetrics.ProbedSetSound | daily_report_fast.py:377-380 | every probed number came from some item's probe |
| FastMetrics.FolderChartsSound | daily_report_fast.py:322-383 | a folder's numbers come from a listable, non-placeholder folder, via an item stamped today or created today |
| FastMetrics.FundusSound | daily_report_fast.py:310-388 | every fundus number comes from a configured, listable, non-placeholder folder through a fresh item |
| FastMetrics.DatedItemCounted | daily_report_fast.py:338-348 | an item stamped today with a valid group 1 is always counted, provided no earlier item raised |
| FastMetrics.ProcessReservationFile | daily_report_fast.py:390-464 | an unreadable workbook leaves all counts at zero; otherwise the counts are the tally of its cells |
| FastMetrics.RepeatedKeyCountsOnce | daily_report_fast.py:416-422 | a repeated sheet/cell/text key, or a cell without '수술방법:', changes no count |
| FastMetrics.NewCellCountsFirstKind | daily_report_fast.py:452-457 | a new surgery cell adds one to the first kind among verion, lensx, ex500 whose keyword it holds, and at most one in all |
| FastMetrics.TallyBound | daily_report_fast.py:447-457 | the three counts together never exceed the number of distinct surgery cells |
| UpgradedReport.ScandirOutcome | daily_report_upgraded.py:164-169 | a regular file adds iff its two-group identifier is non-empty and validates; folders are passed over |
| UpgradedReport.ScanFilesInFolder | daily_report_upgraded.py:158-174 | the scandir loop equals its specification, keeping what it had when an exception ends it |
| UpgradedReport.FolderFilesSound | daily_report_upgraded.py:158-174 | every number came from a regular file of the folder, by the two-group rule, and validates |
| UpgradedReport.FolderFilesExact | daily_report_upgraded.py:158-174 | with integer bounds a number is in the set iff some regular file gives it |
| UpgradedReport.ScanEquipmentFolder | daily_report_upgraded.py:121-149 | a missing base gives the empty set; a missing folder_structure key raises; SP, HFA and FUNDUS scan the date folder, or the base when it is absent; any other id scans the date folder or nothing |
| UpgradedReport.ScanAllEquipment | daily_report_upgraded.py:176-195 | exactly one entry per configured id, the empty set where that scan raised |
| UpgradedReport.CalculateGlaucoma | daily_report_upgraded.py:197-199 | \|hfa & oct\| is at most each size, zero iff disjoint, and obeys inclusion-exclusion |
| UpgradedReport.ScanFundusFolder | daily_report_upgraded.py:201-219 | the loop over fundus_main and fundus_secondary equals the union specification |
| UpgradedReport.FundusUnionOfTwo | daily_report_upgraded.py:201-219 | the fundus set is the union of the two folders' scans, and empty when neither is configured |
| UpgradedReport.CountKeywords | daily_report_upgraded.py:235-237 | the keyword loop applies one increment per keyword found |
| UpgradedReport.CountCell | daily_report_upgraded.py:234-237 | the key loop applies every hit of every key |
| UpgradedReport.CountFile | daily_report_upgraded.py:231-237 | one workbook applies the hits of its dated cells, ended by a KeyError |
| UpgradedReport.ScanReservationFiles | daily_report_upgraded.py:221-242 | the workbook loop equals its specification |
| UpgradedReport.EveryHitCounts | daily_report_upgraded.py:234-237 | with only the three known keys nothing raises, and the total grows by exactly the number of hits |
| UpgradedReport.ApplyGrows | daily_report_upgraded.py:237-240 | counts never go down, even when a later workbook raises |
| UpgradedReport.ReservationCountsGrow | daily_report_upgraded.py:226-240 | the counts after a prefix of the files are at most the final counts |
| UpgradedReport.UndatedCellIgnored | daily_report_upgraded.py:233 | a cell without the target date as YYYY-MM-DD adds nothing |
| UpgradedReport.OneCellCountsPerKeyword | daily_report_upgraded.py:235-237 | one cell holding two verion keywords adds two |
| UpgradedReport.UnknownKeyRaises | daily_report_upgraded.py:237 | a key outside the three counts raises at its first hit |
| LegacyReport.LastDot | daily_report.py:130 | the position of the last dot, with no dot after it |
| LegacyReport.Suffix | daily_report.py:130 | Path.suffix is empty, or a dot-led tail of at least two characters with no further dot |
| LegacyReport.ExactImpliesEndsWith | daily_report.py:128-132 | whatever the exact-suffix test admits also passes the endswith test of the other programs |
| LegacyReport.BareExtensionRefused | daily_report.py:128-132 | a bare '.pdf' passes endswith but has no suffix, so the exact test refuses it |
| LegacyReport.DoubleExtensionRefused | daily_report.py:128-132 | 'x.tar.gz' passes endswith('.tar.gz') but its suffix is only '.gz' |
| LegacyReport.IsTodayFileMeans | daily_report.py:97-126 | only today's creation date passes; a filter after today rejects everything; an unparsable filter gives False |
| LegacyReport.ScanRecursive | daily_report.py:161-215 | the recursive scan adds to the shared set the fold of the folder's outcomes |
| LegacyReport.ScanItem | daily_report.py:171-215 | one item of the loop, descending into today's folders |
| LegacyReport.ScanDirectoryMethod | daily_report.py:134-223 | scan_directory equals its specification |
| LegacyReport.Cut | daily_report.py:163-164 | the tree cut at a depth keeps every entry's own attributes |
| LegacyReport.DepthBounded | daily_report.py:161-212 | nothing deeper than max_depth affects the outcome: the tree cut below it gives the same outcomes |
| LegacyReport.OtherTypeFindsNothing | daily_report.py:187-209 | a scan_type other than 'file' or 'both' finds nothing, however deep it descends |
| LegacyReport.ScanAddsValid | daily_report.py:187-209 | every number added validates |
| LegacyReport.ScanDirectoryValidates | daily_report.py:134-223 | scan_directory returns only valid numbers |
| LegacyReport.FirstValidGroup | daily_report.py:266-272 | an item adds the group of the first pattern whose group 1 validates, and is skipped iff every pattern passes on |
| LegacyReport.TryPatterns | daily_report.py:266-272 | the pattern loop with its break equals the first-valid-group rule |
| LegacyReport.CalculateLasik | daily_report.py:244-277 | the count equals its specification |
| LegacyReport.LasikMeaning | daily_report.py:255-272 | without an exception, LASIK holds ORB ∩ TOPO and each today SCR item's first valid group, and nothing else |
| LegacyReport.VerionCell | daily_report.py:439-440 | the Verion cell is max(\|IOL700\|, reservation verion or 0) |
| FileCache.ReplaceRemoves | file_cache_manager.py:32 | after replacing a character by text without it, the character is gone |
| FileCache.Flattened | file_cache_manager.py:32 | the flattened name holds no '\\', '/' or ':' |
| FileCache.CleanName | file_cache_manager.py:32-33 | the name segment is the last min(50, length) characters of the flattened text |
| FileCache.HashPrefix | file_cache_manager.py:31 | the first twelve hex digits of the hash |
| FileCache.CacheName | file_cache_manager.py:35 | 'cache_' + clean name + '_' + hash prefix + '.json', with each part at its place |
| FileCache.DistinctHashesDistinctFiles | file_cache_manager.py:31-35 | directories whose hash prefixes differ get different cache files |
| FileCache.Load | file_cache_manager.py:38-51 | an absent or unreadable file gives the empty set with last_updated None; otherwise the stored names and time |
| FileCache.NewFiles | file_cache_manager.py:76-85 | new names are current names not in the cache, and every current name is new or cached |
| FileCache.Save | file_cache_manager.py:54-73 | a write stores the record; a failed open leaves the store as it was; a dump that fails after the emptying open leaves this directory's file unreadable; every other file is kept |
| FileCache.Updated | file_cache_manager.py:94-95 | the update is exactly old ∪ listed |
| FileCache.SaveLoads | file_cache_manager.py:54-65 | a saved cache loads back as the names saved with the time of the save, and its count is the number of distinct names |
| FileCache.SaveKeepsOthers | file_cache_manager.py:54-73 | saving one directory, however the write ends, leaves every other cache file as it was |
| FileCache.FailedDumpLosesCache | file_cache_manager.py:66-73 | after a dump that fails, this directory's cache loads as empty and every listed name is reported new |
| FileCache.FailedOpenKeepsCache | file_cache_manager.py:66-73 | after an open that fails, the cache loads as before and the same names are reported new |
| FileCache.UpdateNeverShrinks | file_cache_manager.py:88-98 | after an update the cache holds what it held plus every listed name |
| FileCache.NoNewFilesAfterUpdate | file_cache_manager.py:76-98 | after updating with a list, the same list has no new names |
| FileCache.NewFilesAfterUpdate | file_cache_manager.py:76-98 | once yesterday's listing is cached, today's new names are exactly those neither listed yesterday nor cached before |
| FileCache.ClearForgetsOnlyThat | file_cache_manager.py:101-107 | clearing forgets that directory's cache and keeps every other |
| FileCache.InfoRows | file_cache_manager.py:117-138 | the rows are exactly those of the readable .json files |
| FileCache.SavedIsListed | file_cache_manager.py:117-138 | a saved cache is listed with its directory and count |
| FileCache.CacheFolder.SaveCache | file_cache_manager.py:54-73 | creates the folder; the new store is the old one saved with the outcome of the write (stored, unchanged, or this file unreadable); returns whether the write succeeded |
| FileCache.CacheFolder.UpdateCacheWithTodayFiles | file_cache_manager.py:88-98 | saves old ∪ listed with the outcome of the write and returns its size |
| FileCache.CacheFolder.ClearCache | file_cache_manager.py:101-114 | with a directory removes only its file and returns whether there was one; without one removes the whole folder |
| FileCache.CacheFolder.GetCacheInfo | file_cache_manager.py:117-138 | an absent folder gives no rows; otherwise exactly the readable .json rows, each file once |
| McpServer.EntryOutcome | daily_report_mcp.py:66-73 | a file adds iff it matches and the MCP rule gives a non-empty identifier; a group-less pattern raises; folders are skipped |
| McpServer.EquipmentScan | daily_report_mcp.py:32-79 | an unknown id gives an error; a missing folder gives 'not found'; otherwise a sorted, repeat-free list whose count is its length |
| McpServer.ListingExact | daily_report_mcp.py:66-73 | without an exception the set is exactly the identifiers the entries add |
| McpServer.FoundExact | daily_report_mcp.py:59-79 | a found folder's identifiers are exactly those its files give, with no validation |
| McpServer.LeadingZeroReported | daily_report_mcp.py:71-73 | '0012' is reported by the server although the report validator rejects it |
| McpServer.ListOf | daily_report_mcp.py:77 | list(s) is repeat-free and holds exactly the set's names |
| McpServer.CollectIdentifiers | daily_report_mcp.py:66-73 | the scandir loop equals the fold of its outcomes |
| McpServer.ScanEquipment | daily_report_mcp.py:32-79 | scan_equipment equals its specification |
| McpServer.Statistics | daily_report_mcp.py:93-110 | one count per configured id plus GLAUCOMA = \|HFA ∩ OCT\| from the returned lists |
| McpServer.GetTodayStatistics | daily_report_mcp.py:83-110 | the statistics, or nothing when a scan raises out of the tool |
| McpServer.GlaucomaBounded | daily_report_mcp.py:96-108 | GLAUCOMA never exceeds the HFA or the OCT count |
| McpServer.ListedSetSize | daily_report_mcp.py:76-77 | a repeat-free list has as many names as its set |
| McpServer.UpdateManualInput | daily_report_mcp.py:178-200 | an unknown field is refused; otherwise field and value are echoed |
| HfaCheck.Take | check_hfa.py:110-125 | xs[:10] is the first ten elements, or all of them |
| HfaCheck.ScanPath | check_hfa.py:50-66 | the longest-token-first folder when it exists, else the base |
| HfaCheck.NamePick | check_hfa.py:111-114 | no match, or the lastindex-guarded pick of the match |
| HfaCheck.EmptyGroupsListedInvalid | check_hfa.py:151-160 | a match whose two sequential groups both captured the empty text (lastindex 2) picks the empty identifier, which the validation step lists as '숫자 변환 실패' without crashing |
| HfaCheck.NestedEmptyGroupsCrash | check_hfa.py:151-160 | the same captures from a group that encloses the other (lastindex 1) pick None, and the validation step crashes on it |
| HfaCheck.MatchAll | check_hfa.py:109-134 | a crash iff some pick crashes; otherwise every matching name appears, each with its own pick |
| HfaCheck.WithExtension | check_hfa.py:126-128 | a file name is tested iff its lower-case form ends with a valid extension |
| HfaCheck.ValidateAll | check_hfa.py:162-198 | valid and rejected together cover every match; each valid number is canonical, in range and picked from a match |
| HfaCheck.HfaReport | check_hfa.py:19-225 | the script either stops at step 1, 2 or 4, or reports |
| HfaCheck.MatchNames | check_hfa.py:109-134 | the matching loop equals its specification |
| HfaCheck.MatchAllCrash | check_hfa.py:114-133 | a crash on one name makes the whole matching crash |
| HfaCheck.ValidateMatches | check_hfa.py:162-198 | the validation loop equals its specification |
| HfaCheck.RunHfaCheck | check_hfa.py:19-225 | the script, step by step, equals its specification |
| HfaCheck.ReportSound | check_hfa.py:162-198 | each reported number is canonical, in range and picked from one of the first ten folders or from a valid-extension file among the first ten files |
| HfaCheck.ZeroAlwaysExplained | check_hfa.py:206-218 | a cause is always given, and it says the numbers were recognised exactly when some were |
| HfaCheck.ExtensionOnlyForFiles | check_hfa.py:109-128 | folder names are matched whatever their extension; a file name only with a valid one |
| DateDebug.ShouldScan | debug_scan_date.py:96-106 | files need a valid extension under 'file' and 'both'; folders only under 'both'; other types test nothing |
| DateDebug.TestItem | debug_scan_date.py:108-134 | an item adds only when tested, matched, and in range by the range-only check; the counter counts adds and non-matches |
| DateDebug.CountedIn | debug_scan_date.py:121-134 | test_count never exceeds the items |
| DateDebug.EquipmentDebugOf | debug_scan_date.py:27-144 | a missing base is reported; a missing target folder skips the equipment; a scan lists the target folder |
| DateDebug.TestListing | debug_scan_date.py:80-142 | the item loop equals the fold of its outcomes, with its test_count |
| DateDebug.DebugEquipmentScan | debug_scan_date.py:27-144 | one equipment equals its specification |
| DateDebug.ScannedRangeOnly | debug_scan_date.py:108-124 | a reported number is group 1 of a tested item and passes only the range check |
| DateDebug.OtherTypeFindsNothing | debug_scan_date.py:96-106 | another scan_type finds nothing and counts nothing |
| DateDebug.NothingCounted | debug_scan_date.py:121-134 | with no item counted, test_count is zero |
| DateDebug.LeadingZeroAdded | debug_scan_date.py:114-120 | '0123' in range is added, although the report validator rejects it |
| DateDebug.DebugAllEquipment | debug_scan_date.py:27 | one report per configured equipment, in configuration order |
| DateDebug.GroupOneAll | debug_scan_date.py:174-177 | the group 1 of every matching name; a group-less pattern raises |
| DateDebug.GroupOneLoop | debug_scan_date.py:174-177 | the loop equals its specification |
| DateDebug.FundusDebugOf | debug_scan_date.py:146-195 | the fundus folder is substituted without the DD step; an empty structure scans nothing |
| DateDebug.DatedNames | debug_scan_date.py:212 | the secondary folder's names are exactly those containing YYYYMMDD |
| DateDebug.SecondaryDebugOf | debug_scan_date.py:197-233 | every secondary name considered carries the YYYYMMDD stamp |
| DateDebug.DebugRunOf | debug_scan_date.py:14-240 | the run aborts iff the fundus step crashes, and otherwise has one report per equipment |
| DateDebug.FundusDebugScan | debug_scan_date.py:146-195 | the fundus step equals its specification |
| DateDebug.SecondaryDebugScan | debug_scan_date.py:197-233 | the secondary step equals its specification |
| DateDebug.DebugScan | debug_scan_date.py:14-240 | debug_scan equals its specification |
| MaxPatch.PatchCode | remove_max_validation.py:81-87 | the code is rewritten iff the old text occurs, and the new text is then present |
| MaxPatch.Workspace.RemoveMaxValidation | remove_max_validation.py:18-89 | a missing max aborts before writing; otherwise max becomes null, the old value is reported, and the source is rewritten only when asked and the old text is found |
| MaxPatch.NullMaxEffect | remove_max_validation.py:60-79 | with max null the patched validator accepts every canonical number from min up, where the original raises |
| MaxPatch.PatchKeepsLowerRules | remove_max_validation.py:62-71 | the patched validator still rejects a leading zero, a value below min and a parse failure |
| PreRunCheck.SampleFolder | pre_run_check.py:80-93 | the guessed today folder when it exists, else the base |
| PreRunCheck.FileEntries | pre_run_check.py:109 | exactly the regular files of a listing, in order |
| PreRunCheck.AsSamples | pre_run_check.py:109-122 | one sample per file, in order |
| PreRunCheck.Cap | pre_run_check.py:124-126 | the break fires after the file that reaches max_samples, so a cap of 0 still writes one |
| PreRunCheck.SamplesOf | pre_run_check.py:102-126 | at most Cap(max_samples) samples, all the files when there are no more than that, the k-th sample being the k-th regular file; folders do not count |
| PreRunCheck.SampleRunOf | pre_run_check.py:61-138 | an unreachable base fails; otherwise the folder sampled and its samples |
| PreRunCheck.SamplesAtCap | pre_run_check.py:124-126 | once the files of a prefix reach the cap, they are the samples |
| PreRunCheck.SampleListing | pre_run_check.py:106-126 | the sampling loop equals its specification |
| PreRunCheck.CollectFileSamples | pre_run_check.py:61-138 | collect_file_samples equals its specification |
| PreRunCheck.SuccessCount | pre_run_check.py:352-358 | success_count never exceeds the equipment count |
| PreRunCheck.CollectAllSamples | pre_run_check.py:352-361 | one run per equipment, and success_count counts the successes |
| PreRunCheck.SamplesCapped | pre_run_check.py:106-126 | at most max_samples samples, each a regular file of the listing |
| PreRunCheck.VerifyAllPaths | pre_run_check.py:259-317 | all_ok iff every base and dated folder exists and every fundus path is neither a placeholder nor missing |
| PatternAnalysis.Examined | analyze_directory_patterns.py:90-114 | the samples never exceed the entries, and with max_samples ≥ 1 the files never exceed it |
| PatternAnalysis.ExaminedStops | analyze_directory_patterns.py:113-114 | once max_samples files are collected, later entries change nothing |
| PatternAnalysis.Head | analyze_directory_patterns.py:90 | xs[:n] is the first n elements, or all of them |
| PatternAnalysis.CollectSamples | analyze_directory_patterns.py:87-114 | the sampling loop over items[:100] equals its specification |
| PatternAnalysis.TodayFiles | analyze_directory_patterns.py:127 | exactly the samples created today |
| PatternAnalysis.MatchCount | analyze_directory_patterns.py:168-174 | the count is positive iff some tested sample matches |
| PatternAnalysis.FirstPairs | analyze_directory_patterns.py:176-177 | at most three pairs, fewer only when fewer samples match, each a matching name with its group 1 |
| PatternAnalysis.TestPattern | analyze_directory_patterns.py:166-177 | one pattern's loop yields its count and first pairs |
| PatternAnalysis.Matching | analyze_directory_patterns.py:179-185 | only patterns that match at least once are reported, with their true report |
| PatternAnalysis.MatchingComplete | analyze_directory_patterns.py:179-185 | every pattern that matches a sample is reported |
| PatternAnalysis.InsertByMatches | analyze_directory_patterns.py:189 | inserting a report after every report with at least as many matches keeps the order descending |
| PatternAnalysis.RankByMatches | analyze_directory_patterns.py:189 | the ranking is a permutation ordered by descending match count |
| PatternAnalysis.DetectDatePattern | analyze_directory_patterns.py:217-231 | found_date_pattern iff some date pattern matches one of the first twenty samples |
| PatternAnalysis.Tested | analyze_directory_patterns.py:171 | today's files when there are any, else the first twenty samples |
| PatternAnalysis.RankedReports | analyze_directory_patterns.py:164-189 | the ranked reports are in descending order of matches, no more of them than patterns |
| PatternAnalysis.TestPatterns | analyze_directory_patterns.py:166-185 | the pattern loop equals its specification |
| PatternAnalysis.AnalyzeFiles | analyze_directory_patterns.py:164-231 | the ranked reports and the date flag equal their specifications |
| PatternAnalysis.AnalysisOf | analyze_directory_patterns.py:54-260 | None iff the base is missing or the listing fails; otherwise the resolved folder, today_file_count ≤ file_count, ranked reports |
| PatternAnalysis.AnalyzeDirectory | analyze_directory_patterns.py:54-260 | analyze_directory equals its specification |
| PatternAnalysis.ReportedIffMatches | analyze_directory_patterns.py:164-189 | a pattern is reported iff it matches a tested sample, with its true count and at most three pairs |
| FolderGuess.Candidates | guess_today_folder.py:26-75 | sixteen candidates; the base last; MM.DD and YYYYMMDD directly under the base; all others strictly below it |
| FolderGuess.ShortDropsPadding | guess_today_folder.py:32-53 | the M.D candidates carry str(int()) of the padded values, which drops a leading zero |
| FolderGuess.FoundAmong | guess_today_folder.py:81-98 | found holds exactly the existing candidates, each with its count, and no more entries than candidates |
| FolderGuess.GuessTodayFolders | guess_today_folder.py:81-98 | the existence loop equals its specification |
| FolderGuess.BaseFoundLast | guess_today_folder.py:74-75 | a reachable base is always found, as the last entry |
| FolderGuess.CountIffListable | guess_today_folder.py:86-94 | a count is recorded iff the candidate can be listed, and it is the number of entries; otherwise '?' |
| BackupScan.DatePatternsFor | backup_style_scan.py:54-62 | exactly four date strings, defined for any day that has a yesterday in the modelled range |
| BackupScan.StepPaths | backup_style_scan.py:28-30 | one path per file of a walk step |
| BackupScan.KeptPaths | backup_style_scan.py:33-34 | no more paths are kept than visited |
| BackupScan.KeptPathsMeaning | backup_style_scan.py:33-34 | a path is kept iff it was visited and holds a date string |
| BackupScan.ScanStep | backup_style_scan.py:28-34 | the inner loop extends total_scanned and the kept paths by one directory's files |
| BackupScan.ScanWithPathDateFilter | backup_style_scan.py:21-43 | total_scanned counts every visited file and the kept paths are those of the filter, in visit order |
| BackupScan.MatchedWithinTotal | backup_style_scan.py:29-34 | the matched count never exceeds total_scanned, and each kept path holds a date string |
| BackupScan.YesterdayKept | backup_style_scan.py:55-59 | a path with yesterday's MM.DD is kept too |
| BackupScan.Reachable | backup_style_scan.py:80-86 | exactly the shares whose path exists, no more of them than listed |
| BackupScan.ResultOf | backup_style_scan.py:89-105 | a share's summary line never matches more files than it scanned |
| BackupScan.TestBackupStyleScan | backup_style_scan.py:78-105 | exactly one result per reachable share, in share order, the k-th holding that share's name, total_scanned and matched count; matched ≤ total |
| StructureAnalyzer.SplitDot | folder_structure_analyzer.py:253 | split('.') gives dot-free pieces, at least two iff the name holds a dot |
| StructureAnalyzer.SplitJoinDot | folder_structure_analyzer.py:253 | joining the pieces with dots gives the name back |
| StructureAnalyzer.ClassifyMeaning | folder_structure_analyzer.py:248-268 | each bucket characterised both ways: four digits 'YYYY', two digits 'YYYY\MM', dotted digit pairs by first length, digit triples, lettered dotted names; 'YYYY\MM\DD' never |
| StructureAnalyzer.EmptyTable | folder_structure_analyzer.py:219-228 | the table starts with every key and every list empty |
| StructureAnalyzer.File | folder_structure_analyzer.py:249-268 | filing a folder appends it to its own bucket and leaves every other bucket unchanged |
| StructureAnalyzer.FileAll | folder_structure_analyzer.py:239-271 | filing folders keeps every key present |
| StructureAnalyzer.OfLayout | folder_structure_analyzer.py:249-268 | no bucket holds more folders than were filed |
| StructureAnalyzer.FileAllContents | folder_structure_analyzer.py:239-271 | each bucket is what it held followed by the folders of its own layout, in order |
| StructureAnalyzer.TotalCount | folder_structure_analyzer.py:247-268 | every folder lands in exactly one bucket: the total grows by one per folder |
| StructureAnalyzer.SortedDepth | folder_structure_analyzer.py:230-271 | the search never goes past max_depth, and each folder is classified by its own name |
| StructureAnalyzer.SortFolders | folder_structure_analyzer.py:230-271 | the recursive search equals filing the folders below, in search order |
| StructureAnalyzer.AnalyzeNamingPatterns | folder_structure_analyzer.py:217-271 | each bucket holds exactly the folders of its layout, the total is the folders met, and 'YYYY\MM\DD' stays empty |
| StructureAnalyzer.NeverDayFolder | folder_structure_analyzer.py:219-268 | no folder is ever filed under 'YYYY\MM\DD' |
| StructureAnalyzer.TodayNamePatterns | folder_structure_analyzer.py:181-187 | the five stamps a today folder's name may hold |
| StructureAnalyzer.Record | folder_structure_analyzer.py:169-194 | a folder created today is appended without a check; one whose name holds a stamp is appended only when not already listed; any other folder changes nothing |
| StructureAnalyzer.TodayBelowMeaning | folder_structure_analyzer.py:154-197 | the search records exactly the today folders within the depth bound, keeping what it started with |
| StructureAnalyzer.TodaySetDepth | folder_structure_analyzer.py:155-197 | only folders within the depth bound are recorded |
| StructureAnalyzer.FindBelow | folder_structure_analyzer.py:154-197 | the recursive search equals its specification |
| StructureAnalyzer.TodayBelowNoRepeats | folder_structure_analyzer.py:169-197 | started with a list holding nothing below the folder, the search never records the same folder twice: the creation-date append runs on a folder's only visit and the name append checks membership |
| StructureAnalyzer.FindTodayFolders | folder_structure_analyzer.py:150-199 | a folder is recorded iff it is a today folder, at one to max_depth + 1 levels below the path, and no (rel_path, item_path) pair is recorded twice |
| StructureAnalyzer.AnalyzeDirectory | folder_structure_analyzer.py:27-70 | a missing path is reported; otherwise the today folders, each once, and the layout table, each bucket holding exactly the folders of its layout |

## Left out

- The Tkinter user interfaces, the log callbacks and the text they print are not modelled. This includes `report_lines`, the `_scan_directory` tree printing, and the sample and result files the scripts write. They are presentation only.
- Excel and PDF I/O is not modelled: openpyxl, xlrd, pandas and win32com. A workbook is a sequence of cell values, and an unreadable one is `None`.
- The thread pools are not modelled. Each batch is processed in order, because the result sets and the stale counter do not depend on the order in which futures complete.
- The regex engine is a parameter. Fixed literal patterns, such as the LASIK and analyser patterns, are assumed to yield a group 1 on every match. md5 is a parameter as well.
- Only ASCII is handled:
  - `int()` is modelled on ASCII digit strings, without its whitespace, sign and underscore leniency;
  - `str.lower()` lowers ASCII letters only;
  - `str.isdigit()` accepts ASCII digits only;
  - `str.isalpha()` accepts Latin letters and Hangul syllables only.
- Years are limited to 1000..9999, so `str(year)` and `%Y` agree. `strptime` of a date argument is not modelled: dates are given as values.
- The order of `os.listdir` and `os.walk` is the order of the modelled tree's children.
- Exceptions from `os.path.exists` itself are not modelled. An `os.walk` error is modelled as an unlistable folder, which the walk skips.
- Configuration records are assumed to carry every key the programs read. In the source a missing key, such as `equipment_info['path']` in analyze_directory_patterns.py, raises KeyError. The model's records always hold every field. The exceptions, modelled on purpose, are the sections check_hfa.py loads (`HfaCheck.HfaReport` stops or crashes on them) and the scan-type lookup of `UpgradedReport.ScanEquipmentFolder`.
- The `input()` answer of the patch script is a parameter. Its old and new code texts are parameters too.
- The watchdog monitoring, the schedule HTTP API and the MCP framework glue are network or event plumbing and are not modelled.
- Floating-point output is not modelled: `_format_size`, and the 90% test, which is written as the integer test 10 · old > 9 · size.
- The item-count log of the today folders in `_find_today_folders` only prints, so it is not modelled.
- `os.path.relpath` is modelled as the list of components below the searched path.
- Name lookup is case-sensitive: `Files.Find` compares names exactly, whereas the Windows shares the programs read match names without regard to case, so a path that differs from the share's entry only in case is found there and not in the model.
- Sibling entries are assumed to have distinct names (`Files.WellNamed`), as in a real directory; `StructureAnalyzer.FindTodayFolders` relies on it for its no-repeat promise.
- PatternAnalysis.AnalysisOf: states today_file_count ≤ file_count. That today_file_count counts exactly the today samples is stated by PatternAnalysis.TodayFiles.
- HfaCheck.HfaReport: states only where the script stops. What a report holds is stated by HfaCheck.ReportSound and HfaCheck.ZeroAlwaysExplained.
- The `calculate_fundus` function of `daily_report.py` and the write_excel cell plumbing apart from the Verion maximum are not modelled, because the first report is covered through its scanner, its LASIK and glaucoma counts, and the Verion cell.
