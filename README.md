# appUtils dashboard — a Dafny model of its core

appUtils is a single-page browser dashboard with four modules. This project
models the logic of the dashboard shell and of those modules:

- **Text comparison** (`comparar-textos`):
  - the word-overlap similarity and the other metrics of `analizarTextos`;
  - the index-aligned line diff (`generarDiff`);
  - the grouping of that diff into Git-style hunks with three lines of context (`agruparDiff`);
  - the headers and removed/added totals the rendering reports (`formatearDiffComoGit`);
  - the Levenshtein distance table (`calcularDistanciaLevenshtein`).
- **Investment calculator** (`calculadora-inversion`):
  - form validation;
  - the deduction chain (withholding, the informational 4x1000 on the profit, and the 4x1000 on the gross total);
  - parsing of formatted amounts;
  - the history: save with a cap of 100, delete by id, clear after confirmation, and a JSON import that merges by id and sorts newest first.
- **4x1000 calculator** (`calculadora-4x1000`):
  - the 4-per-thousand tax on a transaction and its limits;
  - the history: save with a cap of 50, delete, clear, and a JSON import that replaces the history.
- **Links utilities** (`links-utils`):
  - the tool table (`toolsConfig` / `openTool`);
  - `escapeRegex`;
  - the search filter over the tool rows, with its "no results" row.
- **Dashboard shell** (`js/main.js`):
  - the sidebar state machine: the desktop collapse, the mobile drawer with its overlay and body scroll lock, the toggle icons, and the resize handler;
  - the breadcrumb;
  - the paths each section loads.

## How the source becomes Dafny

**Pure logic** becomes functions, and lemmas state what they promise.

**Loops** become methods with loop invariants. Each is proved equal to a specification function:
- `LineDiff.ClassifyLines`;
- `HunkGrouping.GroupDiff`, the scan with its index rewind, proved equal to the declarative `HunkGrouping.Hunks`;
- `TextMetrics.Levenshtein`, which fills an `array2` and is proved equal to the recursive `Lev`;
- `Investment.MergeImported`;
- `LinksUtils.ToolsTable.FilterTools`.

**Objects whose fields the source updates** are classes whose methods state their whole new state in terms of a function of the old one. These are:
- the calculators' `historial` (`Investment.InvestmentHistory`, `Tax4x1000.TaxHistory`);
- the tool table rows (`LinksUtils.ToolsTable`);
- the dashboard (`DashboardShell.Dashboard`).

**What the browser or the user supplies** becomes a parameter:
- the window width;
- `Date.now()`;
- the answer to `confirm`;
- the parsed JSON. The file either failed to parse (`None`) or it gives, for each record, the set of keys present and the values read.

**Number semantics:**
- `Math.round` is `floor(x + 1/2)` (`Rounding.Round`).
- Amounts are unbounded integers. The 4x1000 of an integer v is `(4v + 500) / 1000` (`Rounding.PerMille4Integer`).
- The withholding percentage is a real number.

**Behaviour of the code worth knowing when reading the model:**
- **Hunk merging.** Two changes share a hunk exactly when at most eight unchanged lines separate them (`HunkFacts.MergeRule`): three lines of trailing context plus a six-line look-ahead. The unchanged lines of a merged gap beyond the first three are not part of the hunk, so a hunk need not be contiguous (`HunkFacts.GapDropped`).
- **The 4x1000 import.** It replaces the history wholesale, with no merge, de-duplication or cap.
- **The investment import.** It merges by id and sorts, and applies no cap, so the history can exceed 100 records after it.

## Model

| member | source | states |
|---|---|---|
| Text.Digits | modules/financiero/calculadora-4x1000/script.js:120 | `replace(/[^\d]/g, '')` leaves only digits and never lengthens the text; which digits it keeps is stated by Text.DigitsIsFilter |
| Text.DigitsOfChar | modules/financiero/calculadora-4x1000/script.js:120 | a single character is kept iff it is a digit, so with DigitsAppend the result is fixed for every input |
| Text.DigitsIsFilter | modules/financiero/calculadora-4x1000/script.js:120 | stripping non-digits is the filter that keeps exactly the digits: every digit of the input is kept, nothing else is, and the order is the input's |
| Text.DigitsAppend | modules/financiero/calculadora-inversion/script.js:111 | removing non-digits works piece by piece over a concatenation |
| Text.DigitsIdempotent | modules/financiero/calculadora-inversion/script.js:111 | stripping non-digits twice is stripping once |
| Text.DecimalValueBound | modules/financiero/calculadora-4x1000/script.js:128 | the value parseInt gives a digit string is below 10 to the power of its length |
| Text.DecimalRoundTrip | modules/financiero/calculadora-4x1000/script.js:128 | parsing the decimal spelling of n gives back n |
| Text.Lower | modules/desarrollo/links-utils/script.js:231 | toLowerCase maps each character to its lower case and keeps the length |
| Text.LowerIdempotent | modules/desarrollo/links-utils/script.js:231 | lower-casing twice is lower-casing once |
| Text.TrimStart | modules/desarrollo/links-utils/script.js:231 | removes exactly the leading JavaScript white space and returns a suffix |
| Text.TrimEnd | modules/desarrollo/links-utils/script.js:231 | removes exactly the trailing white space and returns a prefix |
| Text.TrimSlice | modules/desarrollo/links-utils/script.js:231 | trim returns the slice of the input between the cut white space |
| Text.TrimCutsSpaceAtEnd | modules/desarrollo/links-utils/script.js:231 | all that trim drops after the kept slice is white space |
| Text.TrimmedStart | modules/desarrollo/links-utils/script.js:231 | the trimmed term does not start with white space |
| Text.TrimmedEnd | modules/desarrollo/links-utils/script.js:231 | the trimmed term does not end with white space |
| Text.TrimIdempotent | modules/desarrollo/links-utils/script.js:231 | trimming twice is trimming once |
| Text.ContainsEmpty | modules/desarrollo/links-utils/script.js:256 | every text includes the empty term |
| Rounding.Round | modules/financiero/calculadora-inversion/script.js:189 | Math.round: x lies in [n - 1/2, n + 1/2), so halves round up |
| Rounding.RoundIs | modules/financiero/calculadora-inversion/script.js:185 | that integer is unique |
| Rounding.PerMille4Integer | modules/financiero/calculadora-4x1000/script.js:136 | Math.round(v * 4 / 1000) equals (4v + 500) / 1000 for every integer v |
| Rounding.PerMille4Bounds | modules/financiero/calculadora-4x1000/script.js:136-137 | for v >= 0 the 4x1000 lies between 0 and v |
| HistoryLog.PrependCapped | modules/financiero/calculadora-inversion/script.js:401-406 | after unshift and slice(0, cap) the new record is first, the rest is the old history in order, and the length is min(old + 1, cap) |
| HistoryLog.PrependCappedBounded | modules/financiero/calculadora-4x1000/script.js:176-181 | the history never exceeds the cap, and below the cap nothing is dropped |
| HistoryLog.Filter | modules/financiero/calculadora-inversion/script.js:454 | filter keeps only accepted records of the input, and keeps every accepted one |
| HistoryLog.FilterAppend | modules/financiero/calculadora-4x1000/script.js:222 | filtering works piece by piece, so the kept records stay in order |
| HistoryLog.FilterKeepsAll | modules/financiero/calculadora-inversion/script.js:454 | when every record is accepted the history is unchanged |
| HistoryLog.FilterIdempotent | modules/financiero/calculadora-inversion/script.js:454 | deleting the same id twice is deleting it once |
| LineDiff.ClassifyLines | modules/desarrollo/comparar-textos/script.js:428-452 | the loop over max(len) indices produces the flat diff Classify(a, b) |
| LineDiff.DiffRecoversBothTexts | modules/desarrollo/comparar-textos/script.js:428-452 | the non-added entries spell the old lines and the non-removed entries the new lines, so no line is lost |
| LineDiff.ClassifyLength | modules/desarrollo/comparar-textos/script.js:432-449 | the flat diff has one entry per index plus one per modified pair |
| LineDiff.ClassifyDescribes | modules/desarrollo/comparar-textos/script.js:432-449 | each entry is the added, removed, modified or unchanged case of its 1-based index, and numbers never decrease |
| LineDiff.IdenticalTextsUnchanged | modules/desarrollo/comparar-textos/script.js:446-448 | identical texts give only unchanged entries, one per line |
| LineDiff.DiffCounts | modules/desarrollo/comparar-textos/script.js:436-445 | removed = old lines minus equal pairs; added = new lines minus equal pairs |
| HunkGrouping.NextChange | modules/desarrollo/comparar-textos/script.js:460-463 | the first change at or after k, or the end of the diff |
| HunkGrouping.LookAheadDecides | modules/desarrollo/comparar-textos/script.js:489-502 | after the trailing context, the six-entry look-ahead finds a change exactly when the next change is within eight unchanged entries of this one |
| HunkGrouping.LeadingContext | modules/desarrollo/comparar-textos/script.js:465-472 | takes the unchanged entries among the three before the change |
| HunkGrouping.ChangeWithContext | modules/desarrollo/comparar-textos/script.js:474-487 | takes the change and up to three unchanged entries after it, stopping at the next change |
| HunkGrouping.ChangeAhead | modules/desarrollo/comparar-textos/script.js:490-496 | reports whether a change lies in the next six entries |
| HunkGrouping.AtChange | modules/desarrollo/comparar-textos/script.js:463-503 | one step at a change keeps the scan in step with Hunks(d) |
| HunkGrouping.GroupDiff | modules/desarrollo/comparar-textos/script.js:455-511 | agruparDiff returns exactly the entries of the declarative hunks Hunks(d) |
| HunkFacts.HunksOrdered | modules/desarrollo/comparar-textos/script.js:455-511 | hunks are increasing index lists, each before the next, so no entry appears twice |
| HunkFacts.EveryChangeInOneHunk | modules/desarrollo/comparar-textos/script.js:463-503 | every change lies in exactly one hunk |
| HunkFacts.HunksHaveChanges | modules/desarrollo/comparar-textos/script.js:463-503 | every hunk holds a change |
| HunkFacts.NoHunksIffNoChanges | modules/desarrollo/comparar-textos/script.js:505-510 | there are no hunks exactly when the diff has no change |
| HunkFacts.MergeRule | modules/desarrollo/comparar-textos/script.js:489-502 | two neighbouring changes share a hunk iff at most eight unchanged entries separate them |
| HunkFacts.GapDropped | modules/desarrollo/comparar-textos/script.js:476-502 | in a merged gap, unchanged entries past the first three are in no hunk |
| HunkFacts.TrailingKept | modules/desarrollo/comparar-textos/script.js:476-487 | the three unchanged entries after a change share its hunk |
| HunkFacts.ContextBounded | modules/desarrollo/comparar-textos/script.js:464-487 | each unchanged entry of a hunk is within three entries after or before a change |
| HunkFacts.ChangeCounts | modules/desarrollo/comparar-textos/script.js:558-559 | over all hunks the removed and added totals equal those of the flat diff |
| DiffReport.GenerateDiff | modules/desarrollo/comparar-textos/script.js:428-453 | generarDiff classifies, then groups |
| DiffReport.FormatDiff | modules/desarrollo/comparar-textos/script.js:513-567 | the report is the identical notice for no groups, else one header per non-empty group and the totals |
| DiffReport.HeadersOfNonEmpty | modules/desarrollo/comparar-textos/script.js:521-526 | with no empty group, there is one header per group, from that group |
| DiffReport.NoChangesIffEqual | modules/desarrollo/comparar-textos/script.js:446-448 | the flat diff has no change iff the line lists are equal |
| DiffReport.IdenticalIff | modules/desarrollo/comparar-textos/script.js:514-516 | the texts are reported identical iff their lines are equal |
| DiffReport.HeadersOfDiff | modules/desarrollo/comparar-textos/script.js:524-526 | each header repeats the first line number and the group length on both sides |
| DiffReport.TotalsOfDiff | modules/desarrollo/comparar-textos/script.js:558-559 | the reported totals are the removed and added counts of the whole diff |
| DiffReport.OneModifiedLine | modules/desarrollo/comparar-textos/script.js:442-444 | one modified line gives "@@ -1,2 +1,2 @@" with 1 removed and 1 added |
| TextMetrics.CommonWords | modules/desarrollo/comparar-textos/script.js:72 | every kept word occurs in both texts, and every word of the first text that occurs in the second is kept |
| TextMetrics.CommonWordsIsFilter | modules/desarrollo/comparar-textos/script.js:72 | the common words are the first list filtered by membership in the second: each occurrence kept, repeats included, in order |
| TextMetrics.CommonWordsAppend | modules/desarrollo/comparar-textos/script.js:72-76 | the common count of a concatenated list is the sum of the parts' counts |
| TextMetrics.CommonWordsAll | modules/desarrollo/comparar-textos/script.js:72 | every word is kept iff every word occurs in the other text |
| TextMetrics.SimilarityRange | modules/desarrollo/comparar-textos/script.js:74-75 | the similarity lies between 0 and 100 |
| TextMetrics.SimilaritySame | modules/desarrollo/comparar-textos/script.js:74-75 | a text compared with itself is 100% similar |
| TextMetrics.SimilarityDisjoint | modules/desarrollo/comparar-textos/script.js:71-75 | texts with no common word are 0% similar |
| TextMetrics.Analyze | modules/desarrollo/comparar-textos/script.js:66-102 | the length difference is the absolute difference, common words do not exceed the first word count, similarity is in 0..100 |
| TextMetrics.Levenshtein | modules/desarrollo/comparar-textos/script.js:576-602 | the table fill returns the edit distance EditDistance(str1, str2) |
| TextMetrics.FillRow | modules/desarrollo/comparar-textos/script.js:588-599 | one row of the table holds the recursive distances of its prefixes |
| TextMetrics.CellRule | modules/desarrollo/comparar-textos/script.js:589-597 | a cell copies the diagonal on equal characters, otherwise takes 1 + the minimum neighbour |
| TextMetrics.MatchingLast | modules/desarrollo/comparar-textos/script.js:589-590 | equal last characters cost nothing |
| TextMetrics.DistanceSymmetric | modules/desarrollo/comparar-textos/script.js:576-602 | the distance does not depend on the argument order, though the table swaps them |
| TextMetrics.ZeroIffEqual | modules/desarrollo/comparar-textos/script.js:576-602 | the distance is 0 iff the strings are equal |
| TextMetrics.AgainstEmpty | modules/desarrollo/comparar-textos/script.js:579-585 | the distance to the empty string is the length |
| TextMetrics.DistanceBounds | modules/desarrollo/comparar-textos/script.js:576-602 | the distance lies between the length difference and the longer length |
| Investment.Validate | modules/financiero/calculadora-inversion/script.js:149-171 | accepts iff amount, rate and term are positive and a start date is given; the error names the first failing check in source order |
| Investment.ValidateIgnoresDeductions | modules/financiero/calculadora-inversion/script.js:149-171 | the withholding and 4x1000 settings do not affect validation |
| Investment.DeductionsClosedForm | modules/financiero/calculadora-inversion/script.js:186-211 | profit, withholding, subtotal, 4x1000 of the gross total, final value and net gain in closed integer form |
| Investment.InformationalSplit | modules/financiero/calculadora-inversion/script.js:192-200 | the informational tax plus the informational net profit equal the profit after withholding |
| Investment.NoTaxWhenNotApplied | modules/financiero/calculadora-inversion/script.js:198-209 | without the 4x1000 both taxes are zero and the final value is the subtotal |
| Investment.DeductionBounds | modules/financiero/calculadora-inversion/script.js:189-207 | a percentage in 0..100 withholds between nothing and the profit, and the 4x1000 lies in 0..gross total |
| Investment.DeductionsExample | modules/financiero/calculadora-inversion/script.js:185-211 | 1,000,000 growing to 1,100,000 with 4% withheld and the 4x1000 leaves 1,091,600 and a net gain of 91,600 |
| Investment.Calculate | modules/financiero/calculadora-inversion/script.js:114-134 | a refused form gives the first failing check's error; an accepted one gives exactly the Deductions figures for that gross total |
| Investment.ParseSkipsSeparator | modules/financiero/calculadora-inversion/script.js:109-112 | thousands separators do not change the parsed amount |
| Investment.ParseNoDigits | modules/financiero/calculadora-inversion/script.js:110-111 | text with no digit parses to 0 |
| Investment.ParseDecimal | modules/financiero/calculadora-inversion/script.js:109-112 | parsing the digits of n gives n |
| Investment.WithoutIdRemoves | modules/financiero/calculadora-inversion/script.js:453-454 | the id is gone after deleting it, and every other record stays |
| Investment.MergeNew | modules/financiero/calculadora-inversion/script.js:607-616 | the existing history is a prefix of the merge, and at most the incoming records are added |
| Investment.MergeIds | modules/financiero/calculadora-inversion/script.js:607-616 | the merged ids are the union of existing and incoming ids |
| Investment.MergeAddsOnlyNew | modules/financiero/calculadora-inversion/script.js:611-615 | each appended record is incoming and its id was not yet present |
| Investment.MergeKeepsUnique | modules/financiero/calculadora-inversion/script.js:607-616 | unique ids stay unique after the merge |
| Investment.MergeNothingNew | modules/financiero/calculadora-inversion/script.js:611-622 | a file with only known ids adds nothing |
| Investment.MergeImported | modules/financiero/calculadora-inversion/script.js:607-616 | the forEach loop computes the merge and counts the new records |
| Investment.InsertByDate | modules/financiero/calculadora-inversion/script.js:618 | insertion keeps the records as a multiset and keeps a newest-first list ordered |
| Investment.SortNewestFirst | modules/financiero/calculadora-inversion/script.js:618 | the sort is a permutation into newest-first order |
| Investment.SortKeepsOrdered | modules/financiero/calculadora-inversion/script.js:618 | an already ordered history is left as it is |
| Investment.SortKeepsIds | modules/financiero/calculadora-inversion/script.js:618 | sorting keeps the set of ids |
| Investment.CheckImport | modules/financiero/calculadora-inversion/script.js:580-601 | accepted iff the file parsed, historial is an array and every record has id, fechaConsulta, valorInvertido and tasaEA; else the matching error |
| Investment.ImportedHistoryFacts | modules/financiero/calculadora-inversion/script.js:607-621 | after an import: newest first, no previous record lost, ids are the union, and with unique ids one record per id |
| Investment.UniqueIdsCount | modules/financiero/calculadora-inversion/script.js:611-615 | with unique ids there are as many ids as records |
| Investment.InvestmentHistory.Save | modules/financiero/calculadora-inversion/script.js:380-410 | the new record goes first and only the newest 100 are kept |
| Investment.InvestmentHistory.Delete | modules/financiero/calculadora-inversion/script.js:453-458 | the history becomes the records without that id |
| Investment.InvestmentHistory.Clear | modules/financiero/calculadora-inversion/script.js:460-472 | a non-empty history is emptied iff the user confirms; otherwise it is unchanged |
| Investment.InvestmentHistory.ImportJson | modules/financiero/calculadora-inversion/script.js:576-641 | a malformed file fails with its error, a declined import changes nothing, otherwise the merged sorted history and the new-record count |
| Tax4x1000.Compute | modules/financiero/calculadora-4x1000/script.js:118-137 | an accepted value is at most 999,999,999 and the tax plus the total equal it |
| Tax4x1000.ComputeAccepts | modules/financiero/calculadora-4x1000/script.js:120-133 | no digits or exactly "0" is invalid; above 999,999,999 is too large; otherwise accepted |
| Tax4x1000.ComputeAmounts | modules/financiero/calculadora-4x1000/script.js:128-137 | the tax is (4v + 500) / 1000 and the tax and the total both lie in 0..v |
| Tax4x1000.DoubleZeroAccepted | modules/financiero/calculadora-4x1000/script.js:122 | "00" passes the check meant to refuse zero and yields 0, 0, 0 |
| Tax4x1000.ComputeSkipsSeparator | modules/financiero/calculadora-4x1000/script.js:120 | separators typed in the field do not change the result |
| Tax4x1000.WithoutIdRemoves | modules/financiero/calculadora-4x1000/script.js:221-222 | deleting drops exactly the records with that id (or, for undefined, without one) and keeps every other |
| Tax4x1000.WithoutIdKeepsOrder | modules/financiero/calculadora-4x1000/script.js:222 | deletion works piece by piece, and a history without that id is unchanged |
| Tax4x1000.ValidImportNeedsKind | modules/financiero/calculadora-4x1000/script.js:346 | a file whose tipo is not calculadora_4x1000 is refused |
| Tax4x1000.ValidImportWithoutId | modules/financiero/calculadora-4x1000/script.js:348-353 | records need no id to pass validation |
| Tax4x1000.TaxHistory.Calculate | modules/financiero/calculadora-4x1000/script.js:118-184 | the result is Compute(input); an accepted value is saved first with the cap of 50, a refused one changes nothing |
| Tax4x1000.TaxHistory.Save | modules/financiero/calculadora-4x1000/script.js:167-184 | the new record goes first and only the newest 50 are kept |
| Tax4x1000.TaxHistory.Delete | modules/financiero/calculadora-4x1000/script.js:213-225 | the history becomes the records whose id differs from the one the row's button passes, which may be absent (undefined) |
| Tax4x1000.DeleteWithoutIdDropsAllIdless | modules/financiero/calculadora-4x1000/script.js:213-222 | deleting from the row of a record without an id drops every id-less record and keeps exactly the records with an id |
| Tax4x1000.TaxHistory.Clear | modules/financiero/calculadora-4x1000/script.js:234-246 | a non-empty history is emptied iff the user confirms |
| Tax4x1000.TaxHistory.Import | modules/financiero/calculadora-4x1000/script.js:312-354 | a non-.json name, unparsable text or invalid data each fail and change nothing; on confirmation the imported list replaces the history |
| LinksUtils.OpenTool | modules/desarrollo/links-utils/script.js:50-93 | a known key opens its configured tool; an unknown key opens nothing |
| LinksUtils.EscapeRegex | modules/desarrollo/links-utils/script.js:342-344 | the escaped string grows by one backslash per special character |
| LinksUtils.UnescapeEscape | modules/desarrollo/links-utils/script.js:342-344 | removing the added backslashes gives back the input |
| LinksUtils.EscapeAppend | modules/desarrollo/links-utils/script.js:342-344 | escaping works piece by piece |
| LinksUtils.EscapeIdentityIff | modules/desarrollo/links-utils/script.js:342-344 | escaping changes nothing iff there is no special character |
| LinksUtils.Displayed | modules/desarrollo/links-utils/script.js:249-270 | each row is shown iff the term is empty or its searchable text contains it |
| LinksUtils.CountMatchingShown | modules/desarrollo/links-utils/script.js:256-258 | the visible count is the number of rows shown, at most the row count |
| LinksUtils.EmptyTermShowsAll | modules/desarrollo/links-utils/script.js:256 | an empty term shows every row, the no-results row included |
| LinksUtils.NoResultsNeverMatches | modules/desarrollo/links-utils/script.js:250-256 | the no-results row matches no non-empty term |
| LinksUtils.NoResultsRowReappears | modules/desarrollo/links-utils/script.js:229-282 | as written: after a miss and then clearing the search, the no-results row is visible and counted |
| LinksUtils.ShowNoResultsFacts | modules/desarrollo/links-utils/script.js:347-364 | showNoResultsMessage reuses the row or appends one, shows it, and leaves tool rows alone |
| LinksUtils.NoResultsIndexFinds | modules/desarrollo/links-utils/script.js:349 | getElementById finds the no-results row whenever one exists |
| LinksUtils.FilterIntendedNoResults | modules/desarrollo/links-utils/script.js:229-282 | corrected: the no-results row is shown iff the term is non-empty and no tool matches, and there is never more than one |
| LinksUtils.CountToolsBound | modules/desarrollo/links-utils/script.js:237-258 | corrected counts: matching tools at most all tools; an empty term matches all tools |
| LinksUtils.CountsIgnoreNoResults | modules/desarrollo/links-utils/script.js:238 | corrected counts are unaffected by an appended no-results row |
| LinksUtils.ToolsTable.FilterTools | modules/desarrollo/links-utils/script.js:229-282 | the rows become FilterAsWritten of the old rows; the counts are the matching rows and all rows |
| LinksUtils.ToolsTable.ShowMatching | modules/desarrollo/links-utils/script.js:249-270 | the loop shows the matching rows and counts them |
| LinksUtils.ToolsTable.FilterToolsCorrected | modules/desarrollo/links-utils/script.js:229-282 | corrected filter: counts only tool rows and shows the no-results row only for a non-empty term that matches no tool |
| DashboardShell.Initial | js/main.js:13-23 | the first layout is mobile iff the width is at most 768, uncollapsed, closed, with bars icons |
| DashboardShell.HandlersKeepConsistent | js/main.js:61-123 | every handler keeps the classes, flags and icons in agreement |
| DashboardShell.ToggleSidebarTwice | js/main.js:61-76 | on desktop a toggle flips collapse and two toggles restore the state; on mobile it does nothing |
| DashboardShell.ToggleMobileTwice | js/main.js:78-84 | on mobile a toggle flips the drawer and two toggles restore the state |
| DashboardShell.ResizeSameLayout | js/main.js:107-111 | a resize that keeps the layout changes nothing |
| DashboardShell.ResizeIntoMobile | js/main.js:113-117 | entering mobile uncollapses the sidebar and shows bars icons |
| DashboardShell.ResizeLeavesMobileOpen | js/main.js:107-123 | as written: widening with the drawer open leaves it, the overlay and the scroll lock on the desktop layout |
| DashboardShell.HandlersKeepDesktopClosed | js/main.js:86-123 | with the corrected resize no handler leaves the drawer open on desktop |
| DashboardShell.ResizeCorrectedAgrees | js/main.js:107-123 | the corrected resize differs from the source only when leaving mobile, where it also closes the drawer |
| DashboardShell.Breadcrumb | js/main.js:163-174 | a known section shows its name, any other shows "Dashboard" |
| DashboardShell.PathsShareDirectory | js/main.js:240-250 | the page and the script of a section come from the same directory |
| DashboardShell.Dashboard.constructor | js/main.js:3-23 | the object starts in the initial layout with the "Dashboard" breadcrumb |
| DashboardShell.Dashboard.UpdateToggleIcon | js/main.js:94-105 | both icons become chevron-right when collapsed, bars otherwise |
| DashboardShell.Dashboard.ToggleSidebarClick | js/main.js:61-76 | the state becomes ToggleSidebar of the old state |
| DashboardShell.Dashboard.ToggleMobileSidebar | js/main.js:78-84 | the state becomes ToggleMobile of the old state |
| DashboardShell.Dashboard.CloseMobileSidebar | js/main.js:86-92 | the state becomes CloseMobile of the old state |
| DashboardShell.Dashboard.MobileToggleButton | js/main.js:36-43 | the header button toggles the drawer on mobile and collapses the sidebar on desktop |
| DashboardShell.Dashboard.HandleResize | js/main.js:107-123 | as written: the state becomes Resize of the old state |
| DashboardShell.Dashboard.HandleResizeCorrected | js/main.js:107-123 | corrected: closes the drawer before leaving mobile |
| DashboardShell.Dashboard.Navigate | js/main.js:125-174 | navigating closes the mobile drawer and sets the breadcrumb for the section |

## Left out

- Compounding (`Math.pow(1 + rate, days / 360)`) and the effective yield are floating-point computations; the gross total is taken as an input of `Investment.Calculate`, and the deductions are modelled from there.
- Investment.Deductions: the withholding product `profit * pct / 100` is exact real arithmetic, not IEEE-754, so results where the floating-point product falls on the other side of a .5 boundary are not captured.
- Dates, clocks and time zones (`new Date`, `toISOString`, `toLocaleString`, the end date, the clock in the header): timestamps are integers passed in, and the consultation date is an integer compared directly, not an ISO string parsed by `new Date`.
- Investment.SortNewestFirst: proved to be a newest-first permutation; that it keeps records of equal date in their merged order (as `Array.prototype.sort` does) is not proved.
- localStorage, `JSON.parse`, `FileReader` and file pickers: the parsed file is a parameter, and a failed parse is `None`; storage failures are not modelled.
- `if (!file) return` in both importers (no file chosen) is the caller not invoking the import.
- The `totalRegistros` count shown in the 4x1000 import message is display only.
- DOM rendering, HTML text, CSS classes other than the sidebar's, alerts, `escaparHTML`, highlighting of search matches, the character-level highlighting of the comparison view and the CSV/JSON exports.
- Locale number formatting (`toLocaleString`, `formatearMoneda`) and the input formatting handlers.
- Text.Lower: only A-Z and the Latin-1 capitals are lowered; the case mapping of other scripts is not modelled, and the search terms in the tool table are plain ASCII.
- TextMetrics.Similarity: the ratio `common / total * 100` is exact real arithmetic, not an IEEE-754 double, so where the double product falls just below a .5 boundary the source rounds down and the model rounds up (23 common words of 40 gives 57 in the source, 58 here); TextMetrics.Analyze inherits this. The 0..100 range, 100 for identical lists and 0 for disjoint ones hold either way.
- TextMetrics.Analyze and TextMetrics.Levenshtein: a Dafny string is a sequence of Unicode scalar values, while `.length` and `charAt` count UTF-16 code units, so for text outside the Basic Multilingual Plane (an emoji) the character counts, the length difference and the edit distance differ from the source's ("😀" against "" is 2 in the source, 1 here).
- LinksUtils.OpenTool: a key naming an inherited object property (`"constructor"`, `"toString"`) passes the source's `if (!tool)` guard and calls `window.open` with an undefined URL; the model treats every such key as unknown and returns None.
- `split(/\s+/)` in the similarity: the word lists are inputs (`TextMetrics.Similarity` takes them as non-empty lists, which `split` always returns).
- `parseInt`/`parseFloat` precision: amounts are unbounded integers, so digit strings longer than a double represents exactly parse to their exact value.
- `fetch`, script injection and `window.open`: only the paths and the chosen tool are modelled.
- The submenu toggle of `nav-parent` links and the active-link classes in `handleNavigation`.
- DashboardShell.Breadcrumb: a section named like an inherited object property (`"constructor"`, `"toString"`) gives a non-string in the source; the model treats every such name as unknown.
- Keyboard and overlay events are modelled as direct calls of `CloseMobileSidebar` (Escape only acts on mobile, which `CloseMobile` already checks).

## Findings

| source | as written | input that shows it | evidently intended | confidence | as-written member | corrected member |
|---|---|---|---|---|---|---|
| js/main.js:107-123 | on widening past 768 px, `isMobile` is set to false before `closeMobileSidebar()`, whose `if (this.isMobile)` then skips the close | width 500, open the drawer, resize to 1024 | leaving mobile closes the drawer, removes the overlay and restores page scroll | not executed | DashboardShell.ResizeLeavesMobileOpen | DashboardShell.HandlersKeepDesktopClosed |
| modules/desarrollo/links-utils/script.js:229-282 | the no-results row is appended to the same table body, so later calls count it as a tool and an empty term shows it | one tool that does not contain "x"; search "x", then clear the search | the no-results row is shown only for a non-empty term that matches no tool, and it is never counted as a tool | not executed | LinksUtils.NoResultsRowReappears | LinksUtils.FilterIntendedNoResults |
