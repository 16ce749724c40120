# Drug Discovery Assistant — a Dafny model of its core

This project models the logic of the Drug Discovery Assistant web application in Dafny 4.11 and
proves properties of that model.

- **Drug-likeness classifier (`Rdkit`).** The classifier turns RDKit descriptors of a SMILES
  string into a `CompoundAnalysis`: a Lipinski rule-of-five violation count, Veber's rule, a
  lead-like rule, rounded fields and fixed error records.
- **RDKit loader (`Rdkit.RDKitRuntime`).** The loader that initialises the RDKit module is a small
  state machine over the two module globals `RDKit` and `initPromise`. It starts at most one load,
  and a failed load stays failed.
- **Discovery pipeline (`DrugDiscovery`).** The pipeline looks up a disease's EFO id (Open
  Targets), fetches the associated targets, maps each target to a ChEMBL target id, fetches its
  hit compounds and attaches an analysis to every hit with a SMILES string. The HTTP gateways
  are oracles that answer with a body or a failure.
- **Results component (`DrugDiscoveryResults`).** This is what the results component shows: the
  failure alert, the summary counts, the cap of six compound cards per target, and the rules for
  badges and sections.
- **Analytics page (`Analytics`).** The page's helpers cover:
  - group-by-disease counts and sums;
  - the disease comparison and user performance rankings;
  - day and month buckets with distinct-user counts;
  - the signed-in user's views.
- **Report history (`ReportHistory.ReportHistoryState`).** Report history holds the list and the
  selection. It covers delete-from-list, the view toggle, list replacement after a fetch, and the
  download filename.
- **Access guard (`AuthGuard`).** The guard covers the redirect effect, the profile fetch and the
  render cascade.
- **Sidebar (`AppSidebar`).** The sidebar's active-entry rule.
- **Search form (`DrugDiscoveryForm`).** The form covers the fields' initial values, the
  `parseInt(...) || default` fallbacks, the submit guard and the disabled rule.
- **Shared semantics (`Js`).** The JavaScript semantics that several of these rely on:
  `null`/`undefined` as `Option`, thrown values, IEEE numbers as comparisons see them, `toFixed`,
  `Math.round`, `trim`, `startsWith`, `parseInt`, `filter` and `sort`.

Where the code departs from the application's stated design, the model follows the code:

- The Veber and lead-like flags are computed from the unrounded descriptors
  (`Rdkit.FlagsUseUnroundedValues` gives a TPSA of 140.004, stored as 140, that fails Veber's rule).
- Missing descriptors are read as 0 without an error (`Rdkit.MissingDescriptorsAreZeroFilled`).
- Both ChEMBL gateways swallow transport errors into `null` / `[]`, so the per-target catch never
  runs. `chembl_error` is never set (`DrugDiscovery.CompletedRun`).

Each source file is one module, in a file of the same name: `rdkit.dfy`, `drug_discovery.dfy`,
`analytics.dfy`, `drug_discovery_results.dfy`, `report_history.dfy`, `auth_guard.dfy`,
`app_sidebar.dfy` and `drug_discovery_form.dfy`, plus `js.dfy`. `CompoundAnalysis` is declared in
drugDiscovery.ts but built in rdkit.ts. Dafny modules cannot import each other cyclically, so that
record lives in `Rdkit`.

## Model

| member | source | states |
|---|---|---|
| Js.MessageOrText | src/lib/rdkit.ts:89 | an `Error` with a non-empty message gives that message, and one with an empty message gives its name; any other thrown value gives its text |
| Js.LeIsNotGtExceptNaN | src/lib/rdkit.ts:65-68 | `x <= c` and `x > c` are complementary except at NaN, where both are false |
| Js.ToFixedIsClose | src/lib/rdkit.ts:63 | `Number(x.toFixed(d))` lies within half a unit of the d-th decimal of `x`, and is a whole number of units of the d-th decimal (at most d decimals) |
| Js.MathRound | src/pages/Analytics.tsx:173 | `Math.round(x)` is the integer in (x - 0.5, x + 0.5] |
| Js.Trim | src/components/DrugDiscoveryForm.tsx:16-17 | the trimmed string is a contiguous slice of the string with only whitespace before and after it, and it neither starts nor ends with whitespace; it is empty iff the string is all whitespace |
| Js.ParseIntOfIntText | src/components/DrugDiscoveryForm.tsx:63 | `parseInt` of the text of any integer, negative ones included, is that integer |
| Js.ParseIntWithoutDigits | src/components/DrugDiscoveryForm.tsx:63 | `parseInt` of a text without digits (such as the empty field) is NaN |
| Js.FilterCounts | src/components/ReportHistory.tsx:49 | `filter` keeps every occurrence of an element that satisfies the predicate and none of any other |
| Js.FilterAppend | src/components/ReportHistory.tsx:49 | `filter` distributes over concatenation, so the survivors keep their order |
| Js.SortDesc | src/pages/Analytics.tsx:166 | the sort by a descending key returns a permutation of its input, ordered from the highest key |
| Js.Take | src/pages/Analytics.tsx:167 | `slice(0, n)` is the first min(n, length) elements, unchanged |
| Js.TakeKeepsHighest | src/pages/Analytics.tsx:166-167 | slicing a list sorted by a descending key keeps part of it, and every copy it drops has a key no larger than the last one kept |
| Rdkit.Rounded | src/lib/rdkit.ts:63 | a finite value is moved by at most half a unit of the last kept decimal; a non-finite one becomes 0; either way the result has at most d decimals |
| Rdkit.LipinskiViolations | src/lib/rdkit.ts:64-68 | the count is in 0..4; it is 0 iff no threshold is crossed and 4 iff all four are |
| Rdkit.LipinskiUnrolled | src/lib/rdkit.ts:64-68 | the count adds 1 for each of MolWt > 500, LogP > 5, HBD > 5 and HBA > 10 |
| Rdkit.LipinskiSingleCrossing | src/lib/rdkit.ts:64-78 | crossing one threshold while the other inputs stay fixed raises the count by exactly 1 |
| Rdkit.AnalysisOutcomes | src/lib/rdkit.ts:25-90 | an empty SMILES gives null; with no module loaded the call throws 'RDKit not initialized' before parsing; an unparsable SMILES gives the zeroed record with 'invalid_smiles'; a throw while computing the descriptors gives the zeroed record with its message; every record echoes the SMILES |
| Rdkit.SuccessfulAnalysis | src/lib/rdkit.ts:45-82 | a successful record has no error and a Lipinski count in 0..4. MolWt, LogP and TPSA are within 0.005 of the descriptors and QED within 0.0005. Each of the four is 0 when its input is not finite. MolWt, LogP and TPSA have at most two decimals, QED at most three. HBD, HBA and RotBonds are stored as they are. Veber and lead-like are the rules over those raw values |
| Rdkit.MissingDescriptorsAreZeroFilled | src/lib/rdkit.ts:45-62 | with every descriptor and QED missing, the record has zeros, no error, no violations, and passes Veber's rule and the lead-like rule |
| Rdkit.FlagsUseUnroundedValues | src/lib/rdkit.ts:71-79 | a TPSA of 140.004 is stored as 140, yet Veber's rule fails, though it would pass on the stored value |
| Rdkit.AwaitOutcome | src/lib/rdkit.ts:5-21 | a loaded module is yielded at once; a rejected promise yields its error; a load in flight or a new one yields the module it loads, or the error it fails with |
| Rdkit.RDKitRuntime.IsRDKitReady | src/lib/rdkit.ts:22-24 | true exactly when the load has been fulfilled |
| Rdkit.RDKitRuntime.EnsureRDKit | src/lib/rdkit.ts:5-21 | returns at once once loaded; starts the one load when there is no promise; otherwise hands back the promise already there; never more than one load is started |
| Rdkit.RDKitRuntime.SettleLoad | src/lib/rdkit.ts:12-18 | a successful load stores the module and fulfils the promise; a failure rejects it and leaves the module unset |
| Rdkit.RDKitRuntime.AwaitInit | src/lib/rdkit.ts:5-21 | `await ensureRDKit()` succeeds exactly when a module is stored; a rejection is kept and the module stays unset |
| Rdkit.RDKitRuntime.ComputeCompoundAnalysis | src/lib/rdkit.ts:25-94 | the imperative descriptor computation returns the analysis function's result, and every molecule handle it creates is deleted on every path |
| Rdkit.ClassifyDescriptors | src/lib/rdkit.ts:45-82 | the statements after the descriptors are read build exactly the classified record: zero-filled descriptors, QED or 0, the threshold-by-threshold Lipinski count, the Veber and lead-like flags |
| Rdkit.FailedLoadIsSticky | src/lib/rdkit.ts:9-20 | after a failed load, a later await rejects with the same error even if another load would succeed; the module is not ready and only one load was started |
| DrugDiscovery.EfoIdOf | src/lib/drugDiscovery.ts:69-74 | the first hit's id, or null when there is no hit or the request failed |
| DrugDiscovery.AssociatedTargetsShape | src/lib/drugDiscovery.ts:103-116 | null exactly when the disease is absent; a throw exactly on a failure; otherwise one target per row, in order, with id, symbol and score copied |
| DrugDiscovery.FirstChemblId | src/lib/drugDiscovery.ts:126-130 | null iff no hit has a truthy `target_chembl_id`; otherwise a truthy id |
| DrugDiscovery.FirstChemblIdAt | src/lib/drugDiscovery.ts:126-129 | the result is the id of the first hit whose id is truthy |
| DrugDiscovery.GetChemblTargetId | src/lib/drugDiscovery.ts:118-135 | the early-return loop returns the first truthy id; it returns null on an empty result or any error, and never a falsy id |
| DrugDiscovery.HitsShape | src/lib/drugDiscovery.ts:149-162 | one hit per activity, in order, with molecule id, SMILES, type, value and units copied; [] on a failure |
| DrugDiscovery.AnalyzeCompound | src/lib/drugDiscovery.ts:165-176 | never throws: null iff the SMILES is empty, the record of that SMILES otherwise; a throw becomes the zeroed record with 'RDKit not initialized' |
| DrugDiscovery.AttachAnalysesShape | src/lib/drugDiscovery.ts:209-212 | order, length and every other field of the hits are kept; a hit has an analysis iff its SMILES is truthy, and it is of that SMILES |
| DrugDiscovery.RunDrugDiscoveryPipeline | src/lib/drugDiscovery.ts:177-227 | the loop over the targets yields the result the pipeline function describes, and it starts at most one RDKit load. The RDKit globals are untouched when the run exits before the RDKit await. Otherwise they hold the module the await yields, or its rejection |
| DrugDiscovery.ErrorMeansNoTargets | src/lib/drugDiscovery.ts:182-226 | a result with an error has no targets, EFO id or disease name; one without carries both |
| DrugDiscovery.EarlyExits | src/lib/drugDiscovery.ts:183-190 | no EFO id gives "No EFO ID found for '<name>'"; a null association gives 'No associated targets found'; each with no targets |
| DrugDiscovery.CaughtErrors | src/lib/drugDiscovery.ts:187-226 | a throw from the association fetch, or a rejected RDKit load, gives its message (or 'Unknown error occurred') and no targets |
| DrugDiscovery.CompletedRun | src/lib/drugDiscovery.ts:191-220 | one record per associated target, in order, with symbol, ensembl and score copied and `chembl_error` never set. A target without a ChEMBL id has no hits; one with an id has the fetched hits, in order, each analysed iff it has a SMILES |
| DrugDiscoveryResults.OrText | src/components/DrugDiscoveryResults.tsx:120 | a present, non-empty string is shown as it is; any other value shows the fallback ('Unknown ID', 'Unknown', 'Not found') |
| DrugDiscoveryResults.HitTotal | src/components/DrugDiscoveryResults.tsx:194 | the total is non-negative and no smaller than any one target's hit count |
| DrugDiscoveryResults.HitTotalCountsAllHits | src/components/DrugDiscoveryResults.tsx:194 | the Hit Compounds total is the number of all hits of all targets |
| DrugDiscoveryResults.ChemblMatches | src/components/DrugDiscoveryResults.tsx:188-201 | ChEMBL Matches is between 0 and the number of targets, and equals it iff every target has a truthy ChEMBL id |
| DrugDiscoveryResults.ChemblMatchesCountsIds | src/components/DrugDiscoveryResults.tsx:201 | ChEMBL Matches is the length of the list of targets that have a truthy ChEMBL id |
| DrugDiscoveryResults.ChemblMatchesAppend | src/components/DrugDiscoveryResults.tsx:201 | the count over two lists of targets is the sum of their counts; one target counts 1 exactly when it has a ChEMBL id |
| DrugDiscoveryResults.ResultsShape | src/components/DrugDiscoveryResults.tsx:162-215 | an error renders only the failure alert with its text; otherwise one card per target, the target count, the hit total over all hits and matches ≤ targets |
| DrugDiscoveryResults.TargetCardShape | src/components/DrugDiscoveryResults.tsx:90-161 | the first six hits in order, or the placeholder iff there are none; score badge and bar iff the score is truthy (so not for 0); error alert iff `chembl_error` is truthy; 'Not found' without an id |
| DrugDiscoveryResults.CompoundCardShape | src/components/DrugDiscoveryResults.tsx:30-89 | properties iff the analysis is present without error; Lipinski badge 'default' iff at most one violation; SMILES section iff the SMILES is truthy |
| DrugDiscoveryResults.CompletedRunView | src/components/DrugDiscoveryResults.tsx:137-201 | for a completed pipeline run no card shows a ChEMBL error, and the targets with hits are no more than the ChEMBL matches |
| DrugDiscoveryResults.WithHitsAreMatches | src/components/DrugDiscoveryResults.tsx:201 | when every target with hits has a ChEMBL id, the targets with hits are no more than the matches |
| Analytics.SumOfReportsIsLength | src/pages/Analytics.tsx:146-149 | counting 1 per report sums to the number of reports |
| Analytics.DiseaseNames | src/pages/Analytics.tsx:150 | the disease names are distinct and no more numerous than the reports |
| Analytics.DiseaseNamesAreReported | src/pages/Analytics.tsx:146-150 | a name is a key of the grouping iff some report has that disease |
| Analytics.GroupsAreNonEmpty | src/pages/Analytics.tsx:156-164 | every disease of the grouping has at least one report |
| Analytics.GroupByDisease | src/pages/Analytics.tsx:156-164 | the reducer yields the keys in order of first occurrence; each disease holds the sums of its reports' targets and compounds and the number of its reports |
| Analytics.GroupsPartitionReports | src/pages/Analytics.tsx:146-164 | the per-disease sums of any measure add up to the sum over all reports |
| Analytics.GetDiseaseDistributionData | src/pages/Analytics.tsx:145-154 | the reducer and `Object.entries` yield the disease distribution |
| Analytics.DistributionNamesTheDiseases | src/pages/Analytics.tsx:145-154 | one entry per distinct disease name: the names are distinct, and every report's disease has an entry and every entry a report |
| Analytics.DistributionCountsTheReports | src/pages/Analytics.tsx:145-154 | every value is at least 1 and the values sum to the number of reports |
| Analytics.Truncate | src/pages/Analytics.tsx:169 | a name longer than n becomes its first n characters and '...'; any other is unchanged |
| Analytics.RankedEntries | src/pages/Analytics.tsx:165-166 | the groups are sorted by targets + compounds from the highest and are a permutation of the groups |
| Analytics.GetCompoundsTargetsData | src/pages/Analytics.tsx:155-175 | the reducer, sort, slice and map yield the comparison rows |
| Analytics.CompoundsTargetsShape | src/pages/Analytics.tsx:165-174 | min(10, diseases) rows, sorted by targets + compounds descending; each row holds one disease's sums, at least one report, efficiency round((t + c) / reports), and the name truncated to 15. The rows come from distinct diseases of the grouping, and every disease left out weighs no more than the last row kept |
| Analytics.ComparisonKeepsHeaviest | src/pages/Analytics.tsx:165-167 | the kept diseases are part of the grouping, and every disease not kept weighs no more than the last one kept |
| Analytics.KeptNamesDistinct | src/pages/Analytics.tsx:165-167 | no two kept diseases have the same name |
| Analytics.ComparisonRowIsGroup | src/pages/Analytics.tsx:165-174 | any single comparison row is one disease's record with at least one report and the rounded mean size as efficiency |
| Analytics.FindProfile | src/pages/Analytics.tsx:179 | the profile found is the first one with the user's id; none is found iff no profile has it |
| Analytics.FirstWord | src/pages/Analytics.tsx:181 | `split(' ')[0]` is the prefix before the first space and holds no space |
| Analytics.DisplayName | src/pages/Analytics.tsx:181 | the name shown is the first space-separated word of the profile's `full_name` when that word is non-empty, and 'Unknown' otherwise (no profile, no name, or an empty first word); it is never empty |
| Analytics.UserPerformanceShape | src/pages/Analytics.tsx:176-190 | empty for a non-admin; otherwise min(8, users) rows sorted by score descending, each one user's analytics with score 10·reports + 2·compounds + 5·targets. No record's row is used more often than it occurs, and any record left out scores no more than the last row kept |
| Analytics.PerformanceKeepsBest | src/pages/Analytics.tsx:185-186 | the admin's rows are part of the per-user rows, and any row left out scores no more than the last one kept |
| Analytics.PerformanceRowIsUser | src/pages/Analytics.tsx:176-190 | any single performance row is the row of one user's analytics, with the weighted score |
| Analytics.InPeriodMembers | src/pages/Analytics.tsx:130-132 | a bucket holds exactly the reports whose `created_at` starts with its prefix |
| Analytics.UserIds | src/pages/Analytics.tsx:133-135 | the distinct users are no more than the reports, and none iff there are no reports |
| Analytics.UserIdsMembers | src/pages/Analytics.tsx:133-135 | a user is counted iff some report of the bucket is theirs |
| Analytics.BucketOf | src/pages/Analytics.tsx:136-142 | a bucket's distinct users never outnumber its reports, and it has users iff it has reports |
| Analytics.PeriodBucketsShape | src/pages/Analytics.tsx:123-143 | one bucket per period, in order: each has its period's caption, the number of reports created in the period and of their distinct users, and their compound and target sums; its users never outnumber its reports, and it has users iff it has reports. `getMonthlyTrendData` (lines 191-213) has the same shape |
| Analytics.BucketUsers | src/pages/Analytics.tsx:133-135 | a user is counted in a period's bucket iff one of their reports was created in that period |
| Analytics.BucketStep | src/pages/Analytics.tsx:129-143 | a report in the period adds one report, its compounds and targets and at most one user; any other leaves the bucket as it was |
| Analytics.ForUserMembers | src/pages/Analytics.tsx:234 | the user's reports are exactly those whose `user_id` is the signed-in user's id |
| Analytics.NobodysReports | src/pages/Analytics.tsx:225-234 | with no user signed in, no report is theirs |
| Analytics.UserShareOfPeriod | src/pages/Analytics.tsx:224-226 | the user's reports in a period are no more than the period's reports |
| Analytics.PersonalTrendShape | src/pages/Analytics.tsx:214-232 | one row per period, in order, with that period's caption; its count is the number of the user's reports in the period, and never exceeds that period's bucket |
| Analytics.PersonalPeriodMembers | src/pages/Analytics.tsx:224-226 | a report is counted in a period's personal row iff it is one of the reports, belongs to the signed-in user, and was created in that period |
| Analytics.PersonalTrendStep | src/pages/Analytics.tsx:223-231 | one more report adds 1 to a period's personal row exactly when it is the user's and created in that period; every other row is unchanged |
| Analytics.TargetsPerHundredCompounds | src/pages/Analytics.tsx:245 | round(targets / compounds · 100) within a half, or 0 when compounds is 0 |
| Analytics.GetUserCompoundAssociationData | src/pages/Analytics.tsx:233-247 | the filter, reducer and map yield the association rows |
| Analytics.CompoundAssociationShape | src/pages/Analytics.tsx:233-246 | one row per disease of the user's own reports, scored from those alone, with a 12-character caption; no rows with nobody signed in |
| Analytics.Efficiency | src/pages/Analytics.tsx:253 | round(targets / compounds · 100) / 100 is within 0.005 of targets / compounds, and 0 when compounds is 0; it is a whole number of cents |
| Analytics.UserEfficiencyOf | src/pages/Analytics.tsx:248-255 | as many points as the signed-in user has reports, and no more than there are reports |
| Analytics.UserEfficiencyPoints | src/pages/Analytics.tsx:248-255 | every point comes from one of the signed-in user's reports: it has that report's date caption and an efficiency of 0 without compounds, and otherwise within 0.005 of targets / compounds |
| Analytics.UserEfficiencyStep | src/pages/Analytics.tsx:248-255 | one more report appends its own point when it is the user's and nothing otherwise, so the points follow the reports' order |
| Analytics.SignedOutEfficiency | src/pages/Analytics.tsx:250 | with nobody signed in there are no points |
| Analytics.GetUserFocusDistribution | src/pages/Analytics.tsx:256-266 | the filter, reducer and map yield the focus distribution |
| Analytics.FocusDistributionShape | src/pages/Analytics.tsx:256-266 | every value is at least 1 and the values sum to the user's number of reports |
| Analytics.TotalsAgreeWithGroups | src/pages/Analytics.tsx:348-362 | the total compounds and total targets equal the sums of the per-disease records |
| ReportHistory.RemoveId | src/components/ReportHistory.tsx:49 | no surviving report has the deleted id, and the list does not grow |
| ReportHistory.RemoveIdMembers | src/components/ReportHistory.tsx:49 | a report survives iff it was there and has another id |
| ReportHistory.RemoveIdCounts | src/components/ReportHistory.tsx:49 | every other report keeps all its occurrences |
| ReportHistory.RemoveIdKeepsOrder | src/components/ReportHistory.tsx:49 | deleting from a concatenation deletes from each part, so the order is kept |
| ReportHistory.RemoveAbsentId | src/components/ReportHistory.tsx:49 | a list without that id is unchanged |
| ReportHistory.RemoveIdIdempotent | src/components/ReportHistory.tsx:49 | deleting the same id twice is deleting it once |
| ReportHistory.SelectionAfterDelete | src/components/ReportHistory.tsx:50-52 | the selection is cleared iff it was the deleted report, and otherwise unchanged |
| ReportHistory.Toggled | src/components/ReportHistory.tsx:135 | View on the selected report deselects it; on any other it selects that report |
| ReportHistory.ToggleTwice | src/components/ReportHistory.tsx:135 | two clicks on the same report restore an empty selection or that report |
| ReportHistory.ViewCaption | src/components/ReportHistory.tsx:137 | 'Hide' iff the report is the selected one |
| ReportHistory.FetchedRows | src/components/ReportHistory.tsx:34 | the returned rows when there is data, else the empty list |
| ReportHistory.ReportHistoryState.FetchReports | src/components/ReportHistory.tsx:27-41 | the rows replace the list ([] without data); a failure leaves it; loading ends on every path |
| ReportHistory.ReportHistoryState.DeleteReport | src/components/ReportHistory.tsx:42-58 | a successful delete filters the list and clears the selection iff it was that report; a failure changes nothing |
| ReportHistory.ReportHistoryState.ToggleView | src/components/ReportHistory.tsx:135 | the selection becomes the toggled one |
| ReportHistory.Underscored | src/components/ReportHistory.tsx:64 | `replace(/\s+/g, '_')` leaves no whitespace and does not lengthen the name |
| ReportHistory.UnderscoredWithoutWhitespace | src/components/ReportHistory.tsx:64 | a name without whitespace is unchanged |
| ReportHistory.UnderscoredIdempotent | src/components/ReportHistory.tsx:64 | replacing twice is replacing once |
| ReportHistory.RunBecomesOneUnderscore | src/components/ReportHistory.tsx:64 | a whitespace run of any length between two other characters becomes a single '_' |
| ReportHistory.IsoDayShape | src/components/ReportHistory.tsx:64 | `yyyy-MM-dd` of a day in years 0-9999 is ten characters with dashes at 4 and 7 |
| ReportHistory.DownloadFilenameShape | src/components/ReportHistory.tsx:64 | the filename is the replaced name, then '_report_', then the ISO day of the creation date, then '.md'; the name part has no whitespace |
| AuthGuard.EffectOf | src/components/AuthGuard.tsx:20-27 | nothing while auth loads; '/auth' with no fetch once auth has finished without a user; otherwise the profile fetch |
| AuthGuard.AuthGuardState.RunEffect | src/components/AuthGuard.tsx:20-27 | the effect records exactly that navigation or that fetch |
| AuthGuard.AuthGuardState.SettleProfile | src/components/AuthGuard.tsx:28-42 | the row becomes the profile; an error leaves the profile as it was; loading ends either way |
| AuthGuard.LoadingFirst | src/components/AuthGuard.tsx:43-54 | the loading view is rendered iff either loading flag is set |
| AuthGuard.AdminsPass | src/components/AuthGuard.tsx:55-71 | without a profile, the not-found alert; an admin sees the children whatever the status |
| AuthGuard.NonAdminByStatus | src/components/AuthGuard.tsx:72-100 | for a non-admin: pending iff the pending alert, rejected iff the rejected alert, any other status the children |
| AuthGuard.WhoSeesTheChildren | src/components/AuthGuard.tsx:43-100 | the children are shown iff loaded with a profile that is admin or neither pending nor rejected |
| AuthGuard.FailedProfileFetch | src/components/AuthGuard.tsx:20-68 | a failed profile fetch ends loading without a profile and shows the not-found alert; with no user the guard goes to '/auth' and fetches nothing |
| AppSidebar.MenuItems | src/components/AppSidebar.tsx:17-38 | four entries |
| AppSidebar.DashboardActive | src/components/AppSidebar.tsx:48-50 | "/" is active iff the path is "/" or starts with "/?" |
| AppSidebar.OtherEntriesMatchExactly | src/components/AppSidebar.tsx:47-52 | every other entry is active iff the path equals its URL, so "/reports/x" does not activate "/reports" and "/analytics" does not activate "/" |
| AppSidebar.AtMostOneActive | src/components/AppSidebar.tsx:17-52 | for any path, at most one of the four entries is active |
| DrugDiscoveryForm.CountOrDefault | src/components/DrugDiscoveryForm.tsx:59-77 | NaN and 0 give the default; any other parsed integer is kept |
| DrugDiscoveryForm.FallbackOnlyForZero | src/components/DrugDiscoveryForm.tsx:59-77 | typing any integer keeps it unless it is 0, including negatives and values over the input's max; an empty field falls back |
| DrugDiscoveryForm.SubmitOf | src/components/DrugDiscoveryForm.tsx:14-19 | `onSearch` is called iff the name is not all whitespace, with the trimmed name and the current counts |
| DrugDiscoveryForm.SubmittedNameIsTrimmed | src/components/DrugDiscoveryForm.tsx:17 | the submitted name has no surrounding whitespace |
| DrugDiscoveryForm.SubmitDisabled | src/components/DrugDiscoveryForm.tsx:85 | the button is disabled iff a search is loading or the name is all whitespace |
| DrugDiscoveryForm.EnabledIffSubmits | src/components/DrugDiscoveryForm.tsx:14-19 | outside a search, the button (line 85 disables it when the trimmed name is empty or a search runs) is enabled iff submitting calls `onSearch`; during a search it is disabled |
| DrugDiscoveryForm.FormState.constructor | src/components/DrugDiscoveryForm.tsx:11-13 | the form starts with an empty name, 5 targets and 10 compounds per target |
| DrugDiscoveryForm.FormState.HandleSubmit | src/components/DrugDiscoveryForm.tsx:14-19 | what `onSearch` receives, if it is called |
| DrugDiscoveryForm.FormState.ChangeDiseaseName | src/components/DrugDiscoveryForm.tsx:47 | the typed text becomes the disease name, as it is; nothing else changes |
| DrugDiscoveryForm.FormState.ChangeTargets | src/components/DrugDiscoveryForm.tsx:63 | the target count becomes the parsed text, or 5 for NaN and 0; nothing else changes |
| DrugDiscoveryForm.FormState.ChangeHits | src/components/DrugDiscoveryForm.tsx:77 | the compounds per target become the parsed text, or 10 for NaN and 0; nothing else changes |

## Left out

- **HTTP and GraphQL plumbing.** URLs, query strings, `fetch`, the `response.ok` check and JSON
  parsing are left out. Each gateway is an oracle that answers with a parsed body or a failure.
  The parsed bodies are assumed to have the shape the code reads (for example, every association
  row has a `target`), and a disease name is a string.
- **RDKit internals.** The WASM module, `get_mol`, `get_descriptors`, the string descriptor format
  and the QED lookups are left out. The backend is a function from a SMILES string to "unparsable"
  or to descriptors (possibly missing) and a QED answer.
- **Floating point.** Numbers are exact reals plus ±Infinity and NaN. `toFixed` is rounding half
  away from zero over the reals; `Math.round` is rounding half up. IEEE representation error and
  integer precision beyond 2^53 are not modelled.
- **Timing and async.** The 200 ms pause after each target has no effect on the data and is
  omitted. Promise interleaving in `ensureRDKit` is a sequential state machine: start, settle,
  await.
- **Clock and locale.** The last 30 days, the last 6 months and their locale labels come from the
  clock. They are parameters (`Period`), and so is the local calendar day in the download filename.
- **`Object.entries` order.** The code groups into a plain object. It therefore lists
  integer-like disease names first, by number. A name such as "constructor" or "__proto__" would
  also meet an inherited property. The model keeps groups in order of first occurrence and
  treats every name as an ordinary key.
- **String length.** `name.length` counts UTF-16 code units. The model counts characters, which
  differ only outside the Basic Multilingual Plane.
- **`parseInt` hexadecimal prefix.** A `type="number"` input never holds a "0x" prefix, so that
  branch is not modelled.
- **The unreachable per-target catch.** The per-target catch (drugDiscovery.ts:214-216) is not
  modelled as a branch. Both ChEMBL gateways catch every error and `analyzeCompound` catches its
  own, so nothing inside that try can throw.
- **Persistence and authentication.** Supabase reads, writes and auth, the auth hook and the pages
  around it are left out. So are report generation, the JSX, charts, toasts, the clipboard and the
  Blob download. The signed-in user, the `authLoading` flag and each query's answer are
  parameters.
- **ReportHistory fetch effect.** The effect that calls `fetchReports` when a user is present
  (ReportHistory.tsx:22-26) and the sign-in and loading views are not modelled.
- RunDrugDiscoveryPipeline: the pipeline computes its analyses with the pure `Rdkit.AnalysisOf`,
  not with `ComputeCompoundAnalysis`. Its clause that the live molecule handles are unchanged
  therefore says nothing about handle release. That handles are released is proved for
  `Rdkit.RDKitRuntime.ComputeCompoundAnalysis` alone.
- **Stale closures.** React's stale closures and batched state updates are not modelled: each
  handler sees the state the previous one left.
