/**
 * The aggregation helpers of src/pages/Analytics.tsx over the reports table: per-disease groups
 * (counts and sums, in order of first occurrence), the disease comparison ranking, the per-user
 * performance ranking, date-prefix buckets with distinct-user counts, and the per-user views.
 *
 * The date prefixes and their display labels come from the clock and the locale; they are
 * parameters here (`Period`).
 */
module Analytics {
  import opened Js

  /** A row of the `reports` table (`ReportsData`). */
  datatype Report = Report(
    id: string,
    userId: string,
    diseaseName: string,
    targetsCount: int,
    compoundsCount: int,
    createdAt: string)

  /** A row of the `profiles` table (`UserProfile`); `full_name` may be null. */
  datatype UserProfile = UserProfile(
    id: string,
    userId: string,
    email: string,
    fullName: Option<string>,
    status: string,
    role: string,
    createdAt: string)

  /** A row of `user_analytics` (`UserAnalytics`). */
  datatype UserAnalytics = UserAnalytics(
    userId: string,
    loginCount: int,
    reportsGenerated: int,
    compoundsAnalyzed: int,
    targetsDiscovered: int,
    lastLoginAt: string,
    createdAt: string)

  /** The accumulator of one disease: summed targets and compounds, and the number of reports. */
  datatype DiseaseStats = DiseaseStats(targets: int, compounds: int, reports: int)

  /** What a report contributes to a sum. */
  datatype Measure = Targets | Compounds | Reports

  function Value(r: Report, m: Measure): int {
    match m
    case Targets => r.targetsCount
    case Compounds => r.compoundsCount
    case Reports => 1
  }

  /** `reports.reduce((sum, r) => sum + <measure>, 0)`. */
  function SumBy(rs: seq<Report>, m: Measure): int
    decreases |rs|
  {
    if rs == [] then 0 else SumBy(rs[..|rs| - 1], m) + Value(rs[|rs| - 1], m)
  }

  /** Summing the report measure counts the reports. */
  lemma {:induction false} SumOfReportsIsLength(rs: seq<Report>)
    ensures SumBy(rs, Reports) == |rs|
    decreases |rs|
  {
    if rs != [] {
      SumOfReportsIsLength(rs[..|rs| - 1]);
    }
  }

  lemma {:induction false} SumByAppend(rs: seq<Report>, r: Report, m: Measure)
    ensures SumBy(rs + [r], m) == SumBy(rs, m) + Value(r, m)
  {
    assert (rs + [r])[..|rs|] == rs;
  }

  // ---------------------------------------------------------------------------------------------
  // Grouping by disease

  /** The reports of one disease, in order. */
  function WithDisease(rs: seq<Report>, name: string): (w: seq<Report>)
    ensures |w| <= |rs|
    decreases |rs|
  {
    if rs == [] then []
    else WithDisease(rs[..|rs| - 1], name) + (if rs[|rs| - 1].diseaseName == name then [rs[|rs| - 1]] else [])
  }

  /** The distinct disease names, in order of first occurrence (the keys of the reducers' records). */
  function DiseaseNames(rs: seq<Report>): (ns: seq<string>)
    ensures forall i, j :: 0 <= i < j < |ns| ==> ns[i] != ns[j]
    ensures |ns| <= |rs|
    decreases |rs|
  {
    if rs == [] then []
    else
      var prev := DiseaseNames(rs[..|rs| - 1]);
      var last := rs[|rs| - 1].diseaseName;
      if last in prev then prev else prev + [last]
  }

  /** The disease names are exactly the names some report carries. */
  lemma {:induction false} DiseaseNamesAreReported(rs: seq<Report>, name: string)
    ensures name in DiseaseNames(rs) <==> exists k :: 0 <= k < |rs| && rs[k].diseaseName == name
    decreases |rs|
  {
    if rs != [] {
      var init := rs[..|rs| - 1];
      DiseaseNamesAreReported(init, name);
      if exists k :: 0 <= k < |init| && init[k].diseaseName == name {
        var k :| 0 <= k < |init| && init[k].diseaseName == name;
        assert rs[k] == init[k];
      }
      if exists k :: 0 <= k < |rs| && rs[k].diseaseName == name {
        var k :| 0 <= k < |rs| && rs[k].diseaseName == name;
        if k < |init| { assert init[k] == rs[k]; }
      }
    }
  }

  /** The accumulated record of one disease. */
  function StatsFor(rs: seq<Report>, name: string): DiseaseStats {
    var w := WithDisease(rs, name);
    DiseaseStats(SumBy(w, Targets), SumBy(w, Compounds), |w|)
  }

  /** A disease seen at least once has at least one report; an unseen one has none. */
  lemma {:induction false} GroupsAreNonEmpty(rs: seq<Report>, name: string)
    ensures name in DiseaseNames(rs) <==> StatsFor(rs, name).reports >= 1
    ensures name !in DiseaseNames(rs) ==> StatsFor(rs, name) == DiseaseStats(0, 0, 0)
    decreases |rs|
  {
    if rs != [] {
      GroupsAreNonEmpty(rs[..|rs| - 1], name);
    }
  }

  /** One more report joins its own disease's reports and no other's. */
  lemma {:induction false} WithDiseaseStep(rs: seq<Report>, r: Report, name: string)
    ensures WithDisease(rs + [r], name) == WithDisease(rs, name) + (if r.diseaseName == name then [r] else [])
  {
    var both := rs + [r];
    assert both[..|both| - 1] == rs;
  }

  /** A record after one more report of its disease. */
  function Add(s: DiseaseStats, r: Report): DiseaseStats {
    DiseaseStats(s.targets + r.targetsCount, s.compounds + r.compoundsCount, s.reports + 1)
  }

  /** One more report adds itself to the record of its own disease... */
  lemma {:induction false} StatsStepSame(rs: seq<Report>, r: Report)
    ensures StatsFor(rs + [r], r.diseaseName) == Add(StatsFor(rs, r.diseaseName), r)
  {
    WithDiseaseStep(rs, r, r.diseaseName);
    SumByAppend(WithDisease(rs, r.diseaseName), r, Targets);
    SumByAppend(WithDisease(rs, r.diseaseName), r, Compounds);
  }

  /** ...and leaves every other disease's record unchanged. */
  lemma {:induction false} StatsStepOther(rs: seq<Report>, r: Report, name: string)
    requires r.diseaseName != name
    ensures StatsFor(rs + [r], name) == StatsFor(rs, name)
  {
    WithDiseaseStep(rs, r, name);
    assert WithDisease(rs + [r], name) == WithDisease(rs, name);
  }

  lemma {:induction false} NamesStep(rs: seq<Report>, r: Report)
    ensures DiseaseNames(rs + [r]) == if r.diseaseName in DiseaseNames(rs) then DiseaseNames(rs) else DiseaseNames(rs) + [r.diseaseName]
  {
    var both := rs + [r];
    assert both[..|both| - 1] == rs;
  }

  /** The records of `seen`, keyed and ordered by disease: what the reducers hold after `seen`. */
  ghost predicate Grouped(seen: seq<Report>, names: seq<string>, stats: map<string, DiseaseStats>) {
    && names == DiseaseNames(seen)
    && (forall n :: n in stats <==> n in names)
    && (forall n :: n in stats ==> stats[n] == StatsFor(seen, n))
  }

  /** One step of a reducer keeps the records right. */
  lemma {:induction false} GroupStep(seen: seq<Report>, r: Report, names: seq<string>, stats: map<string, DiseaseStats>)
    requires Grouped(seen, names, stats)
    ensures var d := r.diseaseName;
      var names' := if d in stats then names else names + [d];
      var created := if d in stats then stats else stats[d := DiseaseStats(0, 0, 0)];
      Grouped(seen + [r], names', created[d := Add(created[d], r)])
  {
    var d := r.diseaseName;
    NamesStep(seen, r);
    GroupsAreNonEmpty(seen, d);
    StatsStepSame(seen, r);
    var created := if d in stats then stats else stats[d := DiseaseStats(0, 0, 0)];
    var stats' := created[d := Add(created[d], r)];
    forall n | n in stats' && n != d ensures stats'[n] == StatsFor(seen + [r], n) {
      StatsStepOther(seen, r, n);
    }
  }

  /**
   * The reducers of lines 146-149, 156-164, 235-242 and 258-261: one pass over the reports,
   * creating a disease's record on its first report and adding every report to its record.
   */
  method GroupByDisease(rs: seq<Report>) returns (names: seq<string>, stats: map<string, DiseaseStats>)
    ensures names == DiseaseNames(rs)
    ensures forall n :: n in stats <==> n in names
    ensures forall n :: n in stats ==> stats[n] == StatsFor(rs, n)
  {
    names, stats := [], map[];
    for i := 0 to |rs|
      invariant Grouped(rs[..i], names, stats)
    {
      var r := rs[i];
      assert rs[..i + 1] == rs[..i] + [r];
      GroupStep(rs[..i], r, names, stats);
      if r.diseaseName !in stats {
        stats := stats[r.diseaseName := DiseaseStats(0, 0, 0)];
        names := names + [r.diseaseName];
      }
      stats := stats[r.diseaseName := Add(stats[r.diseaseName], r)];
    }
    assert rs[..|rs|] == rs;
  }

  /** The sum of a measure over the reports of each of `names`. */
  function SumOverGroups(rs: seq<Report>, names: seq<string>, m: Measure): int
    decreases |names|
  {
    if names == [] then 0
    else SumOverGroups(rs, names[..|names| - 1], m) + SumBy(WithDisease(rs, names[|names| - 1]), m)
  }

  lemma {:induction false} SumOverGroupsStep(rs: seq<Report>, r: Report, names: seq<string>, m: Measure)
    requires forall i, j :: 0 <= i < j < |names| ==> names[i] != names[j]
    ensures SumOverGroups(rs + [r], names, m)
         == SumOverGroups(rs, names, m) + (if r.diseaseName in names then Value(r, m) else 0)
  {
    forall n | n in names
      ensures SumBy(WithDisease(rs + [r], n), m)
           == SumBy(WithDisease(rs, n), m) + (if n == r.diseaseName then Value(r, m) else 0)
    {
      GroupSumStep(rs, r, n, m);
    }
    SumOverGroupsShift(rs, rs + [r], r.diseaseName, Value(r, m), names, m);
  }

  /** If only the group `name` grows, by `v`, the sum over distinct groups grows by `v` when `name` is one of them. */
  lemma {:induction false} SumOverGroupsShift(a: seq<Report>, b: seq<Report>, name: string, v: int,
                                              names: seq<string>, m: Measure)
    requires forall i, j :: 0 <= i < j < |names| ==> names[i] != names[j]
    requires forall n :: n in names ==>
      SumBy(WithDisease(b, n), m) == SumBy(WithDisease(a, n), m) + (if n == name then v else 0)
    ensures SumOverGroups(b, names, m) == SumOverGroups(a, names, m) + (if name in names then v else 0)
    decreases |names|
  {
    if names != [] {
      var init, last := names[..|names| - 1], names[|names| - 1];
      assert names == init + [last];
      forall i, j | 0 <= i < j < |init| ensures init[i] != init[j] {
        assert init[i] == names[i] && init[j] == names[j];
      }
      SumOverGroupsShift(a, b, name, v, init, m);
      if last == name {
        forall k | 0 <= k < |init| ensures init[k] != last { assert init[k] == names[k]; }
      }
    }
  }

  /** One more report adds its measure to its own disease's sum and to no other's. */
  lemma {:induction false} GroupSumStep(rs: seq<Report>, r: Report, name: string, m: Measure)
    ensures SumBy(WithDisease(rs + [r], name), m)
         == SumBy(WithDisease(rs, name), m) + (if r.diseaseName == name then Value(r, m) else 0)
  {
    WithDiseaseStep(rs, r, name);
    if r.diseaseName == name {
      SumByAppend(WithDisease(rs, name), r, m);
    } else {
      assert WithDisease(rs + [r], name) == WithDisease(rs, name);
    }
  }

  /** A report with a new disease makes a group of its own. */
  lemma {:induction false} NewGroupSum(rs: seq<Report>, r: Report, m: Measure)
    requires r.diseaseName !in DiseaseNames(rs)
    ensures SumBy(WithDisease(rs + [r], r.diseaseName), m) == Value(r, m)
  {
    GroupsAreNonEmpty(rs, r.diseaseName);
    WithDiseaseStep(rs, r, r.diseaseName);
    assert |WithDisease(rs, r.diseaseName)| == StatsFor(rs, r.diseaseName).reports == 0;
    SumByAppend([], r, m);
  }

  /**
   * The groups partition the reports: summing any measure over the groups gives its total over all
   * reports.
   */
  lemma {:induction false} GroupsPartitionReports(rs: seq<Report>, m: Measure)
    ensures SumOverGroups(rs, DiseaseNames(rs), m) == SumBy(rs, m)
    decreases |rs|
  {
    if rs != [] {
      var init, r := rs[..|rs| - 1], rs[|rs| - 1];
      assert rs == init + [r];
      GroupsPartitionReports(init, m);
      var names := DiseaseNames(init);
      SumOverGroupsStep(init, r, names, m);
      SumByAppend(init, r, m);
      if r.diseaseName !in names {
        var names' := names + [r.diseaseName];
        assert names'[..|names|] == names;
        assert DiseaseNames(rs) == names';
        NewGroupSum(init, r, m);
      }
    }
  }

  /** A name and a value, the rows of the pie charts. */
  datatype NameValue = NameValue(name: string, value: int)

  /** `getDiseaseDistributionData`: the report count of every disease, in order of first occurrence. */
  function DiseaseDistributionOf(rs: seq<Report>): seq<NameValue> {
    var ns := DiseaseNames(rs);
    seq(|ns|, i requires 0 <= i < |ns| => NameValue(ns[i], StatsFor(rs, ns[i]).reports))
  }

  method GetDiseaseDistributionData(rs: seq<Report>) returns (rows: seq<NameValue>)
    ensures rows == DiseaseDistributionOf(rs)
  {
    var names, stats := GroupByDisease(rs);
    rows := seq(|names|, i requires 0 <= i < |names| => NameValue(names[i], stats[names[i]].reports));
  }

  function SumValues(rows: seq<NameValue>): int
    decreases |rows|
  {
    if rows == [] then 0 else SumValues(rows[..|rows| - 1]) + rows[|rows| - 1].value
  }

  lemma {:induction false} SumValuesIsSumOverGroups(rs: seq<Report>, names: seq<string>)
    ensures SumValues(seq(|names|, i requires 0 <= i < |names| => NameValue(names[i], StatsFor(rs, names[i]).reports)))
         == SumOverGroups(rs, names, Reports)
    decreases |names|
  {
    if names != [] {
      var init := names[..|names| - 1];
      var rows := seq(|names|, i requires 0 <= i < |names| => NameValue(names[i], StatsFor(rs, names[i]).reports));
      assert rows[..|rows| - 1] == seq(|init|, i requires 0 <= i < |init| => NameValue(init[i], StatsFor(rs, init[i]).reports));
      SumValuesIsSumOverGroups(rs, init);
      SumOfReportsIsLength(WithDisease(rs, names[|names| - 1]));
    }
  }

  /** The disease distribution has one row per distinct disease name of the reports. */
  lemma {:induction false} DistributionNamesTheDiseases(rs: seq<Report>)
    ensures var rows := DiseaseDistributionOf(rs);
      && (forall i, j :: 0 <= i < j < |rows| ==> rows[i].name != rows[j].name)
      && (forall k :: 0 <= k < |rs| ==> exists i :: 0 <= i < |rows| && rows[i].name == rs[k].diseaseName)
      && (forall i :: 0 <= i < |rows| ==> exists k :: 0 <= k < |rs| && rs[k].diseaseName == rows[i].name)
  {
    var rows := DiseaseDistributionOf(rs);
    var ns := DiseaseNames(rs);
    forall i, j | 0 <= i < j < |rows| ensures rows[i].name != rows[j].name {
      assert rows[i].name == ns[i] && rows[j].name == ns[j];
    }
    forall k | 0 <= k < |rs| ensures exists i :: 0 <= i < |rows| && rows[i].name == rs[k].diseaseName {
      DistributionCoversReport(rs, k);
    }
    forall i | 0 <= i < |rows| ensures exists k :: 0 <= k < |rs| && rs[k].diseaseName == rows[i].name {
      DistributionRowIsReported(rs, i);
    }
  }

  lemma {:induction false} DistributionCoversReport(rs: seq<Report>, k: int)
    requires 0 <= k < |rs|
    ensures var rows := DiseaseDistributionOf(rs);
      exists i :: 0 <= i < |rows| && rows[i].name == rs[k].diseaseName
  {
    var ns := DiseaseNames(rs);
    DiseaseNamesAreReported(rs, rs[k].diseaseName);
    var i :| 0 <= i < |ns| && ns[i] == rs[k].diseaseName;
    assert DiseaseDistributionOf(rs)[i].name == ns[i];
  }

  lemma {:induction false} DistributionRowIsReported(rs: seq<Report>, i: int)
    requires 0 <= i < |DiseaseDistributionOf(rs)|
    ensures exists k :: 0 <= k < |rs| && rs[k].diseaseName == DiseaseDistributionOf(rs)[i].name
  {
    var ns := DiseaseNames(rs);
    assert DiseaseDistributionOf(rs)[i].name == ns[i];
    DiseaseNamesAreReported(rs, ns[i]);
  }

  /** Every value of the disease distribution is at least 1, and the values add up to the number of reports. */
  lemma {:induction false} DistributionCountsTheReports(rs: seq<Report>)
    ensures var rows := DiseaseDistributionOf(rs);
      && (forall i :: 0 <= i < |rows| ==> rows[i].value >= 1)
      && SumValues(rows) == |rs|
  {
    var ns := DiseaseNames(rs);
    var rows := DiseaseDistributionOf(rs);
    forall i | 0 <= i < |rows| ensures rows[i].value >= 1 {
      GroupsAreNonEmpty(rs, ns[i]);
    }
    SumValuesIsSumOverGroups(rs, ns);
    GroupsPartitionReports(rs, Reports);
    SumOfReportsIsLength(rs);
  }

  // ---------------------------------------------------------------------------------------------
  // Labels

  /** `name.length > n ? name.slice(0, n) + '...' : name`. */
  function Truncate(name: string, n: nat): (t: string)
    ensures |name| > n ==> |t| == n + 3 && t[..n] == name[..n] && t[n..] == "..."
    ensures |name| <= n ==> t == name
  {
    if |name| > n then name[..n] + "..." else name
  }

  // ---------------------------------------------------------------------------------------------
  // The disease comparison

  /** A disease and its accumulated record, an element of `Object.entries(diseaseStats)`. */
  datatype Entry = Entry(name: string, stats: DiseaseStats)

  function EntriesOf(rs: seq<Report>): (es: seq<Entry>)
    ensures |es| == |DiseaseNames(rs)|
  {
    var ns := DiseaseNames(rs);
    seq(|ns|, i requires 0 <= i < |ns| => Entry(ns[i], StatsFor(rs, ns[i])))
  }

  /** A row of the disease comparison chart. */
  datatype ComparisonRow = ComparisonRow(disease: string, targets: int, compounds: int, reports: int, efficiency: int)

  function ComparisonRowOf(e: Entry): ComparisonRow {
    var s := e.stats;
    ComparisonRow(Truncate(e.name, 15), s.targets, s.compounds, s.reports,
                  if s.reports > 0 then MeanSize(s.targets, s.compounds, s.reports) else 0)
  }

  /** `Math.round((targets + compounds) / reports)`: the rounded mean size of a disease's reports. */
  function MeanSize(targets: int, compounds: int, reports: int): int
    requires reports > 0
  {
    MathRound((targets + compounds) as real / reports as real)
  }

  /** The ranking key: targets plus compounds. */
  function Weight(e: Entry): int {
    e.stats.targets + e.stats.compounds
  }

  /** The groups sorted by targets + compounds, highest first. */
  function RankedEntries(rs: seq<Report>): (ranked: seq<Entry>)
    ensures multiset(ranked) == multiset(EntriesOf(rs))
    ensures forall i, j :: 0 <= i < j < |ranked| ==> Weight(ranked[i]) >= Weight(ranked[j])
  {
    SortDesc(EntriesOf(rs), Weight)
  }

  /** The diseases the comparison keeps: the first ten of the ranking. */
  function KeptEntries(rs: seq<Report>): seq<Entry> {
    Take(RankedEntries(rs), 10)
  }

  /** `getCompoundsTargetsData`: the ten heaviest diseases. */
  function CompoundsTargetsOf(rs: seq<Report>): seq<ComparisonRow> {
    var top := KeptEntries(rs);
    seq(|top|, i requires 0 <= i < |top| => ComparisonRowOf(top[i]))
  }

  method GetCompoundsTargetsData(rs: seq<Report>) returns (rows: seq<ComparisonRow>)
    ensures rows == CompoundsTargetsOf(rs)
  {
    var names, stats := GroupByDisease(rs);
    var entries := seq(|names|, i requires 0 <= i < |names| => Entry(names[i], stats[names[i]]));
    EntriesAgree(rs, names, stats, entries);
    var top := Take(SortDesc(entries, Weight), 10);
    rows := seq(|top|, i requires 0 <= i < |top| => ComparisonRowOf(top[i]));
  }

  lemma {:induction false} EntriesAgree(rs: seq<Report>, names: seq<string>, stats: map<string, DiseaseStats>,
                                        entries: seq<Entry>)
    requires names == DiseaseNames(rs)
    requires forall n :: n in names ==> n in stats && stats[n] == StatsFor(rs, n)
    requires |entries| == |names|
    requires forall i :: 0 <= i < |names| ==> entries[i] == Entry(names[i], stats[names[i]])
    ensures entries == EntriesOf(rs)
  {
    var es := EntriesOf(rs);
    forall i | 0 <= i < |es| ensures entries[i] == es[i] {
      assert names[i] in names;
    }
  }

  /**
   * The comparison has min(10, number of diseases) rows, sorted by targets + compounds from the
   * highest; every row is the record of one disease, with its name truncated to 15 characters,
   * at least one report, and an efficiency of round((targets + compounds) / reports). The rows
   * come from distinct diseases, and every disease left out weighs no more than the last row kept.
   */
  lemma {:induction false} CompoundsTargetsShape(rs: seq<Report>)
    ensures var rows := CompoundsTargetsOf(rs);
      && |rows| == (if |DiseaseNames(rs)| < 10 then |DiseaseNames(rs)| else 10)
      && (forall i, j :: 0 <= i < j < |rows| ==>
            rows[i].targets + rows[i].compounds >= rows[j].targets + rows[j].compounds)
      && (forall i :: 0 <= i < |rows| ==> IsGroupRow(rs, rows[i]))
    ensures var rows, kept := CompoundsTargetsOf(rs), KeptEntries(rs);
      && |kept| == |rows|
      && (forall i :: 0 <= i < |rows| ==> rows[i] == ComparisonRowOf(kept[i]) && kept[i] in EntriesOf(rs))
      && (forall i, j :: 0 <= i < j < |kept| ==> kept[i].name != kept[j].name)
      && (forall e :: e in EntriesOf(rs) && e !in kept ==>
            rows != [] && Weight(e) <= rows[|rows| - 1].targets + rows[|rows| - 1].compounds)
  {
    ComparisonIsRanked(rs);
    ComparisonRowsAreGroups(rs);
    ComparisonRowsOfKept(rs);
    KeptNamesDistinct(rs);
    ComparisonLeftOutIsLighter(rs);
  }

  lemma {:induction false} ComparisonRowsAreGroups(rs: seq<Report>)
    ensures forall i :: 0 <= i < |CompoundsTargetsOf(rs)| ==> IsGroupRow(rs, CompoundsTargetsOf(rs)[i])
  {
    var rows := CompoundsTargetsOf(rs);
    forall i | 0 <= i < |rows| ensures IsGroupRow(rs, rows[i]) {
      ComparisonRowIsGroup(rs, i);
    }
  }

  /** The rows are those of the kept diseases, which are entries of the grouping. */
  lemma {:induction false} ComparisonRowsOfKept(rs: seq<Report>)
    ensures var rows, kept := CompoundsTargetsOf(rs), KeptEntries(rs);
      && |kept| == |rows|
      && forall i :: 0 <= i < |rows| ==> rows[i] == ComparisonRowOf(kept[i]) && kept[i] in EntriesOf(rs)
  {
    var kept, es := KeptEntries(rs), EntriesOf(rs);
    TakeKeepsHighest(RankedEntries(rs), 10, Weight);
    forall i | 0 <= i < |kept| ensures kept[i] in es {
      assert kept[i] in multiset(kept);
    }
  }

  /** Every disease the comparison leaves out weighs no more than its last row. */
  lemma {:induction false} ComparisonLeftOutIsLighter(rs: seq<Report>)
    ensures var rows, kept := CompoundsTargetsOf(rs), KeptEntries(rs);
      forall e :: e in EntriesOf(rs) && e !in kept ==>
        rows != [] && Weight(e) <= rows[|rows| - 1].targets + rows[|rows| - 1].compounds
  {
    var rows, kept := CompoundsTargetsOf(rs), KeptEntries(rs);
    ComparisonKeepsHeaviest(rs);
    forall e | e in EntriesOf(rs) && e !in kept
      ensures rows != [] && Weight(e) <= rows[|rows| - 1].targets + rows[|rows| - 1].compounds
    {
      LastRowWeight(rs);
    }
  }

  /** The last comparison row weighs what the last kept disease weighs. */
  lemma {:induction false} LastRowWeight(rs: seq<Report>)
    requires KeptEntries(rs) != []
    ensures var rows, kept := CompoundsTargetsOf(rs), KeptEntries(rs);
      && |rows| == |kept|
      && rows[|rows| - 1].targets + rows[|rows| - 1].compounds == Weight(kept[|kept| - 1])
  {
    var rows, kept := CompoundsTargetsOf(rs), KeptEntries(rs);
    var last := kept[|kept| - 1];
    assert rows[|rows| - 1] == ComparisonRowOf(last);
    assert ComparisonRowOf(last).targets == last.stats.targets;
    assert ComparisonRowOf(last).compounds == last.stats.compounds;
  }

  /** The kept diseases are entries of the grouping, and any entry left out is no heavier than the last kept. */
  lemma {:induction false} ComparisonKeepsHeaviest(rs: seq<Report>)
    ensures var kept, es := KeptEntries(rs), EntriesOf(rs);
      && multiset(kept) <= multiset(es)
      && (forall i :: 0 <= i < |kept| ==> kept[i] in es)
      && (forall e :: e in es && e !in kept ==> kept != [] && Weight(e) <= Weight(kept[|kept| - 1]))
  {
    var ranked, kept, es := RankedEntries(rs), KeptEntries(rs), EntriesOf(rs);
    TakeKeepsHighest(ranked, 10, Weight);
    forall i | 0 <= i < |kept| ensures kept[i] in es {
      assert kept[i] in multiset(kept);
    }
    forall e | e in es && e !in kept ensures kept != [] && Weight(e) <= Weight(kept[|kept| - 1]) {
      assert multiset(kept)[e] == 0;
      assert e in multiset(es);
    }
  }

  lemma {:induction false} EntriesDistinct(rs: seq<Report>)
    ensures forall p, q :: 0 <= p < q < |EntriesOf(rs)| ==> EntriesOf(rs)[p] != EntriesOf(rs)[q]
  {
    var es, ns := EntriesOf(rs), DiseaseNames(rs);
    forall p, q | 0 <= p < q < |es| ensures es[p] != es[q] {
      assert es[p].name == ns[p] && es[q].name == ns[q];
    }
  }

  /** No two kept diseases share a name: the grouping has one entry per name. */
  lemma {:induction false} KeptNamesDistinct(rs: seq<Report>)
    ensures forall i, j :: 0 <= i < j < |KeptEntries(rs)| ==> KeptEntries(rs)[i].name != KeptEntries(rs)[j].name
  {
    var kept, es := KeptEntries(rs), EntriesOf(rs);
    TakeKeepsHighest(RankedEntries(rs), 10, Weight);
    EntriesDistinct(rs);
    SubMultisetDistinct(es, kept);
    forall i, j | 0 <= i < j < |kept| ensures kept[i].name != kept[j].name {
      EntryOfName(rs, kept[i]);
      EntryOfName(rs, kept[j]);
    }
  }

  /** An entry of the grouping is determined by its name. */
  lemma {:induction false} EntryOfName(rs: seq<Report>, e: Entry)
    requires e in multiset(EntriesOf(rs))
    ensures e == Entry(e.name, StatsFor(rs, e.name))
  {
    var es := EntriesOf(rs);
    var a :| 0 <= a < |es| && es[a] == e;
  }

  /**
   * A chart row that is the record of one disease of `rs`: that disease's name truncated to 15
   * characters, its sums, at least one report, and an efficiency of round((targets + compounds) / reports).
   */
  ghost predicate IsGroupRow(rs: seq<Report>, row: ComparisonRow) {
    && row.reports >= 1
    && row.efficiency == MeanSize(row.targets, row.compounds, row.reports)
    && exists n :: n in DiseaseNames(rs) && row.disease == Truncate(n, 15)
         && StatsFor(rs, n) == DiseaseStats(row.targets, row.compounds, row.reports)
  }

  /** The comparison rows are min(10, diseases) many and ordered by targets + compounds, highest first. */
  lemma {:induction false} ComparisonIsRanked(rs: seq<Report>)
    ensures var rows := CompoundsTargetsOf(rs);
      && |rows| == (if |DiseaseNames(rs)| < 10 then |DiseaseNames(rs)| else 10)
      && (forall i, j :: 0 <= i < j < |rows| ==>
            rows[i].targets + rows[i].compounds >= rows[j].targets + rows[j].compounds)
  {
    var ranked := RankedEntries(rs);
    var top := Take(ranked, 10);
    var rows := CompoundsTargetsOf(rs);
    forall i, j | 0 <= i < j < |rows|
      ensures rows[i].targets + rows[i].compounds >= rows[j].targets + rows[j].compounds
    {
      assert rows[i].targets + rows[i].compounds == Weight(ranked[i]);
      assert rows[j].targets + rows[j].compounds == Weight(ranked[j]);
    }
  }

  /** A comparison row is the record of one disease, with at least one report. */
  lemma {:induction false} ComparisonRowIsGroup(rs: seq<Report>, i: int)
    requires 0 <= i < |CompoundsTargetsOf(rs)|
    ensures IsGroupRow(rs, CompoundsTargetsOf(rs)[i])
  {
    var ranked := RankedEntries(rs);
    var e := ranked[i];
    var row := CompoundsTargetsOf(rs)[i];
    assert row == ComparisonRowOf(e);
    RankedAreGroups(rs, e);
    GroupsAreNonEmpty(rs, e.name);
    RowOfGroup(e);
    assert DiseaseStats(row.targets, row.compounds, row.reports) == e.stats;
  }

  /** The chart row of a non-empty group carries its record and the rounded mean size. */
  lemma {:induction false} RowOfGroup(e: Entry)
    requires e.stats.reports >= 1
    ensures var row := ComparisonRowOf(e);
      && row.disease == Truncate(e.name, 15)
      && DiseaseStats(row.targets, row.compounds, row.reports) == e.stats
      && row.efficiency == MeanSize(row.targets, row.compounds, row.reports)
  {
  }

  /** Every ranked entry is one disease of the reports with that disease's record. */
  lemma {:induction false} RankedAreGroups(rs: seq<Report>, e: Entry)
    requires e in RankedEntries(rs)
    ensures e.name in DiseaseNames(rs) && e.stats == StatsFor(rs, e.name)
  {
    var es := EntriesOf(rs);
    assert e in multiset(RankedEntries(rs));
    assert e in multiset(es);
    var k :| 0 <= k < |es| && es[k] == e;
  }

  // ---------------------------------------------------------------------------------------------
  // User performance

  /** `userProfiles.find(p => p.user_id === userId)`. */
  function FindProfile(profiles: seq<UserProfile>, userId: string): (p: Option<UserProfile>)
    ensures p.Some? ==> p.value in profiles && p.value.userId == userId
    ensures p.None? <==> forall i :: 0 <= i < |profiles| ==> profiles[i].userId != userId
    ensures p.Some? ==> exists k ::
      && 0 <= k < |profiles| && profiles[k] == p.value
      && forall j :: 0 <= j < k ==> profiles[j].userId != userId
  {
    if profiles == [] then None
    else if profiles[0].userId == userId then Some(profiles[0])
    else
      var found := FindProfile(profiles[1..], userId);
      if found.Some? then
        var k :| 0 <= k < |profiles[1..]| && profiles[1..][k] == found.value
          && forall j :: 0 <= j < k ==> profiles[1..][j].userId != userId;
        assert profiles[k + 1] == found.value;
        assert forall j :: 0 <= j < k + 1 ==> profiles[j].userId != userId by {
          forall j | 0 <= j < k + 1 ensures profiles[j].userId != userId {
            if j > 0 { assert profiles[j] == profiles[1..][j - 1]; }
          }
        }
        found
      else found
  }

  /** `s.split(' ')[0]`: everything before the first space. */
  function FirstWord(s: string): (w: string)
    ensures |w| <= |s| && w == s[..|w|]
    ensures ' ' !in w
    ensures |w| < |s| ==> s[|w|] == ' '
  {
    if s == [] || s[0] == ' ' then [] else [s[0]] + FirstWord(s[1..])
  }

  /** `profile?.full_name?.split(' ')[0] || 'Unknown'`. */
  function DisplayName(p: Option<UserProfile>): (name: string)
    ensures name != ""
    ensures p.Some? && p.value.fullName.Some? && FirstWord(p.value.fullName.value) != "" ==>
      name == FirstWord(p.value.fullName.value)
    ensures !(p.Some? && p.value.fullName.Some? && FirstWord(p.value.fullName.value) != "") ==> name == "Unknown"
  {
    if p.Some? && p.value.fullName.Some? && FirstWord(p.value.fullName.value) != "" then
      FirstWord(p.value.fullName.value)
    else "Unknown"
  }

  datatype PerformanceRow = PerformanceRow(name: string, reports: int, compounds: int, targets: int, logins: int, score: int)

  function PerformanceRowOf(a: UserAnalytics, profiles: seq<UserProfile>): PerformanceRow {
    PerformanceRow(DisplayName(FindProfile(profiles, a.userId)), a.reportsGenerated, a.compoundsAnalyzed,
                   a.targetsDiscovered, a.loginCount,
                   a.reportsGenerated * 10 + a.compoundsAnalyzed * 2 + a.targetsDiscovered * 5)
  }

  function Score(row: PerformanceRow): int {
    row.score
  }

  /** One row per user analytics record, in order. */
  function PerformanceRows(analytics: seq<UserAnalytics>, profiles: seq<UserProfile>): (rows: seq<PerformanceRow>)
    ensures |rows| == |analytics|
  {
    seq(|analytics|, i requires 0 <= i < |analytics| => PerformanceRowOf(analytics[i], profiles))
  }

  /** `getUserPerformanceData`: the eight best scores, for an admin only. */
  function UserPerformanceOf(isAdmin: bool, analytics: seq<UserAnalytics>, profiles: seq<UserProfile>): seq<PerformanceRow> {
    if !isAdmin then []
    else Take(SortDesc(PerformanceRows(analytics, profiles), Score), 8)
  }

  /**
   * Non-admins get nothing. An admin gets min(8, users) rows sorted by score from the highest; each
   * row is one user's analytics, with score 10 * reports + 2 * compounds + 5 * targets and the first
   * word of the user's profile name (or 'Unknown'). The rows are drawn from distinct records (no
   * record's row is used more often than it occurs), and any record left out scores no more than
   * the last row kept.
   */
  lemma {:induction false} UserPerformanceShape(isAdmin: bool, analytics: seq<UserAnalytics>, profiles: seq<UserProfile>)
    ensures !isAdmin ==> UserPerformanceOf(isAdmin, analytics, profiles) == []
    ensures isAdmin ==>
      var rows := UserPerformanceOf(isAdmin, analytics, profiles);
      && |rows| == (if |analytics| < 8 then |analytics| else 8)
      && (forall i, j :: 0 <= i < j < |rows| ==> rows[i].score >= rows[j].score)
      && (forall i :: 0 <= i < |rows| ==> IsUserRow(analytics, profiles, rows[i]))
      && multiset(rows) <= multiset(PerformanceRows(analytics, profiles))
      && forall x: PerformanceRow :: multiset(rows)[x] < multiset(PerformanceRows(analytics, profiles))[x] ==>
           rows != [] && x.score <= rows[|rows| - 1].score
  {
    if isAdmin {
      PerformanceIsRanked(analytics, profiles);
      PerformanceRowsAreUsers(analytics, profiles);
      PerformanceKeepsBest(analytics, profiles);
    }
  }

  /** The admin's rows are min(8, users) many and ordered by score, highest first. */
  lemma {:induction false} PerformanceIsRanked(analytics: seq<UserAnalytics>, profiles: seq<UserProfile>)
    ensures var rows := UserPerformanceOf(true, analytics, profiles);
      && |rows| == (if |analytics| < 8 then |analytics| else 8)
      && forall i, j :: 0 <= i < j < |rows| ==> rows[i].score >= rows[j].score
  {
    var sorted := SortDesc(PerformanceRows(analytics, profiles), Score);
    var rows := UserPerformanceOf(true, analytics, profiles);
    forall i, j | 0 <= i < j < |rows| ensures rows[i].score >= rows[j].score {
      assert rows[i] == sorted[i] && rows[j] == sorted[j];
    }
  }

  lemma {:induction false} PerformanceRowsAreUsers(analytics: seq<UserAnalytics>, profiles: seq<UserProfile>)
    ensures var rows := UserPerformanceOf(true, analytics, profiles);
      forall i :: 0 <= i < |rows| ==> IsUserRow(analytics, profiles, rows[i])
  {
    var rows := UserPerformanceOf(true, analytics, profiles);
    forall i | 0 <= i < |rows| ensures IsUserRow(analytics, profiles, rows[i]) {
      PerformanceRowIsUser(analytics, profiles, i);
    }
  }

  /** The admin's rows are part of the per-user rows, and any row left out scores no more than the last kept. */
  lemma {:induction false} PerformanceKeepsBest(analytics: seq<UserAnalytics>, profiles: seq<UserProfile>)
    ensures var rows, all := UserPerformanceOf(true, analytics, profiles), PerformanceRows(analytics, profiles);
      && multiset(rows) <= multiset(all)
      && forall x: PerformanceRow :: multiset(rows)[x] < multiset(all)[x] ==> rows != [] && x.score <= rows[|rows| - 1].score
  {
    var all := PerformanceRows(analytics, profiles);
    var sorted := SortDesc(all, Score);
    TakeKeepsHighest(sorted, 8, Score);
    var rows := UserPerformanceOf(true, analytics, profiles);
    forall x: PerformanceRow | multiset(rows)[x] < multiset(all)[x] ensures rows != [] && x.score <= rows[|rows| - 1].score {
      assert x in multiset(sorted);
    }
  }

  /** A performance row that is one user's analytics, scored 10 * reports + 2 * compounds + 5 * targets. */
  ghost predicate IsUserRow(analytics: seq<UserAnalytics>, profiles: seq<UserProfile>, row: PerformanceRow) {
    && row.score == row.reports * 10 + row.compounds * 2 + row.targets * 5
    && exists k :: 0 <= k < |analytics| && row == PerformanceRowOf(analytics[k], profiles)
  }

  lemma {:induction false} PerformanceRowIsUser(analytics: seq<UserAnalytics>, profiles: seq<UserProfile>, i: int)
    requires 0 <= i < |UserPerformanceOf(true, analytics, profiles)|
    ensures IsUserRow(analytics, profiles, UserPerformanceOf(true, analytics, profiles)[i])
  {
    var all := PerformanceRows(analytics, profiles);
    var sorted := SortDesc(all, Score);
    var row := UserPerformanceOf(true, analytics, profiles)[i];
    assert row == sorted[i];
    assert sorted[i] in multiset(all);
    var k :| 0 <= k < |all| && all[k] == sorted[i];
  }

  // ---------------------------------------------------------------------------------------------
  // Date buckets

  /** A bucket's date prefix (`yyyy-MM-dd` or `yyyy-MM`) and its display caption. */
  datatype Period = Period(prefix: string, caption: string)

  /** The reports created in a period, in order. */
  function InPeriod(rs: seq<Report>, prefix: string): (w: seq<Report>)
    ensures |w| <= |rs|
    decreases |rs|
  {
    if rs == [] then []
    else InPeriod(rs[..|rs| - 1], prefix) + (if StartsWith(rs[|rs| - 1].createdAt, prefix) then [rs[|rs| - 1]] else [])
  }

  lemma {:induction false} InPeriodStep(rs: seq<Report>, r: Report, prefix: string)
    ensures InPeriod(rs + [r], prefix) == InPeriod(rs, prefix) + (if StartsWith(r.createdAt, prefix) then [r] else [])
  {
    var both := rs + [r];
    assert both[..|both| - 1] == rs;
  }

  /** A period holds exactly the reports whose `created_at` starts with its prefix. */
  lemma {:induction false} InPeriodMembers(rs: seq<Report>, prefix: string, r: Report)
    ensures r in InPeriod(rs, prefix) <==> r in rs && StartsWith(r.createdAt, prefix)
    decreases |rs|
  {
    if rs != [] {
      var init := rs[..|rs| - 1];
      InPeriodMembers(init, prefix, r);
      assert rs == init + [rs[|rs| - 1]];
    }
  }

  /** `new Set(rs.map(r => r.user_id))`. */
  function UserIds(rs: seq<Report>): (ids: set<string>)
    ensures |ids| <= |rs|
    ensures |ids| == 0 <==> rs == []
    decreases |rs|
  {
    if rs == [] then {}
    else
      var prev := UserIds(rs[..|rs| - 1]);
      var u := rs[|rs| - 1].userId;
      assert u in prev + {u};
      assert |prev + {u}| <= |prev| + 1 by {
        if u in prev { assert prev + {u} == prev; }
      }
      prev + {u}
  }

  lemma {:induction false} UserIdsStep(rs: seq<Report>, r: Report)
    ensures UserIds(rs + [r]) == UserIds(rs) + {r.userId}
  {
    var both := rs + [r];
    assert both[..|both| - 1] == rs;
  }

  /** The distinct users are exactly the users of some report. */
  lemma {:induction false} UserIdsMembers(rs: seq<Report>, u: string)
    ensures u in UserIds(rs) <==> exists k :: 0 <= k < |rs| && rs[k].userId == u
    decreases |rs|
  {
    if rs != [] {
      var init := rs[..|rs| - 1];
      UserIdsMembers(init, u);
      if exists k :: 0 <= k < |init| && init[k].userId == u {
        var k :| 0 <= k < |init| && init[k].userId == u;
        assert rs[k] == init[k];
      }
      if exists k :: 0 <= k < |rs| && rs[k].userId == u {
        var k :| 0 <= k < |rs| && rs[k].userId == u;
        if k < |init| { assert init[k] == rs[k]; }
      }
    }
  }

  /** A row of the activity and monthly trend charts. */
  datatype Bucket = Bucket(caption: string, users: int, reports: int, compounds: int, targets: int)

  /**
   * The bucket of a period (lines 130-141 and 201-210): its distinct users never outnumber its
   * reports, and it has users exactly when it has reports.
   */
  function BucketOf(rs: seq<Report>, p: Period): (b: Bucket)
    ensures 0 <= b.users <= b.reports
    ensures b.users == 0 <==> b.reports == 0
  {
    var w := InPeriod(rs, p.prefix);
    Bucket(p.caption, |UserIds(w)|, |w|, SumBy(w, Compounds), SumBy(w, Targets))
  }

  /** `getUserActivityData` and `getMonthlyTrendData`: one bucket per period, in the periods' order. */
  function PeriodBuckets(rs: seq<Report>, periods: seq<Period>): seq<Bucket> {
    seq(|periods|, i requires 0 <= i < |periods| => BucketOf(rs, periods[i]))
  }

  /**
   * One bucket per period, in the periods' order: bucket i has period i's caption, counts the
   * reports created in that period and their distinct users, and sums their compounds and targets.
   */
  lemma {:induction false} PeriodBucketsShape(rs: seq<Report>, periods: seq<Period>)
    ensures var bs := PeriodBuckets(rs, periods);
      && |bs| == |periods|
      && forall i :: 0 <= i < |bs| ==>
           var w := InPeriod(rs, periods[i].prefix);
           && bs[i].caption == periods[i].caption
           && bs[i].reports == |w| && bs[i].users == |UserIds(w)|
           && bs[i].compounds == SumBy(w, Compounds) && bs[i].targets == SumBy(w, Targets)
           && 0 <= bs[i].users <= bs[i].reports
           && (bs[i].users == 0 <==> bs[i].reports == 0)
  {
    var bs := PeriodBuckets(rs, periods);
    forall i | 0 <= i < |bs| ensures 0 <= bs[i].users <= bs[i].reports && (bs[i].users == 0 <==> bs[i].reports == 0) {
      assert bs[i] == BucketOf(rs, periods[i]);
    }
  }

  /** A user is counted in a period's bucket exactly when one of their reports was created in it. */
  lemma {:induction false} BucketUsers(rs: seq<Report>, p: Period, u: string)
    ensures u in UserIds(InPeriod(rs, p.prefix)) <==>
      exists k :: 0 <= k < |rs| && rs[k].userId == u && StartsWith(rs[k].createdAt, p.prefix)
  {
    var w := InPeriod(rs, p.prefix);
    UserIdsMembers(w, u);
    if u in UserIds(w) {
      var j :| 0 <= j < |w| && w[j].userId == u;
      InPeriodMembers(rs, p.prefix, w[j]);
      var k :| 0 <= k < |rs| && rs[k] == w[j];
    }
    if exists k :: 0 <= k < |rs| && rs[k].userId == u && StartsWith(rs[k].createdAt, p.prefix) {
      var k :| 0 <= k < |rs| && rs[k].userId == u && StartsWith(rs[k].createdAt, p.prefix);
      InPeriodMembers(rs, p.prefix, rs[k]);
      var j :| 0 <= j < |w| && w[j] == rs[k];
    }
  }

  /**
   * A report outside the period leaves its bucket unchanged; a report inside it adds one report,
   * its compounds and its targets, and at most one new user.
   */
  lemma {:induction false} BucketStep(rs: seq<Report>, r: Report, p: Period)
    ensures var before, after := BucketOf(rs, p), BucketOf(rs + [r], p);
      if StartsWith(r.createdAt, p.prefix) then
        && after.reports == before.reports + 1
        && after.compounds == before.compounds + r.compoundsCount
        && after.targets == before.targets + r.targetsCount
        && before.users <= after.users <= before.users + 1
      else after == before
  {
    InPeriodStep(rs, r, p.prefix);
    var w := InPeriod(rs, p.prefix);
    if StartsWith(r.createdAt, p.prefix) {
      SumByAppend(w, r, Compounds);
      SumByAppend(w, r, Targets);
      UserIdsStep(w, r);
      var ids := UserIds(w);
      if r.userId in ids {
        assert ids + {r.userId} == ids;
      } else {
        assert |ids + {r.userId}| == |ids| + 1;
      }
    } else {
      assert InPeriod(rs + [r], p.prefix) == w;
    }
  }

  /** The reports of the signed-in user; nobody's when no user is signed in (`user?.id` is undefined). */
  function ForUser(rs: seq<Report>, user: Option<string>): (w: seq<Report>)
    ensures |w| <= |rs|
    decreases |rs|
  {
    if rs == [] then []
    else ForUser(rs[..|rs| - 1], user) + (if user == Some(rs[|rs| - 1].userId) then [rs[|rs| - 1]] else [])
  }

  lemma {:induction false} ForUserStep(rs: seq<Report>, r: Report, user: Option<string>)
    ensures ForUser(rs + [r], user) == ForUser(rs, user) + (if user == Some(r.userId) then [r] else [])
  {
    var both := rs + [r];
    assert both[..|both| - 1] == rs;
  }

  /** The user's reports are exactly the reports whose `user_id` is the signed-in user's id. */
  lemma {:induction false} ForUserMembers(rs: seq<Report>, user: Option<string>, r: Report)
    ensures r in ForUser(rs, user) <==> r in rs && user == Some(r.userId)
    decreases |rs|
  {
    if rs != [] {
      var init := rs[..|rs| - 1];
      ForUserMembers(init, user, r);
      assert rs == init + [rs[|rs| - 1]];
    }
  }

  /** With nobody signed in, no report is the user's. */
  lemma {:induction false} NobodysReports(rs: seq<Report>)
    ensures ForUser(rs, None) == []
    decreases |rs|
  {
    if rs != [] {
      NobodysReports(rs[..|rs| - 1]);
    }
  }

  /** A user's share of a period is no larger than the period's bucket. */
  lemma {:induction false} UserShareOfPeriod(rs: seq<Report>, user: Option<string>, prefix: string)
    ensures |InPeriod(ForUser(rs, user), prefix)| <= |InPeriod(rs, prefix)|
    decreases |rs|
  {
    if rs != [] {
      var init, r := rs[..|rs| - 1], rs[|rs| - 1];
      assert rs == init + [r];
      UserShareOfPeriod(init, user, prefix);
      InPeriodStep(init, r, prefix);
      ForUserStep(init, r, user);
      if user == Some(r.userId) {
        InPeriodStep(ForUser(init, user), r, prefix);
      } else {
        assert ForUser(rs, user) == ForUser(init, user);
      }
    }
  }

  /** A row of the personal trend: the current user's reports in a period. */
  datatype PeriodCount = PeriodCount(caption: string, reports: int)

  /** `getUserPersonalTrendData`: the signed-in user's reports per period. */
  function PersonalTrendOf(rs: seq<Report>, user: Option<string>, periods: seq<Period>): (rows: seq<PeriodCount>)
  {
    seq(|periods|, i requires 0 <= i < |periods| =>
      PeriodCount(periods[i].caption, |InPeriod(ForUser(rs, user), periods[i].prefix)|))
  }

  /**
   * The personal trend has one row per period, in order, and the user's count in a period never
   * exceeds that period's bucket.
   */
  lemma {:induction false} PersonalTrendShape(rs: seq<Report>, user: Option<string>, periods: seq<Period>)
    ensures var rows := PersonalTrendOf(rs, user, periods);
      && |rows| == |periods|
      && forall i :: 0 <= i < |periods| ==>
           && rows[i].caption == periods[i].caption
           && rows[i].reports == |InPeriod(ForUser(rs, user), periods[i].prefix)|
           && 0 <= rows[i].reports <= BucketOf(rs, periods[i]).reports
  {
    forall i | 0 <= i < |periods| ensures |InPeriod(ForUser(rs, user), periods[i].prefix)| <= |InPeriod(rs, periods[i].prefix)| {
      UserShareOfPeriod(rs, user, periods[i].prefix);
    }
  }

  /** The reports a personal row counts are exactly the user's reports created in that period. */
  lemma {:induction false} PersonalPeriodMembers(rs: seq<Report>, user: Option<string>, prefix: string, r: Report)
    ensures r in InPeriod(ForUser(rs, user), prefix) <==> r in rs && user == Some(r.userId) && StartsWith(r.createdAt, prefix)
  {
    InPeriodMembers(ForUser(rs, user), prefix, r);
    ForUserMembers(rs, user, r);
  }

  /**
   * One more report adds one to a period's personal row exactly when it is the user's and was
   * created in that period; every other row stays as it was.
   */
  lemma {:induction false} PersonalTrendStep(rs: seq<Report>, r: Report, user: Option<string>, periods: seq<Period>)
    ensures var before, after := PersonalTrendOf(rs, user, periods), PersonalTrendOf(rs + [r], user, periods);
      && |after| == |before| == |periods|
      && forall i :: 0 <= i < |periods| ==>
           after[i].reports == before[i].reports + (if user == Some(r.userId) && StartsWith(r.createdAt, periods[i].prefix) then 1 else 0)
  {
    ForUserStep(rs, r, user);
    forall i | 0 <= i < |periods|
      ensures |InPeriod(ForUser(rs + [r], user), periods[i].prefix)|
              == |InPeriod(ForUser(rs, user), periods[i].prefix)| + (if user == Some(r.userId) && StartsWith(r.createdAt, periods[i].prefix) then 1 else 0)
    {
      if user == Some(r.userId) {
        InPeriodStep(ForUser(rs, user), r, periods[i].prefix);
      } else {
        assert ForUser(rs + [r], user) == ForUser(rs, user);
      }
    }
  }

  // ---------------------------------------------------------------------------------------------
  // The per-user views

  datatype AssociationScore = AssociationScore(disease: string, score: int)

  /** `compounds > 0 ? Math.round(targets / compounds * 100) : 0`. */
  function TargetsPerHundredCompounds(s: DiseaseStats): (score: int)
    ensures s.compounds > 0 ==>
      (s.targets as real / s.compounds as real) * 100.0 - 0.5 < score as real <= (s.targets as real / s.compounds as real) * 100.0 + 0.5
    ensures s.compounds <= 0 ==> score == 0
  {
    if s.compounds > 0 then MathRound((s.targets as real / s.compounds as real) * 100.0) else 0
  }

  /** `getUserCompoundAssociationData`: per disease of the user's reports, the score, under a 12-character caption. */
  function CompoundAssociationOf(rs: seq<Report>, user: Option<string>): seq<AssociationScore> {
    var es := EntriesOf(ForUser(rs, user));
    seq(|es|, i requires 0 <= i < |es| => AssociationScore(Truncate(es[i].name, 12), TargetsPerHundredCompounds(es[i].stats)))
  }

  method GetUserCompoundAssociationData(rs: seq<Report>, user: Option<string>) returns (rows: seq<AssociationScore>)
    ensures rows == CompoundAssociationOf(rs, user)
  {
    var mine := ForUser(rs, user);
    var names, stats := GroupByDisease(mine);
    rows := seq(|names|, i requires 0 <= i < |names| =>
      AssociationScore(Truncate(names[i], 12), TargetsPerHundredCompounds(stats[names[i]])));
  }

  /**
   * The association scores count only the signed-in user's reports: one row per disease of theirs,
   * whose score is taken from that disease's sums over their reports alone.
   */
  lemma {:induction false} CompoundAssociationShape(rs: seq<Report>, user: Option<string>)
    ensures var rows := CompoundAssociationOf(rs, user);
      var mine := ForUser(rs, user);
      && |rows| == |DiseaseNames(mine)|
      && (user.None? ==> rows == [])
      && forall i :: 0 <= i < |rows| ==>
           var n := DiseaseNames(mine)[i];
           && rows[i].disease == Truncate(n, 12)
           && rows[i].score == TargetsPerHundredCompounds(StatsFor(mine, n))
           && forall r :: r in WithDisease(mine, n) ==> r in rs && user == Some(r.userId)
  {
    var mine := ForUser(rs, user);
    var ns := DiseaseNames(mine);
    if user.None? {
      NobodysReports(rs);
    }
    forall i, r | 0 <= i < |ns| && r in WithDisease(mine, ns[i]) ensures r in rs && user == Some(r.userId) {
      WithDiseaseIsSubset(mine, ns[i], r);
      ForUserMembers(rs, user, r);
    }
  }

  lemma {:induction false} WithDiseaseIsSubset(rs: seq<Report>, name: string, r: Report)
    requires r in WithDisease(rs, name)
    ensures r in rs
    decreases |rs|
  {
    if r !in WithDisease(rs[..|rs| - 1], name) {
      assert r == rs[|rs| - 1];
    } else {
      WithDiseaseIsSubset(rs[..|rs| - 1], name, r);
      assert rs[..|rs| - 1] <= rs;
    }
  }

  datatype EfficiencyPoint = EfficiencyPoint(date: string, efficiency: real)

  /**
   * `compounds > 0 ? Math.round(targets / compounds * 100) / 100 : 0`: targets per compound to the
   * cent, a half going up.
   */
  function Efficiency(r: Report): (e: real)
    ensures r.compoundsCount > 0 ==>
      r.targetsCount as real / r.compoundsCount as real - 0.005 < e <= r.targetsCount as real / r.compoundsCount as real + 0.005
    ensures r.compoundsCount <= 0 ==> e == 0.0
    ensures HasDecimals(e, 2)
  {
    assert Pow10(2) == 100;
    if r.compoundsCount > 0 then Units(MathRound((r.targetsCount as real / r.compoundsCount as real) * 100.0), 100)
    else assert Units(0, 100) == 0.0; 0.0
  }

  /** `getUserEfficiencyData`, with the locale date caption of a timestamp as a parameter. */
  function UserEfficiencyOf(rs: seq<Report>, user: Option<string>, dateLabel: string -> string): (points: seq<EfficiencyPoint>)
    ensures |points| == |ForUser(rs, user)| <= |rs|
  {
    var mine := ForUser(rs, user);
    seq(|mine|, i requires 0 <= i < |mine| => EfficiencyPoint(dateLabel(mine[i].createdAt), Efficiency(mine[i])))
  }

  /** `e` is 0 for a report without compounds, and otherwise within 0.005 of its targets per compound. */
  ghost predicate RatioWithinHalfCent(r: Report, e: real) {
    && (r.compoundsCount <= 0 ==> e == 0.0)
    && (r.compoundsCount > 0 ==>
          r.targetsCount as real / r.compoundsCount as real - 0.005 < e <= r.targetsCount as real / r.compoundsCount as real + 0.005)
  }

  /**
   * Every efficiency point belongs to one report of the signed-in user: it carries that report's
   * date caption and its targets per compound, rounded to the cent.
   */
  lemma {:induction false} UserEfficiencyPoints(rs: seq<Report>, user: Option<string>, dateLabel: string -> string, i: int)
    requires 0 <= i < |UserEfficiencyOf(rs, user, dateLabel)|
    ensures var p := UserEfficiencyOf(rs, user, dateLabel)[i];
      exists k :: 0 <= k < |rs| && user == Some(rs[k].userId)
        && p.date == dateLabel(rs[k].createdAt) && RatioWithinHalfCent(rs[k], p.efficiency)
  {
    var mine := ForUser(rs, user);
    var r := mine[i];
    ForUserMembers(rs, user, r);
    var k :| 0 <= k < |rs| && rs[k] == r;
    assert UserEfficiencyOf(rs, user, dateLabel)[i] == EfficiencyPoint(dateLabel(r.createdAt), Efficiency(r));
  }

  /**
   * The points follow the reports: one more report adds its point at the end when it is the
   * user's, and nothing otherwise.
   */
  lemma {:induction false} UserEfficiencyStep(rs: seq<Report>, r: Report, user: Option<string>, dateLabel: string -> string)
    ensures UserEfficiencyOf(rs + [r], user, dateLabel)
         == UserEfficiencyOf(rs, user, dateLabel)
            + (if user == Some(r.userId) then [EfficiencyPoint(dateLabel(r.createdAt), Efficiency(r))] else [])
  {
    ForUserStep(rs, r, user);
    var before := UserEfficiencyOf(rs, user, dateLabel);
    var after := UserEfficiencyOf(rs + [r], user, dateLabel);
    var mine := ForUser(rs, user);
    forall i | 0 <= i < |before| ensures after[i] == before[i] {
      assert ForUser(rs + [r], user)[i] == mine[i];
    }
  }

  /** With nobody signed in there are no points. */
  lemma {:induction false} SignedOutEfficiency(rs: seq<Report>, dateLabel: string -> string)
    ensures UserEfficiencyOf(rs, None, dateLabel) == []
  {
    NobodysReports(rs);
  }

  /** `getUserFocusDistribution`: the disease distribution of the user's reports, under 15-character labels. */
  function FocusDistributionOf(rs: seq<Report>, user: Option<string>): seq<NameValue> {
    var dist := DiseaseDistributionOf(ForUser(rs, user));
    seq(|dist|, i requires 0 <= i < |dist| => NameValue(Truncate(dist[i].name, 15), dist[i].value))
  }

  method GetUserFocusDistribution(rs: seq<Report>, user: Option<string>) returns (rows: seq<NameValue>)
    ensures rows == FocusDistributionOf(rs, user)
  {
    var mine := ForUser(rs, user);
    var names, stats := GroupByDisease(mine);
    rows := seq(|names|, i requires 0 <= i < |names| => NameValue(Truncate(names[i], 15), stats[names[i]].reports));
  }

  /** The focus values are all positive and add up to the user's number of reports. */
  lemma {:induction false} FocusDistributionShape(rs: seq<Report>, user: Option<string>)
    ensures var rows := FocusDistributionOf(rs, user);
      && (forall i :: 0 <= i < |rows| ==> rows[i].value >= 1)
      && SumValues(rows) == |ForUser(rs, user)|
  {
    var mine := ForUser(rs, user);
    var dist := DiseaseDistributionOf(mine);
    DistributionCountsTheReports(mine);
    var rows := FocusDistributionOf(rs, user);
    SameValuesSameSum(dist, rows);
  }

  lemma {:induction false} SameValuesSameSum(a: seq<NameValue>, b: seq<NameValue>)
    requires |a| == |b| && forall i :: 0 <= i < |a| ==> a[i].value == b[i].value
    ensures SumValues(a) == SumValues(b)
    decreases |a|
  {
    if a != [] {
      SameValuesSameSum(a[..|a| - 1], b[..|b| - 1]);
    }
  }

  // ---------------------------------------------------------------------------------------------
  // Totals

  /** The "Compounds Analyzed" and "Targets Discovered" cards (lines 348 and 362). */
  function TotalCompounds(rs: seq<Report>): int {
    SumBy(rs, Compounds)
  }

  function TotalTargets(rs: seq<Report>): int {
    SumBy(rs, Targets)
  }

  /**
   * The totals agree with the per-disease records: the targets (compounds) over all diseases add up
   * to the total targets (compounds).
   */
  lemma {:induction false} TotalsAgreeWithGroups(rs: seq<Report>)
    ensures SumOverGroups(rs, DiseaseNames(rs), Compounds) == TotalCompounds(rs)
    ensures SumOverGroups(rs, DiseaseNames(rs), Targets) == TotalTargets(rs)
  {
    GroupsPartitionReports(rs, Compounds);
    GroupsPartitionReports(rs, Targets);
  }
}
