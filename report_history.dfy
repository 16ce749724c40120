/**
 * The state of src/components/ReportHistory.tsx: the report list, the loading flag and the selected
 * report, as a class whose methods are the component's handlers. The Supabase calls are
 * parameters: the answer the remote call settled with.
 */
module ReportHistory {
  import opened Js

  /** A stored report, as the history lists it. */
  datatype Report = Report(id: string, diseaseName: string, reportContent: string,
                           targetsCount: int, compoundsCount: int, createdAt: string)

  /** How the delete request settled: no error, or an error (returned or thrown) that the catch logs. */
  datatype DeleteAnswer = Deleted | DeleteFailed(error: Thrown)

  // ---------------------------------------------------------------------------------------------
  // The list and selection updates

  /** `reports.filter(r => r.id !== reportId)`. */
  function RemoveId(reports: seq<Report>, reportId: string): (kept: seq<Report>)
    ensures |kept| <= |reports|
    ensures forall i :: 0 <= i < |kept| ==> kept[i].id != reportId
  {
    Filter(reports, (r: Report) => r.id != reportId)
  }

  /** The selection after a successful delete: cleared when it was the deleted report. */
  function SelectionAfterDelete(selected: Option<Report>, reportId: string): (s: Option<Report>)
    ensures s.None? <==> selected.None? || selected.value.id == reportId
    ensures s.Some? ==> s == selected
  {
    if selected.Some? && selected.value.id == reportId then None else selected
  }

  /** `selectedReport?.id === report.id ? null : report`: the View / Hide button. */
  function Toggled(selected: Option<Report>, report: Report): (s: Option<Report>)
    ensures selected.Some? && selected.value.id == report.id ==> s.None?
    ensures !(selected.Some? && selected.value.id == report.id) ==> s == Some(report)
  {
    if selected.Some? && selected.value.id == report.id then None else Some(report)
  }

  /** The button's caption: 'Hide' for the selected report, 'View' for any other. */
  function ViewCaption(selected: Option<Report>, report: Report): (caption: string)
    ensures caption == "Hide" <==> selected.Some? && selected.value.id == report.id
  {
    if selected.Some? && selected.value.id == report.id then "Hide" else "View"
  }

  /** `data || []`: the rows the query returned, or none when it returned no data. */
  function FetchedRows(data: Option<seq<Report>>): (rows: seq<Report>)
    ensures data.Some? ==> rows == data.value
    ensures data.None? ==> rows == []
  {
    if data.Some? then data.value else []
  }

  // ---------------------------------------------------------------------------------------------
  // The component's state

  class ReportHistoryState {
    var reports: seq<Report>
    var isLoading: bool
    var selectedReport: Option<Report>

    /** The initial state: no reports, loading, nothing selected. */
    constructor()
      ensures reports == [] && isLoading && selectedReport == None
    {
      reports, isLoading, selectedReport := [], true, None;
    }

    /**
     * `fetchReports`: the rows replace the list (none when the query returned no data); a failed
     * query leaves the list as it was; loading ends on every path and the selection is untouched.
     */
    method FetchReports(answer: Result<Option<seq<Report>>>)
      modifies this
      ensures answer.Ok? ==> reports == FetchedRows(answer.value)
      ensures answer.Throw? ==> reports == old(reports)
      ensures !isLoading
      ensures selectedReport == old(selectedReport)
    {
      if answer.Ok? {
        reports := FetchedRows(answer.value);
      }
      isLoading := false;
    }

    /**
     * `deleteReport`: after a successful delete every report with that id is gone and the selection
     * is cleared iff it was the deleted report; a failed delete changes nothing.
     */
    method DeleteReport(reportId: string, answer: DeleteAnswer)
      modifies this
      ensures answer.Deleted? ==> reports == RemoveId(old(reports), reportId)
      ensures answer.Deleted? ==> selectedReport == SelectionAfterDelete(old(selectedReport), reportId)
      ensures answer.DeleteFailed? ==> reports == old(reports) && selectedReport == old(selectedReport)
      ensures isLoading == old(isLoading)
    {
      if answer.Deleted? {
        reports := RemoveId(reports, reportId);
        if selectedReport.Some? && selectedReport.value.id == reportId {
          selectedReport := None;
        }
      }
    }

    /** The View / Hide button of `report`. */
    method ToggleView(report: Report)
      modifies this`selectedReport
      ensures selectedReport == Toggled(old(selectedReport), report)
    {
      selectedReport := if selectedReport.Some? && selectedReport.value.id == report.id then None else Some(report);
    }
  }

  // ---------------------------------------------------------------------------------------------
  // Properties of the delete

  /** The reports that survive a delete are exactly those with another id. */
  lemma {:induction false} RemoveIdMembers(reports: seq<Report>, reportId: string, r: Report)
    ensures r in RemoveId(reports, reportId) <==> r in reports && r.id != reportId
  {
  }

  /** Every other report keeps all its occurrences; the deleted id keeps none. */
  lemma {:induction false} RemoveIdCounts(reports: seq<Report>, reportId: string, r: Report)
    ensures multiset(RemoveId(reports, reportId))[r] == if r.id != reportId then multiset(reports)[r] else 0
  {
    FilterCounts(reports, (x: Report) => x.id != reportId, r);
  }

  /** The survivors keep their order: deleting from a concatenation deletes from each part. */
  lemma {:induction false} RemoveIdKeepsOrder(a: seq<Report>, b: seq<Report>, reportId: string)
    ensures RemoveId(a + b, reportId) == RemoveId(a, reportId) + RemoveId(b, reportId)
  {
    FilterAppend(a, b, (x: Report) => x.id != reportId);
  }

  /** A list with no report of that id is unchanged by the delete. */
  lemma {:induction false} RemoveAbsentId(reports: seq<Report>, reportId: string)
    requires forall i :: 0 <= i < |reports| ==> reports[i].id != reportId
    ensures RemoveId(reports, reportId) == reports
    decreases |reports|
  {
    if reports != [] {
      RemoveAbsentId(reports[1..], reportId);
    }
  }

  /** Deleting the same id twice is deleting it once. */
  lemma {:induction false} RemoveIdIdempotent(reports: seq<Report>, reportId: string)
    ensures RemoveId(RemoveId(reports, reportId), reportId) == RemoveId(reports, reportId)
  {
    RemoveAbsentId(RemoveId(reports, reportId), reportId);
  }

  /** Clicking View twice on the same report returns to the selection before, when that was empty or this report. */
  lemma {:induction false} ToggleTwice(selected: Option<Report>, report: Report)
    requires selected.None? || selected == Some(report)
    ensures Toggled(Toggled(selected, report), report) == selected
  {
  }

  // ---------------------------------------------------------------------------------------------
  // The download filename

  /** `s.replace(/\s+/g, '_')`: every maximal run of whitespace becomes one underscore. */
  function Underscored(s: string): (u: string)
    ensures |u| <= |s|
    ensures forall i :: 0 <= i < |u| ==> !IsWhitespace(u[i])
    decreases |s|
  {
    if s == [] then []
    else if IsWhitespace(s[0]) then
      var rest := TrimStart(s);
      assert |rest| < |s|;
      "_" + Underscored(rest)
    else [s[0]] + Underscored(s[1..])
  }

  /** A name without whitespace is used as it is. */
  lemma {:induction false} UnderscoredWithoutWhitespace(s: string)
    requires forall i :: 0 <= i < |s| ==> !IsWhitespace(s[i])
    ensures Underscored(s) == s
    decreases |s|
  {
    if s != [] {
      UnderscoredWithoutWhitespace(s[1..]);
    }
  }

  /** Replacing the whitespace runs twice is replacing them once. */
  lemma {:induction false} UnderscoredIdempotent(s: string)
    ensures Underscored(Underscored(s)) == Underscored(s)
  {
    UnderscoredWithoutWhitespace(Underscored(s));
  }

  /** A run of whitespace, whatever its length, becomes a single underscore between its neighbours. */
  lemma {:induction false} RunBecomesOneUnderscore(a: string, run: string, b: string)
    requires a != [] && forall i :: 0 <= i < |a| ==> !IsWhitespace(a[i])
    requires run != [] && forall i :: 0 <= i < |run| ==> IsWhitespace(run[i])
    requires b != [] && !IsWhitespace(b[0])
    ensures Underscored(a + run + b) == a + "_" + Underscored(b)
    decreases |a|
  {
    if |a| == 1 {
      assert (a + run + b)[1..] == run + b;
      LeadingRunBecomesOneUnderscore(run, b);
    } else {
      assert (a + run + b)[1..] == a[1..] + run + b;
      RunBecomesOneUnderscore(a[1..], run, b);
      assert a == [a[0]] + a[1..];
    }
  }

  lemma {:induction false} LeadingRunBecomesOneUnderscore(run: string, b: string)
    requires run != [] && forall i :: 0 <= i < |run| ==> IsWhitespace(run[i])
    requires b != [] && !IsWhitespace(b[0])
    ensures Underscored(run + b) == "_" + Underscored(b)
  {
    TrimStartOfRun(run, b);
  }

  lemma {:induction false} TrimStartOfRun(run: string, b: string)
    requires forall i :: 0 <= i < |run| ==> IsWhitespace(run[i])
    requires b != [] && !IsWhitespace(b[0])
    ensures TrimStart(run + b) == b
    decreases |run|
  {
    var s := run + b;
    if run != [] {
      assert s[0] == run[0] && IsWhitespace(s[0]);
      assert s[1..] == run[1..] + b;
      assert TrimStart(s) == TrimStart(s[1..]);
      TrimStartOfRun(run[1..], b);
    } else {
      assert run + b == b;
    }
  }

  /** A calendar day in the browser's time zone, the day `new Date(created_at)` falls on. */
  datatype LocalDay = LocalDay(year: nat, month: nat, day: nat)

  /** The decimal digits of `n`, padded with zeros on the left to `width` characters. */
  function Padded(n: nat, width: nat): (ds: string)
    ensures |ds| == if |Digits(n)| < width then width else |Digits(n)|
  {
    var d := Digits(n);
    if |d| < width then seq(width - |d|, _ => '0') + d else d
  }

  lemma {:induction false} DigitsBelowTen(n: nat, k: nat)
    requires n < Pow10(k) && k >= 1
    ensures |Digits(n)| <= k
    decreases k
  {
    if n >= 10 {
      assert n / 10 < Pow10(k - 1);
      DigitsBelowTen(n / 10, k - 1);
    }
  }

  /** `format(date, 'yyyy-MM-dd')`. */
  function IsoDay(d: LocalDay): (s: string)
  {
    Padded(d.year, 4) + "-" + Padded(d.month, 2) + "-" + Padded(d.day, 2)
  }

  /** A day of the years 0-9999 is written in ten characters, dashes at positions 4 and 7. */
  lemma {:induction false} IsoDayShape(d: LocalDay)
    requires d.year <= 9999 && 1 <= d.month <= 12 && 1 <= d.day <= 31
    ensures |IsoDay(d)| == 10 && IsoDay(d)[4] == '-' && IsoDay(d)[7] == '-'
  {
    DigitsBelowTen(d.year, 4);
    DigitsBelowTen(d.month, 2);
    DigitsBelowTen(d.day, 2);
  }

  /** `${disease_name.replace(/\s+/g, '_')}_report_${format(created, 'yyyy-MM-dd')}.md`. */
  function DownloadFilename(r: Report, created: LocalDay): (name: string)
  {
    Underscored(r.diseaseName) + "_report_" + IsoDay(created) + ".md"
  }

  /**
   * The filename is the disease name with its whitespace runs replaced, then '_report_', the ISO
   * day and '.md'; the disease part holds no whitespace.
   */
  lemma {:induction false} DownloadFilenameShape(r: Report, created: LocalDay)
    ensures var name := DownloadFilename(r, created);
      var u := Underscored(r.diseaseName);
      && name[..|u|] == u
      && name[|u|..|u| + 8] == "_report_"
      && name[|u| + 8..|name| - 3] == IsoDay(created)
      && name[|name| - 3..] == ".md"
      && forall i :: 0 <= i < |u| ==> !IsWhitespace(name[i])
  {
  }
}
