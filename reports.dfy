/** The reports page: the title search over the report list, the status
    label, the actions offered per status and the empty state. */
module Reports {
  import opened Seqs
  import opened Text

  datatype ReportType = Summary | Detailed | Executive | Compliance
  datatype ReportFormat = Pdf | Excel | Ppt
  datatype ReportStatus = Ready | Generating | Scheduled

  datatype Report = Report(
    id: string,
    title: string,
    kind: ReportType,
    format: ReportFormat,
    createdAt: string,
    createdBy: string,
    size: string,
    status: ReportStatus)

  const Report1: Report :=
    Report("1", "Q4 2025 Risk Summary Report", Summary, Pdf, "Dec 15, 2025", "John Doe", "2.4 MB", Ready)
  const Report2: Report :=
    Report("2", "Annual Risk Assessment 2025", Detailed, Pdf, "Dec 10, 2025", "Sarah Chen", "8.1 MB", Ready)
  const Report3: Report :=
    Report("3", "Executive Board Presentation", Executive, Ppt, "Dec 8, 2025", "Mike Johnson", "5.2 MB", Ready)
  const Report4: Report :=
    Report("4", "Compliance Audit Report", Compliance, Pdf, "Dec 5, 2025", "Lisa Wang", "3.7 MB", Ready)
  const Report5: Report :=
    Report("5", "Weekly Risk Dashboard Export", Summary, Excel, "Scheduled", "System", "—", Scheduled)

  const SampleReports: seq<Report> := [Report1, Report2, Report3, Report4, Report5]

  /** The lowercased title contains the lowercased query. */
  predicate MatchesTitle(r: Report, query: string) {
    Contains(Lower(r.title), Lower(query))
  }

  function TitleFn(query: string): Report -> bool {
    (r: Report) => MatchesTitle(r, query)
  }

  /** `filteredReports`. */
  function FilteredReports(reports: seq<Report>, query: string): seq<Report> {
    Filter(reports, TitleFn(query))
  }

  /** A report is listed iff its title matches; the list keeps the
      original order; an empty query lists every report. */
  lemma FilteredReportsSpec(reports: seq<Report>, query: string)
    ensures forall r :: r in FilteredReports(reports, query) <==> r in reports && MatchesTitle(r, query)
    ensures IsSubseq(FilteredReports(reports, query), reports)
    ensures FilteredReports(reports, "") == reports
  {
    forall r | r in reports && MatchesTitle(r, query) ensures r in FilteredReports(reports, query) {
      var k :| 0 <= k < |reports| && reports[k] == r;
      assert TitleFn(query)(reports[k]);
    }
    FilterIsSubseq(reports, TitleFn(query));
    forall k | 0 <= k < |reports| ensures TitleFn("")(reports[k]) {
      assert Lower("") == "";
      ContainsEmpty(Lower(reports[k].title));
    }
    FilterKeepsAll(reports, TitleFn(""));
  }

  /** The status badge's text. */
  function StatusLabel(s: ReportStatus): string {
    match s
    case Ready => "Ready"
    case Generating => "Generating..."
    case Scheduled => "Scheduled"
  }

  /** Different statuses never share a label. */
  lemma StatusLabelInjective(a: ReportStatus, b: ReportStatus)
    ensures StatusLabel(a) == StatusLabel(b) <==> a == b
  {
    if a != b {
      assert StatusLabel(a)[0] != StatusLabel(b)[0] || |StatusLabel(a)| != |StatusLabel(b)|;
    }
  }

  datatype Action = View | Download | Share | Delete

  /** The buttons of one report's row, left to right. */
  function Actions(r: Report): (acts: seq<Action>)
    ensures Delete in acts
    ensures View in acts <==> r.status == Ready
    ensures Download in acts <==> r.status == Ready
    ensures Share in acts <==> r.status == Ready
    ensures acts[|acts| - 1] == Delete
  {
    (if r.status == Ready then [View, Download, Share] else []) + [Delete]
  }

  /** "No reports found" is shown exactly when the search lists nothing,
      that is, when no report's title matches. */
  predicate ShowsEmptyState(reports: seq<Report>, query: string) {
    |FilteredReports(reports, query)| == 0
  }

  lemma EmptyStateSpec(reports: seq<Report>, query: string)
    ensures ShowsEmptyState(reports, query) <==> forall r :: r in reports ==> !MatchesTitle(r, query)
    ensures reports != [] ==> !ShowsEmptyState(reports, "")
  {
    FilteredReportsSpec(reports, query);
    if !ShowsEmptyState(reports, query) {
      assert FilteredReports(reports, query)[0] in FilteredReports(reports, query);
    }
    FilteredReportsSpec(reports, "");
  }

  function StatusOf(r: Report): ReportStatus { r.status }

  /** Reports whose statuses read four times ready, then scheduled,
      count four ready and one scheduled. */
  lemma CountsOfOrder(reports: seq<Report>)
    requires Project(reports, StatusOf) == [Ready, Ready, Ready, Ready, Scheduled]
    ensures CountKey(reports, StatusOf, Ready) == 4
    ensures CountKey(reports, StatusOf, Scheduled) == 1
    ensures CountKey(reports, StatusOf, Generating) == 0
  {
    CountKeyMultiplicity(reports, StatusOf, Ready);
    CountKeyMultiplicity(reports, StatusOf, Scheduled);
    CountKeyMultiplicity(reports, StatusOf, Generating);
  }

  /** On the list: four ready reports and one scheduled, so the last row
      offers only delete. */
  lemma FixtureStatuses()
    ensures CountKey(SampleReports, StatusOf, Ready) == 4
    ensures CountKey(SampleReports, StatusOf, Scheduled) == 1
    ensures Actions(SampleReports[4]) == [Delete]
  {
    assert Project(SampleReports, StatusOf) == [Ready, Ready, Ready, Ready, Scheduled];
    CountsOfOrder(SampleReports);
  }
}
