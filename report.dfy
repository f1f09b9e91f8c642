/**
 * The report generator (generate_report.py): reading the raw data file back,
 * the `Analyzer` object with its load guard and its two analyses, the list of
 * report sections they append to, and the order in which the report shows them.
 */
module ReportGenerator {
  import opened Base
  import opened Text
  import opened LoadTest
  import opened Statistics

  /** Why the generator stops. */
  datatype AnalyzerError =
    | Usage            // wrong number of command-line arguments (generate_report.py:264-266)
    | NoRequests       // `load_data`'s guard: total_requests is null or 0 (generate_report.py:46-47)
    | MalformedData    // a row pandas cannot read into the six typed columns
    | EmptyData        // pandas refuses a data file with no rows at all
    | NotLoaded        // `analyze_latency` before `load_data` (generate_report.py:65-66)
    | NoDataFrame      // `analyze_requests_per_second` before `load_data`: `None.copy()` raises
    | NonFiniteStd     // one row: `describe()`'s std is NaN and `astype('int64')` raises (generate_report.py:86)

  // ---------------------------------------------------------------- reading data.csv

  /** One line of the data file read into the six typed columns (generate_report.py:49-57). */
  function ParseRow(line: string): Option<StatData>
  {
    var fields := Split(line, ',');
    if |fields| != 6 then None
    else
      match (ParseInt(fields[1]), ParseInt(fields[2]), ParseInt(fields[3]), ParseInt(fields[4]), ParseInt(fields[5]))
      case (Some(occ), Some(lookup), Some(request), Some(start), Some(end)) =>
        Some(StatData(fields[0], occ, lookup, request, start, end))
      case _ => None
  }

  /** A line without the `\r` of a CRLF line end, which the reader also accepts. */
  function TrimCR(line: string): (r: string)
    ensures '\r' !in line ==> r == line
  {
    if |line| > 0 && line[|line| - 1] == '\r' then line[..|line| - 1] else line
  }

  /** A line that `skip_blank_lines` drops: empty or made only of spaces. */
  predicate Blank(line: string)
  {
    forall i :: 0 <= i < |line| ==> line[i] == ' '
  }

  /** Every non-blank line read in order; one unreadable line fails the whole file. */
  function ParseLines(lines: seq<string>): Option<seq<StatData>>
  {
    if lines == [] then Some([])
    else
      var line := TrimCR(lines[0]);
      if Blank(line) then ParseLines(lines[1..])
      else
        match (ParseRow(line), ParseLines(lines[1..]))
        case (Some(r), Some(rest)) => Some([r] + rest)
        case _ => None
  }

  /** `pd.read_csv(..., header=None, names=..., dtype=...)` of the whole file. */
  function ParseFile(text: string): Option<seq<StatData>>
  {
    ParseLines(Split(text, '\n'))
  }

  lemma IntTextHasNoSeparators(i: int)
    ensures ',' !in IntToString(i) && '\n' !in IntToString(i) && '\r' !in IntToString(i)
  {
    var d := NatToString(if i < 0 then -i else i);
    assert IntToString(i) == (if i < 0 then "-" + d else d);
    assert forall k :: 0 <= k < |d| ==> IsDigit(d[k]);
  }

  /** Reading a written row gives the record back when its address is CSV-safe. */
  lemma RowRoundTrip(r: StatData)
    requires CsvSafe(r.ip)
    ensures ParseRow(RowText(r)) == Some(r)
  {
    var fields := RowFields(r);
    IntTextHasNoSeparators(r.occurences);
    IntTextHasNoSeparators(r.lookupDuration);
    IntTextHasNoSeparators(r.requestDuration);
    IntTextHasNoSeparators(r.startTime);
    IntTextHasNoSeparators(r.endTime);
    SplitJoin(fields, ',');
    ParseIntToString(r.occurences);
    ParseIntToString(r.lookupDuration);
    ParseIntToString(r.requestDuration);
    ParseIntToString(r.startTime);
    ParseIntToString(r.endTime);
  }

  /** A written row has no `\r` to trim and, holding a comma, is never blank. */
  lemma RowIsReadAsItself(r: StatData)
    requires CsvSafe(r.ip)
    ensures TrimCR(RowText(r)) == RowText(r) && !Blank(RowText(r))
  {
    var fields := RowFields(r);
    IntTextHasNoSeparators(r.occurences);
    IntTextHasNoSeparators(r.lookupDuration);
    IntTextHasNoSeparators(r.requestDuration);
    IntTextHasNoSeparators(r.startTime);
    IntTextHasNoSeparators(r.endTime);
    if '\r' in RowText(r) {
      CharOfJoin(fields, ',', '\r');
      assert false;
    }
    assert RowText(r) == fields[0] + [','] + Join(fields[1..], ',');
    assert RowText(r)[|fields[0]|] == ',';
  }

  lemma {:induction false} ParseRowLines(rs: seq<StatData>)
    requires forall i :: 0 <= i < |rs| ==> CsvSafe(rs[i].ip)
    ensures ParseLines(RowLines(rs) + [""]) == Some(rs)
  {
    if rs == [] {
      assert RowLines(rs) + [""] == [""];
    } else {
      var lines := RowLines(rs) + [""];
      assert lines == [RowText(rs[0])] + (RowLines(rs[1..]) + [""]);
      assert lines[1..] == RowLines(rs[1..]) + [""];
      RowIsReadAsItself(rs[0]);
      RowRoundTrip(rs[0]);
      ParseRowLines(rs[1..]);
      assert [rs[0]] + rs[1..] == rs;
    }
  }

  /**
   * The file the load test writes is read back record for record, in order,
   * whenever no address holds a comma, a quote or a line break
   * (main_test.go:242 against generate_report.py:49-57).
   */
  lemma FileRoundTrip(rs: seq<StatData>)
    requires forall i :: 0 <= i < |rs| ==> CsvSafe(rs[i].ip)
    ensures ParseFile(FormatFile(rs)) == Some(rs)
  {
    FileLines(rs);
    ParseRowLines(rs);
  }

  /** What `load_data` yields: the guard on the request total, then the typed rows. */
  function Load(totalRequests: Option<int>, csv: string): (r: Result<seq<StatData>, AnalyzerError>)
    ensures r == Err(NoRequests) <==> (totalRequests == None || totalRequests == Some(0))
    ensures r.Ok? ==> |r.value| > 0 && ParseFile(csv) == Some(r.value)
    ensures r.Err? && r.error != NoRequests ==>
      (r.error == MalformedData && ParseFile(csv).None?) || (r.error == EmptyData && ParseFile(csv) == Some([]))
  {
    if totalRequests.None? || totalRequests.value == 0 then Err(NoRequests)
    else
      match ParseFile(csv)
      case None => Err(MalformedData)
      case Some(rs) => if rs == [] then Err(EmptyData) else Ok(rs)
  }

  /**
   * A run written by the load test loads back exactly when some request was
   * counted and some request succeeded; the rows loaded are the ones written.
   */
  lemma LoadProducedRun(meta: MetaData, rs: seq<StatData>)
    requires forall i :: 0 <= i < |rs| ==> CsvSafe(rs[i].ip)
    requires meta.successfulRequests == |rs| && meta.failedRequests >= 0
    requires meta.totalRequests == meta.successfulRequests + meta.failedRequests
    ensures meta.totalRequests == 0 ==> Load(Some(meta.totalRequests), FormatFile(rs)) == Err(NoRequests)
    ensures meta.totalRequests != 0 && rs == [] ==> Load(Some(meta.totalRequests), FormatFile(rs)) == Err(EmptyData)
    ensures rs != [] ==> Load(Some(meta.totalRequests), FormatFile(rs)) == Ok(rs)
  {
    FileRoundTrip(rs);
  }

  // ---------------------------------------------------------------- the report

  /** The figures one analysis contributes. */
  datatype Summary = LatencySummary(latency: LatencyFigures) | ThroughputSummary(throughput: ThroughputFigures)

  /** One entry of the `graphs` list (generate_report.py:152-157, 198-203); the chart is its figures. */
  datatype Section = Section(title: string, description: string, summary: Summary)

  function LatencySection(rs: seq<StatData>, f: Field, displayName: string, description: string): Section
    requires |rs| > 0
  {
    Section(displayName + " Analysis", description, LatencySummary(LatencyAnalysis(rs, f)))
  }

  function ThroughputSection(rs: seq<StatData>, description: string): Section
    requires |rs| > 0
  {
    Section("Requests Per Second Analysis", description, ThroughputSummary(ThroughputAnalysis(rs)))
  }

  /**
   * The run metadata the generator reads (generate_report.py:28-42), before
   * any date formatting; `totalRequests == None` stands for a JSON null.
   */
  datatype RunInfo = RunInfo(
    serverUrl: string,
    testStartTime: int,
    title: string,
    description: string,
    concurrentRequests: int,
    testDuration: int,
    totalRequests: Option<int>,
    successfulRequests: int,
    failedRequests: int)

  /** The report's opening card (generate_report.py:212-229). */
  datatype Header = Header(
    title: string,
    testStartTime: int,
    serverUrl: string,
    description: string,
    concurrentRequests: int,
    testDuration: int,
    totalRequests: Option<int>,
    successfulRequests: int,
    failedRequests: int)

  /** A section as the report shows it: its description card appears only when non-empty. */
  datatype RenderedSection = RenderedSection(title: string, description: Option<string>, summary: Summary)

  datatype Report = Report(header: Header, body: seq<RenderedSection>)

  function HeaderOf(info: RunInfo): Header
  {
    Header(info.title, info.testStartTime, info.serverUrl, info.description, info.concurrentRequests,
           info.testDuration, info.totalRequests, info.successfulRequests, info.failedRequests)
  }

  function RenderSection(s: Section): (r: RenderedSection)
    ensures r.title == s.title && r.summary == s.summary
    ensures r.description.Some? <==> s.description != ""
    ensures r.description.Some? ==> r.description.value == s.description
  {
    RenderedSection(s.title, if s.description != "" then Some(s.description) else None, s.summary)
  }

  /**
   * The `graphs` list. Python declares it on the class, so every `Analyzer`
   * appends to the same list; analyzers here are given the list they share.
   */
  class SectionList {
    var sections: seq<Section>

    constructor ()
      ensures sections == []
    {
      sections := [];
    }
  }

  class Analyzer {
    const dataPath: string
    const info: RunInfo
    const graphs: SectionList
    /** The loaded data frame, `None` until `LoadData` succeeds. */
    var df: Option<seq<StatData>>

    ghost predicate Valid()
      reads this
    {
      df.Some? ==> |df.value| > 0
    }

    /** `__init__` (generate_report.py:25-42); the metadata file's contents are passed in. */
    constructor (testUniqueName: string, info: RunInfo, graphs: SectionList)
      ensures Valid()
      ensures this.dataPath == "./performance_tests/" + testUniqueName + "/"
      ensures this.info == info && this.graphs == graphs && df == None
    {
      dataPath := "./performance_tests/" + testUniqueName + "/";
      this.info := info;
      this.graphs := graphs;
      df := None;
    }

    /** `load_data` (generate_report.py:45-60); the data file's text is passed in. */
    method LoadData(csv: string) returns (err: Option<AnalyzerError>)
      requires Valid()
      modifies this`df
      ensures Valid()
      ensures err.None? <==> Load(info.totalRequests, csv).Ok?
      ensures err.Some? ==> err.value == Load(info.totalRequests, csv).error && df == old(df)
      ensures err.None? ==> df == Some(Load(info.totalRequests, csv).value)
    {
      if info.totalRequests.None? || info.totalRequests.value == 0 {
        return Some(NoRequests);
      }
      var rows := ParseFile(csv);
      if rows.None? {
        return Some(MalformedData);
      }
      if rows.value == [] {
        return Some(EmptyData);
      }
      df := rows;
      err := None;
    }

    /**
     * `analyze_latency` (generate_report.py:64-157): one section for `f`
     * appended to `graphs`. pandas' sample standard deviation of a single
     * value is NaN, so with one row the integer cast of the summary raises
     * before anything is appended.
     */
    method AnalyzeLatency(f: Field, displayName: string, description: string) returns (err: Option<AnalyzerError>)
      requires Valid()
      modifies graphs
      ensures df.None? ==> err == Some(NotLoaded) && graphs.sections == old(graphs.sections)
      ensures df.Some? && |df.value| == 1 ==> err == Some(NonFiniteStd) && graphs.sections == old(graphs.sections)
      ensures df.Some? && |df.value| > 1 ==>
        err == None && graphs.sections == old(graphs.sections) + [LatencySection(df.value, f, displayName, description)]
    {
      if df.None? {
        return Some(NotLoaded);
      }
      if |df.value| == 1 {
        return Some(NonFiniteStd);
      }
      graphs.sections := graphs.sections + [LatencySection(df.value, f, displayName, description)];
      err := None;
    }

    /** `analyze_requests_per_second` (generate_report.py:158-203): one section appended to `graphs`. */
    method AnalyzeRequestsPerSecond(description: string) returns (err: Option<AnalyzerError>)
      requires Valid()
      modifies graphs
      ensures df.None? ==> err == Some(NoDataFrame) && graphs.sections == old(graphs.sections)
      ensures df.Some? ==>
        err == None && graphs.sections == old(graphs.sections) + [ThroughputSection(df.value, description)]
    {
      if df.None? {
        return Some(NoDataFrame);
      }
      graphs.sections := graphs.sections + [ThroughputSection(df.value, description)];
      err := None;
    }

    /**
     * `create_test_report_html` (generate_report.py:209-251): the header card,
     * then one card per section in the order the sections were appended.
     */
    method CreateTestReportHtml() returns (report: Report)
      ensures report.header == HeaderOf(info)
      ensures |report.body| == |graphs.sections|
      ensures forall i :: 0 <= i < |graphs.sections| ==> report.body[i] == RenderSection(graphs.sections[i])
    {
      var body: seq<RenderedSection> := [];
      for i := 0 to |graphs.sections|
        invariant |body| == i
        invariant forall j :: 0 <= j < i ==> body[j] == RenderSection(graphs.sections[j])
      {
        body := body + [RenderSection(graphs.sections[i])];
      }
      report := Report(HeaderOf(info), body);
    }
  }

  const ThroughputDescription := "This represents the number of requests processed by the server per second."
  const LookupDescription := "This represents the lookup duration of the client's ip in the server. In this test, the server is storing the ip addresses in a hash table along with the number of requests made by this ip."
  const RequestDescription := "This represents the whole request duration from the moment the request is received by the server until the response is sent back to the client."

  /**
   * The sections of a complete report, in the script's order: throughput,
   * lookup duration, request duration. Only data of two rows or more gets
   * this far (see `AnalyzeAll`).
   */
  function ReportSections(rs: seq<StatData>): (sections: seq<Section>)
    requires |rs| > 1
    ensures |sections| == 3
  {
    [ThroughputSection(rs, ThroughputDescription)]
      + [LatencySection(rs, LookupDuration, "Lookup Duration", LookupDescription)]
      + [LatencySection(rs, RequestDuration, "Request Duration", RequestDescription)]
  }

  /**
   * The three analyses of the entry point (generate_report.py:271-287) on a
   * loaded analyzer. With a single row the first latency analysis raises,
   * after the throughput section was appended, and the script stops there.
   */
  method AnalyzeAll(analyzer: Analyzer) returns (err: Option<AnalyzerError>)
    requires analyzer.Valid() && analyzer.df.Some? && analyzer.graphs.sections == []
    modifies analyzer.graphs
    ensures |analyzer.df.value| == 1 ==>
      err == Some(NonFiniteStd) && analyzer.graphs.sections == [ThroughputSection(analyzer.df.value, ThroughputDescription)]
    ensures |analyzer.df.value| > 1 ==> err == None && analyzer.graphs.sections == ReportSections(analyzer.df.value)
  {
    ghost var rs := analyzer.df.value;
    err := analyzer.AnalyzeRequestsPerSecond(ThroughputDescription);
    assert analyzer.graphs.sections == [ThroughputSection(rs, ThroughputDescription)];
    err := analyzer.AnalyzeLatency(LookupDuration, "Lookup Duration", LookupDescription);
    if err.Some? {
      return;
    }
    err := analyzer.AnalyzeLatency(RequestDuration, "Request Duration", RequestDescription);
  }

  /**
   * The script's entry point (generate_report.py:263-289): check the
   * arguments, load, analyse throughput, lookup and request durations, and
   * build the report. The run's metadata and data file are passed in. Data
   * of a single row aborts in the latency analysis and no report is built.
   */
  method GenerateReport(args: seq<string>, info: RunInfo, csv: string) returns (r: Result<Report, AnalyzerError>)
    ensures |args| != 2 ==> r == Err(Usage)
    ensures |args| == 2 && Load(info.totalRequests, csv).Err? ==> r == Err(Load(info.totalRequests, csv).error)
    ensures |args| == 2 && Load(info.totalRequests, csv).Ok? && |Load(info.totalRequests, csv).value| == 1 ==>
      r == Err(NonFiniteStd)
    ensures |args| == 2 && Load(info.totalRequests, csv).Ok? && |Load(info.totalRequests, csv).value| > 1 ==>
      var sections := ReportSections(Load(info.totalRequests, csv).value);
      && r.Ok? && r.value.header == HeaderOf(info) && |r.value.body| == |sections|
      && forall i :: 0 <= i < |sections| ==> r.value.body[i] == RenderSection(sections[i])
  {
    if |args| != 2 {
      return Err(Usage);
    }
    var graphs := new SectionList();
    var analyzer := new Analyzer(args[1], info, graphs);
    var err := analyzer.LoadData(csv);
    if err.Some? {
      return Err(err.value);
    }
    ghost var rs := analyzer.df.value;
    assert rs == Load(info.totalRequests, csv).value;
    err := AnalyzeAll(analyzer);
    if err.Some? {
      return Err(err.value);
    }
    var report := analyzer.CreateTestReportHtml();
    r := Ok(report);
  }
}
