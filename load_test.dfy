/**
 * The load-test driver (main_test.go) on the producer side of a run: the
 * records it collects, the raw data file and the metadata record it writes,
 * the folder name it derives and the client addresses it invents.
 */
module LoadTest {
  import opened Base
  import opened Text

  /** One answered request (main_test.go:54-61); durations and instants in nanoseconds. */
  datatype StatData = StatData(
    ip: string,
    occurences: int,
    lookupDuration: int,
    requestDuration: int,
    startTime: int,
    endTime: int)

  /** The body the server answers with (main_test.go:48-52). */
  datatype ResponseData = ResponseData(ip: string, lookupDuration: int, occurences: int)

  /**
   * What one iteration of a worker's request loop observed. A send error is
   * counted as a failed request; a body that does not decode ends that worker
   * without counting anything.
   */
  datatype Outcome =
    | Served(response: ResponseData, startTime: int, latency: int)
    | SendFailed
    | DecodeFailed

  // ---------------------------------------------------------------- raw data file

  /** The six comma-separated fields of a row, in the order they are written. */
  function RowFields(r: StatData): seq<string>
  {
    [r.ip, IntToString(r.occurences), IntToString(r.lookupDuration),
     IntToString(r.requestDuration), IntToString(r.startTime), IntToString(r.endTime)]
  }

  /** One row of the raw data file, without its newline. */
  function RowText(r: StatData): string
  {
    Join(RowFields(r), ',')
  }

  /** The whole raw data file: every record's row followed by a newline, in slice order. */
  function FormatFile(rs: seq<StatData>): string
  {
    if rs == [] then "" else RowText(rs[0]) + "\n" + FormatFile(rs[1..])
  }

  /** An address that a CSV reader takes back verbatim as one field of one line. */
  predicate CsvSafe(ip: string)
  {
    ',' !in ip && '\n' !in ip && '\r' !in ip && '"' !in ip
  }

  lemma {:induction false} FormatFileAppend(rs: seq<StatData>, r: StatData)
    ensures FormatFile(rs + [r]) == FormatFile(rs) + RowText(r) + "\n"
  {
    if rs == [] {
      assert rs + [r] == [r];
      assert FormatFile([r]) == RowText(r) + "\n" + FormatFile([]);
    } else {
      assert (rs + [r])[1..] == rs[1..] + [r];
      FormatFileAppend(rs[1..], r);
      assert (rs + [r])[0] == rs[0];
    }
  }

  /** Writes the raw data file (main_test.go:240-246); the file's text is returned. */
  method WriteRawDataToFile(statData: seq<StatData>) returns (contents: string)
    ensures contents == FormatFile(statData)
  {
    contents := "";
    for i := 0 to |statData|
      invariant contents == FormatFile(statData[..i])
    {
      FormatFileAppend(statData[..i], statData[i]);
      assert statData[..i + 1] == statData[..i] + [statData[i]];
      contents := contents + RowText(statData[i]) + "\n";
    }
    assert statData[..|statData|] == statData;
  }

  /** A row holds no line break when its address holds none. */
  lemma RowHasNoNewline(r: StatData)
    requires '\n' !in r.ip
    ensures '\n' !in RowText(r)
  {
    var fields := RowFields(r);
    if '\n' in RowText(r) {
      CharOfJoin(fields, ',', '\n');
      assert false;
    }
  }

  /** The rows of the records, in order. */
  function RowLines(rs: seq<StatData>): (lines: seq<string>)
    ensures |lines| == |rs|
  {
    if rs == [] then [] else [RowText(rs[0])] + RowLines(rs[1..])
  }

  /** The file splits into exactly one line per record, in order, and an empty last piece. */
  lemma {:induction false} FileLines(rs: seq<StatData>)
    requires forall i :: 0 <= i < |rs| ==> '\n' !in rs[i].ip
    ensures Split(FormatFile(rs), '\n') == RowLines(rs) + [""]
  {
    if rs != [] {
      var row, rest := RowText(rs[0]), FormatFile(rs[1..]);
      RowHasNoNewline(rs[0]);
      assert FormatFile(rs) == row + ['\n'] + rest;
      SplitCons(row, '\n', rest);
      FileLines(rs[1..]);
      assert [row] + (RowLines(rs[1..]) + [""]) == RowLines(rs) + [""];
    }
  }

  // ---------------------------------------------------------------- metadata

  /** The metadata record written next to the raw data (main_test.go:33-46), without the float rate. */
  datatype MetaData = MetaData(
    serverUrl: string,
    testUniqueName: string,
    testDisplayName: string,
    testDescription: string,
    folder: string,
    concurrentRequests: int,
    testDuration: int,
    totalRequests: int,
    successfulRequests: int,
    failedRequests: int,
    testStartTime: int)

  /** The run's settings taken from the command line and the clock (main_test.go:22-31, 78-97). */
  datatype RunConfig = RunConfig(
    serverUrl: string,
    concurrentRequests: int,
    durationSeconds: int,
    uniqueName: string,
    displayName: string,
    description: string,
    startTime: int)

  /** `strings.ReplaceAll(name, " ", "_")` (main_test.go:84). */
  function Sanitize(name: string): (r: string)
    ensures |r| == |name|
    ensures forall i :: 0 <= i < |name| ==> r[i] == (if name[i] == ' ' then '_' else name[i])
    ensures ' ' !in r
  {
    if name == [] then [] else [if name[0] == ' ' then '_' else name[0]] + Sanitize(name[1..])
  }

  /** The folder a run writes into (main_test.go:72, 85). */
  function OutputFolder(cfg: RunConfig): string
  {
    "performance_tests/" + Sanitize(cfg.uniqueName) + "/"
  }

  /** Go's integer division, which truncates toward zero. */
  function GoQuotient(a: int, b: int): int
    requires b > 0
  {
    if a >= 0 then a / b else -((-a) / b)
  }

  /** `time.Duration.Seconds()`: whole seconds plus the remaining nanoseconds as a fraction. */
  function DurationSeconds(d: int): real
  {
    var sec := GoQuotient(d, NanosPerSecond);
    sec as real + (d - sec * NanosPerSecond) as real / NanosPerSecond as real
  }

  /** `int(runDuration.Seconds())` recovers the whole-second argument the duration was built from. */
  lemma DurationSecondsRoundTrip(n: int)
    ensures Truncate(DurationSeconds(n * NanosPerSecond)) == n
  {
    var d := n * NanosPerSecond;
    if n >= 0 {
      assert d / NanosPerSecond == n;
    } else {
      assert (-d) / NanosPerSecond == -n;
    }
    assert GoQuotient(d, NanosPerSecond) == n;
    assert DurationSeconds(d) == n as real;
  }

  /** Fills the metadata record field by field (main_test.go:251-264). */
  method WriteMetaDataToFile(cfg: RunConfig, description: string, latencyResults: seq<int>, failedRequests: int)
    returns (meta: MetaData)
    ensures meta.totalRequests == |latencyResults| + failedRequests
    ensures meta.successfulRequests == |latencyResults|
    ensures meta.failedRequests == failedRequests
    ensures meta.totalRequests == meta.successfulRequests + meta.failedRequests
    ensures meta.testDuration == cfg.durationSeconds
    ensures meta.testUniqueName == Sanitize(cfg.uniqueName) && meta.folder == OutputFolder(cfg)
    ensures meta.testDescription == description && meta.testStartTime == cfg.startTime
    ensures meta.serverUrl == cfg.serverUrl && meta.testDisplayName == cfg.displayName
    ensures meta.concurrentRequests == cfg.concurrentRequests
  {
    var runDuration := cfg.durationSeconds * NanosPerSecond;
    meta := MetaData("", "", "", "", "", 0, 0, 0, 0, 0, 0);
    meta := meta.(serverUrl := cfg.serverUrl);
    meta := meta.(testUniqueName := Sanitize(cfg.uniqueName));
    meta := meta.(testDisplayName := cfg.displayName);
    meta := meta.(testDescription := description);
    meta := meta.(folder := OutputFolder(cfg));
    meta := meta.(concurrentRequests := cfg.concurrentRequests);
    DurationSecondsRoundTrip(cfg.durationSeconds);
    meta := meta.(testDuration := Truncate(DurationSeconds(runDuration)));
    meta := meta.(totalRequests := |latencyResults| + failedRequests);
    meta := meta.(successfulRequests := meta.totalRequests - failedRequests);
    meta := meta.(failedRequests := failedRequests);
    meta := meta.(testStartTime := cfg.startTime);
  }

  // ---------------------------------------------------------------- collecting results

  /** The outcomes that produced a record, in order. */
  function ServedOutcomes(outcomes: seq<Outcome>): (s: seq<Outcome>)
    ensures |s| <= |outcomes|
    ensures forall i :: 0 <= i < |s| ==> s[i].Served?
  {
    if outcomes == [] then []
    else if outcomes[0].Served? then [outcomes[0]] + ServedOutcomes(outcomes[1..])
    else ServedOutcomes(outcomes[1..])
  }

  /** How many sends failed. */
  function SendFailures(outcomes: seq<Outcome>): nat
  {
    if outcomes == [] then 0
    else (if outcomes[0].SendFailed? then 1 else 0) + SendFailures(outcomes[1..])
  }

  /** The record made from a served request (main_test.go:154-161); its end is the run's end. */
  function StatItem(o: Outcome, runEnd: int): (r: StatData)
    requires o.Served?
  {
    StatData(o.response.ip, o.response.occurences, o.response.lookupDuration,
             o.latency, o.startTime, runEnd)
  }

  lemma ServedAppend(outcomes: seq<Outcome>, o: Outcome)
    ensures ServedOutcomes(outcomes + [o]) == ServedOutcomes(outcomes) + (if o.Served? then [o] else [])
    ensures SendFailures(outcomes + [o]) == SendFailures(outcomes) + (if o.SendFailed? then 1 else 0)
  {
    if outcomes != [] {
      assert (outcomes + [o])[1..] == outcomes[1..] + [o];
    }
  }

  /**
   * The bookkeeping of the request loop (main_test.go:107-173) taken one
   * outcome at a time, as one interleaving of the workers' iterations.
   */
  method CollectResults(outcomes: seq<Outcome>, runStart: int, runDuration: int)
    returns (statData: seq<StatData>, latencyResults: seq<int>, failedRequests: nat)
    ensures |statData| == |latencyResults| == |ServedOutcomes(outcomes)|
    ensures forall i :: 0 <= i < |statData| ==>
      statData[i] == StatItem(ServedOutcomes(outcomes)[i], runStart + runDuration)
    ensures forall i :: 0 <= i < |statData| ==> statData[i].endTime == runStart + runDuration
    ensures forall i :: 0 <= i < |latencyResults| ==>
      latencyResults[i] == ServedOutcomes(outcomes)[i].latency == statData[i].requestDuration
    ensures failedRequests == SendFailures(outcomes)
  {
    var endTime := runStart + runDuration;
    statData, latencyResults, failedRequests := [], [], 0;
    for k := 0 to |outcomes|
      invariant |statData| == |latencyResults| == |ServedOutcomes(outcomes[..k])|
      invariant forall i :: 0 <= i < |statData| ==>
        statData[i] == StatItem(ServedOutcomes(outcomes[..k])[i], endTime)
      invariant forall i :: 0 <= i < |latencyResults| ==>
        latencyResults[i] == ServedOutcomes(outcomes[..k])[i].latency
      invariant failedRequests == SendFailures(outcomes[..k])
    {
      var o := outcomes[k];
      ServedAppend(outcomes[..k], o);
      assert outcomes[..k + 1] == outcomes[..k] + [o];
      match o {
        case Served(response, start, latency) =>
          statData := statData + [StatItem(o, endTime)];
          latencyResults := latencyResults + [latency];
        case SendFailed =>
          failedRequests := failedRequests + 1;
        case DecodeFailed =>
      }
    }
    assert outcomes[..|outcomes|] == outcomes;
  }

  /**
   * A whole run after the workers stop (main_test.go:180-190): the metadata
   * and the raw data file agree on how many requests succeeded.
   */
  method FinishRun(cfg: RunConfig, outcomes: seq<Outcome>, runStart: int)
    returns (meta: MetaData, csv: string, statData: seq<StatData>)
    ensures meta.successfulRequests == |statData| == |ServedOutcomes(outcomes)|
    ensures meta.failedRequests == SendFailures(outcomes)
    ensures meta.totalRequests == |ServedOutcomes(outcomes)| + SendFailures(outcomes)
    ensures csv == FormatFile(statData)
    ensures forall i :: 0 <= i < |statData| ==>
      statData[i].endTime == runStart + cfg.durationSeconds * NanosPerSecond
  {
    var latencyResults, failedRequests;
    statData, latencyResults, failedRequests :=
      CollectResults(outcomes, runStart, cfg.durationSeconds * NanosPerSecond);
    meta := WriteMetaDataToFile(cfg, cfg.description, latencyResults, failedRequests);
    csv := WriteRawDataToFile(statData);
  }

  // ---------------------------------------------------------------- client addresses

  /** Dotted-decimal text of a four-byte address (`net.IP.String`). */
  function DottedQuad(octets: seq<int>): string
    requires |octets| == 4 && forall i :: 0 <= i < 4 ==> 0 <= octets[i] < 256
  {
    Join([NatToString(octets[0]), NatToString(octets[1]), NatToString(octets[2]), NatToString(octets[3])], '.')
  }

  predicate IsOctetText(s: string)
  {
    |s| > 0 && AllDigits(s) && DigitsValue(s) < 256
  }

  /** Reads dotted-decimal text back into its four octets. */
  function ParseDottedQuad(s: string): (r: Option<seq<int>>)
    ensures r.Some? ==> |r.value| == 4 && forall i :: 0 <= i < 4 ==> 0 <= r.value[i] < 256
  {
    var parts := Split(s, '.');
    if |parts| == 4 && forall i :: 0 <= i < 4 ==> IsOctetText(parts[i])
    then Some([DigitsValue(parts[0]), DigitsValue(parts[1]), DigitsValue(parts[2]), DigitsValue(parts[3])])
    else None
  }

  lemma {:induction false} DottedQuadRoundTrip(octets: seq<int>)
    requires |octets| == 4 && forall i :: 0 <= i < 4 ==> 0 <= octets[i] < 256
    ensures ParseDottedQuad(DottedQuad(octets)) == Some(octets)
  {
    var parts := [NatToString(octets[0]), NatToString(octets[1]), NatToString(octets[2]), NatToString(octets[3])];
    forall i | 0 <= i < 4
      ensures '.' !in parts[i] && IsOctetText(parts[i]) && DigitsValue(parts[i]) == octets[i]
    {
      DigitsValueOfNatToString(octets[i]);
    }
    SplitJoin(parts, '.');
    assert Split(DottedQuad(octets), '.') == parts;
    assert [DigitsValue(parts[0]), DigitsValue(parts[1]), DigitsValue(parts[2]), DigitsValue(parts[3])] == octets;
  }

  /** Dotted-decimal text holds only digits and dots. */
  lemma DottedQuadIsCsvSafe(octets: seq<int>)
    requires |octets| == 4 && forall i :: 0 <= i < 4 ==> 0 <= octets[i] < 256
    ensures CsvSafe(DottedQuad(octets)) && |DottedQuad(octets)| > 0
  {
    var parts := [NatToString(octets[0]), NatToString(octets[1]), NatToString(octets[2]), NatToString(octets[3])];
    forall c | c in DottedQuad(octets)
      ensures c == '.' || IsDigit(c)
    {
      CharOfJoin(parts, '.', c);
      if c != '.' {
        var i :| 0 <= i < 4 && c in parts[i];
        var j :| 0 <= j < |parts[i]| && parts[i][j] == c;
        assert IsDigit(parts[i][j]);
      }
    }
  }

  /**
   * Builds a random client address from four draws of `rand.Int(256)`
   * (main_test.go:207-218); the draws are passed in.
   */
  method GenerateRandomIP(draws: seq<int>) returns (ip: string)
    requires |draws| == 4 && forall i :: 0 <= i < 4 ==> 0 <= draws[i] < 256
    ensures ip == DottedQuad(draws)
    ensures ParseDottedQuad(ip) == Some(draws)
    ensures CsvSafe(ip) && |ip| > 0
  {
    var octets := new int[4];
    for i := 0 to 4
      invariant forall j :: 0 <= j < i ==> octets[j] == draws[j]
    {
      octets[i] := draws[i] % 256;
    }
    assert octets[..] == draws;
    ip := DottedQuad(octets[..]);
    DottedQuadRoundTrip(draws);
    DottedQuadIsCsvSafe(draws);
  }
}
