# Load-test toolkit: counter server, load client, report generator and run index

This project models a small load-testing toolkit in Dafny, with a proof for each part.

- **Counter server** (`main.go`). A web server answers every request with the address the client put in its `IP_ADR` header, how often that address was seen before, and how long the lookup in its hash table took. The load client puts a random address in that header on every request. It can also report the most frequent address and clear the table.
- **Load client** (`main_test.go`). A Go test drives the server and collects one event record per answered request. It writes the records to `data.csv` (six columns, no header) and writes a `metadata.json` with the run's counters.
- **Report generator** (`generate_report.py`). It loads the event log and buckets it into one-second windows. It summarises throughput and two latency fields: the integer `describe()` summary converted to milliseconds, and the extremes tagged with the first client that attained them. The sections are rendered in the order they were appended.
- **Run index** (`reindex.py`). It lists the run folders newest first. It keeps those that have both a metadata file and a report, and emits one link card per kept folder.

Modules:

- `Base` (base.dfy): the `Option` and `Result` wrappers, truncation toward zero, and the first position of a value in a sequence.
- `Text` (text.dfy): decimal rendering and parsing of integers, and splitting and joining on a separator character.
- `LoadTest` (main_test.go): the event record and the CSV file the client writes, the metadata record, the sequential request loop and the random client address.
- `IpCounter` (main.go): the server's table as a class whose map field is updated in place.
- `Statistics` (generate_report.py, pure part): one-second buckets, the `describe()` summary with linearly interpolated quartiles, and the latency and throughput figures.
- `ReportGenerator` (generate_report.py, stateful part): reading the CSV back, the `Analyzer` class with its shared list of sections, and the entry point.
- `RunIndex` (reindex.py): the stable newest-first sort done in place on an array, and the card loop.

All timestamps and durations are integers of nanoseconds. Ratios the Python code computes in floating point are exact reals here. Where the code truncates, the truncation is written out explicitly (`Base.Truncate`, `LoadTest.GoQuotient`).

## Model

| member | source | states |
|---|---|---|
| Base.Truncate | generate_report.py:86 | `astype('int64')` rounds toward zero: the result is the integer between the value and zero within distance less than one |
| Base.TruncateMonotone | generate_report.py:86 | truncation toward zero never reverses the order of two values |
| Base.TruncateOfInteger | generate_report.py:86 | truncating a value that is already an integer gives it back |
| Base.IndexOf | generate_report.py:90 | the position found holds the value and no earlier position does: the first row `iloc[0]` picks, and the first separator a split stops at |
| Text.NatToString | main_test.go:242 | the `%d` rendering of a natural number is a non-empty run of digits with no leading zero |
| Text.DigitsValueOfNatToString | main_test.go:242 | reading the digits of a rendered natural number gives the number back |
| Text.IntToString | main_test.go:242 | `%d` of an integer; its contract states only that the text is non-empty. Its definition writes a minus sign before the digits of a negative number, and `Text.ParseIntToString` proves that the text reads back as the integer |
| Text.ParseInt | generate_report.py:49-57 | an integer field is accepted only when it is a non-empty run of digits, optionally after one `-` or `+` sign, and it reads as its signed decimal value |
| Text.ParseIntToString | generate_report.py:49-57 | reading back any integer written with `%d`, negative ones included, gives the same integer |
| Text.Split | generate_report.py:57 | splitting always gives at least one field, and no field contains the separator |
| Text.SplitCons | generate_report.py:57 | a leading separator-free field followed by the separator splits off as the first field |
| Text.SplitJoin | main_test.go:242 | joining separator-free fields and splitting the result on the separator gives the same fields |
| Text.JoinSplit | generate_report.py:57 | splitting a text and joining the pieces with the same separator rebuilds the text |
| Text.CharOfJoin | main_test.go:242 | every character of a joined row is the separator or comes from one of the fields |
| LoadTest.FormatFileAppend | main_test.go:240-246 | writing one more record appends exactly its line and a newline to the file |
| LoadTest.RowText | main_test.go:242 | one row is the six fields `ip,occurences,lookup,request,start,end` joined by commas; `ReportGenerator.RowRoundTrip` reads it back |
| LoadTest.FormatFile | main_test.go:240-246 | the file is every record's row followed by a newline, in slice order; `LoadTest.FileLines` splits it back into those rows |
| LoadTest.WriteRawDataToFile | main_test.go:226-249 | the loop writes exactly the lines `ip,occurences,lookup,request,start,end` followed by a newline, one per record, in record order |
| LoadTest.RowHasNoNewline | main_test.go:242 | a record whose address has no newline is written as a single line |
| LoadTest.FileLines | main_test.go:240-246 | the file written for the records splits on newlines into one line per record, in order, followed by an empty tail |
| LoadTest.Sanitize | main_test.go:84 | every space of the run name becomes an underscore, every other character is kept, and no space is left |
| LoadTest.OutputFolder | main_test.go:85 | the run writes into `performance_tests/<sanitised name>/`, so its folder name holds no space (`LoadTest.Sanitize`) |
| LoadTest.DurationSecondsRoundTrip | main_test.go:259 | a duration given as whole seconds comes back as the same number of seconds in `test_duration` |
| LoadTest.DurationSeconds | main_test.go:259 | `Duration.Seconds()`: the Go quotient by 10^9 plus the remainder as a fraction; `LoadTest.DurationSecondsRoundTrip` shows whole seconds come back |
| LoadTest.WriteMetaDataToFile | main_test.go:251-264 | total = successful + failed, successful = the number of recorded latencies, and each other field is copied from the run configuration |
| LoadTest.ServedOutcomes | main_test.go:137-161 | only answered requests produce records, never more than were issued |
| LoadTest.ServedAppend | main_test.go:137-161 | a new outcome adds one record when answered and one failure when the send failed; a decode failure adds neither |
| LoadTest.StatItem | main_test.go:154-161 | the record of an answered request takes the server's address, count and lookup time, the measured latency and the request's start, and the run's end as its end time |
| LoadTest.CollectResults | main_test.go:107-175 | one record and one latency per answered request, in order; the record's end time is the end of the run; the failures counted are the send failures |
| LoadTest.FinishRun | main_test.go:107-190 | the metadata counts agree with the records written to `data.csv`, and decode failures are counted nowhere |
| LoadTest.ParseDottedQuad | main_test.go:207-218 | a parsed address has four octets, each between 0 and 255 |
| LoadTest.DottedQuad | main_test.go:218 | `net.IP.String` of four bytes: their decimal texts joined by dots; `LoadTest.DottedQuadRoundTrip` parses it back |
| LoadTest.DottedQuadRoundTrip | main_test.go:207-218 | the dotted form of four octets parses back to those octets |
| LoadTest.DottedQuadIsCsvSafe | main_test.go:207-218 | a generated address is non-empty and contains no comma, newline or other character the CSV reader would split on |
| LoadTest.GenerateRandomIP | main_test.go:207-218 | the four draws below 256 become exactly `DottedQuad` of the draws, the dotted-decimal text with no leading zeros. That text parses back to the draws and is safe in a CSV row |
| IpCounter.Occurrences | main.go:46-97 | an address has been seen before exactly when it is in the call history, and never more often than there are calls |
| IpCounter.IpTable.CountsPositive | main.go:46-97 | every address stored in the table has a count of at least one |
| IpCounter.IpTable.constructor | main.go:13-22 | the table starts empty |
| IpCounter.IpTable.CheckIP | main.go:46-97 | a new address is stored with count 1 and answered with 0; a known one is incremented and answered with its previous count; the answer equals the earlier calls from that address; no other entry changes |
| IpCounter.IpTable.ReturnHashMapStats | main.go:99-115 | an empty table gives `""` and 0; otherwise the result is a stored address whose count no other entry exceeds |
| IpCounter.IpTable.ClearHashMap | main.go:117-121 | the table is empty again |
| Statistics.Min | generate_report.py:86-91 | the minimum is one of the values and no value is smaller |
| Statistics.Max | generate_report.py:99-101 | the maximum is one of the values and no value is larger |
| Statistics.SumBounds | generate_report.py:86 | the sum of n values between lo and hi lies between n·lo and n·hi |
| Statistics.MeanBetweenExtremes | generate_report.py:86 | a mean lies between the minimum and the maximum |
| Statistics.Mean | generate_report.py:86 | the exact arithmetic mean, sum over count, before truncation; `Statistics.MeanBetweenExtremes` bounds it |
| Statistics.Insert | generate_report.py:86 | inserting into an ascending sequence keeps it ascending and adds exactly the one value |
| Statistics.SortAscending | generate_report.py:86 | the quartiles are taken over an ascending permutation of the column |
| Statistics.AscendingEnds | generate_report.py:86 | an ascending permutation starts with the minimum and ends with the maximum |
| Statistics.SortedEnds | generate_report.py:86 | the sorted column starts at the minimum and ends at the maximum |
| Statistics.DivisionOfProductBounds | generate_report.py:103-110 | the quantile position (n-1)·q never passes the last index, and a fractional position has a successor |
| Statistics.InterpolateBetween | generate_report.py:103-110 | linear interpolation lies between the two neighbouring sorted values |
| Statistics.InterpolateMonotone | generate_report.py:103-110 | on sorted values, a later position never interpolates to a smaller value |
| Statistics.PositionsOrdered | generate_report.py:103-110 | a larger quantile never falls at an earlier position |
| Statistics.QuantileMonotone | generate_report.py:103-110 | on sorted values, quantiles are monotone in the requested fraction |
| Statistics.QuantileEnds | generate_report.py:86-110 | quantile 0 is the first sorted value and quantile 1 the last |
| Statistics.Quantile | generate_report.py:86 | pandas' linear interpolation at position (n-1)·q of the sorted values; ordered by `Statistics.QuantileMonotone` and `Statistics.QuantileEnds` |
| Statistics.Describe | generate_report.py:86 | `describe().astype('int64')` without the std: count, mean and quartiles truncated to whole nanoseconds, min and max; ordered by `Statistics.DescribeOrdered` |
| Statistics.DescribeOrdered | generate_report.py:86-110 | in the integer summary, min ≤ 25% ≤ 50% ≤ 75% ≤ max and min ≤ mean ≤ max |
| Statistics.SecondOfBounds | generate_report.py:73 | a timestamp falls in the one-second bin that starts at its floor second |
| Statistics.BucketCount | generate_report.py:162-167 | the resampled index has at least one row |
| Statistics.Offset | generate_report.py:165-167 | each record's elapsed-seconds index is the distance of its bin from the first bin, inside the index range |
| Statistics.OffsetsReachBothEnds | generate_report.py:162-167 | the index runs from the first record's second to the last record's second: both ends hold a record |
| Statistics.RequestsPerSecond | generate_report.py:160-167 | `resample('1S').count()` has one row per second from the first bin to the last |
| Statistics.CountsFrom | generate_report.py:162 | row k counts the records whose start time falls in second first + k |
| Statistics.MeanPerSecond | generate_report.py:73 | `resample('1S').agg(mean)`: one entry per second from the first bin to the last, missing for an empty second; see `Statistics.EmptyBucketHasNoMean` |
| Statistics.CountInPositive | generate_report.py:162 | a one-second bin is non-empty exactly when some record starts in that second |
| Statistics.CountBetweenStep | generate_report.py:162 | extending a range of seconds by one adds that second's count |
| Statistics.CountBetweenAll | generate_report.py:162 | a range of seconds containing every record counts every record |
| Statistics.CountsPrefixSum | generate_report.py:160-167 | the first m rows of the per-second counts add up to the records starting in those m seconds |
| Statistics.SumOfRequestsPerSecond | generate_report.py:160-167 | the per-second counts add up to the number of records |
| Statistics.RecordBucketsOccupied | generate_report.py:160-167 | every record's second has a count of at least one, including the first and the last row |
| Statistics.EmptyBucketHasNoMean | generate_report.py:73 | the mean of a bin is missing (NaN) exactly when no record falls in that second |
| Statistics.SumInBounds | generate_report.py:73 | a bin's sum of n values between lo and hi lies between n·lo and n·hi |
| Statistics.BucketMeanWithinExtremes | generate_report.py:73-79 | every present per-second mean lies between the column's minimum and maximum |
| Statistics.MillisExact | generate_report.py:79-110 | milliseconds are an exact division by 1,000,000, so 1,000,000 ns is 1.0 ms |
| Statistics.MillisMonotone | generate_report.py:79-110 | converting to milliseconds keeps the order of two durations |
| Statistics.Millis | generate_report.py:79 | the division by 1,000,000 applied to every reported figure; `Statistics.MillisExact` |
| Statistics.LatencyFiguresOrdered | generate_report.py:64-110 | the reported min, quartiles, mean and max are ordered as in the integer summary |
| Statistics.LatencyAnalysisExtremes | generate_report.py:89-101 | the reported min and max are the column's extremes in milliseconds, tagged with the first row holding each |
| Statistics.ColumnBounds | generate_report.py:89-101 | every value of the column, in milliseconds, lies between the reported extremes |
| Statistics.FirstExtremes | generate_report.py:89-100 | the tagged row holds the extreme and every earlier row differs from it strictly |
| Statistics.LatencyExtremes | generate_report.py:86-101 | every request lies between the reported min and max; each extreme is attained, and its address is that of the first request attaining it |
| Statistics.LatencyPerSecondWithinExtremes | generate_report.py:69-79 | the chart has one point per second; a point is missing exactly when the second is empty; any present point lies between the reported min and max |
| Statistics.ThroughputFiguresFacts | generate_report.py:158-175 | one count per second; the mean rate is records over seconds and lies between the smallest and the largest count; the busiest second has at least one request |
| Statistics.LatencyAnalysis | generate_report.py:69-110 | the per-second means and the summary figures in milliseconds, with the addresses of the first rows holding the extremes; proved by the lemmas above |
| Statistics.ThroughputAnalysis | generate_report.py:159-175 | the per-second counts with their exact mean, min and max; see `Statistics.ThroughputFiguresFacts` |
| Statistics.ThreeRequestExample | generate_report.py:64-110 | requests of 1, 2 and 3 ms give a mean of 2.0 ms, a min of 1.0 ms from the first client and a max of 3.0 ms from the last |
| ReportGenerator.IntTextHasNoSeparators | generate_report.py:57 | a written integer contains neither a comma nor a newline |
| ReportGenerator.ParseRow | generate_report.py:49-57 | a line is read only when it has exactly six comma-separated fields and the last five are integers; the first is the address |
| ReportGenerator.TrimCR | generate_report.py:57 | a CRLF line end is accepted: a trailing carriage return is dropped, and a line without one is left as it is |
| ReportGenerator.ParseFile | generate_report.py:57 | the file's lines are read in order, each without a trailing carriage return. Empty and space-only lines are skipped, and one unreadable line fails the file; `ReportGenerator.FileRoundTrip` |
| ReportGenerator.RowIsReadAsItself | main_test.go:242 | a written row has no carriage return to drop and is never blank, so the reader parses it as written |
| ReportGenerator.RowRoundTrip | generate_report.py:49-57 | a row written by the client reads back as the same record |
| ReportGenerator.ParseRowLines | generate_report.py:57 | the client's lines plus the empty tail read back as the same records, in order |
| ReportGenerator.FileRoundTrip | generate_report.py:57 | `read_csv` of the file `writeRawDataToFile` wrote gives back the same records in the same order |
| ReportGenerator.Load | generate_report.py:45-60 | loading fails with "total requests is 0" exactly when that count is JSON null (`None` here) or zero; otherwise it fails on malformed or empty data, or yields the non-empty parsed records |
| ReportGenerator.LoadProducedRun | generate_report.py:45-60 | for a run the client finished: zero requests is refused, all-failed requests leave an empty file that is refused, and otherwise exactly the written records are loaded |
| ReportGenerator.RenderSection | generate_report.py:231-245 | a section is rendered with its title and summary, and its description box appears exactly when the description is non-empty |
| ReportGenerator.LatencySection | generate_report.py:152-157 | a latency section is titled `<display name> Analysis`, keeps the description and holds `Statistics.LatencyAnalysis` of its column |
| ReportGenerator.ThroughputSection | generate_report.py:198-203 | the throughput section is titled "Requests Per Second Analysis", keeps the description and holds `Statistics.ThroughputAnalysis` |
| ReportGenerator.HeaderOf | generate_report.py:212-229 | the header card shows the run's title, start time, server URL, description and counters |
| ReportGenerator.SectionList.constructor | generate_report.py:24 | the shared list of sections starts empty |
| ReportGenerator.Analyzer.constructor | generate_report.py:25-42 | the data path is `./performance_tests/<name>/`, the run's metadata is kept, and no data is loaded yet |
| ReportGenerator.Analyzer.LoadData | generate_report.py:45-60 | succeeds exactly when `Load` does, keeping its records; on failure reports `Load`'s error and leaves the data unloaded |
| ReportGenerator.Analyzer.AnalyzeLatency | generate_report.py:64-157 | without data it fails with "data was not loaded"; with one row the integer cast of the NaN standard deviation fails; in both cases nothing is appended; otherwise it appends exactly one latency section titled "<name> Analysis" |
| ReportGenerator.Analyzer.AnalyzeRequestsPerSecond | generate_report.py:158-203 | without data it fails and appends nothing; otherwise it appends exactly one throughput section |
| ReportGenerator.Analyzer.CreateTestReportHtml | generate_report.py:209-251 | the report has the run's header, then one rendered card per section, in the order the sections were appended |
| ReportGenerator.ReportSections | generate_report.py:271-287 | the three sections of a complete report, for data of at least two rows; its contract fixes their number |
| ReportGenerator.AnalyzeAll | generate_report.py:271-287 | with one row only the throughput section is appended and the lookup analysis fails; otherwise throughput, then lookup duration, then request duration are appended, each with its description |
| ReportGenerator.GenerateReport | generate_report.py:263-289 | a wrong argument count is a usage error; a load failure is passed on; data of one row fails in the latency analysis and no report is built; otherwise the report holds the header and the three sections rendered in order |
| RunIndex.Get | reindex.py:36-46 | `metadata.get(key, 'N/A')` returns the stored value, or "N/A" when the key is absent |
| RunIndex.InsertionPoint | reindex.py:22 | a folder goes after every folder that is at least as new, and before the first older one |
| RunIndex.WithMtimeMembers | reindex.py:22 | the folders sharing a modification time are exactly those with that time |
| RunIndex.InsertKeepsOrder | reindex.py:22 | inserting at the insertion point keeps a newest-first order |
| RunIndex.SortedNewestFirst | reindex.py:22 | the sorted listing has non-increasing modification times |
| RunIndex.SortIsPermutation | reindex.py:22 | sorting keeps exactly the same folders |
| RunIndex.SortNewestFirst | reindex.py:22 | the reference newest-first sort: each listed folder is inserted after the placed ones at least as new; `RunIndex.SortedNewestFirst`, `RunIndex.SortIsPermutation`, `RunIndex.SortIsStable` |
| RunIndex.InsertAdds | reindex.py:22 | inserting adds exactly the one folder |
| RunIndex.WithMtimeAppend | reindex.py:22 | the folders of one modification time in a concatenation are those of each part, in order |
| RunIndex.WithMtimeNone | reindex.py:22 | a listing with only older folders has none of the given time |
| RunIndex.WithMtimeSplice | reindex.py:22 | placing one folder between two listings places it in the same spot among the folders of its time |
| RunIndex.OlderAfterInsertionPoint | reindex.py:22 | in a newest-first listing, everything from the insertion point on is strictly older |
| RunIndex.StableSplice | reindex.py:22 | a folder inserted before strictly older ones comes last among the folders of its time |
| RunIndex.InsertStable | reindex.py:22 | inserting keeps the existing order of equally new folders and puts the new one after them |
| RunIndex.SortIsStable | reindex.py:22 | `sort(reverse=True)` is stable: folders with the same modification time keep their listing order |
| RunIndex.InsertionPointUnique | reindex.py:22 | the insertion point is the only position with newer-or-equal folders before it and older ones after it |
| RunIndex.ShiftedIsInsert | reindex.py:22 | a listing shifted right from a position, with the folder put in the gap, is the insertion |
| RunIndex.ShiftOlder | reindex.py:22 | older folders are moved one slot right, and the slot left free lies after every folder at least as new |
| RunIndex.InsertAt | reindex.py:22 | one step of the sort: the prefix becomes the insertion of the next folder, and the rest is untouched |
| RunIndex.SortFolders | reindex.py:21-22 | the array ends up as the newest-first stable sort of the listing |
| RunIndex.CardOf | reindex.py:31-74 | a card is built exactly when `test_start_time` is a number, and its start is that number divided by 10^9; its link is `./<folder>/report.html`; name, URL, concurrency and duration are `metadata.get(key, 'N/A')`; otherwise the division fails and names the folder |
| RunIndex.IndexCardsStep | reindex.py:24-74 | one more folder leaves the result alone if it is skipped or an error already occurred, fails on a bad start time, and otherwise appends its card |
| RunIndex.IndexCards | reindex.py:24-74 | the card loop over the visiting order: skipped folders add nothing, the first bad start time ends it with an error; see `RunIndex.OneCardPerKeptFolder` |
| RunIndex.IndexCardsErrorSticks | reindex.py:24-74 | after the first failure the loop's result no longer changes |
| RunIndex.OneCardPerKeptFolder | reindex.py:24-74 | a successful index has exactly one card per folder with both files, in listing order |
| RunIndex.IndexFailsAtFirstBadStartTime | reindex.py:31-39 | indexing succeeds exactly when every kept folder has a numeric start time; otherwise it fails with the error of the first such folder |
| RunIndex.KeptFoldersMembers | reindex.py:31 | the kept folders are exactly the listed folders that have both a metadata file and a report |
| RunIndex.KeptFolders | reindex.py:31 | the folders with both files, in visiting order; `RunIndex.KeptFoldersMembers` |
| RunIndex.KeptFoldersNewestFirst | reindex.py:22-31 | skipping folders keeps the cards newest first |
| RunIndex.Reindex | reindex.py:14-95 | the index is the card loop run over the stable newest-first sort of the listing |

## Left out

- Charts, HTML markup, the Tailwind classes and `strftime` date formatting are left out. The model keeps the figures and the order of the sections and cards, not their textual layout.
- The standard deviations and the two-decimal rounding of the throughput figures (generate_report.py:96-97, 172-175) are left out. They need floating point, which is outside this model.
- `requests_per_second` in the metadata (main_test.go:263) is a float64 ratio and is not computed.
- Floating point in general is left out: `describe()` and the means are exact rationals here, then truncated where the code truncates. int64 overflow of timestamps is not modelled.
- Concurrency of the load client (goroutines, mutex, wait group and `time.Sleep`, main_test.go:99-178) is left out. The requests' outcomes arrive as a sequence, and the collector processes them in that order.
- HTTP transport, JSON encoding, file system calls, clocks, randomness and `print` are left out. Their results are parameters: the outcomes, the draws, the start time and the listing with modification times.
- Go's map iteration order in `returnHashMapStats` is not modelled. When counts tie, the model returns some address of maximal count.
- The server's HTTP handler wiring and `ListenAndServe` (main.go) are outside the table's behaviour and are left out.
- LoadTest.CollectResults: the records and the latencies are appended under two separate lock acquisitions (main_test.go:164-172), so in the source their orders can differ. The model takes them together, so `latencyResults[i]` is the latency of `statData[i]`.
- LoadTest.FinishRun: the source never waits for its workers. After `time.Sleep` (main_test.go:178) requests that began before the end are still running. `latencyResults` is read at main_test.go:181 and `statData` later at main_test.go:187, so `successful_requests` can be lower than the number of rows in `data.csv`. The model finishes every request before writing, so the two agree.
- Text.ParseInt: pandas also accepts spaces around an integer field. The model refuses them. The writer never emits them.
- ReportGenerator.ReportSections: its contract states only that there are three sections. Which analysis each holds is fixed by its definition and reaches the report through `ReportGenerator.GenerateReport`.
- `callPythonScript` (main_test.go:193) and the argument parsing `parseArg` (main_test.go:198-205) are left out. The run configuration is a parameter.
- ReportGenerator.ParseFile: the reader handles `\n` and `\r\n` line ends and skips empty and space-only lines. Other `read_csv` dialect features are not modelled: quoted fields, lone `\r` line ends and comment or NA markers.
- ReportGenerator.RowRoundTrip: stated only for addresses with no comma, newline, carriage return or double quote (`CsvSafe`). The CSV reader's quoting and its reading of an empty or `NA`-like address as a missing value are not modelled. Generated addresses are always safe (`LoadTest.DottedQuadIsCsvSafe`).
- The whitespace of the three triple-quoted descriptions (generate_report.py:272-286) is normalised. The leading and trailing whitespace is dropped. In the lookup description, the line break and indentation between its two sentences (generate_report.py:278-279) become one space. The words are kept.
- `generate_test_report_pdf` (generate_report.py:253-255) does nothing and is not modelled.
- In reindex.py, `test_unique_name` and `total_requests` are read but never shown (reindex.py:42, 46), so they are not part of a card.
- JSON values other than numbers and strings are not modelled. Dividing a string start time, including the "N/A" default, raises in Python; here it is the error `StartTimeNotNumber`.
- Modification times are integers here, where the code uses float seconds.
- Metadata files that are unreadable or malformed abort the script in the source and are not modelled.
- A metadata key that is missing altogether raises `KeyError` in `Analyzer.__init__` (generate_report.py:29-42). The model's `RunInfo` always holds every field. Only a JSON null `total_requests` reaches the `load_data` guard.
- Indexing skips folders that lack a report or metadata, but it stops with a `TypeError` when a kept run's `test_start_time` is missing or not a number (reindex.py:37-39). The model keeps that failure (`RunIndex.IndexFailsAtFirstBadStartTime`).
- The list of sections is a class attribute shared by every `Analyzer` (generate_report.py:24). The model passes one shared `SectionList` to each analyzer.
