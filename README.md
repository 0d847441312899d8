# Flow-log tagger: a Dafny model of `LogParser`

This project models the core of a small Java program. The program reads a lookup
table of `dstport,protocol,tag` rows and a comma-separated flow log. It then
counts two things:

- how often each tag occurs;
- how often each (destination port, protocol) pair occurs.

A flow whose pair is not in the lookup table gets the tag `"Untagged"`. Protocol
names are compared without regard to case, because the key lower-cases the
protocol when it is built.

The model has four modules:

- `JavaStrings` (`JavaStrings.dfy`) models the Java library calls the core relies
  on: `String.split(",")` (trailing empty fields are dropped), `trim`,
  `toLowerCase` and `Integer.parseInt`. It also proves their round trips, for
  example that splitting a joined row gives the fields back and that parsing a
  printed 32-bit integer gives the integer back.
- `Counters` (`Counters.dfy`) models the `put(k, getOrDefault(k, 0) + 1)` update
  on a frequency table, and the sum of a table's counts.
- `LogParser` (`LogParser.dfy`) holds the constants, the `FlowLogEntry` key, and
  the imperative `LoadLookupTable` method. The class `FlowLogCounts` holds the two
  count tables that `readFlowLog` fills in place, and its `ReadFlowLog` method
  loops over the flow-log lines. Each method is proved against a specification
  that works in two layers:
  - every line is parsed into a row value (`LookupRow`, `FlowRow`);
  - a fold over those rows (`BuildLookupTable`, `Aggregate`) gives the result.

  The properties of the program are proved as lemmas about those folds.
- `Scenarios` (`Scenarios.dfy`) holds worked cases. Three are stated on parsed
  rows: a two-entry lookup table, one tagged and one untagged flow, and a
  duplicate lookup key. One states that `(25, TCP)` and `(25, tcp)` are the
  same key. Two are stated on text lines joined from their fields, one lookup
  line and one flow line, each with a blank-padded field, read through the line
  parser.

Both inputs are given as sequences of lines, and the first line is the header.
A port field that `parseInt` rejects throws `NumberFormatException` in Java. The
model makes this an error result that carries the rejected text. In that case
`ReadFlowLog` leaves in place the counts it has already made, because the Java
maps passed in by the caller keep the increments made before the exception.

The layout constants `FLOWLOG_DSTPORT`, `FLOWLOG_PROTOCOL`, `VALID_FLOWLOG_LENGTH`,
`LOOKUP_DSTPORT`, `LOOKUP_PROTOCOL`, `LOOKUP_TAG` and `VALID_LOOKUP_ENTRY_LENGTH`
keep the names and values of lines 9-16 of `src/illumio/LogParser.java`;
`UNTAGGED` is the `"Untagged"` default of line 54. `Counters.CountOf` is
`getOrDefault(k, 0)` (lines 57 and 61); its properties are in the contract of
`Counters.Increment`.

A flow-log row with more than five fields is skipped, like one with fewer,
because the code compares `parts.length` with 5 exactly.

## Model

| member | source | states |
|---|---|---|
| LogParser.NewFlowLogEntry | src/illumio/LogParser.java:89-92 | definition of the constructor, no contract of its own: the port as given and the protocol lower-cased; `NewFlowLogEntryNormalizes` states its properties |
| LogParser.NewFlowLogEntryNormalizes | src/illumio/LogParser.java:89-92 | the constructed key keeps the port and holds the protocol equal to the given one up to case, with no upper-case letter left |
| LogParser.Equals | src/illumio/LogParser.java:95-100 | `equals` holds exactly when the two keys have the same port and the same stored protocol, i.e. are the same value |
| LogParser.NewFlowLogEntryEquality | src/illumio/LogParser.java:89-100 | two constructed keys are equal if and only if the ports are equal and the protocols differ at most in ASCII case |
| LogParser.NewFlowLogEntryLowered | src/illumio/LogParser.java:51-54 | lower-casing the protocol before building the key, as `readFlowLog` does, yields the same key as not doing so |
| LogParser.DataLines | src/illumio/LogParser.java:24 | the header line is dropped: an empty or header-only input has no data lines, and otherwise the header followed by the data lines is the input |
| LogParser.ParseLookupLine | src/illumio/LogParser.java:26-32 | a lookup line is skipped exactly when `split(",")` does not give three fields, and it is a port error exactly when it has three fields and the trimmed first one does not parse as an integer |
| LogParser.ParseLookupLineWritten | src/illumio/LogParser.java:26-32 | a row written as `port,protocol,tag`, each field padded on either side with blanks (a 32-bit port; comma-free protocol and tag with no blank of their own at either end; a non-empty last field), reads back as the entry for that key and tag, so each field is trimmed |
| LogParser.BuildLookupTable | src/illumio/LogParser.java:25-33 | definition of the table build, no contract of its own: the rows in order, skipped rows ignored, a later entry overwriting an earlier one, the first bad port aborting; the lemmas below state its properties |
| LogParser.LoadLookupTable | src/illumio/LogParser.java:19-36 | the loop's table equals the fold of the parsed data lines (header dropped, errors at the first bad port); a header-only or empty input gives the empty table |
| LogParser.BuildLookupTableAfterFailure | src/illumio/LogParser.java:29 | once a port fails to parse the build is aborted: later rows do not change the outcome |
| LogParser.BuildLookupTableSkips | src/illumio/LogParser.java:28 | a skipped row anywhere among the rows leaves the result as if it were absent |
| LogParser.LookupSkipsMalformedLine | src/illumio/LogParser.java:28 | a lookup line without exactly three fields leaves the table as if the line were not in the file |
| LogParser.BuildLookupTableFailsIffBadPort | src/illumio/LogParser.java:28-29 | the build fails if and only if some three-field row has a port that does not parse |
| LogParser.BuildLookupTableKeys | src/illumio/LogParser.java:25-33 | a key is in the built table if and only if some row sets it |
| LogParser.BuildLookupTableLastWriteWins | src/illumio/LogParser.java:32 | the tag stored for a key is the tag of the last row that sets that key |
| LogParser.ParseFlowLine | src/illumio/LogParser.java:46-51 | a flow line is skipped exactly when `split(",")` does not give five fields, and it is a port error exactly when it has five fields and the trimmed field 3 does not parse as an integer |
| LogParser.ParseFlowLineWritten | src/illumio/LogParser.java:46-51 | a five-field row with a 32-bit port in field 3 and a protocol in field 4, both padded on either side with blanks (all fields comma-free, the protocol with no blank of its own at either end, a non-empty last field), reads back as the key for that port and protocol, so both fields are trimmed |
| LogParser.ResolveTag | src/illumio/LogParser.java:54 | a known key resolves to its lookup tag and an unknown key to `"Untagged"` |
| LogParser.CountRecord | src/illumio/LogParser.java:53-61 | counting a record adds one to the count of its resolved tag and one to the count of its key, adds those two keys to the tables, and leaves every other count as it was |
| LogParser.AggregateStep | src/illumio/LogParser.java:49-61 | a step has an error after it exactly when the run had already failed or the row is a bad port |
| LogParser.Aggregate | src/illumio/LogParser.java:45-62 | definition of the run, no contract of its own: the steps applied to the rows in order from the given tables; the lemmas below state its properties |
| LogParser.AggregateNoDataLines | src/illumio/LogParser.java:43-45 | a flow log with no line after the header leaves the tables as they were and reports no error |
| LogParser.AggregateAfterFailure | src/illumio/LogParser.java:50 | once a flow port fails to parse, later rows do not change the tables or the error |
| LogParser.AggregateFailedAppend | src/illumio/LogParser.java:50 | a failed run followed by any further rows is the failed run |
| LogParser.AggregateConcat | src/illumio/LogParser.java:45-62 | when the first stretch of rows ends with no port error, reading two stretches in turn equals reading the second from the tables the first left |
| LogParser.AggregateOneLine | src/illumio/LogParser.java:46-61 | proof step: a run over one line is one step: skip, fail on the port text, or count the key |
| LogParser.AggregateReadsLine | src/illumio/LogParser.java:45-62 | proof step: the run up to and including line `i` is the run up to line `i` continued with line `i` |
| LogParser.AggregateStopsAtLine | src/illumio/LogParser.java:50 | proof step: a run that has failed by line `n` is the outcome of the whole flow log |
| LogParser.ParseFlowLinesAppend | src/illumio/LogParser.java:45-46 | proof step: the rows of two stretches of lines are the rows of the first followed by those of the second |
| LogParser.ParseFlowLinesSplitAt | src/illumio/LogParser.java:45-46 | proof step: the rows of the lines are the rows of any prefix followed by the rows of the rest |
| LogParser.ParseFlowLinesSnoc | src/illumio/LogParser.java:45-46 | proof step: reading one more line appends exactly that line's row |
| LogParser.AggregateSkips | src/illumio/LogParser.java:49 | a skipped flow row anywhere changes neither table |
| LogParser.AggregateSkipsMalformedLine | src/illumio/LogParser.java:49 | a flow line without exactly five fields leaves both tables as if the line were not in the file |
| LogParser.AggregateFailsIffBadPort | src/illumio/LogParser.java:49-50 | a run fails if and only if some five-field row has a port that does not parse |
| LogParser.AggregateStopsAtFirstBadPort | src/illumio/LogParser.java:50 | a failed run keeps the counts of the rows before the first bad port and reports that port's text |
| LogParser.AggregateConservesCounts | src/illumio/LogParser.java:45-62 | a run with no port error adds to the sum of each table exactly the number of five-field rows |
| LogParser.AggregateCountsKeys | src/illumio/LogParser.java:59-61 | for a run with no port error, each (port, protocol) count grows by the number of usable rows with that key, tagged or not, and a key appears exactly when it was seen |
| LogParser.AggregateCountsTags | src/illumio/LogParser.java:53-57 | for a run with no port error, each tag count grows by the number of usable rows whose key resolves to that tag, `"Untagged"` included |
| LogParser.FlowLogCounts.constructor | src/illumio/LogParser.java:117-118 | both count tables start empty |
| LogParser.FlowLogCounts.Count | src/illumio/LogParser.java:54-61 | one more for the resolved tag and one more for the key, nothing else changed |
| LogParser.FlowLogCounts.ReadFlowLine | src/illumio/LogParser.java:46-61 | one loop iteration changes the tables and reports the error exactly as the fold does for that one line |
| LogParser.FlowLogCounts.ReadFlowLog | src/illumio/LogParser.java:39-64 | the tables and the error after the loop equal the fold over the parsed data lines, starting from the tables passed in; with no line after the header the tables are unchanged and there is no error |
| JavaStrings.Split | src/illumio/LogParser.java:26 | `split(",")`: `""` gives `[""]`; otherwise a prefix of the raw split, no field holds a comma, and the last field is non-empty |
| JavaStrings.SplitJoin | src/illumio/LogParser.java:26 | splitting comma-joined fields gives the fields back when none holds a comma and the last is non-empty |
| JavaStrings.SplitTrailingComma | src/illumio/LogParser.java:26 | on a non-empty line a trailing comma does not change the fields (`","` splits to no field at all, `""` to one empty field) |
| JavaStrings.Trim | src/illumio/LogParser.java:29-31 | `trim` gives a string no longer than its input, with no blank at either end |
| JavaStrings.TrimPadded | src/illumio/LogParser.java:29-31 | trimming blanks around an unpadded string gives that string |
| JavaStrings.PaddedField | src/illumio/LogParser.java:29-31 | a field padded with blanks holds a comma exactly when the field does, and trimming it gives the field back |
| JavaStrings.TrimIdempotent | src/illumio/LogParser.java:29-31 | trimming twice is trimming once |
| JavaStrings.ToLowerCase | src/illumio/LogParser.java:91 | lower-casing keeps the length, maps each character by ASCII lower-casing and leaves no upper-case letter |
| JavaStrings.ToLowerCaseIdempotent | src/illumio/LogParser.java:51 | lower-casing twice is lower-casing once |
| JavaStrings.ToLowerCaseEquals | src/illumio/LogParser.java:91-99 | two strings lower-case to the same string if and only if they are equal ignoring ASCII case |
| JavaStrings.ParseInt | src/illumio/LogParser.java:29 | a parsed value is a 32-bit integer from an optionally signed all-digit string; a plain digit string parses to its value when that is at most `INT_MAX` and is rejected otherwise; a lone sign is rejected |
| JavaStrings.ParseIntNegative | src/illumio/LogParser.java:29 | a minus sign before digits gives the negated value when that is not below `INT_MIN`, and is rejected otherwise |
| JavaStrings.ParseIntPlus | src/illumio/LogParser.java:29 | a plus sign before digits gives their value when that is at most `INT_MAX`, and is rejected otherwise |
| JavaStrings.ParseIntToString | src/illumio/LogParser.java:29 | every 32-bit integer, printed, parses back to itself |
| Counters.Increment | src/illumio/LogParser.java:57 | `put(k, getOrDefault(k, 0) + 1)` adds the key, adds one to its count and keeps every other count |
| Counters.SumValuesIncrement | src/illumio/LogParser.java:57-61 | one increment adds exactly one to the sum of a table |
| Scenarios.KeyIgnoresCase | src/illumio/LogParser.java:89-100 | `(25, TCP)` and `(25, tcp)` are the same key, and ports still tell keys apart |
| Scenarios.LookupScenario | src/illumio/LogParser.java:25-33 | rows `25,tcp,sv_P1` and `143,udp,sv_P2` build the two-entry table |
| Scenarios.TaggingScenario | src/illumio/LogParser.java:45-62 | against that table, flows on `(25, tcp)` and `(9999, icmp)` give `{sv_P1: 1, Untagged: 1}` and one count per key |
| Scenarios.DuplicateLookupKey | src/illumio/LogParser.java:32 | a later row for `(25, TCP)` replaces the tag of `(25, tcp)` |
| Scenarios.LookupLineScenario | src/illumio/LogParser.java:26-32 | the lookup line joined with commas from the printed port `25`, the padded protocol ` tcp ` and the tag `sv_P1` reads as the entry for `(25, tcp)` with tag `sv_P1`: the padding is trimmed off |
| Scenarios.FlowLineScenario | src/illumio/LogParser.java:46-51 | the flow line joined with commas from `2`, `eni-4d3c2b1a`, `10.0.1.201`, the printed port `25` and the padded protocol ` TCP ` reads as the record for `(25, tcp)` |

## Left out

- File input and output: `Files.newBufferedReader` and `readLine` are not modelled. Each input is a sequence of lines that have already been read, with their line terminators removed. An `IOException` is not modelled.
- `main` (lines 108-136) is left out: it is the console messages, the hard-coded paths and the calls in sequence. Its two `new HashMap<>()` calls are the `FlowLogCounts` constructor.
- `writeOutput` (lines 67-82) is left out: it only formats the tables as fixed-width text, and the order of a `HashMap`'s entries is not defined.
- `hashCode` (lines 103-105) is left out: Dafny maps use value equality, so only `equals` matters.
- JavaStrings.ToLowerCase: lowers ASCII letters only. Java's `toLowerCase` also lowers other Unicode letters and depends on the default locale.
- JavaStrings.ParseInt: accepts ASCII digits only. Java's `parseInt` also accepts other Unicode decimal digits.
- Counters.Increment: counts are unbounded integers. A Java `Integer` count would wrap around after 2^31 - 1 occurrences.
- LogParser.FlowLogCounts.ReadFlowLog: the sum of the counts is not part of the method's own postcondition. The method's postcondition is equality with `Aggregate`, and `AggregateConservesCounts` proves the sums about `Aggregate`.
- A `null` argument and aliasing between the two maps passed to `readFlowLog` are not modelled, because the maps are separate fields of one object.
