/**
  The classification-and-counting core of the flow-log tagger.

  A lookup table maps a (destination port, protocol) pair to a tag; a flow
  log is joined against it, and every usable flow row adds one to the count
  of its tag and one to the count of its (port, protocol) pair. Both inputs
  are given as their lines; the first line of each is a header and is never
  looked at.
*/
module LogParser {
  import opened JavaStrings
  import opened Counters

  // Layout of the two comma-separated inputs.
  const FLOWLOG_DSTPORT: nat := 3
  const FLOWLOG_PROTOCOL: nat := 4
  const VALID_FLOWLOG_LENGTH: nat := 5

  const LOOKUP_DSTPORT: nat := 0
  const LOOKUP_PROTOCOL: nat := 1
  const LOOKUP_TAG: nat := 2
  const VALID_LOOKUP_ENTRY_LENGTH: nat := 3

  /** The tag of a flow whose (port, protocol) is not in the lookup table. */
  const UNTAGGED: string := "Untagged"

  /** The one failure that aborts a run: a port field that is not a 32-bit integer. */
  datatype ParseError = NumberFormat(input: string)

  datatype Result<+T> = Success(value: T) | Failure(error: ParseError)

  // ---------------------------------------------------------------------------
  // The composite key
  // ---------------------------------------------------------------------------

  /** A (destination port, protocol) pair; built through `NewFlowLogEntry`, the protocol is lower case. */
  datatype FlowLogEntry = FlowLogEntry(dstport: int, protocol: string)

  /** `new FlowLogEntry(dstport, protocol)`: the protocol is stored lower-cased. */
  function NewFlowLogEntry(dstport: int, protocol: string): FlowLogEntry {
    FlowLogEntry(dstport, ToLowerCase(protocol))
  }

  /** A constructed key keeps the port and the protocol up to case, and holds no upper-case letter. */
  lemma NewFlowLogEntryNormalizes(dstport: int, protocol: string)
    ensures NewFlowLogEntry(dstport, protocol).dstport == dstport
    ensures EqualsIgnoringCase(NewFlowLogEntry(dstport, protocol).protocol, protocol)
    ensures forall i :: 0 <= i < |NewFlowLogEntry(dstport, protocol).protocol| ==>
      !IsUpper(NewFlowLogEntry(dstport, protocol).protocol[i])
  {
    ToLowerCaseEquals(ToLowerCase(protocol), protocol);
    ToLowerCaseIdempotent(protocol);
  }

  /** `FlowLogEntry.equals`: same port and same stored protocol. */
  function Equals(a: FlowLogEntry, b: FlowLogEntry): (r: bool)
    ensures r <==> a == b
  {
    a.dstport == b.dstport && a.protocol == b.protocol
  }

  /** Two constructed keys are equal exactly when the ports agree and the protocols differ at most in case. */
  lemma NewFlowLogEntryEquality(port1: int, protocol1: string, port2: int, protocol2: string)
    ensures NewFlowLogEntry(port1, protocol1) == NewFlowLogEntry(port2, protocol2)
        <==> port1 == port2 && EqualsIgnoringCase(protocol1, protocol2)
  {
    ToLowerCaseEquals(protocol1, protocol2);
  }

  /** Lower-casing the protocol before constructing the key, as the flow-log reader does, changes nothing. */
  lemma NewFlowLogEntryLowered(port: int, protocol: string)
    ensures NewFlowLogEntry(port, ToLowerCase(protocol)) == NewFlowLogEntry(port, protocol)
  {
    ToLowerCaseIdempotent(protocol);
  }

  /** The lines after the header; an empty input has neither. */
  function DataLines(lines: seq<string>): (r: seq<string>)
    ensures |lines| <= 1 ==> r == []
    ensures |lines| > 0 ==> [lines[0]] + r == lines
  {
    if |lines| == 0 then [] else lines[1..]
  }

  /** A sequence is its first `n` elements followed by the rest. */
  lemma TakeDrop<T>(s: seq<T>, n: nat)
    requires n <= |s|
    ensures s[..n] + s[n..] == s
  {
  }

  /** The first `i + 1` elements are the first `i` and then element `i`. */
  lemma TakeSnoc<T>(s: seq<T>, i: nat)
    requires i < |s|
    ensures s[..i + 1] == s[..i] + [s[i]]
  {
  }

  // ---------------------------------------------------------------------------
  // The lookup table
  // ---------------------------------------------------------------------------

  /** What one line of the lookup table contributes. */
  datatype LookupRow =
    | MalformedLookupRow
    | BadLookupPort(text: string)
    | LookupEntry(key: FlowLogEntry, tag: string)

  /** One lookup line: three fields, or it is skipped; a port that does not parse is fatal. */
  function ParseLookupLine(line: string): (row: LookupRow)
    ensures row.MalformedLookupRow? <==> |Split(line)| != VALID_LOOKUP_ENTRY_LENGTH
    ensures row.BadLookupPort? <==>
      |Split(line)| == VALID_LOOKUP_ENTRY_LENGTH && ParseInt(Trim(Split(line)[LOOKUP_DSTPORT])).None?
  {
    var parts := Split(line);
    if |parts| != VALID_LOOKUP_ENTRY_LENGTH then MalformedLookupRow
    else
      var portText := Trim(parts[LOOKUP_DSTPORT]);
      match ParseInt(portText)
      case None => BadLookupPort(portText)
      case Some(dstport) =>
        LookupEntry(NewFlowLogEntry(dstport, Trim(parts[LOOKUP_PROTOCOL])), Trim(parts[LOOKUP_TAG]))
  }

  /** A printed 32-bit integer holds no comma and no blank at either end. */
  lemma IntToStringShape(n: int)
    ensures ',' !in IntToString(n)
    ensures Unpadded(IntToString(n))
    ensures Trim(IntToString(n)) == IntToString(n)
  {
    IntToStringChars(n);
    var text := IntToString(n);
    assert Unpadded(text);
    TrimUnpadded(text);
  }

  /**
    A row written out as `port,protocol,tag`, each field padded with blanks on
    either side, reads back as the entry for that key and tag: the padding is
    trimmed off.
  */
  lemma ParseLookupLineWritten(
    dstport: int, protocol: string, tag: string,
    portPre: string, portPost: string, protocolPre: string, protocolPost: string, tagPre: string, tagPost: string)
    requires INT_MIN <= dstport <= INT_MAX
    requires ',' !in protocol && ',' !in tag && Unpadded(protocol) && Unpadded(tag)
    requires AllBlank(portPre) && AllBlank(portPost) && AllBlank(protocolPre) && AllBlank(protocolPost)
    requires AllBlank(tagPre) && AllBlank(tagPost) && tagPre + tag + tagPost != ""
    ensures ParseLookupLine(Join([portPre + IntToString(dstport) + portPost, protocolPre + protocol + protocolPost, tagPre + tag + tagPost], ','))
         == LookupEntry(NewFlowLogEntry(dstport, protocol), tag)
  {
    var portField := portPre + IntToString(dstport) + portPost;
    var protocolField := protocolPre + protocol + protocolPost;
    var tagField := tagPre + tag + tagPost;
    WrittenPortParses(dstport, portPre, portPost);
    PaddedField(protocolPre, protocol, protocolPost);
    PaddedField(tagPre, tag, tagPost);
    ThreeFieldsSplit(portField, protocolField, tagField);
  }

  /** Three comma-free fields, the last non-empty, split back out of their row. */
  lemma ThreeFieldsSplit(a: string, b: string, c: string)
    requires ',' !in a && ',' !in b && ',' !in c && c != ""
    ensures Split(Join([a, b, c], ',')) == [a, b, c]
  {
    SplitJoin([a, b, c]);
  }

  /** Five comma-free fields, the last non-empty, split back out of their row. */
  lemma FiveFieldsSplit(a: string, b: string, c: string, d: string, e: string)
    requires ',' !in a && ',' !in b && ',' !in c && ',' !in d && ',' !in e && e != ""
    ensures Split(Join([a, b, c, d, e], ',')) == [a, b, c, d, e]
  {
    SplitJoin([a, b, c, d, e]);
  }

  /** The written port, padded with blanks, holds no comma and reads back as the same number. */
  lemma WrittenPortParses(dstport: int, pre: string, post: string)
    requires INT_MIN <= dstport <= INT_MAX
    requires AllBlank(pre) && AllBlank(post)
    ensures ',' !in pre + IntToString(dstport) + post
    ensures ParseInt(Trim(pre + IntToString(dstport) + post)) == Some(dstport)
  {
    IntToStringShape(dstport);
    PaddedField(pre, IntToString(dstport), post);
    ParseIntToString(dstport);
  }

  /** Every line read as a lookup row, in order. */
  function ParseLookupLines(lines: seq<string>): (rows: seq<LookupRow>)
    ensures |rows| == |lines|
    ensures forall j :: 0 <= j < |lines| ==> rows[j] == ParseLookupLine(lines[j])
  {
    seq(|lines|, j requires 0 <= j < |lines| => ParseLookupLine(lines[j]))
  }

  /** The lookup table built from the rows in order, or the error that aborted the build. */
  function BuildLookupTable(rows: seq<LookupRow>): Result<map<FlowLogEntry, string>>
    decreases |rows|
  {
    if |rows| == 0 then Success(map[])
    else
      match BuildLookupTable(rows[..|rows| - 1])
      case Failure(e) => Failure(e)
      case Success(table) =>
        match rows[|rows| - 1]
        case MalformedLookupRow => Success(table)
        case BadLookupPort(text) => Failure(NumberFormat(text))
        case LookupEntry(key, tag) => Success(table[key := tag])
  }

  /** `loadLookupTable`: skip the header, then record every three-field row, later rows overwriting earlier ones. */
  method LoadLookupTable(lines: seq<string>) returns (r: Result<map<FlowLogEntry, string>>)
    ensures r == BuildLookupTable(ParseLookupLines(DataLines(lines)))
    ensures |lines| <= 1 ==> r == Success(map[])
  {
    var rows := DataLines(lines);
    ghost var parsed := ParseLookupLines(rows);
    var lookupTable: map<FlowLogEntry, string> := map[];
    var i := 0;
    while i < |rows|
      invariant 0 <= i <= |rows|
      invariant BuildLookupTable(parsed[..i]) == Success(lookupTable)
    {
      assert parsed[..i + 1][..i] == parsed[..i];
      var row := ParseLookupLine(rows[i]);
      assert parsed[i] == row;
      match row {
        case MalformedLookupRow =>
        case BadLookupPort(portText) =>
          BuildLookupTableAfterFailure(parsed, i + 1);
          return Failure(NumberFormat(portText));
        case LookupEntry(key, tag) =>
          lookupTable := lookupTable[key := tag];
      }
      i := i + 1;
    }
    assert parsed[..i] == parsed;
    return Success(lookupTable);
  }

  /** Once the build has failed, the rows after it change nothing. */
  lemma {:induction false} BuildLookupTableAfterFailure(rows: seq<LookupRow>, n: nat)
    requires n <= |rows|
    requires BuildLookupTable(rows[..n]).Failure?
    ensures BuildLookupTable(rows) == BuildLookupTable(rows[..n])
    decreases |rows|
  {
    if n < |rows| {
      var pre := rows[..|rows| - 1];
      assert pre[..n] == rows[..n];
      BuildLookupTableAfterFailure(pre, n);
    } else {
      assert rows[..n] == rows;
    }
  }

  /** A skipped row in the middle of the rows changes nothing. */
  lemma {:induction false} BuildLookupTableSkips(before: seq<LookupRow>, after: seq<LookupRow>)
    ensures BuildLookupTable(before + [MalformedLookupRow] + after) == BuildLookupTable(before + after)
    decreases |after|
  {
    if |after| == 0 {
      assert (before + [MalformedLookupRow])[..|before|] == before;
      assert before + [MalformedLookupRow] + after == before + [MalformedLookupRow];
      assert before + after == before;
    } else {
      var all := before + [MalformedLookupRow] + after;
      var fewer := before + after;
      var shorter := after[..|after| - 1];
      BuildLookupTableSkips(before, shorter);
      assert all[..|all| - 1] == before + [MalformedLookupRow] + shorter;
      assert fewer[..|fewer| - 1] == before + shorter;
      assert all[|all| - 1] == fewer[|fewer| - 1];
    }
  }

  /** Reading lines one by one commutes with concatenation. */
  lemma ParseLookupLinesAppend(a: seq<string>, b: seq<string>)
    ensures ParseLookupLines(a + b) == ParseLookupLines(a) + ParseLookupLines(b)
  {
    var whole := ParseLookupLines(a + b);
    var parts := ParseLookupLines(a) + ParseLookupLines(b);
    forall j | 0 <= j < |whole|
      ensures whole[j] == parts[j]
    {
      if j < |a| {
        assert (a + b)[j] == a[j];
      } else {
        assert (a + b)[j] == b[j - |a|];
      }
    }
  }

  /** A lookup line that does not split into exactly three fields leaves the table as if the line were absent. */
  lemma LookupSkipsMalformedLine(before: seq<string>, line: string, after: seq<string>)
    requires |Split(line)| != VALID_LOOKUP_ENTRY_LENGTH
    ensures BuildLookupTable(ParseLookupLines(before + [line] + after))
         == BuildLookupTable(ParseLookupLines(before + after))
  {
    ParseLookupLinesAppend(before + [line], after);
    ParseLookupLinesAppend(before, [line]);
    ParseLookupLinesAppend(before, after);
    assert ParseLookupLines([line]) == [MalformedLookupRow];
    BuildLookupTableSkips(ParseLookupLines(before), ParseLookupLines(after));
  }

  /** Whether a lookup row sets `key`. */
  predicate WritesKey(row: LookupRow, key: FlowLogEntry) {
    row.LookupEntry? && row.key == key
  }

  /** The build fails exactly when some three-field row has a port that does not parse. */
  lemma {:induction false} BuildLookupTableFailsIffBadPort(rows: seq<LookupRow>)
    ensures BuildLookupTable(rows).Failure? <==> exists j :: 0 <= j < |rows| && rows[j].BadLookupPort?
    decreases |rows|
  {
    if |rows| > 0 {
      var pre := rows[..|rows| - 1];
      BuildLookupTableFailsIffBadPort(pre);
      assert forall j :: 0 <= j < |pre| ==> pre[j] == rows[j];
    }
  }

  /** A key is in the built table exactly when some row sets it. */
  lemma {:induction false} BuildLookupTableKeys(rows: seq<LookupRow>, table: map<FlowLogEntry, string>, key: FlowLogEntry)
    requires BuildLookupTable(rows) == Success(table)
    ensures key in table <==> exists j :: 0 <= j < |rows| && WritesKey(rows[j], key)
    decreases |rows|
  {
    if |rows| > 0 {
      var pre := rows[..|rows| - 1];
      LookupTableKeysStep(rows);
      BuildLookupTableKeys(pre, BuildLookupTable(pre).value, key);
      assert forall j :: 0 <= j < |pre| ==> pre[j] == rows[j];
      if WritesKey(rows[|rows| - 1], key) {
        assert key in table;
      }
    }
  }

  lemma LookupTableKeysStep(rows: seq<LookupRow>)
    requires |rows| > 0 && BuildLookupTable(rows).Success?
    ensures BuildLookupTable(rows[..|rows| - 1]).Success?
  {
  }

  /** Last write wins: the tag of a key is the one on the last row that sets it. */
  lemma {:induction false} BuildLookupTableLastWriteWins(rows: seq<LookupRow>, table: map<FlowLogEntry, string>, j: nat)
    requires BuildLookupTable(rows) == Success(table)
    requires j < |rows| && rows[j].LookupEntry?
    requires forall k :: j < k < |rows| ==> !WritesKey(rows[k], rows[j].key)
    ensures rows[j].key in table && table[rows[j].key] == rows[j].tag
    decreases |rows|
  {
    var pre := rows[..|rows| - 1];
    LookupTableKeysStep(rows);
    if j < |rows| - 1 {
      assert pre[j] == rows[j];
      forall k | j < k < |pre|
        ensures !WritesKey(pre[k], pre[j].key)
      {
        assert pre[k] == rows[k];
      }
      BuildLookupTableLastWriteWins(pre, BuildLookupTable(pre).value, j);
    }
  }

  // ---------------------------------------------------------------------------
  // The flow log
  // ---------------------------------------------------------------------------

  /** What one line of the flow log contributes. */
  datatype FlowRow =
    | MalformedFlowRow
    | BadFlowPort(text: string)
    | FlowRecord(key: FlowLogEntry)

  /** One flow line: five fields, or it is skipped; the key is built from fields 3 and 4. */
  function ParseFlowLine(line: string): (row: FlowRow)
    ensures row.MalformedFlowRow? <==> |Split(line)| != VALID_FLOWLOG_LENGTH
    ensures row.BadFlowPort? <==>
      |Split(line)| == VALID_FLOWLOG_LENGTH && ParseInt(Trim(Split(line)[FLOWLOG_DSTPORT])).None?
  {
    var parts := Split(line);
    if |parts| != VALID_FLOWLOG_LENGTH then MalformedFlowRow
    else
      var portText := Trim(parts[FLOWLOG_DSTPORT]);
      match ParseInt(portText)
      case None => BadFlowPort(portText)
      case Some(dstport) => FlowRecord(NewFlowLogEntry(dstport, ToLowerCase(Trim(parts[FLOWLOG_PROTOCOL]))))
  }

  /**
    A flow row written out with the port in field 3 and the protocol in field
    4, both padded with blanks on either side, reads back as the key for them:
    the padding is trimmed off and the protocol's case does not matter.
  */
  lemma ParseFlowLineWritten(
    f0: string, f1: string, f2: string, dstport: int, protocol: string,
    portPre: string, portPost: string, protocolPre: string, protocolPost: string)
    requires INT_MIN <= dstport <= INT_MAX
    requires ',' !in f0 && ',' !in f1 && ',' !in f2 && ',' !in protocol && Unpadded(protocol)
    requires AllBlank(portPre) && AllBlank(portPost) && AllBlank(protocolPre) && AllBlank(protocolPost)
    requires protocolPre + protocol + protocolPost != ""
    ensures ParseFlowLine(Join([f0, f1, f2, portPre + IntToString(dstport) + portPost, protocolPre + protocol + protocolPost], ','))
         == FlowRecord(NewFlowLogEntry(dstport, protocol))
  {
    var portField := portPre + IntToString(dstport) + portPost;
    var protocolField := protocolPre + protocol + protocolPost;
    WrittenPortParses(dstport, portPre, portPost);
    PaddedField(protocolPre, protocol, protocolPost);
    FiveFieldsSplit(f0, f1, f2, portField, protocolField);
    NewFlowLogEntryLowered(dstport, protocol);
  }

  /**
    Every line read as a flow row, in order. Unlike `ParseLookupLines`, the
    element-wise clause is left out of the contract on purpose: it would sit in
    the context of every proof about a flow-log run and make those proofs much
    costlier. The lemmas below state the element-wise facts where they are needed.
  */
  function ParseFlowLines(lines: seq<string>): (rows: seq<FlowRow>)
    ensures |rows| == |lines|
  {
    seq(|lines|, j requires 0 <= j < |lines| => ParseFlowLine(lines[j]))
  }

  /** `lookupTable.getOrDefault(key, "Untagged")`. */
  function ResolveTag(lookupTable: map<FlowLogEntry, string>, key: FlowLogEntry): (tag: string)
    ensures key in lookupTable ==> tag == lookupTable[key]
    ensures key !in lookupTable ==> tag == UNTAGGED
  {
    if key in lookupTable then lookupTable[key] else UNTAGGED
  }

  /** The two frequency tables: per tag, and per (port, protocol). */
  datatype Tables = Tables(tagCounts: map<string, int>, portProtocolCounts: map<FlowLogEntry, int>)

  /** The tables after a run over some rows, and the error that stopped it, if any. */
  datatype Aggregation = Aggregation(tables: Tables, error: Option<ParseError>)

  /** Counting one usable flow row. */
  function CountRecord(lookupTable: map<FlowLogEntry, string>, t: Tables, key: FlowLogEntry): (r: Tables)
    ensures CountOf(r.tagCounts, ResolveTag(lookupTable, key)) == CountOf(t.tagCounts, ResolveTag(lookupTable, key)) + 1
    ensures forall tag :: tag != ResolveTag(lookupTable, key) ==> CountOf(r.tagCounts, tag) == CountOf(t.tagCounts, tag)
    ensures r.tagCounts.Keys == t.tagCounts.Keys + {ResolveTag(lookupTable, key)}
    ensures CountOf(r.portProtocolCounts, key) == CountOf(t.portProtocolCounts, key) + 1
    ensures forall k :: k != key ==> CountOf(r.portProtocolCounts, k) == CountOf(t.portProtocolCounts, k)
    ensures r.portProtocolCounts.Keys == t.portProtocolCounts.Keys + {key}
  {
    Tables(Increment(t.tagCounts, ResolveTag(lookupTable, key)), Increment(t.portProtocolCounts, key))
  }

  /** One row's effect on a run: nothing once it has failed, otherwise skip, fail or count. */
  function AggregateStep(lookupTable: map<FlowLogEntry, string>, previous: Aggregation, row: FlowRow): (r: Aggregation)
    ensures r.error.Some? <==> previous.error.Some? || row.BadFlowPort?
  {
    if previous.error.Some? then previous
    else
      match row
      case MalformedFlowRow => previous
      case BadFlowPort(text) => Aggregation(previous.tables, Some(NumberFormat(text)))
      case FlowRecord(key) => Aggregation(CountRecord(lookupTable, previous.tables, key), None)
  }

  /** A run over the rows in order, starting from the tables `start`. */
  function Aggregate(lookupTable: map<FlowLogEntry, string>, start: Tables, rows: seq<FlowRow>): Aggregation
    decreases |rows|
  {
    if |rows| == 0 then Aggregation(start, None)
    else AggregateStep(lookupTable, Aggregate(lookupTable, start, rows[..|rows| - 1]), rows[|rows| - 1])
  }

  /** The number of rows that were not skipped, that is, of lines with exactly five fields. */
  function ValidRowCount(rows: seq<FlowRow>): nat
    decreases |rows|
  {
    if |rows| == 0 then 0
    else ValidRowCount(rows[..|rows| - 1]) + (if rows[|rows| - 1].MalformedFlowRow? then 0 else 1)
  }

  /** The number of usable rows whose key is `key`. */
  function KeyOccurrences(rows: seq<FlowRow>, key: FlowLogEntry): nat
    decreases |rows|
  {
    if |rows| == 0 then 0
    else KeyOccurrences(rows[..|rows| - 1], key) + (if rows[|rows| - 1] == FlowRecord(key) then 1 else 0)
  }

  /** The number of usable rows whose key resolves to `tag`. */
  function TagOccurrences(lookupTable: map<FlowLogEntry, string>, rows: seq<FlowRow>, tag: string): nat
    decreases |rows|
  {
    if |rows| == 0 then 0
    else
      var row := rows[|rows| - 1];
      TagOccurrences(lookupTable, rows[..|rows| - 1], tag)
        + (if row.FlowRecord? && ResolveTag(lookupTable, row.key) == tag then 1 else 0)
  }

  /** Once a run has failed, whatever rows follow change nothing. */
  lemma AggregateFailedAppend(lookupTable: map<FlowLogEntry, string>, start: Tables, rows: seq<FlowRow>, more: seq<FlowRow>)
    requires Aggregate(lookupTable, start, rows).error.Some?
    ensures Aggregate(lookupTable, start, rows + more) == Aggregate(lookupTable, start, rows)
  {
    assert (rows + more)[..|rows|] == rows;
    AggregateAfterFailure(lookupTable, start, rows + more, |rows|);
  }

  /** A run over two stretches of rows is the run over the second from where the first left off. */
  lemma {:induction false} AggregateConcat(lookupTable: map<FlowLogEntry, string>, start: Tables, rows: seq<FlowRow>, more: seq<FlowRow>)
    requires Aggregate(lookupTable, start, rows).error.None?
    ensures Aggregate(lookupTable, start, rows + more)
         == Aggregate(lookupTable, Aggregate(lookupTable, start, rows).tables, more)
    decreases |more|
  {
    if |more| == 0 {
      assert rows + more == rows;
    } else {
      var shorter := more[..|more| - 1];
      AggregateConcat(lookupTable, start, rows, shorter);
      assert (rows + more)[..|rows + more| - 1] == rows + shorter;
    }
  }

  /** A run over a single line is one step from where it starts. */
  lemma AggregateOneLine(lookupTable: map<FlowLogEntry, string>, t: Tables, line: string)
    ensures Aggregate(lookupTable, t, ParseFlowLines([line])) == AggregateStep(lookupTable, Aggregation(t, None), ParseFlowLine(line))
  {
    assert ParseFlowLines([line]) == [ParseFlowLine(line)];
    assert ParseFlowLines([line])[..0] == [];
  }

  /** Reading the lines up to and including line `i` continues the run up to line `i` with line `i` alone. */
  lemma AggregateReadsLine(lookupTable: map<FlowLogEntry, string>, start: Tables, lines: seq<string>, i: nat, t: Tables)
    requires i < |lines|
    requires Aggregate(lookupTable, start, ParseFlowLines(lines[..i])) == Aggregation(t, None)
    ensures Aggregate(lookupTable, start, ParseFlowLines(lines[..i + 1]))
         == Aggregate(lookupTable, t, ParseFlowLines([lines[i]]))
  {
    ParseFlowLinesSnoc(lines, i);
    AggregateConcat(lookupTable, start, ParseFlowLines(lines[..i]), ParseFlowLines([lines[i]]));
  }

  /** A flow log with no line after the header changes nothing and reports no error. */
  lemma AggregateNoDataLines(lookupTable: map<FlowLogEntry, string>, start: Tables, lines: seq<string>)
    requires |lines| <= 1
    ensures Aggregate(lookupTable, start, ParseFlowLines(DataLines(lines))) == Aggregation(start, None)
  {
    assert ParseFlowLines(DataLines(lines)) == [];
  }

  /** A run that has failed by line `i` ends there: the lines after it change nothing. */
  lemma AggregateStopsAtLine(lookupTable: map<FlowLogEntry, string>, start: Tables, lines: seq<string>, n: nat)
    requires n <= |lines|
    requires Aggregate(lookupTable, start, ParseFlowLines(lines[..n])).error.Some?
    ensures Aggregate(lookupTable, start, ParseFlowLines(lines)) == Aggregate(lookupTable, start, ParseFlowLines(lines[..n]))
  {
    ParseFlowLinesSplitAt(lines, n);
    AggregateFailedAppend(lookupTable, start, ParseFlowLines(lines[..n]), ParseFlowLines(lines[n..]));
  }

  /** The rows of some lines are the rows of any prefix followed by the rows of the rest. */
  lemma ParseFlowLinesSplitAt(lines: seq<string>, n: nat)
    requires n <= |lines|
    ensures ParseFlowLines(lines) == ParseFlowLines(lines[..n]) + ParseFlowLines(lines[n..])
  {
    TakeDrop(lines, n);
    ParseFlowLinesAppend(lines[..n], lines[n..]);
  }

  /** The rows of the first `i + 1` lines are those of the first `i` and then that of line `i`. */
  lemma ParseFlowLinesSnoc(lines: seq<string>, i: nat)
    requires i < |lines|
    ensures ParseFlowLines(lines[..i + 1]) == ParseFlowLines(lines[..i]) + ParseFlowLines([lines[i]])
  {
    TakeSnoc(lines, i);
    ParseFlowLinesAppend(lines[..i], [lines[i]]);
  }

  /** Once a run has failed, the rows after it change nothing. */
  lemma {:induction false} AggregateAfterFailure(lookupTable: map<FlowLogEntry, string>, start: Tables, rows: seq<FlowRow>, n: nat)
    requires n <= |rows|
    requires Aggregate(lookupTable, start, rows[..n]).error.Some?
    ensures Aggregate(lookupTable, start, rows) == Aggregate(lookupTable, start, rows[..n])
    decreases |rows|
  {
    if n < |rows| {
      var pre := rows[..|rows| - 1];
      assert pre[..n] == rows[..n];
      AggregateAfterFailure(lookupTable, start, pre, n);
    } else {
      assert rows[..n] == rows;
    }
  }

  /** A skipped row in the middle of the rows changes nothing. */
  lemma {:induction false} AggregateSkips(
    lookupTable: map<FlowLogEntry, string>, start: Tables, before: seq<FlowRow>, after: seq<FlowRow>)
    ensures Aggregate(lookupTable, start, before + [MalformedFlowRow] + after)
         == Aggregate(lookupTable, start, before + after)
    decreases |after|
  {
    if |after| == 0 {
      assert (before + [MalformedFlowRow])[..|before|] == before;
      assert before + [MalformedFlowRow] + after == before + [MalformedFlowRow];
      assert before + after == before;
    } else {
      var all := before + [MalformedFlowRow] + after;
      var fewer := before + after;
      var shorter := after[..|after| - 1];
      AggregateSkips(lookupTable, start, before, shorter);
      assert all[..|all| - 1] == before + [MalformedFlowRow] + shorter;
      assert fewer[..|fewer| - 1] == before + shorter;
      assert all[|all| - 1] == fewer[|fewer| - 1];
    }
  }

  /** Reading lines one by one commutes with concatenation. */
  lemma ParseFlowLinesAppend(a: seq<string>, b: seq<string>)
    ensures ParseFlowLines(a + b) == ParseFlowLines(a) + ParseFlowLines(b)
  {
    var whole := ParseFlowLines(a + b);
    var parts := ParseFlowLines(a) + ParseFlowLines(b);
    forall j | 0 <= j < |whole|
      ensures whole[j] == parts[j]
    {
      if j < |a| {
        assert (a + b)[j] == a[j];
      } else {
        assert (a + b)[j] == b[j - |a|];
      }
    }
  }

  /** A flow line that does not split into exactly five fields leaves both tables as if the line were absent. */
  lemma AggregateSkipsMalformedLine(
    lookupTable: map<FlowLogEntry, string>, start: Tables, before: seq<string>, line: string, after: seq<string>)
    requires |Split(line)| != VALID_FLOWLOG_LENGTH
    ensures Aggregate(lookupTable, start, ParseFlowLines(before + [line] + after))
         == Aggregate(lookupTable, start, ParseFlowLines(before + after))
  {
    ParseFlowLinesAppend(before + [line], after);
    ParseFlowLinesAppend(before, [line]);
    ParseFlowLinesAppend(before, after);
    assert ParseFlowLines([line]) == [MalformedFlowRow];
    AggregateSkips(lookupTable, start, ParseFlowLines(before), ParseFlowLines(after));
  }

  /** A run fails exactly when some five-field row has a port that does not parse. */
  lemma {:induction false} AggregateFailsIffBadPort(lookupTable: map<FlowLogEntry, string>, start: Tables, rows: seq<FlowRow>)
    ensures Aggregate(lookupTable, start, rows).error.Some? <==> exists j :: 0 <= j < |rows| && rows[j].BadFlowPort?
    decreases |rows|
  {
    if |rows| > 0 {
      var pre := rows[..|rows| - 1];
      AggregateFailsIffBadPort(lookupTable, start, pre);
      assert forall j :: 0 <= j < |pre| ==> pre[j] == rows[j];
    }
  }

  /**
    A failed run stops at the first bad port: the tables are those of the rows
    before it, and the error carries that port's text.
  */
  lemma AggregateStopsAtFirstBadPort(lookupTable: map<FlowLogEntry, string>, start: Tables, rows: seq<FlowRow>, j: nat)
    requires j < |rows| && rows[j].BadFlowPort?
    requires forall k :: 0 <= k < j ==> !rows[k].BadFlowPort?
    ensures Aggregate(lookupTable, start, rows[..j]).error == None
    ensures Aggregate(lookupTable, start, rows)
         == Aggregation(Aggregate(lookupTable, start, rows[..j]).tables, Some(NumberFormat(rows[j].text)))
  {
    AggregateFailsIffBadPort(lookupTable, start, rows[..j]);
    assert rows[..j + 1][..j] == rows[..j];
    AggregateAfterFailure(lookupTable, start, rows, j + 1);
  }

  /** Conservation: a run with no port error adds exactly the number of five-field rows to the sum of each table. */
  lemma {:induction false} AggregateConservesCounts(lookupTable: map<FlowLogEntry, string>, start: Tables, rows: seq<FlowRow>)
    requires Aggregate(lookupTable, start, rows).error == None
    ensures SumValues(Aggregate(lookupTable, start, rows).tables.tagCounts)
         == SumValues(start.tagCounts) + ValidRowCount(rows)
    ensures SumValues(Aggregate(lookupTable, start, rows).tables.portProtocolCounts)
         == SumValues(start.portProtocolCounts) + ValidRowCount(rows)
    decreases |rows|
  {
    if |rows| > 0 {
      var pre := rows[..|rows| - 1];
      AggregateConservesCounts(lookupTable, start, pre);
      var t := Aggregate(lookupTable, start, pre).tables;
      match rows[|rows| - 1]
      case MalformedFlowRow =>
      case BadFlowPort(_) =>
      case FlowRecord(key) =>
        SumValuesIncrement(t.tagCounts, ResolveTag(lookupTable, key));
        SumValuesIncrement(t.portProtocolCounts, key);
    }
  }

  /** Each (port, protocol) count is the number of usable rows with that key, whether it was tagged or not. */
  lemma {:induction false} AggregateCountsKeys(
    lookupTable: map<FlowLogEntry, string>, start: Tables, rows: seq<FlowRow>, key: FlowLogEntry)
    requires Aggregate(lookupTable, start, rows).error == None
    ensures CountOf(Aggregate(lookupTable, start, rows).tables.portProtocolCounts, key)
         == CountOf(start.portProtocolCounts, key) + KeyOccurrences(rows, key)
    ensures key in Aggregate(lookupTable, start, rows).tables.portProtocolCounts
        <==> key in start.portProtocolCounts || KeyOccurrences(rows, key) > 0
    decreases |rows|
  {
    if |rows| > 0 {
      AggregateCountsKeys(lookupTable, start, rows[..|rows| - 1], key);
    }
  }

  /** Each tag count is the number of usable rows whose key resolves to that tag (`"Untagged"` for unknown keys). */
  lemma {:induction false} AggregateCountsTags(
    lookupTable: map<FlowLogEntry, string>, start: Tables, rows: seq<FlowRow>, tag: string)
    requires Aggregate(lookupTable, start, rows).error == None
    ensures CountOf(Aggregate(lookupTable, start, rows).tables.tagCounts, tag)
         == CountOf(start.tagCounts, tag) + TagOccurrences(lookupTable, rows, tag)
    ensures tag in Aggregate(lookupTable, start, rows).tables.tagCounts
        <==> tag in start.tagCounts || TagOccurrences(lookupTable, rows, tag) > 0
    decreases |rows|
  {
    if |rows| > 0 {
      AggregateCountsTags(lookupTable, start, rows[..|rows| - 1], tag);
    }
  }

  /**
    The two count tables that the flow-log reader fills in place. The
    program creates them empty and hands them to `ReadFlowLog`.
  */
  class FlowLogCounts {
    var tagCounts: map<string, int>
    var portProtocolCounts: map<FlowLogEntry, int>

    constructor ()
      ensures tagCounts == map[] && portProtocolCounts == map[]
    {
      tagCounts := map[];
      portProtocolCounts := map[];
    }

    /** The current contents of both tables. */
    function Snapshot(): Tables
      reads this
    {
      Tables(tagCounts, portProtocolCounts)
    }

    /**
      One iteration of the loop over the data lines: skip the line, fail on
      its port, or count it once in each table.
    */
    method ReadFlowLine(line: string, lookupTable: map<FlowLogEntry, string>) returns (error: Option<ParseError>)
      modifies this
      ensures Aggregation(Snapshot(), error) == Aggregate(lookupTable, old(Snapshot()), ParseFlowLines([line]))
    {
      AggregateOneLine(lookupTable, Snapshot(), line);
      match ParseFlowLine(line) {
        case MalformedFlowRow =>
          error := None;
        case BadFlowPort(portText) =>
          error := Some(NumberFormat(portText));
        case FlowRecord(flowLogEntry) =>
          Count(lookupTable, flowLogEntry);
          error := None;
      }
    }

    /** Counting a usable row: one more for its resolved tag and one more for its key. */
    method Count(lookupTable: map<FlowLogEntry, string>, flowLogEntry: FlowLogEntry)
      modifies this
      ensures Snapshot() == CountRecord(lookupTable, old(Snapshot()), flowLogEntry)
    {
      var tag := ResolveTag(lookupTable, flowLogEntry);
      tagCounts := Increment(tagCounts, tag);
      portProtocolCounts := Increment(portProtocolCounts, flowLogEntry);
    }

    /**
      `readFlowLog`: skip the header, then for every five-field row add one to
      the count of its resolved tag and one to the count of its key. A port
      that does not parse stops the run; the rows counted before it stay counted.
    */
    method ReadFlowLog(lines: seq<string>, lookupTable: map<FlowLogEntry, string>) returns (error: Option<ParseError>)
      modifies this
      ensures Aggregation(Snapshot(), error) == Aggregate(lookupTable, old(Snapshot()), ParseFlowLines(DataLines(lines)))
      ensures |lines| <= 1 ==> Snapshot() == old(Snapshot()) && error == None
    {
      var rows := DataLines(lines);
      ghost var start := Snapshot();
      if |lines| <= 1 {
        AggregateNoDataLines(lookupTable, start, lines);
      }
      var i := 0;
      while i < |rows|
        invariant 0 <= i <= |rows|
        invariant Aggregate(lookupTable, start, ParseFlowLines(rows[..i])) == Aggregation(Snapshot(), None)
      {
        ghost var before := Snapshot();
        error := ReadFlowLine(rows[i], lookupTable);
        AggregateReadsLine(lookupTable, start, rows, i, before);
        if error.Some? {
          AggregateStopsAtLine(lookupTable, start, rows, i + 1);
          return;
        }
        i := i + 1;
      }
      assert rows[..i] == rows;
      return None;
    }
  }
}
