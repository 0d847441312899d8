/**
  The worked cases of the tagger: a two-entry lookup table, a flow log with
  one tagged and one untagged flow, and a duplicate lookup key, stated on
  parsed rows; and one lookup line and one flow line, stated on their text.
*/
module Scenarios {
  import opened JavaStrings
  import opened LogParser

  /** The key `(25, tcp)` is the same whatever case its protocol is written in. */
  lemma KeyIgnoresCase()
    ensures NewFlowLogEntry(25, "TCP") == NewFlowLogEntry(25, "tcp")
    ensures NewFlowLogEntry(25, "tcp") != NewFlowLogEntry(143, "tcp")
  {
    NewFlowLogEntryEquality(25, "TCP", 25, "tcp");
  }

  /** Lookup rows `25,tcp,sv_P1` and `143,udp,sv_P2` build the two-entry table. */
  lemma LookupScenario()
    ensures BuildLookupTable([LookupEntry(NewFlowLogEntry(25, "tcp"), "sv_P1"), LookupEntry(NewFlowLogEntry(143, "udp"), "sv_P2")])
         == Success(map[NewFlowLogEntry(25, "tcp") := "sv_P1", NewFlowLogEntry(143, "udp") := "sv_P2"])
  {
    var rows := [LookupEntry(NewFlowLogEntry(25, "tcp"), "sv_P1"), LookupEntry(NewFlowLogEntry(143, "udp"), "sv_P2")];
    assert rows[..1][..0] == [];
    assert BuildLookupTable(rows[..1]) == Success(map[NewFlowLogEntry(25, "tcp") := "sv_P1"]);
  }

  /**
    Against that table, a flow on `(25, tcp)` is tagged `sv_P1` and a flow on
    `(9999, icmp)` is untagged; each key is counted once.
  */
  lemma TaggingScenario()
    ensures
      var lookup := map[NewFlowLogEntry(25, "tcp") := "sv_P1", NewFlowLogEntry(143, "udp") := "sv_P2"];
      var rows := [FlowRecord(NewFlowLogEntry(25, "tcp")), FlowRecord(NewFlowLogEntry(9999, "icmp"))];
      Aggregate(lookup, Tables(map[], map[]), rows)
      == Aggregation(
           Tables(map["sv_P1" := 1, UNTAGGED := 1],
                  map[NewFlowLogEntry(25, "tcp") := 1, NewFlowLogEntry(9999, "icmp") := 1]),
           None)
  {
    var tcp25 := NewFlowLogEntry(25, "tcp");
    var icmp9999 := NewFlowLogEntry(9999, "icmp");
    var lookup := map[tcp25 := "sv_P1", NewFlowLogEntry(143, "udp") := "sv_P2"];
    var rows := [FlowRecord(tcp25), FlowRecord(icmp9999)];
    assert icmp9999 !in lookup;
    assert "sv_P1" != UNTAGGED by { assert "sv_P1"[0] != UNTAGGED[0]; }
    var first := CountRecord(lookup, Tables(map[], map[]), tcp25);
    assert first == Tables(map["sv_P1" := 1], map[tcp25 := 1]);
    assert rows[..1][..0] == [];
    assert Aggregate(lookup, Tables(map[], map[]), rows[..1]) == Aggregation(first, None);
    assert CountRecord(lookup, first, icmp9999)
        == Tables(map["sv_P1" := 1, UNTAGGED := 1], map[tcp25 := 1, icmp9999 := 1]);
  }

  /** A later lookup row for `(25, TCP)` replaces the tag of `(25, tcp)`: the last write wins. */
  lemma DuplicateLookupKey()
    ensures
      BuildLookupTable([LookupEntry(NewFlowLogEntry(25, "tcp"), "sv_P1"), LookupEntry(NewFlowLogEntry(25, "TCP"), "sv_X")])
      == Success(map[NewFlowLogEntry(25, "tcp") := "sv_X"])
  {
    KeyIgnoresCase();
    var lower := NewFlowLogEntry(25, "tcp");
    var upper := NewFlowLogEntry(25, "TCP");
    var rows := [LookupEntry(lower, "sv_P1"), LookupEntry(upper, "sv_X")];
    assert rows[..1][..0] == [];
    assert BuildLookupTable(rows[..1]) == Success(map[lower := "sv_P1"]);
    assert map[lower := "sv_P1"][upper := "sv_X"] == map[lower := "sv_X"];
  }

  /** The lookup line joined from `25`, ` tcp ` and `sv_P1` reads as the entry of the first scenario: the blanks are trimmed off. */
  lemma LookupLineScenario()
    ensures ParseLookupLine(Join([IntToString(25), " " + "tcp" + " ", "sv_P1"], ','))
         == LookupEntry(NewFlowLogEntry(25, "tcp"), "sv_P1")
  {
    ParseLookupLineWritten(25, "tcp", "sv_P1", "", "", " ", " ", "", "");
    NoPadding(IntToString(25));
    NoPadding("sv_P1");
  }

  /** The flow line joined from `2`, `eni-4d3c2b1a`, `10.0.1.201`, `25` and ` TCP ` reads as the record for `(25, tcp)`. */
  lemma FlowLineScenario()
    ensures ParseFlowLine(Join(["2", "eni-4d3c2b1a", "10.0.1.201", IntToString(25), " " + "TCP" + " "], ','))
         == FlowRecord(NewFlowLogEntry(25, "tcp"))
  {
    ParseFlowLineWritten("2", "eni-4d3c2b1a", "10.0.1.201", 25, "TCP", "", "", " ", " ");
    NoPadding(IntToString(25));
    KeyIgnoresCase();
  }

  /** Empty padding leaves a field as it is. */
  lemma NoPadding(s: string)
    ensures "" + s + "" == s
  {
  }
}
