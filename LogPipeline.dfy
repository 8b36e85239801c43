/**
 * The filter-and-emit loop of `parse_log_file`: every line is parsed in input
 * order, and each record is written when no CAN-id filter was given or its id is
 * one of the filter's. The CSV writer is modelled as the sequence of rows written;
 * a timestamp error raised while parsing a line ends the loop, leaving the rows
 * written so far.
 */
module LogPipeline {
  import opened Wrappers
  import opened PyText
  import opened Numerals
  import opened LineParser
  import opened ParameterCatalog

  /** `f"0x{can_id:X}"` for a filter id; Python writes a negative number with a leading `-`. */
  function FilterKey(i: int): string
  {
    "0x" + (if i < 0 then "-" + NatText(-i, 16) else NatText(i, 16))
  }

  /** The set of filter strings, or `None` when the list is missing or empty. */
  function FilterSet(filterCanIds: Option<seq<int>>): (fs: Option<set<string>>)
    ensures fs.Some? <==> filterCanIds.Some? && filterCanIds.value != []
  {
    if filterCanIds.None? || filterCanIds.value == [] then None
    else Some(set i | i in filterCanIds.value :: FilterKey(i))
  }

  /** `filter_set is None or parsed["can_id"].split()[0] in filter_set`. */
  predicate Kept(fs: Option<set<string>>, r: Record)
  {
    fs.None? || (Words(r.canId) != [] && Words(r.canId)[0] in fs.value)
  }

  /** The outcome of `parse_line` for each line, in order. */
  function Outcomes(lines: seq<string>, raw: bool): (os: seq<LineOutcome>)
    ensures |os| == |lines|
  {
    seq(|lines|, k requires 0 <= k < |lines| => ParseLine(lines[k], raw))
  }

  /** One turn of the loop: the rows written after one more outcome, and whether it raised. */
  function EmitStep(rows: seq<Record>, o: LineOutcome, fs: Option<set<string>>): (seq<Record>, bool)
  {
    match o
    case TimestampError => (rows, true)
    case NoRecord => (rows, false)
    case Parsed(r) => (if Kept(fs, r) then rows + [r] else rows, false)
  }

  /**
   * The rows written for a sequence of line outcomes, and whether a timestamp
   * error escaped. Once an error escapes, later lines are not read.
   */
  function Emit(os: seq<LineOutcome>, fs: Option<set<string>>): (seq<Record>, bool)
  {
    if os == [] then ([], false)
    else
      var (rows, raised) := Emit(os[..|os| - 1], fs);
      if raised then (rows, true) else EmitStep(rows, os[|os| - 1], fs)
  }

  /** The rows `parse_log_file` writes for the lines of its input, and whether it raised. */
  function LogRows(lines: seq<string>, filterCanIds: Option<seq<int>>, raw: bool): (seq<Record>, bool)
  {
    Emit(Outcomes(lines, raw), FilterSet(filterCanIds))
  }

  /** `parse_log_file(input, output, filter_can_ids, raw_mode)` without the file plumbing. */
  method ParseLogFile(lines: seq<string>, filterCanIds: Option<seq<int>>, raw: bool)
    returns (rows: seq<Record>, raised: bool)
    ensures (rows, raised) == LogRows(lines, filterCanIds, raw)
  {
    var filterSet := FilterSet(filterCanIds);
    ghost var os := Outcomes(lines, raw);
    rows := [];
    raised := false;
    var i := 0;
    while i < |lines|
      invariant 0 <= i <= |lines|
      invariant (rows, false) == Emit(os[..i], filterSet)
    {
      var parsed := ParseAt(lines, i, raw);
      rows, raised := WriteRow(rows, parsed, filterSet);
      EmitNext(os, filterSet, i);
      if raised {
        EmitStops(os, filterSet, i + 1);
        return;
      }
      i := i + 1;
    }
    EmitStops(os, filterSet, i);
  }

  method ParseAt(lines: seq<string>, i: nat, raw: bool) returns (o: LineOutcome)
    requires i < |lines|
    ensures o == Outcomes(lines, raw)[i]
  {
    o := ParseLine(lines[i], raw);
  }

  lemma EmitNext(os: seq<LineOutcome>, fs: Option<set<string>>, i: nat)
    requires i < |os|
    ensures Emit(os[..i + 1], fs) ==
      var (rows, raised) := Emit(os[..i], fs);
      if raised then (rows, true) else EmitStep(rows, os[i], fs)
  {
    assert os[..i + 1][..i] == os[..i];
  }

  /** The body of the loop for one parsed line: write the record if it passes the filter, or raise. */
  method WriteRow(rows: seq<Record>, parsed: LineOutcome, filterSet: Option<set<string>>)
    returns (rows': seq<Record>, raised: bool)
    ensures (rows', raised) == EmitStep(rows, parsed, filterSet)
  {
    rows' := rows;
    raised := false;
    match parsed {
      case TimestampError =>
        raised := true;
      case NoRecord =>
      case Parsed(r) =>
        if Kept(filterSet, r) {
          rows' := rows + [r];
        }
    }
  }

  /** After an escaped error no further line changes the outcome. */
  lemma {:induction false} EmitStops(os: seq<LineOutcome>, fs: Option<set<string>>, n: nat)
    requires n <= |os| && (n < |os| ==> Emit(os[..n], fs).1)
    ensures Emit(os, fs) == Emit(os[..n], fs)
    decreases |os| - n
  {
    if n < |os| {
      assert os[..n + 1][..n] == os[..n];
      EmitStops(os, fs, n + 1);
    } else {
      assert os[..n] == os;
    }
  }

  // ---------------------------------------------------------------------------
  // Properties of the loop
  // ---------------------------------------------------------------------------

  /** Every row written passes the filter and is the record of one of the lines. */
  lemma {:induction false} RowsComeFromLines(os: seq<LineOutcome>, fs: Option<set<string>>)
    ensures forall r | r in Emit(os, fs).0 :: Kept(fs, r) && Parsed(r) in os
  {
    if os != [] {
      var init := os[..|os| - 1];
      var last := os[|os| - 1];
      RowsComeFromLines(init, fs);
      assert os == init + [last];
      assert forall o | o in init :: o in os;
      var rows := Emit(init, fs).0;
      var raised := Emit(init, fs).1;
      if !raised && last.Parsed? && Kept(fs, last.record) {
        var rows' := rows + [last.record];
        assert Emit(os, fs).0 == rows';
        assert Parsed(last.record) == last;
        forall r | r in rows' ensures Kept(fs, r) && Parsed(r) in os {
          if r in rows {
            assert Parsed(r) in init;
          }
        }
      } else {
        assert Emit(os, fs).0 == rows;
      }
    }
  }

  /**
   * Outcomes are handled one after the other: the rows for two stretches of input
   * are those of the first followed by those of the second, unless the first raised.
   */
  lemma {:induction false} Concatenation(a: seq<LineOutcome>, b: seq<LineOutcome>, fs: Option<set<string>>)
    requires !Emit(a, fs).1
    ensures Emit(a + b, fs) == (Emit(a, fs).0 + Emit(b, fs).0, Emit(b, fs).1)
  {
    if b == [] {
      assert a + b == a;
      assert Emit(a, fs).0 + [] == Emit(a, fs).0;
    } else {
      var b' := b[..|b| - 1];
      assert (a + b)[..|a + b| - 1] == a + b';
      assert (a + b)[|a + b| - 1] == b[|b| - 1];
      Concatenation(a, b', fs);
      var rowsA := Emit(a, fs).0;
      var (rowsB', raisedB') := Emit(b', fs);
      assert Emit(a + b', fs) == (rowsA + rowsB', raisedB');
      if !raisedB' && b[|b| - 1].Parsed? {
        var r := b[|b| - 1].record;
        assert (rowsA + rowsB') + [r] == rowsA + (rowsB' + [r]);
      }
    }
  }

  /**
   * Without a timestamp error, the record of line `k` is written, between the rows
   * of the lines before it and those of the lines after it, exactly when it passes
   * the filter.
   */
  lemma WrittenIffKept(os: seq<LineOutcome>, fs: Option<set<string>>, k: nat)
    requires k < |os| && os[k].Parsed? && TimestampError !in os
    ensures Emit(os, fs).0 ==
      Emit(os[..k], fs).0 + (if Kept(fs, os[k].record) then [os[k].record] else []) + Emit(os[k + 1..], fs).0
  {
    NeverRaises(os[..k], fs);
    NeverRaises(os[..k + 1], fs);
    assert os[..k + 1] == os[..k] + [os[k]];
    Concatenation(os[..k], [os[k]], fs);
    Concatenation(os[..k + 1], os[k + 1..], fs);
    assert os[..k + 1] + os[k + 1..] == os;
    assert [os[k]][..0] == [];
  }

  /** A timestamp error escapes exactly when some line has a malformed timestamp. */
  lemma {:induction false} RaisesIffBadTimestamp(os: seq<LineOutcome>, fs: Option<set<string>>)
    ensures Emit(os, fs).1 <==> TimestampError in os
  {
    if os != [] {
      var init := os[..|os| - 1];
      RaisesIffBadTimestamp(init, fs);
      assert os == init + [os[|os| - 1]];
    }
  }

  lemma NeverRaises(os: seq<LineOutcome>, fs: Option<set<string>>)
    requires TimestampError !in os
    ensures !Emit(os, fs).1
  {
    RaisesIffBadTimestamp(os, fs);
  }

  /** The filter key of an id is the first word of the CAN id column exactly when the two ids are equal. */
  lemma FilterKeyMatches(i: int, id: nat)
    ensures FilterKey(i) == Words(CanIdText(id))[0] <==> i == id
  {
    if FilterKey(i) == "0x" + NatText(id, 16) {
      if i < 0 {
        assert FilterKey(i)[2] == '-';
        assert IsHexDigit(NatText(id, 16)[0]);
      } else {
        assert FilterKey(i)[2..] == NatText(i, 16);
        NatTextInjective(i, id, 16);
      }
    }
  }

  /**
   * With a non-empty filter list, the CAN id column of `id` passes the filter
   * exactly when `id` is in the list; negative ids in the list never match anything.
   */
  lemma FilterMembership(ids: seq<int>, id: nat)
    requires ids != []
    ensures Words(CanIdText(id))[0] in FilterSet(Some(ids)).value <==> id in ids
  {
    var key := Words(CanIdText(id))[0];
    if id in ids {
      FilterKeyMatches(id, id);
    }
    if key in FilterSet(Some(ids)).value {
      var i :| i in ids && FilterKey(i) == key;
      FilterKeyMatches(i, id);
    }
  }

  /** The CAN id column of a parsed line is `0x<HEX> (<dec>)` for the id in the line. */
  lemma ParsedCanIdColumn(line: string, raw: bool)
    requires ParseLine(line, raw).Parsed?
    ensures MatchLine(line).Some?
    ensures ParseLine(line, raw).record.canId == CanIdText(ParseNat(MatchLine(line).value.0.idHex, 16))
  {
  }

  /** A parsed line's record is written under a non-empty filter exactly when the line's CAN id is listed. */
  lemma ParsedLineKept(line: string, raw: bool, ids: seq<int>)
    requires ids != [] && ParseLine(line, raw).Parsed?
    ensures MatchLine(line).Some?
    ensures Kept(FilterSet(Some(ids)), ParseLine(line, raw).record) <==> ParseNat(MatchLine(line).value.0.idHex, 16) in ids
  {
    ParsedCanIdColumn(line, raw);
    FilterMembership(ids, ParseNat(MatchLine(line).value.0.idHex, 16));
  }

  /** The records of the lines that parse, in order. */
  function Records(os: seq<LineOutcome>): seq<Record>
  {
    if os == [] then []
    else
      var init := Records(os[..|os| - 1]);
      match os[|os| - 1]
      case Parsed(r) => init + [r]
      case _ => init
  }

  /** Without a filter (missing or empty list) and without a timestamp error, every parsed record is written. */
  lemma {:induction false} NoFilterKeepsAll(os: seq<LineOutcome>)
    requires TimestampError !in os
    ensures Emit(os, None) == (Records(os), false)
  {
    if os != [] {
      assert os == os[..|os| - 1] + [os[|os| - 1]];
      NoFilterKeepsAll(os[..|os| - 1]);
    }
  }
}
