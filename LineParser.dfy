/**
 * `parse_line`: recognise one candump-style log line
 *
 *     (<seconds>) can<n> <CAN id in hex>#<frame bytes in hex>
 *
 * with the anchored pattern `CAN_LINE_PATTERN`, split the frame into the
 * 4-byte CANaerospace header and the payload, decode the payload and build
 * the output record.
 */
module LineParser {
  import opened Wrappers
  import opened PyText
  import opened Numerals
  import opened TypeTable
  import opened ParameterCatalog
  import opened PayloadDecoder

  // ---------------------------------------------------------------------------
  // The pattern  \(([\d.]+)\)\s+can\d+\s+([0-9A-Fa-f]+)#([0-9A-Fa-f]+)
  // ---------------------------------------------------------------------------

  /** The class `[\d.]` of the timestamp group. */
  predicate IsDigitOrDot(c: char) { IsDigit(c) || c == '.' }

  /**
   * The parts of a line that the pattern matches, in order: the timestamp group,
   * the whitespace run, the bus number after `can`, the second whitespace run,
   * the CAN-id group and the data group.
   */
  datatype LineMatch = LineMatch(stamp: string, gap1: string, bus: string, gap2: string, idHex: string, dataHex: string)

  /** Each part is a non-empty run of its character class. */
  predicate WellFormed(m: LineMatch)
  {
    && m.stamp != [] && All(m.stamp, IsDigitOrDot)
    && m.gap1 != [] && All(m.gap1, IsSpace)
    && m.bus != [] && All(m.bus, IsDigit)
    && m.gap2 != [] && All(m.gap2, IsSpace)
    && m.idHex != [] && AllHexDigits(m.idHex)
    && m.dataHex != [] && AllHexDigits(m.dataHex)
  }

  /** A line that starts with the text of a match and goes on with `rest`. */
  function LineText(m: LineMatch, rest: string): string
  {
    "(" + (m.stamp + (")" + (m.gap1 + ("can" + (m.bus + (m.gap2 + (m.idHex + ("#" + (m.dataHex + rest)))))))))
  }

  /** What may follow a greedy match: nothing, or a character that cannot extend the data group. */
  predicate EndsMatch(rest: string)
  {
    rest == [] || !IsHexDigit(rest[0])
  }

  /** The tail `([0-9A-Fa-f]+)#([0-9A-Fa-f]+)` of the pattern: the CAN-id group, `#`, the data group and what follows. */
  function ScanIdData(s: string): (r: Option<(string, string, string)>)
    ensures r.Some? ==>
      var (idHex, dataHex, rest) := r.value;
      && idHex != [] && AllHexDigits(idHex) && dataHex != [] && AllHexDigits(dataHex)
      && EndsMatch(rest) && s == idHex + ("#" + (dataHex + rest))
  {
    var (idHex, s1) := Span(s, IsHexDigit);
    if idHex == [] || s1 == [] || s1[0] != '#' then None
    else
      var (dataHex, rest) := Span(s1[1..], IsHexDigit);
      assert s1 == "#" + s1[1..];
      if dataHex == [] then None else Some((idHex, dataHex, rest))
  }

  /** The middle `\d+\s+` of the pattern, after `can`, followed by the tail. */
  function ScanBus(s: string): (r: Option<(string, string, string, string, string)>)
    ensures r.Some? ==>
      var (bus, gap2, idHex, dataHex, rest) := r.value;
      && bus != [] && All(bus, IsDigit) && gap2 != [] && All(gap2, IsSpace)
      && ScanIdData(idHex + ("#" + (dataHex + rest))) == Some((idHex, dataHex, rest))
      && s == bus + (gap2 + (idHex + ("#" + (dataHex + rest))))
  {
    var (bus, s1) := Span(s, IsDigit);
    var (gap2, s2) := Span(s1, IsSpace);
    if bus == [] || gap2 == [] then None
    else
      match ScanIdData(s2)
      case None => None
      case Some((idHex, dataHex, rest)) => Some((bus, gap2, idHex, dataHex, rest))
  }

  /** The head `\(([\d.]+)\)\s+can` of the pattern: the timestamp group, the first gap, and what follows `can`. */
  function ScanHead(line: string): (r: Option<(string, string, string)>)
    ensures r.Some? ==>
      var (stamp, gap1, s) := r.value;
      && stamp != [] && All(stamp, IsDigitOrDot) && gap1 != [] && All(gap1, IsSpace)
      && line == "(" + (stamp + (")" + (gap1 + ("can" + s))))
  {
    if line == [] || line[0] != '(' then None
    else
      var (stamp, s1) := Span(line[1..], IsDigitOrDot);
      if stamp == [] || s1 == [] || s1[0] != ')' then None
      else
        var (gap1, s2) := Span(s1[1..], IsSpace);
        if gap1 == [] || |s2| < 3 || s2[..3] != "can" then None
        else
          assert s2 == "can" + s2[3..] && s1 == ")" + s1[1..] && line == "(" + line[1..];
          Some((stamp, gap1, s2[3..]))
  }

  /**
   * `CAN_LINE_PATTERN.match(line)`, with the text after the match: anchored at
   * the start of the line, each repetition greedy, text after the data group
   * ignored. Every repetition is followed by a character outside its own class,
   * so the greedy run is the only one that can lead to a match and no
   * backtracking is needed. The line is the text of the match followed by the rest.
   */
  function MatchLine(line: string): (r: Option<(LineMatch, string)>)
    ensures r.Some? ==> WellFormed(r.value.0) && EndsMatch(r.value.1) && line == LineText(r.value.0, r.value.1)
  {
    match ScanHead(line)
    case None => None
    case Some((stamp, gap1, s)) =>
      match ScanBus(s)
      case None => None
      case Some((bus, gap2, idHex, dataHex, rest)) =>
        Some((LineMatch(stamp, gap1, bus, gap2, idHex, dataHex), rest))
  }

  lemma ScanIdDataComplete(idHex: string, dataHex: string, rest: string)
    requires idHex != [] && AllHexDigits(idHex) && dataHex != [] && AllHexDigits(dataHex) && EndsMatch(rest)
    ensures ScanIdData(idHex + ("#" + (dataHex + rest))) == Some((idHex, dataHex, rest))
  {
    SpanOfRun(idHex, "#" + (dataHex + rest), IsHexDigit);
    assert ("#" + (dataHex + rest))[1..] == dataHex + rest;
    SpanOfRun(dataHex, rest, IsHexDigit);
  }

  lemma ScanBusComplete(m: LineMatch, rest: string)
    requires WellFormed(m) && EndsMatch(rest)
    ensures ScanBus(m.bus + (m.gap2 + (m.idHex + ("#" + (m.dataHex + rest))))) ==
      Some((m.bus, m.gap2, m.idHex, m.dataHex, rest))
  {
    var s2 := m.idHex + ("#" + (m.dataHex + rest));
    SpanOfRun(m.bus, m.gap2 + s2, IsDigit);
    SpanOfRun(m.gap2, s2, IsSpace);
    ScanIdDataComplete(m.idHex, m.dataHex, rest);
  }

  /**
   * Every line made of the text of a match followed by something that cannot
   * extend the data group matches, with exactly those parts and that rest.
   */
  lemma ScanHeadComplete(m: LineMatch, s3: string)
    requires WellFormed(m)
    ensures ScanHead("(" + (m.stamp + (")" + (m.gap1 + ("can" + s3))))) == Some((m.stamp, m.gap1, s3))
  {
    var s2 := "can" + s3;
    var s1 := ")" + (m.gap1 + s2);
    var line := "(" + (m.stamp + s1);
    assert line[1..] == m.stamp + s1;
    SpanOfRun(m.stamp, s1, IsDigitOrDot);
    assert s1[1..] == m.gap1 + s2;
    SpanOfRun(m.gap1, s2, IsSpace);
    assert s2[..3] == "can" && s2[3..] == s3;
  }

  lemma MatchLineComplete(m: LineMatch, rest: string)
    requires WellFormed(m) && EndsMatch(rest)
    ensures MatchLine(LineText(m, rest)) == Some((m, rest))
  {
    var s3 := m.bus + (m.gap2 + (m.idHex + ("#" + (m.dataHex + rest))));
    ScanHeadComplete(m, s3);
    ScanBusComplete(m, rest);
  }

  /** The match is unique: two matches of the same line have the same parts and the same rest. */
  lemma MatchUnique(m1: LineMatch, rest1: string, m2: LineMatch, rest2: string)
    requires WellFormed(m1) && EndsMatch(rest1) && WellFormed(m2) && EndsMatch(rest2)
    requires LineText(m1, rest1) == LineText(m2, rest2)
    ensures m1 == m2 && rest1 == rest2
  {
    MatchLineComplete(m1, rest1);
    MatchLineComplete(m2, rest2);
  }

  // ---------------------------------------------------------------------------
  // The timestamp group and float()
  // ---------------------------------------------------------------------------

  /**
   * The strings of digits and dots that Python's `float()` accepts: digits with at
   * most one decimal point, and at least one digit (`12`, `12.`, `12.5`, `.5`).
   */
  predicate FloatLiteral(s: string)
  {
    var (whole, r) := Span(s, IsDigit);
    if r == [] then whole != []
    else r[0] == '.' && All(r[1..], IsDigit) && (whole != [] || |r| > 1)
  }

  /**
   * On the strings the timestamp group can hold, `float()` accepts exactly those
   * with at most one decimal point and at least one digit.
   */
  lemma FloatLiteralGrammar(s: string)
    requires All(s, IsDigitOrDot)
    ensures FloatLiteral(s) <==>
      (forall i, j | 0 <= i < j < |s| :: s[i] != '.' || s[j] != '.') && (exists i | 0 <= i < |s| :: IsDigit(s[i]))
  {
    var (whole, r) := Span(s, IsDigit);
    assert s == whole + r;
    var n := |whole|;
    forall k | 0 <= k < n ensures IsDigit(s[k]) {
      assert s[k] == whole[k];
    }
    if r == [] {
      if s != [] {
        assert IsDigit(s[0]);
      }
    } else {
      assert s[n] == r[0];
      assert r[0] == '.';
      forall k | n < k < |s| ensures s[k] == r[1..][k - n - 1] {
      }
      if All(r[1..], IsDigit) {
        assert forall k | 0 <= k < |s| && k != n :: IsDigit(s[k]);
        if whole != [] {
          assert IsDigit(s[0]);
        } else if |r| > 1 {
          assert IsDigit(s[n + 1]);
        } else {
          assert s == ['.'];
        }
      } else {
        var k :| 0 <= k < |r[1..]| && !IsDigit(r[1..][k]);
        assert s[n + 1 + k] == '.';
      }
    }
  }

  /** A timestamp group with two decimal points is not a number. */
  lemma TwoPointsNotFloat()
    ensures !FloatLiteral("1.2.3")
  {
    SpanOfRun("1", ".2.3", IsDigit);
    assert "1" + ".2.3" == "1.2.3";
    assert ".2.3"[1..][1] == '.';
  }

  /** A timestamp group without a digit is not a number. */
  lemma LonePointNotFloat()
    ensures !FloatLiteral(".")
  {
    SpanOfRun("", ".", IsDigit);
    assert "" + "." == ".";
  }

  /** Digits, one point and digits make a number. */
  lemma DecimalIsFloat()
    ensures FloatLiteral("12.5")
  {
    SpanOfRun("12", ".5", IsDigit);
    assert "12" + ".5" == "12.5";
    assert ".5"[1..] == "5";
  }

  // ---------------------------------------------------------------------------
  // Records
  // ---------------------------------------------------------------------------

  /**
   * One output row. The timestamp column holds the matched timestamp text (its
   * ISO-8601 rendering is not part of this model); `decodedValue` and `dataType`
   * are the pair returned by the payload decoder.
   */
  datatype Record = Record(
    timestamp: string,
    canId: string,
    descr: string,
    unit: string,
    nodeId: Byte,
    serviceCode: Byte,
    messageCode: Byte,
    dataTypeCode: string,
    dataType: string,
    decodedValue: Value,
    rawDataHex: string)

  /**
   * What `parse_line` does with a line: a record, `None`, or the `ValueError`
   * that `float()` raises outside any `try` and that therefore escapes.
   */
  datatype LineOutcome = Parsed(record: Record) | NoRecord | TimestampError

  /** `f"0x{can_id:X} ({can_id:d})"`. */
  function CanIdText(id: nat): (s: string)
    ensures Words(s) == ["0x" + NatText(id, 16), "(" + NatText(id, 10) + ")"]
  {
    var first := "0x" + NatText(id, 16);
    var second := "(" + NatText(id, 10) + ")";
    assert NoSpace(first) && NoSpace(second);
    WordsOfJoin([first, second]);
    assert Join([first, second], ' ') == first + " " + second;
    first + " " + second
  }

  /** The record built from a match and the frame bytes it denotes. */
  function MakeRecord(m: LineMatch, frame: seq<Byte>, raw: bool): Record
    requires |frame| >= 4 && AllHexDigits(m.idHex)
  {
    var id := ParseNat(m.idHex, 16);
    var decoded := Decode(frame[4..], frame[1], raw);
    var (name, unit) := Describe(id);
    Record(m.stamp, CanIdText(id), name, unit, frame[0], frame[2], frame[3],
      "0x" + ByteHex(frame[1]), decoded.status, decoded.value, Upper(m.dataHex))
  }

  /**
   * What `parse_line` does once the pattern has matched: the timestamp must be a
   * number (otherwise the error escapes); the upper-cased data group must be whole
   * bytes (`bytes.fromhex` raises, caught, on an odd number of digits); and the
   * frame must hold the 4-byte header.
   */
  function ParseMatch(m: LineMatch, raw: bool): LineOutcome
    requires WellFormed(m)
  {
    if !FloatLiteral(m.stamp) then TimestampError
    else if |m.dataHex| % 2 != 0 then NoRecord
    else
      var frame := FrameOf(m);
      if |frame| < 4 then NoRecord
      else Parsed(MakeRecord(m, frame, raw))
  }

  /** `parse_line(line, raw_mode)`: `None` when the pattern does not match at the start of the line. */
  function ParseLine(line: string, raw: bool): (r: LineOutcome)
    ensures r.Parsed? ==> |Words(r.record.canId)| == 2
  {
    match MatchLine(line)
    case None => NoRecord
    case Some((m, _)) => ParseMatch(m, raw)
  }

  /** The frame bytes a matched line denotes, when its data group is whole bytes: `bytes.fromhex(data.upper())`. */
  function FrameOf(m: LineMatch): (frame: seq<Byte>)
    requires WellFormed(m) && |m.dataHex| % 2 == 0
    ensures 2 * |frame| == |m.dataHex|
  {
    UpperHex(m.dataHex);
    FromHex(Upper(m.dataHex))
  }

  // ---------------------------------------------------------------------------
  // Properties of parse_line
  // ---------------------------------------------------------------------------

  /**
   * The three ways a line yields no record, and the one way it raises: no match
   * at the start, a timestamp that is not a number, an odd number of data
   * digits, or fewer than 4 frame bytes (8 digits).
   */
  lemma OutcomeCases(line: string, raw: bool)
    ensures ParseLine(line, raw).TimestampError? <==>
      MatchLine(line).Some? && !FloatLiteral(MatchLine(line).value.0.stamp)
    ensures ParseLine(line, raw).Parsed? <==>
      MatchLine(line).Some? && FloatLiteral(MatchLine(line).value.0.stamp)
      && |MatchLine(line).value.0.dataHex| % 2 == 0 && |MatchLine(line).value.0.dataHex| >= 8
  {
    if MatchLine(line).Some? {
      MatchOutcomes(MatchLine(line).value.0, raw);
    }
  }

  lemma MatchOutcomes(m: LineMatch, raw: bool)
    requires WellFormed(m)
    ensures ParseMatch(m, raw).TimestampError? <==> !FloatLiteral(m.stamp)
    ensures ParseMatch(m, raw).Parsed? <==> FloatLiteral(m.stamp) && |m.dataHex| % 2 == 0 && |m.dataHex| >= 8
  {
  }

  /**
   * A parsed record splits the frame as the CANaerospace header prescribes: node id,
   * data-type code, service code and message code are bytes 0 to 3, the decoder is
   * given exactly the bytes from 4 on, and `raw_data_hex` is the upper-case hex of
   * the whole frame, header included.
   */
  lemma ParsedFields(m: LineMatch, raw: bool)
    requires WellFormed(m) && ParseMatch(m, raw).Parsed?
    ensures var frame := FrameOf(m);
      var r := ParseMatch(m, raw).record;
      && |frame| >= 4
      && r.nodeId == frame[0] && r.serviceCode == frame[2] && r.messageCode == frame[3]
      && r.dataTypeCode == "0x" + ByteHex(frame[1])
      && Decoded(r.decodedValue, r.dataType) == Decode(frame[4..], frame[1], raw)
      && r.rawDataHex == HexOfBytes(frame)
      && FromHex(r.rawDataHex) == frame
      && r.timestamp == m.stamp
  {
    UpperHex(m.dataHex);
    HexOfFromHex(Upper(m.dataHex));
    FromHexOfBytes(FrameOf(m));
  }

  /** The CAN id column names the id in hex and in decimal, and the catalogue gives its name and unit. */
  lemma ParsedCanId(m: LineMatch, raw: bool)
    requires WellFormed(m) && ParseMatch(m, raw).Parsed?
    ensures var id := ParseNat(m.idHex, 16);
      var r := ParseMatch(m, raw).record;
      && Words(r.canId)[0] == "0x" + NatText(id, 16)
      && r.canId == "0x" + NatText(id, 16) + " (" + NatText(id, 10) + ")"
      && (r.descr, r.unit) == Describe(id)
  {
    var id := ParseNat(m.idHex, 16);
    var r := MakeRecord(m, FrameOf(m), raw);
    assert ParseMatch(m, raw).record == r;
    assert r.canId == CanIdText(id);
  }

  /** The match of a candump line `(<stamp>) can<bus> <ID>#<BYTES>`, single spaces, upper-case hex. */
  function CandumpMatch(stamp: string, bus: string, id: nat, frame: seq<Byte>): LineMatch
  {
    LineMatch(stamp, " ", bus, " ", NatText(id, 16), HexOfBytes(frame))
  }

  /** The record `parse_line` is meant to produce for a frame with this timestamp, id and bytes. */
  function FrameRecord(stamp: string, id: nat, frame: seq<Byte>, raw: bool): Record
    requires |frame| >= 4
  {
    var decoded := Decode(frame[4..], frame[1], raw);
    Record(stamp, CanIdText(id), Describe(id).0, Describe(id).1, frame[0], frame[2], frame[3],
      "0x" + ByteHex(frame[1]), decoded.status, decoded.value, HexOfBytes(frame))
  }

  /**
   * The recogniser inverts the log format: a rendered candump line, followed by
   * anything that cannot extend the data, parses to the record of that very frame.
   */
  lemma ParseCandumpLine(stamp: string, bus: string, id: nat, frame: seq<Byte>, rest: string, raw: bool)
    requires stamp != [] && All(stamp, IsDigitOrDot) && FloatLiteral(stamp)
    requires bus != [] && All(bus, IsDigit)
    requires |frame| >= 4 && EndsMatch(rest)
    ensures ParseLine(LineText(CandumpMatch(stamp, bus, id, frame), rest), raw) == Parsed(FrameRecord(stamp, id, frame, raw))
  {
    var m := CandumpMatch(stamp, bus, id, frame);
    FromHexOfBytes(frame);
    MatchLineComplete(m, rest);
    ParseMatchOfCandump(stamp, bus, id, frame, raw);
  }

  lemma ParseMatchOfCandump(stamp: string, bus: string, id: nat, frame: seq<Byte>, raw: bool)
    requires stamp != [] && All(stamp, IsDigitOrDot) && FloatLiteral(stamp)
    requires bus != [] && All(bus, IsDigit)
    requires |frame| >= 4
    ensures WellFormed(CandumpMatch(stamp, bus, id, frame))
    ensures ParseMatch(CandumpMatch(stamp, bus, id, frame), raw) == Parsed(FrameRecord(stamp, id, frame, raw))
  {
    CandumpFrame(stamp, bus, id, frame);
  }

  /** The data group of a rendered candump line decodes to its frame, and its id group to its id. */
  lemma CandumpFrame(stamp: string, bus: string, id: nat, frame: seq<Byte>)
    requires stamp != [] && All(stamp, IsDigitOrDot)
    requires bus != [] && All(bus, IsDigit)
    requires frame != []
    ensures var m := CandumpMatch(stamp, bus, id, frame);
      && WellFormed(m) && |m.dataHex| % 2 == 0
      && FrameOf(m) == frame && Upper(m.dataHex) == HexOfBytes(frame)
      && ParseNat(m.idHex, 16) == id
  {
    var hex := HexOfBytes(frame);
    FromHexOfBytes(frame);
    ParseNatText(id, 16);
    HexOfFromHex(hex);
    assert Upper(hex) == hex;
    var m := CandumpMatch(stamp, bus, id, frame);
    assert m.dataHex == hex;
    assert FrameOf(m) == FromHex(hex);
    assert WellFormed(m);
  }
}
