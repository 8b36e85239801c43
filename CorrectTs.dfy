/**
 * The text helpers of the timestamp-correction script: `check`, the validator of
 * the fixed-width `(dddddddddd.dddddd)` timestamp at the start of a candump line;
 * `getCanDate`, which cuts a line into its timestamp, interface, CAN id, node id and
 * data texts; and `statistics`, the per-id sighting counter.
 */
module CorrectTs {
  import opened Wrappers
  import opened PyText
  import opened Numerals

  // ---------------------------------------------------------------------------
  // check
  // ---------------------------------------------------------------------------

  /** What `check(line)` does: return a boolean, or raise `IndexError` on `line[11]` or `line[18]`. */
  datatype CheckOutcome = Returned(ok: bool) | IndexError

  /** The length of the timestamp prefix `(` + 10 digits + `.` + 6 digits + `)`. */
  const StampLength := 19

  /** The character allowed at position `k` of the timestamp prefix. */
  predicate StampChar(k: nat, c: char)
  {
    if k == 0 then c == '('
    else if k <= 10 then IsDigit(c)
    else if k == 11 then c == '.'
    else if k <= 17 then IsDigit(c)
    else c == ')'
  }

  /** Every character of `line` within the first 19 is the one the timestamp prefix has there. */
  predicate FitsStamp(line: string)
  {
    forall k | 0 <= k < |line| && k < StampLength :: StampChar(k, line[k])
  }

  /**
   * `check(line)`: a line is accepted exactly when it is at least 19 characters
   * long and begins with the timestamp prefix. A non-empty line shorter than that
   * which fits the prefix as far as it goes reaches `line[11]` or `line[18]` and
   * raises; every other line is rejected.
   */
  method Check(line: string) returns (r: CheckOutcome)
    ensures r == Returned(true) <==> |line| >= StampLength && FitsStamp(line)
    ensures r == IndexError <==> line != [] && |line| < StampLength && FitsStamp(line)
  {
    if line == [] {
      return Returned(false);
    }
    if line[0] != '(' {
      assert !StampChar(0, line[0]);
      return Returned(false);
    }
    var seconds := Slice(line, 1, 11);
    for k := 0 to |seconds|
      invariant forall j | 1 <= j < 1 + k :: IsDigit(line[j])
    {
      if !IsDigit(seconds[k]) {
        assert !StampChar(1 + k, line[1 + k]);
        return Returned(false);
      }
    }
    if |line| <= 11 {
      return IndexError;
    }
    if line[11] != '.' {
      assert !StampChar(11, line[11]);
      return Returned(false);
    }
    var fraction := Slice(line, 12, 18);
    for k := 0 to |fraction|
      invariant forall j | 12 <= j < 12 + k :: IsDigit(line[j])
    {
      if !IsDigit(fraction[k]) {
        assert !StampChar(12 + k, line[12 + k]);
        return Returned(false);
      }
    }
    if |line| <= 18 {
      return IndexError;
    }
    if line[18] != ')' {
      assert !StampChar(18, line[18]);
      return Returned(false);
    }
    return Returned(true);
  }

  /** A line that does not begin with `(` is rejected, whatever follows. */
  lemma RejectedWithoutParenthesis(line: string)
    requires line == [] || line[0] != '('
    ensures !(|line| >= StampLength && FitsStamp(line))
    ensures !(line != [] && |line| < StampLength && FitsStamp(line))
  {
    if line != [] {
      assert !StampChar(0, line[0]);
    }
  }

  /**
   * The two lines quoted beside `check`: six fractional digits are accepted;
   * seven put a digit where the closing parenthesis belongs.
   */
  lemma QuotedLines()
    ensures var good := "(1564994154.769054)" + " can0 40C#0A032A3A1BC27A49";
      |good| >= StampLength && FitsStamp(good)
    ensures var bad := "(1569437515.1000000)" + " can0 141#0A0200A942E1CBEA";
      |bad| >= StampLength && !FitsStamp(bad)
  {
    var stamp := "(1564994154.769054)";
    var good := stamp + " can0 40C#0A032A3A1BC27A49";
    forall k | 0 <= k < StampLength
      ensures StampChar(k, good[k])
    {
      assert good[k] == stamp[k];
      if k == 0 { assert stamp[0] == '('; }
      else if k == 1 { assert stamp[1] == '1'; }
      else if k == 2 { assert stamp[2] == '5'; }
      else if k == 3 { assert stamp[3] == '6'; }
      else if k == 4 { assert stamp[4] == '4'; }
      else if k == 5 { assert stamp[5] == '9'; }
      else if k == 6 { assert stamp[6] == '9'; }
      else if k == 7 { assert stamp[7] == '4'; }
      else if k == 8 { assert stamp[8] == '1'; }
      else if k == 9 { assert stamp[9] == '5'; }
      else if k == 10 { assert stamp[10] == '4'; }
      else if k == 11 { assert stamp[11] == '.'; }
      else if k == 12 { assert stamp[12] == '7'; }
      else if k == 13 { assert stamp[13] == '6'; }
      else if k == 14 { assert stamp[14] == '9'; }
      else if k == 15 { assert stamp[15] == '0'; }
      else if k == 16 { assert stamp[16] == '5'; }
      else if k == 17 { assert stamp[17] == '4'; } else { assert stamp[18] == ')'; }
    }
    var bad := "(1569437515.1000000)" + " can0 141#0A0200A942E1CBEA";
    assert bad[18] == "(1569437515.1000000)"[18] == '0';
    assert !StampChar(18, bad[18]);
  }

  // ---------------------------------------------------------------------------
  // getCanDate
  // ---------------------------------------------------------------------------

  /**
   * The tuple `(ts, canDevStr, canIdStr, dataStr, nodeIdStr)`; the timestamp is kept
   * as the text `float` is given.
   */
  datatype CanDate = CanDate(stamp: string, canDev: string, canId: string, data: string, nodeId: string)

  /**
   * `getCanDate(line)`: `None` stands for the `IndexError` raised when the line has
   * fewer than three words or its third word has no `#`.
   */
  function GetCanDate(line: string): (r: Option<CanDate>)
    ensures r.Some? <==> |Words(line)| >= 3 && '#' in Words(line)[2]
    ensures r.Some? ==> r.value.canDev == Words(line)[1] && '#' !in r.value.canId
    ensures r.Some? ==> |r.value.nodeId| <= 2 && |r.value.data| <= 32
  {
    var parts := Words(Join(Words(line), ' '));
    NormalisedWords(line);
    if |parts| < 3 then None
    else
      var parts2 := Split(parts[2], '#');
      SplitFields(parts[2], '#');
      if |parts2| < 2 then None
      else Some(CanDate(Slice(parts[0], 1, 18), parts[1], parts2[0], Slice(parts2[1], 8, 40), Slice(parts2[1], 0, 2)))
  }

  /** `s.split(sep)` has a second field exactly when `sep` occurs in `s`; the first field is what precedes it. */
  lemma SplitFields(s: string, sep: char)
    ensures |Split(s, sep)| >= 2 <==> sep in s
    ensures sep in s ==> Split(s, sep)[0] + [sep] <= s
  {
    var (head, rest) := Span(s, c => c != sep);
    if rest == [] {
      assert s == head;
      assert forall k | 0 <= k < |s| :: s[k] != sep;
    } else {
      assert rest[0] == sep;
      assert s == head + [sep] + rest[1..];
    }
  }

  /**
   * The fields of any line whose third word is `<id>#<data>` with a single `#`,
   * whatever the spacing, the line ending or the words after the third: the
   * timestamp text is characters 1 to 17 of the first word, the interface the
   * second word, and the node id and data are characters 0 to 1 and 8 to 39 of
   * the text after `#`.
   */
  lemma FieldsOfLine(line: string, idHex: string, hex: string)
    requires |Words(line)| >= 3 && Words(line)[2] == idHex + "#" + hex
    requires '#' !in idHex && '#' !in hex
    ensures GetCanDate(line) ==
      Some(CanDate(Slice(Words(line)[0], 1, 18), Words(line)[1], idHex, Slice(hex, 8, 40), Slice(hex, 0, 2)))
  {
    NormalisedWords(line);
    assert Join([idHex, hex], '#') == idHex + "#" + hex;
    SplitJoin([idHex, hex], '#');
  }

  /**
   * On a candump line `(<stamp>) <interface> <ID>#<DATA>` as the script reads it,
   * ending in a newline (or any other whitespace), the fields come out as the
   * script expects: the CAN id text, the node id as the first byte of the frame,
   * and the data as the bytes after the 4-byte header, at most 16 of them.
   */
  lemma CandumpFields(first: string, dev: string, idHex: string, frame: seq<Byte>, ending: string)
    requires first != [] && NoSpace(first) && dev != [] && NoSpace(dev)
    requires idHex != [] && NoSpace(idHex) && '#' !in idHex
    requires |frame| >= 4 && All(ending, IsSpace)
    ensures var n := if |frame| < 20 then |frame| else 20;
      GetCanDate(Join([first, dev, idHex + "#" + HexOfBytes(frame)], ' ') + ending) ==
      Some(CanDate(Slice(first, 1, 18), dev, idHex, HexOfBytes(frame[4..n]), ByteHex(frame[0])))
  {
    var hex := HexOfBytes(frame);
    HexWord(frame);
    var line := Join([first, dev, idHex + "#" + hex], ' ');
    ThreeWords(first, dev, idHex, hex);
    WordsBeforeSpaces(line, ending);
    FieldsOfLine(line + ending, idHex, hex);
    NodeIdDigits(frame);
    DataDigits(frame);
  }

  /** The hex rendering of bytes is one word without `#`. */
  lemma HexWord(bs: seq<Byte>)
    ensures NoSpace(HexOfBytes(bs)) && '#' !in HexOfBytes(bs)
  {
    FromHexOfBytes(bs);
    var hex := HexOfBytes(bs);
    assert forall k | 0 <= k < |hex| :: IsHexDigit(hex[k]);
  }

  /** Three words joined by single spaces split back into those words. */
  lemma ThreeWords(first: string, dev: string, idHex: string, hex: string)
    requires first != [] && NoSpace(first) && dev != [] && NoSpace(dev)
    requires idHex != [] && NoSpace(idHex) && '#' !in idHex
    requires NoSpace(hex) && '#' !in hex
    ensures Words(Join([first, dev, idHex + "#" + hex], ' ')) == [first, dev, idHex + "#" + hex]
  {
    var third := idHex + "#" + hex;
    assert NoSpace(third) by {
      assert forall k | |idHex| < k < |third| :: third[k] == hex[k - |idHex| - 1];
    }
    WordsOfJoin([first, dev, third]);
  }

  /** Digits 0 and 1 of a frame's hex are its first byte. */
  lemma NodeIdDigits(frame: seq<Byte>)
    requires |frame| >= 1
    ensures Slice(HexOfBytes(frame), 0, 2) == ByteHex(frame[0])
  {
    var hex := HexOfBytes(frame);
    assert hex == ByteHex(frame[0]) + HexOfBytes(frame[1..]);
    assert hex[..2] == ByteHex(frame[0]);
  }

  /** Digits 8 to 39 of a frame's hex are bytes 4 to 19. */
  lemma DataDigits(frame: seq<Byte>)
    requires |frame| >= 4
    ensures var n := if |frame| < 20 then |frame| else 20;
      Slice(HexOfBytes(frame), 8, 40) == HexOfBytes(frame[4..n])
  {
    var n := if |frame| < 20 then |frame| else 20;
    HexOfParts(frame, n);
    SliceOfMiddle(HexOfBytes(frame[..4]), HexOfBytes(frame[4..n]), HexOfBytes(frame[n..]));
  }

  /** The hex of a frame is the hex of its header, then of bytes 4 to `n`, then of the rest. */
  lemma HexOfParts(frame: seq<Byte>, n: nat)
    requires 4 <= n <= |frame|
    ensures HexOfBytes(frame) == HexOfBytes(frame[..4]) + (HexOfBytes(frame[4..n]) + HexOfBytes(frame[n..]))
    ensures n == |frame| ==> HexOfBytes(frame[n..]) == []
  {
    var rest := frame[4..];
    assert frame[..4] + rest == frame;
    assert frame[4..n] + frame[n..] == rest;
    HexOfBytesAppend(frame[..4], rest);
    HexOfBytesAppend(frame[4..n], frame[n..]);
  }

  /** Characters 8 to 39 of `a + (b + c)` are `b` when `a` has 8 and `b` fills them or `c` is empty. */
  lemma SliceOfMiddle(a: string, b: string, c: string)
    requires |a| == 8 && |b| <= 32 && (|b| < 32 ==> c == [])
    ensures Slice(a + (b + c), 8, 40) == b
  {
    var s := a + (b + c);
    assert s[8..8 + |b|] == b;
  }

  /**
   * A line that `check` accepts has a first word whose characters 1 to 17 are the
   * timestamp digits and point: `float` receives exactly `dddddddddd.dddddd`.
   */
  lemma CheckedStamp(line: string)
    requires |line| >= StampLength && FitsStamp(line)
    ensures Words(line) != [] && Slice(Words(line)[0], 1, 18) == line[1..18]
  {
    assert forall k | 0 <= k < StampLength :: StampChar(k, line[k]);
    assert forall k | 0 <= k < StampLength :: !IsSpace(line[k]);
    var (w, rest) := Span(line, c => !IsSpace(c));
    assert Words(line)[0] == w;
    SpanKeepsPrefix(line, StampLength, c => !IsSpace(c));
  }

  /** A span covers every leading character that satisfies its predicate. */
  lemma {:induction false} SpanKeepsPrefix(s: string, n: nat, p: char -> bool)
    requires n <= |s| && forall k | 0 <= k < n :: p(s[k])
    ensures |Span(s, p).0| >= n && Span(s, p).0[..n] == s[..n]
  {
    if n > 0 {
      SpanKeepsPrefix(s[1..], n - 1, p);
      var run := Span(s, p).0;
      assert run == [s[0]] + Span(s[1..], p).0;
      assert run[..n] == [s[0]] + Span(s[1..], p).0[..n - 1];
      assert s[..n] == [s[0]] + s[1..][..n - 1];
    }
  }

  // ---------------------------------------------------------------------------
  // statistics
  // ---------------------------------------------------------------------------

  /** `statistics(ids, id)` on a dictionary value: a new key gets 1 and then one more. */
  function Sighted(ids: map<int, int>, id: int): (r: map<int, int>)
    ensures id in r && r[id] == if id in ids then ids[id] + 1 else 2
    ensures r.Keys == ids.Keys + {id}
    ensures forall k | k in ids && k != id :: r[k] == ids[k]
  {
    var counted := if id !in ids then ids[id := 1] else ids;
    counted[id := counted[id] + 1]
  }

  /** The dictionary after `statistics` has been called with each id in turn, starting empty. */
  function Tally(sightings: seq<int>): map<int, int>
  {
    if sightings == [] then map[]
    else Sighted(Tally(sightings[..|sightings| - 1]), sightings[|sightings| - 1])
  }

  /** The number of times `id` occurs in `xs`. */
  function Occurrences(xs: seq<int>, id: int): (n: nat)
    ensures n <= |xs| && (n == 0 <==> id !in xs)
  {
    if xs == [] then 0
    else Occurrences(xs[..|xs| - 1], id) + (if xs[|xs| - 1] == id then 1 else 0)
  }

  /**
   * The counts the script prints: every id seen is a key, no other is, and each
   * count is one more than the number of sightings.
   */
  lemma {:induction false} TallyCounts(sightings: seq<int>)
    ensures forall id :: id in Tally(sightings) <==> id in sightings
    ensures forall id | id in sightings :: Tally(sightings)[id] == Occurrences(sightings, id) + 1
  {
    if sightings != [] {
      var init := sightings[..|sightings| - 1];
      TallyCounts(init);
      assert sightings == init + [sightings[|sightings| - 1]];
      forall id | id in sightings
        ensures id in init || id == sightings[|sightings| - 1]
      {
      }
    }
  }

  /** One of the script's two counters (`canIds`, `nodeIds`), updated in place. */
  class IdCounts {
    var ids: map<int, int>
    /** The ids passed to `statistics` so far. */
    ghost var sightings: seq<int>

    ghost predicate Valid()
      reads this
    {
      ids == Tally(sightings)
    }

    /** `canIds = {}`. */
    constructor ()
      ensures Valid() && sightings == [] && ids == map[]
    {
      ids := map[];
      sightings := [];
    }

    /** `statistics(ids, id)`. */
    method Statistics(id: int)
      requires Valid()
      modifies this
      ensures Valid() && sightings == old(sightings) + [id]
      ensures ids == Sighted(old(ids), id)
    {
      if id !in ids {
        ids := ids[id := 1];
      }
      ids := ids[id := ids[id] + 1];
      sightings := sightings + [id];
      assert sightings[..|sightings| - 1] == old(sightings);
    }
  }
}
