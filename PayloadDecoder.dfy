/**
 * `decode_data_by_type`: decode the bytes that follow the 4-byte CANaerospace
 * header according to the data-type code, never failing: every problem becomes
 * a status string next to a hexadecimal rendering of the bytes concerned.
 */
module PayloadDecoder {
  import opened Wrappers
  import opened PyText
  import opened Numerals
  import opened TypeTable

  /** One element of the tuple `struct.unpack` returns; an IEEE-754 float is kept as its bit pattern. */
  datatype Scalar = IntScalar(i: int) | FloatBits(bits: nat, width: nat)

  /** The decoded value: a `str` (hexadecimal or comma-joined) or a single number. */
  datatype Value = Text(text: string) | Number(scalar: Scalar)

  /** The pair `(decoded_value, status)`. */
  datatype Decoded = Decoded(value: Value, status: string)

  /** Python's `raw_bytes[:n]`. */
  function Take(bs: seq<Byte>, n: nat): (r: seq<Byte>)
    ensures |r| == if n < |bs| then n else |bs|
    ensures r == bs[..|r|]
  {
    if n < |bs| then bs[..n] else bs
  }

  /** The unsigned reading of a byte string in the given order. */
  function Unsigned(order: ByteOrder, bs: seq<Byte>): (u: nat)
    ensures u < Pow256(|bs|)
  {
    if order == Big then
      BigEndianBound(bs);
      BigEndian(bs)
    else
      LittleIsReversedBig(bs);
      BigEndianBound(Reverse(bs));
      LittleEndian(bs)
  }

  /** One integer element: the unsigned reading, or its two's-complement reading when signed. */
  function IntValue(order: ByteOrder, bs: seq<Byte>, signed: bool): int
    requires |bs| >= 1
  {
    if signed then ToSigned(Unsigned(order, bs), |bs|) else Unsigned(order, bs)
  }

  /** The integers of `count` consecutive elements of `width` bytes each: element `j` is read from bytes `j*width` to `(j+1)*width`. */
  function IntElements(order: ByteOrder, data: seq<Byte>, count: nat, width: Width, signed: bool): (xs: seq<int>)
    requires |data| == count * width
    ensures |xs| == count
  {
    seq(count, j requires 0 <= j < count =>
      ElementWithin(j, count, width);
      IntValue(order, Element(data, j, width), signed))
  }

  /** Element `k` of a vector of `width`-byte elements: bytes `k*width` to `(k+1)*width`. */
  function Element(data: seq<Byte>, k: nat, width: Width): (e: seq<Byte>)
    requires k * width + width <= |data|
    ensures |e| == width
  {
    data[k * width .. k * width + width]
  }

  /** An element lying within a prefix is the same element of the whole. */
  lemma ElementOfPrefix(data: seq<Byte>, n: nat, k: nat, width: Width)
    requires k * width + width <= n <= |data|
    ensures Element(data[..n], k, width) == Element(data, k, width)
  {
  }

  /** Element `k` of `count` elements of `width` bytes lies within their `count * width` bytes. */
  lemma ElementWithin(k: nat, count: nat, width: nat)
    requires k < count
    ensures 0 <= k * width && k * width + width <= count * width
  {
    var rest := count - k - 1;
    assert count * width == k * width + width + rest * width;
    assert 0 <= rest * width;
  }

  /**
   * `struct.unpack(fmt, data)`: `None` stands for `struct.error`, raised exactly
   * when `data` is not `struct.calcsize(fmt)` bytes long.
   */
  function Unpack(l: Layout, data: seq<Byte>): (r: Option<seq<Scalar>>)
    ensures r.Some? <==> |data| == StructSize(l)
    ensures r.Some? ==> |r.value| == ElementCount(l)
    ensures r.Some? && |r.value| > 1 ==> forall k | 0 <= k < |r.value| :: r.value[k].IntScalar?
  {
    if |data| != StructSize(l) then None
    else
      match l
      case Ints(order, count, width, signed) =>
        var xs := IntElements(order, data, count, width, signed);
        Some(seq(count, k requires 0 <= k < count => IntScalar(xs[k])))
      case Float(order, width) => Some([FloatBits(Unsigned(order, data), width)])
      case PadByte => Some([])
  }

  /** `','.join(map(str, unpacked))` for a tuple of integers. */
  function JoinInts(tuple: seq<Scalar>): string
    requires forall k | 0 <= k < |tuple| :: tuple[k].IntScalar?
  {
    Join(seq(|tuple|, k requires 0 <= k < |tuple| => IntText(tuple[k].i)), ',')
  }

  /**
   * What `decode_data_by_type` does once the table has given it a rule: slice the
   * declared number of bytes, then unpack them inside the `try`; every exception
   * (a `struct.error`, or the `IndexError` of `unpacked[0]` on an empty tuple)
   * becomes `decode_error_<tag>` with the slice in hex.
   */
  function ApplyRule(payload: seq<Byte>, rule: Rule): Decoded
  {
    var slice := Take(payload, rule.numBytes);
    var failed := Decoded(Text(HexOfBytes(slice)), "decode_error_" + rule.tag);
    match rule.layout
    case None => Decoded(Text(HexOfBytes(slice)), rule.tag)
    case Some(l) =>
      match Unpack(l, slice)
      case None => failed                                      // struct.error
      case Some(tuple) =>
        if |tuple| > 1 then Decoded(Text(JoinInts(tuple)), rule.tag)
        else if |tuple| == 1 then Decoded(Number(tuple[0]), rule.tag)
        else failed                                            // IndexError from unpacked[0]
  }

  /** `decode_data_by_type(raw_bytes, data_type_code, raw_mode)`. */
  function Decode(payload: seq<Byte>, code: Byte, raw: bool): Decoded
  {
    if raw then Decoded(Text(HexOfBytes(payload)), "raw_0x" + ByteHex(code))
    else
      match Lookup(code)
      case None => Decoded(Text(HexOfBytes(payload)), "unknown_0x" + ByteHex(code))
      case Some(rule) => ApplyRule(payload, rule)
  }

  // ---------------------------------------------------------------------------
  // Properties of the decoder
  // ---------------------------------------------------------------------------

  /** In raw mode the table is not consulted: the whole payload in hex and `raw_0x<code>`, for every code. */
  lemma RawModeIgnoresTable(payload: seq<Byte>, code: Byte)
    ensures Decode(payload, code, true).value == Text(HexOfBytes(payload))
    ensures Decode(payload, code, true).status == "raw_0x" + ByteHex(code)
    ensures AllHexDigits(HexOfBytes(payload))
    ensures FromHex(HexOfBytes(payload)) == payload
  {
    FromHexOfBytes(payload);
  }

  /** Codes 0x63 and 0xFF are not in the table: the whole payload in hex and `unknown_0x63` / `unknown_0xFF`. */
  lemma UnknownCodes(payload: seq<Byte>, code: Byte)
    requires code == 0x63 || code == 0xFF
    ensures Decode(payload, code, false).value == Text(HexOfBytes(payload))
    ensures Decode(payload, code, false).status == if code == 0x63 then "unknown_0x63" else "unknown_0xFF"
  {
  }

  /** NODATA takes no bytes: the empty hex string and the tag, whatever follows the header. */
  lemma NoData(payload: seq<Byte>)
    ensures Decode(payload, 0x00, false) == Decoded(Text(""), "NODATA")
  {
  }

  /**
   * The reserved (0x20 to 0x62) and user-defined (0x64 to 0xFE) codes never decode:
   * their one-byte layout never matches, or unpacks to an empty tuple, so the
   * status is always the error status and the value the hex of at most 4 bytes.
   */
  lemma CatchAllNeverDecodes(payload: seq<Byte>, code: Byte)
    requires 0x20 <= code < 0x63 || 0x64 <= code < 0xFF
    ensures Decode(payload, code, false).value == Text(HexOfBytes(Take(payload, 4)))
    ensures Decode(payload, code, false).status == if code < 0x63 then "decode_error_RESVD" else "decode_error_UDEF"
  {
    CatchAllLengthMismatch(code);
  }

  /**
   * A well-sized rule succeeds exactly when the payload holds at least its declared
   * length; otherwise the status is `decode_error_<tag>` and the value the hex of all
   * the bytes there are.
   */
  lemma WellSizedSucceedsIffLongEnough(payload: seq<Byte>, rule: Rule)
    requires WellSized(rule)
    ensures ApplyRule(payload, rule).status == rule.tag <==> |payload| >= rule.numBytes
    ensures |payload| < rule.numBytes ==>
      ApplyRule(payload, rule) == Decoded(Text(HexOfBytes(payload)), "decode_error_" + rule.tag)
  {
    assert |"decode_error_" + rule.tag| != |rule.tag|;
  }

  /** The same for the table: every defined rule, 0x01 to 0x1F, needs exactly its declared length. */
  lemma DefinedRuleSucceedsIffLongEnough(payload: seq<Byte>, code: Byte)
    requires 0x01 <= code <= 0x1F
    ensures Lookup(code).Some?
    ensures var rule := Lookup(code).value;
      && (Decode(payload, code, false).status == rule.tag <==> |payload| >= rule.numBytes)
      && (|payload| < rule.numBytes ==>
            Decode(payload, code, false) == Decoded(Text(HexOfBytes(payload)), "decode_error_" + rule.tag))
  {
    DeclaredLengthIsStructSize(code);
    WellSizedSucceedsIffLongEnough(payload, Lookup(code).value);
  }

  /** Only the first `numBytes` bytes after the header matter: the rest never changes the outcome. */
  lemma ReadsOnlyDeclaredPrefix(payload: seq<Byte>, code: Byte)
    requires Lookup(code).Some?
    ensures Decode(payload, code, false) == Decode(Take(payload, Lookup(code).value.numBytes), code, false)
  {
    var n := Lookup(code).value.numBytes;
    assert Take(Take(payload, n), n) == Take(payload, n);
  }

  /** Whenever a known rule fails, the value is the hex of the bytes the rule was given. */
  lemma FailureShowsTheSlice(payload: seq<Byte>, code: Byte)
    requires Lookup(code).Some?
    requires Decode(payload, code, false).status != Lookup(code).value.tag
    ensures Decode(payload, code, false) ==
      Decoded(Text(HexOfBytes(Take(payload, Lookup(code).value.numBytes))), "decode_error_" + Lookup(code).value.tag)
  {
  }

  /**
   * A one-integer rule given enough bytes yields one number: the reading of its first
   * `width` bytes, taken as is when unsigned and in two's complement when signed.
   */
  lemma SingleInteger(payload: seq<Byte>, rule: Rule)
    requires WellSized(rule) && rule.layout.value.Ints? && rule.layout.value.count == 1
    requires |payload| >= rule.numBytes
    ensures var l := rule.layout.value;
      var u := Unsigned(l.order, payload[..l.width]);
      var d := ApplyRule(payload, rule);
      && d == Decoded(Number(IntScalar(d.value.scalar.i)), rule.tag)
      && (!l.signed ==> d.value.scalar.i == u)
      && (l.signed ==> -(Half(l.width) as int) <= d.value.scalar.i < Half(l.width))
      && (l.signed ==> (d.value.scalar.i == u < Half(l.width)) || (d.value.scalar.i + Pow256(l.width) == u >= Half(l.width)))
  {
    var l := rule.layout.value;
    var slice := Take(payload, rule.numBytes);
    assert slice == payload[..l.width];
    assert IntElements(l.order, slice, 1, l.width, l.signed)[0] == IntValue(l.order, Element(slice, 0, l.width), l.signed);
    assert Element(slice, 0, l.width) == slice;
  }

  /** For the table's one-integer codes the reading is big-endian. */
  lemma SingleIntegerValue(payload: seq<Byte>, code: Byte, rule: Rule)
    requires Lookup(code) == Some(rule) && rule.layout.Some? && rule.layout.value.Ints? && rule.layout.value.count == 1
    requires |payload| >= rule.numBytes
    ensures var l := rule.layout.value;
      var u := BigEndian(payload[..l.width]);
      var d := Decode(payload, code, false);
      && d == Decoded(Number(IntScalar(d.value.scalar.i)), rule.tag)
      && (!l.signed ==> d.value.scalar.i == u)
      && (l.signed ==> (d.value.scalar.i == u < Half(l.width)) || (d.value.scalar.i + Pow256(l.width) == u >= Half(l.width)))
  {
    NumericLayoutIsDefined(code);
    DeclaredLengthIsStructSize(code);
    OnlyDoubleLIsLittleEndian(code);
    SingleInteger(payload, rule);
  }

  /** No decimal rendering of an integer contains a comma. */
  lemma NoCommaInIntText(i: int)
    ensures ',' !in IntText(i)
  {
    IntTextRoundTrip(i);
    var s := IntText(i);
    assert forall k | 0 <= k < |s| :: s[k] != ',';
  }

  /** Splitting the comma-joined tuple at the commas gives back one decimal field per element. */
  lemma SplitJoinInts(tuple: seq<Scalar>)
    requires tuple != [] && forall k | 0 <= k < |tuple| :: tuple[k].IntScalar?
    ensures Split(JoinInts(tuple), ',') == seq(|tuple|, k requires 0 <= k < |tuple| => IntText(tuple[k].i))
  {
    var texts := seq(|tuple|, k requires 0 <= k < |tuple| => IntText(tuple[k].i));
    forall k | 0 <= k < |texts| ensures ',' !in texts[k] {
      NoCommaInIntText(tuple[k].i);
    }
    SplitJoin(texts, ',');
  }

  /**
   * A multi-integer rule given enough bytes yields the elements' decimal strings
   * joined by commas in byte order: splitting the text at the commas gives one field
   * per element, and field `k` is the rendering of the integer in element `k`, bytes
   * `k*width` to `(k+1)*width`.
   */
  lemma Vector(payload: seq<Byte>, rule: Rule, k: nat)
    requires WellSized(rule) && rule.layout.value.Ints? && rule.layout.value.count > 1
    requires |payload| >= rule.numBytes
    requires k < rule.layout.value.count
    ensures var l := rule.layout.value;
      var d := ApplyRule(payload, rule);
      && k * l.width + l.width <= |payload|
      && d.status == rule.tag
      && d.value.Text?
      && |Split(d.value.text, ',')| == l.count
      && Split(d.value.text, ',')[k] == IntText(IntValue(l.order, Element(payload, k, l.width), l.signed))
  {
    var l := rule.layout.value;
    var slice := Take(payload, rule.numBytes);
    var xs := IntElements(l.order, slice, l.count, l.width, l.signed);
    var tuple := seq(l.count, j requires 0 <= j < l.count => IntScalar(xs[j]));
    assert Unpack(l, slice) == Some(tuple);
    assert ApplyRule(payload, rule) == Decoded(Text(JoinInts(tuple)), rule.tag);
    SplitJoinInts(tuple);
    ElementWithin(k, l.count, l.width);
    ElementOfPrefix(payload, rule.numBytes, k, l.width);
  }

  /** Only the defined codes 0x01 to 0x1F carry an integer or float layout. */
  lemma NumericLayoutIsDefined(code: int)
    requires Lookup(code).Some? && Lookup(code).value.layout.Some? && !Lookup(code).value.layout.value.PadByte?
    ensures 0x01 <= code <= 0x1F
  {
  }

  /** For the table's multi-integer codes the elements are read big-endian, in two's complement for the signed codes. */
  lemma VectorValue(payload: seq<Byte>, code: Byte, rule: Rule, k: nat)
    requires Lookup(code) == Some(rule) && rule.layout.Some? && rule.layout.value.Ints? && rule.layout.value.count > 1
    requires |payload| >= rule.numBytes
    requires k < rule.layout.value.count
    ensures var l := rule.layout.value;
      var d := Decode(payload, code, false);
      && k * l.width + l.width <= |payload|
      && d.status == rule.tag
      && |Split(d.value.text, ',')| == l.count
      && (!l.signed ==> Split(d.value.text, ',')[k] == IntText(BigEndian(Element(payload, k, l.width))))
      && (l.signed ==> Split(d.value.text, ',')[k] == IntText(ToSigned(Unsigned(Big, Element(payload, k, l.width)), l.width)))
  {
    NumericLayoutIsDefined(code);
    DeclaredLengthIsStructSize(code);
    OnlyDoubleLIsLittleEndian(code);
    assert Decode(payload, code, false) == ApplyRule(payload, rule);
    Vector(payload, rule, k);
    var l := rule.layout.value;
    assert l.order == Big;
    var e := Element(payload, k, l.width);
    assert Unsigned(l.order, e) == BigEndian(e);
    if !l.signed {
      assert IntValue(l.order, e, l.signed) == BigEndian(e);
    } else {
      assert IntValue(l.order, e, l.signed) == ToSigned(Unsigned(Big, e), l.width);
    }
  }

  /** A float rule given enough bytes yields the bit pattern of its first `width` bytes, read in its order. */
  lemma FloatValue(payload: seq<Byte>, rule: Rule)
    requires WellSized(rule) && rule.layout.value.Float?
    requires |payload| >= rule.numBytes
    ensures var l := rule.layout.value;
      ApplyRule(payload, rule) == Decoded(Number(FloatBits(Unsigned(l.order, payload[..l.width]), l.width)), rule.tag)
  {
    assert Take(payload, rule.numBytes) == payload[..rule.layout.value.width];
  }

  /** The two double rules read the same eight bytes in opposite orders. */
  lemma DoublesMirror(payload: seq<Byte>)
    requires |payload| == 8
    ensures Decode(Reverse(payload), 0x1E, false).value == Decode(payload, 0x1F, false).value
    ensures Decode(payload, 0x1F, false) == Decoded(Number(FloatBits(LittleEndian(payload), 8)), "DOUBLEL")
  {
    var r := Reverse(payload);
    var high := Rule(Some(Float(Big, 8)), 8, "DOUBLEH");
    var low := Rule(Some(Float(Little, 8)), 8, "DOUBLEL");
    assert Lookup(0x1E) == Some(high) && Lookup(0x1F) == Some(low);
    FloatValue(r, high);
    FloatValue(payload, low);
    assert r[..8] == r && payload[..8] == payload;
    LittleIsReversedBig(payload);
  }

  /** `3F800000` under FLOAT is the single-precision pattern 0x3F800000 (the value 1.0). */
  lemma FloatExample()
    ensures Decode([0x3F, 0x80, 0x00, 0x00], 0x02, false) == Decoded(Number(FloatBits(0x3F80_0000, 4)), "FLOAT")
  {
    var p: seq<Byte> := [0x3F, 0x80, 0x00, 0x00];
    assert Take(p, 4) == p;
    assert p[..3][..2][..1] == [0x3F];
    assert p[..3][..2] == [0x3F, 0x80];
    assert p[..3] == [0x3F, 0x80, 0x00];
    assert BigEndian([0x3F]) == 0x3F;
    assert BigEndian([0x3F, 0x80]) == 0x3F80;
    assert BigEndian([0x3F, 0x80, 0x00]) == 0x3F8000;
    assert BigEndian(p) == 0x3F80_0000;
  }
}
