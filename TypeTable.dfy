/**
 * The CANaerospace data-type table (`DATA_TYPE_INFO`): for each one-byte
 * data-type code, the `struct` layout used to unpack the payload, the number
 * of payload bytes the decoder takes, and the tag reported with the value.
 */
module TypeTable {
  import opened Wrappers

  /** `struct` byte order: `>` reads the most significant byte first, `<` the least. */
  datatype ByteOrder = Big | Little

  /** An element width in bytes. */
  type Width = w: nat | 1 <= w witness 1

  /**
   * The `struct` format strings the table uses. `Ints(order, count, width, signed)`
   * is `count` integers of `width` bytes each: letters `b`/`B` (width 1),
   * `h`/`H` (2) and `i`/`I` (4), lower case signed; `Float(order, width)` is `f`
   * (4) or `d` (8); `PadByte` is `x`, one byte that unpacks to nothing.
   * Order `>` is `Big`, `<` is `Little`.
   */
  datatype Layout =
    | Ints(order: ByteOrder, count: nat, width: Width, signed: bool)
    | Float(order: ByteOrder, width: Width)
    | PadByte

  /** A table entry `(format, num_bytes, tag)`; the format of NODATA is Python's `None`. */
  datatype Rule = Rule(layout: Option<Layout>, numBytes: nat, tag: string)

  /** `struct.calcsize`: the exact number of bytes `struct.unpack` accepts for a layout. */
  function StructSize(l: Layout): nat
  {
    match l
    case Ints(_, count, width, _) => count * width
    case Float(_, width) => width
    case PadByte => 1
  }

  /** The length of the tuple `struct.unpack` returns for a layout. */
  function ElementCount(l: Layout): nat
  {
    match l
    case Ints(_, count, _, _) => count
    case Float(_, _) => 1
    case PadByte => 0
  }

  const Resvd := Rule(Some(PadByte), 4, "RESVD")
  const Udef := Rule(Some(PadByte), 4, "UDEF")

  /** The 32 individually defined entries of the dictionary literal, codes 0x00 to 0x1F. */
  function DefinedRule(code: int): (r: Option<Rule>)
    ensures r.Some? <==> 0x00 <= code <= 0x1F
  {
    match code
    case 0x00 => Some(Rule(None, 0, "NODATA"))
    case 0x01 => Some(Rule(Some(Ints(Big, 1, 4, false)), 4, "ERROR"))   // '>I'
    case 0x02 => Some(Rule(Some(Float(Big, 4)), 4, "FLOAT"))            // '>f'
    case 0x03 => Some(Rule(Some(Ints(Big, 1, 4, true)), 4, "LONG"))     // '>i'
    case 0x04 => Some(Rule(Some(Ints(Big, 1, 4, false)), 4, "ULONG"))   // '>I'
    case 0x05 => Some(Rule(Some(Ints(Big, 1, 4, false)), 4, "BLONG"))   // '>I'
    case 0x06 => Some(Rule(Some(Ints(Big, 1, 2, true)), 2, "SHORT"))    // '>h'
    case 0x07 => Some(Rule(Some(Ints(Big, 1, 2, false)), 2, "USHORT"))  // '>H'
    case 0x08 => Some(Rule(Some(Ints(Big, 1, 2, false)), 2, "BSHORT"))  // '>H'
    case 0x09 => Some(Rule(Some(Ints(Big, 1, 1, true)), 1, "CHAR"))     // '>b'
    case 0x0A => Some(Rule(Some(Ints(Big, 1, 1, false)), 1, "UCHAR"))   // '>B'
    case 0x0B => Some(Rule(Some(Ints(Big, 1, 1, false)), 1, "BCHAR"))   // '>B'
    case 0x0C => Some(Rule(Some(Ints(Big, 2, 2, true)), 4, "SHORT2"))   // '>2h'
    case 0x0D => Some(Rule(Some(Ints(Big, 2, 2, false)), 4, "USHORT2")) // '>2H'
    case 0x0E => Some(Rule(Some(Ints(Big, 2, 2, false)), 4, "BSHORT2")) // '>2H'
    case 0x0F => Some(Rule(Some(Ints(Big, 4, 1, true)), 4, "CHAR4"))    // '>4b'
    case 0x10 => Some(Rule(Some(Ints(Big, 4, 1, false)), 4, "UCHAR4"))  // '>4B'
    case 0x11 => Some(Rule(Some(Ints(Big, 4, 1, false)), 4, "BCHAR4"))  // '>4B'
    case 0x12 => Some(Rule(Some(Ints(Big, 2, 1, true)), 2, "CHAR2"))    // '>2b'
    case 0x13 => Some(Rule(Some(Ints(Big, 2, 1, false)), 2, "UCHAR2"))  // '>2B'
    case 0x14 => Some(Rule(Some(Ints(Big, 2, 1, false)), 2, "BCHAR2"))  // '>2B'
    case 0x15 => Some(Rule(Some(Ints(Big, 1, 4, false)), 4, "MEMID"))   // '>I'
    case 0x16 => Some(Rule(Some(Ints(Big, 1, 4, false)), 4, "CHKSUM"))  // '>I'
    case 0x17 => Some(Rule(Some(Ints(Big, 1, 1, false)), 1, "ACHAR"))   // '>B'
    case 0x18 => Some(Rule(Some(Ints(Big, 2, 1, false)), 2, "ACHAR2"))  // '>2B'
    case 0x19 => Some(Rule(Some(Ints(Big, 4, 1, false)), 4, "ACHAR4"))  // '>4B'
    case 0x1A => Some(Rule(Some(Ints(Big, 3, 1, true)), 3, "CHAR3"))    // '>3b'
    case 0x1B => Some(Rule(Some(Ints(Big, 3, 1, false)), 3, "UCHAR3"))  // '>3B'
    case 0x1C => Some(Rule(Some(Ints(Big, 3, 1, false)), 3, "BCHAR3"))  // '>3B'
    case 0x1D => Some(Rule(Some(Ints(Big, 4, 1, true)), 4, "CHAR4"))    // '>4b'
    case 0x1E => Some(Rule(Some(Float(Big, 8)), 8, "DOUBLEH"))          // '>d'
    case 0x1F => Some(Rule(Some(Float(Little, 8)), 8, "DOUBLEL"))       // '<d'
    case _ => None
  }

  /**
   * `DATA_TYPE_INFO.get(code)` on the table as it stands after module load: the
   * defined entries, then the two `update` calls that add the reserved range
   * `range(0x20, 0x63)` and the user-defined range `range(0x64, 0xFF)`.
   * Codes 0x63 and 0xFF are never added, so they (and any code outside 0 to 255) miss.
   */
  function Lookup(code: int): (r: Option<Rule>)
    ensures r.Some? <==> 0 <= code < 0x63 || 0x64 <= code < 0xFF
  {
    if 0x64 <= code < 0xFF then Some(Udef)
    else if 0x20 <= code < 0x63 then Some(Resvd)
    else DefinedRule(code)
  }

  /**
   * The construction of `DATA_TYPE_INFO` at module load, key by key: the 32 entries
   * of the dictionary literal, then the reserved codes 0x20 to 0x62 and the
   * user-defined codes 0x64 to 0xFE added by the two `update` calls (Python's
   * `range` excludes its upper bound). The table built is the one `Lookup` reads.
   */
  method BuildTable() returns (table: map<int, Rule>)
    ensures forall code :: code in table <==> Lookup(code).Some?
    ensures forall code | code in table :: Lookup(code) == Some(table[code])
  {
    table := map[];
    for code := 0x00 to 0x20
      invariant forall c :: c in table <==> 0x00 <= c < code
      invariant forall c | c in table :: Lookup(c) == Some(table[c])
    {
      table := table[code := DefinedRule(code).value];
    }
    for code := 0x20 to 0x63
      invariant forall c :: c in table <==> 0x00 <= c < code
      invariant forall c | c in table :: Lookup(c) == Some(table[c])
    {
      table := table[code := Resvd];
    }
    for code := 0x64 to 0xFF
      invariant forall c :: c in table <==> 0x00 <= c < 0x63 || 0x64 <= c < code
      invariant forall c | c in table :: Lookup(c) == Some(table[c])
    {
      table := table[code := Udef];
    }
  }

  /**
   * A rule whose declared length is what its layout unpacks (`struct.calcsize`)
   * and whose tuple has at least one element.
   */
  predicate WellSized(rule: Rule)
  {
    rule.layout.Some? && StructSize(rule.layout.value) == rule.numBytes && ElementCount(rule.layout.value) >= 1
  }

  /** Every rule with a numeric layout, 0x01 to 0x1F, declares exactly the length its layout unpacks. */
  lemma DeclaredLengthIsStructSize(code: int)
    requires 0x01 <= code <= 0x1F
    ensures Lookup(code).Some? && WellSized(Lookup(code).value)
  {
    // one case per code, so that each lookup is evaluated on a literal
    if code == 0x01 {} else if code == 0x02 {} else if code == 0x03 {} else if code == 0x04 {}
    else if code == 0x05 {} else if code == 0x06 {} else if code == 0x07 {} else if code == 0x08 {}
    else if code == 0x09 {} else if code == 0x0A {} else if code == 0x0B {} else if code == 0x0C {}
    else if code == 0x0D {} else if code == 0x0E {} else if code == 0x0F {} else if code == 0x10 {}
    else if code == 0x11 {} else if code == 0x12 {} else if code == 0x13 {} else if code == 0x14 {}
    else if code == 0x15 {} else if code == 0x16 {} else if code == 0x17 {} else if code == 0x18 {}
    else if code == 0x19 {} else if code == 0x1A {} else if code == 0x1B {} else if code == 0x1C {}
    else if code == 0x1D {} else if code == 0x1E {} else if code == 0x1F {}
  }

  /** The reserved and user-defined catch-alls declare 4 bytes for a layout that accepts exactly 1. */
  lemma CatchAllLengthMismatch(code: int)
    requires 0x20 <= code < 0x63 || 0x64 <= code < 0xFF
    ensures Lookup(code) == Some(if code < 0x63 then Resvd else Udef)
    ensures StructSize(PadByte) != Resvd.numBytes && StructSize(PadByte) != Udef.numBytes
  {
  }

  /** The table covers exactly the codes other than 0x63 and 0xFF. */
  lemma TableCodes(code: int)
    requires 0 <= code < 256
    ensures Lookup(code).None? <==> code == 0x63 || code == 0xFF
  {
  }

  /**
   * The wire specification's duplicates are kept as separate entries: 0x0F and 0x1D
   * are the same rule; 0x10 and 0x11 share a layout but not a tag.
   */
  lemma DuplicateEntries()
    ensures Lookup(0x0F) == Lookup(0x1D) == Some(Rule(Some(Ints(Big, 4, 1, true)), 4, "CHAR4"))
    ensures Lookup(0x10).Some? && Lookup(0x11).Some?
    ensures Lookup(0x10).value.layout == Lookup(0x11).value.layout == Some(Ints(Big, 4, 1, false))
    ensures Lookup(0x10).value.tag == "UCHAR4" && Lookup(0x11).value.tag == "BCHAR4"
  {
  }

  /** Only the alternate double, 0x1F, reads its bytes least significant first. */
  lemma OnlyDoubleLIsLittleEndian(code: int)
    requires 0x01 <= code <= 0x1F
    ensures Lookup(code).Some? && Lookup(code).value.layout.Some?
    ensures Lookup(code).value.layout.value.PadByte? == false
    ensures Lookup(code).value.layout.value.order == Little <==> code == 0x1F
  {
  }
}
