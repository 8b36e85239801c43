# CANaerospace log tools — a Dafny model

This project models the core of two Python tools for CAN bus logs written by
`candump` in the form `(<seconds>) can<n> <ID>#<DATA>`:

- `parse_canaero_log.py` turns each line into a CSV row of CANaerospace fields.
  It recognises the line with an anchored regular expression and cuts the frame
  into the 4-byte CANaerospace header (node id, data-type code, service code,
  message code) and the payload. It decodes the payload with the data-type table
  (`DATA_TYPE_INFO`) and names the CAN id from the parameter catalogue
  (`CANID_INFO`). Rows are written when no CAN-id filter is given, or when the id
  is one of the filter's.
- `correct-ts.py` supplies three helpers:
  - `check` validates the fixed-width timestamp prefix of a line;
  - `getCanDate` cuts a line into its timestamp, interface, CAN id, data and
    node-id texts;
  - `statistics` counts sightings per id.

Modules, one file each:

| file | models |
|---|---|
| `Wrappers.dfy` | `Option` |
| `PyText.dfy` | the Python string behaviour the tools rely on: character classes, clamped slicing, `split()`, `split(sep)`, `join` |
| `Numerals.dfy` | `'%X'`, `'%02X'`, `str(int)`, `int(s, 16)`, `bytes.hex().upper()`, `bytes.fromhex`, big- and little-endian readings, two's complement |
| `TypeTable.dfy` | `DATA_TYPE_INFO` as it stands after module load, and its construction key by key |
| `ParameterCatalog.dfy` | `CANID_INFO` |
| `PayloadDecoder.dfy` | `decode_data_by_type`, including the subset of `struct.unpack` the table uses |
| `LineParser.dfy` | `CAN_LINE_PATTERN.match` and `parse_line` |
| `LogPipeline.dfy` | the filter-and-write loop of `parse_log_file`, as a method proved against a specification function |
| `CorrectTs.dfy` | `check` (a method with its two loops), `getCanDate`, and `statistics` (a class holding one counter dictionary) |

How Python behaviour is represented:

- **Exceptions that escape** become outcomes:
  - `float()` on a malformed timestamp group becomes `TimestampError`, and the
    log loop stops there with the rows written so far;
  - `check` reaching `line[11]` or `line[18]` on a short line becomes `IndexError`;
  - `getCanDate`'s index errors become `None`.
- **Exceptions that are caught** follow the source's `except` branches:
  - `struct.error`, and the `IndexError` of `unpacked[0]`, give `decode_error_<tag>`;
  - `bytes.fromhex` on an odd number of digits gives no record.

## Model

| member | source | states |
|---|---|---|
| TypeTable.Lookup | parse_canaero_log.py:138-175 | the finished table has an entry exactly for codes 0x00–0x62 and 0x64–0xFE |
| TypeTable.DefinedRule | parse_canaero_log.py:138-171 | the dictionary literal has an entry exactly for codes 0x00–0x1F |
| TypeTable.StructSize | parse_canaero_log.py:195 | `struct.calcsize` of the table's formats; `DeclaredLengthIsStructSize`, `CatchAllLengthMismatch` and `PayloadDecoder.Unpack` state what depends on it |
| TypeTable.BuildTable | parse_canaero_log.py:138-175 | inserting the 32 literal entries (`DefinedRule`), then `RESVD` for 0x20–0x62, then `UDEF` for 0x64–0xFE, gives a dictionary with exactly the keys `Lookup` knows, each mapped to `Lookup`'s rule |
| TypeTable.DeclaredLengthIsStructSize | parse_canaero_log.py:140-170 | every numeric entry 0x01–0x1F declares exactly the byte count its struct format unpacks, and unpacks at least one element |
| TypeTable.CatchAllLengthMismatch | parse_canaero_log.py:174-175 | the reserved and user-defined entries declare 4 bytes, but their `>x` format accepts exactly 1 |
| TypeTable.TableCodes | parse_canaero_log.py:174-175 | of the 256 byte values, only 0x63 and 0xFF are missing from the table |
| TypeTable.DuplicateEntries | parse_canaero_log.py:154-168 | 0x0F and 0x1D are the same `CHAR4` rule; 0x10 and 0x11 share the `>4B` format under different tags |
| TypeTable.OnlyDoubleLIsLittleEndian | parse_canaero_log.py:140-170 | among the defined codes, only 0x1F (`<d`) reads least significant byte first |
| ParameterCatalog.BodyMotionAndAirData | parse_canaero_log.py:14-33 | an entry is found only for ids 0x12C–0x13F, and its name is not `Unknown` and its unit not empty |
| ParameterCatalog.AltitudeAndAtmosphere | parse_canaero_log.py:34-57 | entries only for ids 0x140–0x15C, each named and with a unit |
| ParameterCatalog.PilotControls | parse_canaero_log.py:60-67 | entries only for ids 0x190–0x197, each named and with a unit |
| ParameterCatalog.SwitchesTrimAndThrottles | parse_canaero_log.py:68-75 | entries only for ids 0x198–0x19F, each named and with a unit |
| ParameterCatalog.LeversAndSwitches | parse_canaero_log.py:76-88 | entries only for ids 0x1AE–0x1BA, each named and with a unit |
| ParameterCatalog.Propulsion | parse_canaero_log.py:91-94 | entries only for ids 0x1F4–0x2BB, each named and with a unit |
| ParameterCatalog.ActiveNavSystem | parse_canaero_log.py:97-108 | entries only for ids 0x3E8–0x3F3, each named and with a unit |
| ParameterCatalog.Gps | parse_canaero_log.py:109-121 | entries only for ids 0x3F4–0x44F, each named and with a unit |
| ParameterCatalog.ElectricalHydraulic | parse_canaero_log.py:124-125 | entries only for ids 0x320–0x3CF, each named and with a unit |
| ParameterCatalog.TimeAndCabin | parse_canaero_log.py:128-134 | entries only for ids 0x4B0–0x4B6, each named and with a unit |
| ParameterCatalog.Entry | parse_canaero_log.py:12-135 | a catalogued id lies in 0x12C–0x4B6 and has a real name and unit |
| ParameterCatalog.Describe | parse_canaero_log.py:229 | the default `("Unknown", "")` is returned exactly for uncatalogued ids; otherwise the catalogue's pair is returned |
| ParameterCatalog.UnknownMeansUncatalogued | parse_canaero_log.py:229 | the name is `Unknown` exactly when the id is uncatalogued, and so is an empty unit |
| ParameterCatalog.OutsideRangeIsUnknown | parse_canaero_log.py:12-135 | ids below 0x12C or above 0x4B6 are described as `("Unknown", "")` |
| ParameterCatalog.FlapsExample | parse_canaero_log.py:54-55 | 0x154 is the flaps position in degrees; the gap at 0x155 is unknown |
| PyText.Slice | correct-ts.py:28-29 | a slice never fails; its length is `min(hi, len) - lo` when `lo < hi` and `lo < len`, and 0 otherwise; character `k` is character `lo + k` of the original |
| PyText.Span | parse_canaero_log.py:9 | a greedy run: the run and the rest make up the input, the run is all in the class, and the rest does not start with a character of the class |
| PyText.SpanOfRun | parse_canaero_log.py:9 | a greedy run is unique: any run of the class followed by a character outside it is what `Span` returns |
| PyText.Words | correct-ts.py:22 | `split()` yields only non-empty words without whitespace; `WordsOfLayout` states that these are exactly the whitespace-separated runs, in order |
| PyText.WordsOfLayout | correct-ts.py:22 | for any string laid out as whitespace gaps (inner ones non-empty) alternating with non-empty whitespace-free words, `split()` returns exactly those words in order |
| PyText.Interleave | correct-ts.py:22 | the layout `gaps[0] + ws[0] + … + ws[n-1] + gaps[n]` that `WordsOfLayout` reads back |
| PyText.WordsOfWordThenSpace | correct-ts.py:22 | a word followed by any whitespace character splits into that word and the words of the rest |
| PyText.WordsAfterSpaces | correct-ts.py:22 | leading whitespace does not change the words |
| PyText.WordsBeforeSpaces | correct-ts.py:22 | trailing whitespace, such as the `\n` of a line read from a file, does not change the words |
| PyText.AllSpacesNoWords | correct-ts.py:22 | a whitespace-only string has no words |
| PyText.Split | correct-ts.py:25 | `split(sep)` yields at least one field, and no field contains the separator |
| PyText.JoinSplit | correct-ts.py:25 | joining the fields of `split(sep)` with the separator gives back the string |
| PyText.Join | parse_canaero_log.py:197 | `sep.join(parts)`; `JoinSplit`, `SplitJoin` and `WordsOfJoin` state its round trips with the two splits |
| PyText.SplitJoin | parse_canaero_log.py:197 | splitting a join of separator-free parts at the separator gives back the parts |
| PyText.WordsOfJoin | correct-ts.py:22 | `" ".join(words).split()` gives back the words |
| PyText.NormalisedWords | correct-ts.py:22 | normalising whitespace before splitting does not change the words of a line |
| Numerals.DigitChar | parse_canaero_log.py:233 | the digit written for a value below 16 is an upper-case hexadecimal digit |
| Numerals.DigitValue | parse_canaero_log.py:211 | a hexadecimal digit of either case is worth less than 16, and below 10 exactly for decimal digits |
| Numerals.Upper | parse_canaero_log.py:212 | upper-casing keeps the length and upper-cases each character in place |
| Numerals.UpperHex | parse_canaero_log.py:212 | upper-cased hex digits are still hex digits, and upper-casing twice is upper-casing once |
| Numerals.NatText | parse_canaero_log.py:233 | `'%X'` / `'%d'` writes a non-empty string of digits of the base |
| Numerals.ParseNat | parse_canaero_log.py:211 | `int(s, base)`; `ParseNatText` and `NatTextInjective` state that it inverts `NatText` |
| Numerals.ParseNatText | parse_canaero_log.py:211 | `int(s, base)` reads back the number `'%X'` or `'%d'` wrote |
| Numerals.NatTextInjective | parse_canaero_log.py:264 | different numbers are written differently |
| Numerals.IntTextRoundTrip | parse_canaero_log.py:197 | `str(i)` writes only a sign and digits, and reads back as `i`, negative numbers included |
| Numerals.IntText | parse_canaero_log.py:197 | `str(i)` is never empty; `IntTextRoundTrip` states that it reads back as `i` |
| Numerals.ByteHex | parse_canaero_log.py:239 | `'%02X'` writes exactly two digits for a byte |
| Numerals.HexOfBytes | parse_canaero_log.py:182 | the hex rendering has two digits per byte |
| Numerals.HexOfBytesAppend | parse_canaero_log.py:182 | the rendering of two byte strings one after the other is their renderings one after the other |
| Numerals.FromHex | parse_canaero_log.py:215 | `bytes.fromhex` on an even number of hex digits gives half as many bytes |
| Numerals.FromHexOfBytes | parse_canaero_log.py:215 | the hex rendering of bytes is hex digits, and `bytes.fromhex` gives the bytes back |
| Numerals.HexOfFromHex | parse_canaero_log.py:212-215 | rendering the bytes of hex text gives the text upper-cased |
| Numerals.ByteHexOfDigits | parse_canaero_log.py:212-215 | the byte that two hex digits denote is written as those digits upper-cased |
| Numerals.UpperAppend | parse_canaero_log.py:212 | upper-casing distributes over concatenation |
| Numerals.Reverse | parse_canaero_log.py:170 | reversing keeps the length |
| Numerals.BigEndianBound | parse_canaero_log.py:195 | an unsigned reading of `n` bytes is below 256^n |
| Numerals.BigEndian | parse_canaero_log.py:195 | the `>` reading; `BigEndianBound`, `BigEndianOfEncode` and `EncodeOfBigEndian` state its range and that it is a bijection on `n`-byte strings |
| Numerals.LittleEndian | parse_canaero_log.py:170 | the `<` reading; `LittleIsReversedBig` states that it is the `>` reading of the reversed bytes |
| Numerals.LittleIsReversedBig | parse_canaero_log.py:169-170 | reading least significant byte first is reading the reversed bytes most significant first |
| Numerals.EncodeBigEndian | parse_canaero_log.py:195 | encoding a number into `n` bytes gives `n` bytes |
| Numerals.BigEndianOfEncode | parse_canaero_log.py:195 | a big-endian read of the `n`-byte encoding of a number below 256^n gives the number |
| Numerals.EncodeOfBigEndian | parse_canaero_log.py:195 | encoding a big-endian reading in as many bytes gives the bytes back |
| Numerals.ToSigned | parse_canaero_log.py:195 | the two's-complement reading of `n` bytes lies in [-2^(8n-1), 2^(8n-1)) and equals the unsigned value, or that value minus 256^n |
| Numerals.Half | parse_canaero_log.py:195 | the signed bound is half of 256^n |
| PayloadDecoder.Take | parse_canaero_log.py:189 | `raw_bytes[:n]` is the first `min(n, len)` bytes |
| PayloadDecoder.Unsigned | parse_canaero_log.py:195 | an unsigned reading in either order is below 256^width |
| PayloadDecoder.IntElements | parse_canaero_log.py:195 | a vector of `count` elements of `width` bytes unpacks to `count` integers |
| PayloadDecoder.Unpack | parse_canaero_log.py:195 | `struct.unpack` succeeds exactly when the data has the format's size, then yields the format's element count, and integers whenever there is more than one element |
| PayloadDecoder.JoinInts | parse_canaero_log.py:197 | `','.join(map(str, unpacked))`; `SplitJoinInts` states that it splits back into one decimal field per element |
| PayloadDecoder.ApplyRule | parse_canaero_log.py:188-200 | the part of `decode_data_by_type` after the table lookup; its outcomes are stated by `WellSizedSucceedsIffLongEnough`, `FailureShowsTheSlice`, `SingleInteger`, `Vector` and `FloatValue` |
| PayloadDecoder.Decode | parse_canaero_log.py:178-200 | `decode_data_by_type`; its outcomes are stated by `RawModeIgnoresTable`, `UnknownCodes`, `NoData`, `CatchAllNeverDecodes`, `DefinedRuleSucceedsIffLongEnough`, `ReadsOnlyDeclaredPrefix`, `SingleIntegerValue`, `VectorValue` and `DoublesMirror` |
| PayloadDecoder.RawModeIgnoresTable | parse_canaero_log.py:181-182 | in raw mode every code gives the whole payload in hex, which `bytes.fromhex` reads back, and `raw_0x<code>` |
| PayloadDecoder.UnknownCodes | parse_canaero_log.py:184-186 | codes 0x63 and 0xFF give the whole payload in hex and `unknown_0x63` / `unknown_0xFF` |
| PayloadDecoder.NoData | parse_canaero_log.py:192-193 | NODATA gives the empty hex string and its tag, whatever the payload |
| PayloadDecoder.CatchAllNeverDecodes | parse_canaero_log.py:189-200 | the reserved and user-defined codes always report `decode_error_RESVD` / `decode_error_UDEF` with the hex of at most 4 bytes |
| PayloadDecoder.WellSizedSucceedsIffLongEnough | parse_canaero_log.py:189-200 | a rule whose size matches its format reports its tag exactly when the payload holds its declared length; otherwise it reports `decode_error_<tag>` with all the bytes in hex |
| PayloadDecoder.DefinedRuleSucceedsIffLongEnough | parse_canaero_log.py:184-200 | the same for each table code 0x01–0x1F |
| PayloadDecoder.ReadsOnlyDeclaredPrefix | parse_canaero_log.py:188-189 | bytes beyond the declared length never change the result |
| PayloadDecoder.FailureShowsTheSlice | parse_canaero_log.py:199-200 | whenever a known rule fails, the value is the hex of the slice it was given and the status `decode_error_<tag>` |
| PayloadDecoder.SingleInteger | parse_canaero_log.py:195-198 | a one-integer rule with enough bytes yields one number: the unsigned reading, or its two's-complement reading (in range) when signed |
| PayloadDecoder.SingleIntegerValue | parse_canaero_log.py:195-198 | for the table's one-integer codes the reading is big-endian |
| PayloadDecoder.NoCommaInIntText | parse_canaero_log.py:197 | no decimal rendering contains a comma |
| PayloadDecoder.SplitJoinInts | parse_canaero_log.py:197 | splitting the comma-joined tuple at commas gives one decimal field per element |
| PayloadDecoder.Vector | parse_canaero_log.py:195-197 | a multi-integer rule with enough bytes yields as many comma-separated fields as elements, field `k` being the integer in bytes `k*width` to `(k+1)*width` |
| PayloadDecoder.VectorValue | parse_canaero_log.py:195-197 | for the table's multi-integer codes field `k` is the big-endian reading of element `k`, unsigned for the `B`/`H` codes and in two's complement for the `b`/`h` codes (0x0C, 0x0F, 0x12, 0x1A, 0x1D) |
| PayloadDecoder.FloatValue | parse_canaero_log.py:195-198 | a float rule with enough bytes yields the bit pattern of its first `width` bytes, read in its order |
| PayloadDecoder.DoublesMirror | parse_canaero_log.py:169-170 | DOUBLEL of a payload is DOUBLEH of the reversed payload: the little-endian reading of the 8 bytes |
| PayloadDecoder.FloatExample | parse_canaero_log.py:141 | `3F800000` under FLOAT is the bit pattern 0x3F800000 |
| LineParser.ScanIdData | parse_canaero_log.py:9 | a successful scan of `[0-9A-Fa-f]+#[0-9A-Fa-f]+` splits its input into non-empty hex groups around `#`, and what follows cannot extend the data group |
| LineParser.ScanBus | parse_canaero_log.py:9 | a successful scan of `\d+\s+` then the tail gives a digit run, a whitespace run and the tail's groups, which make up the input |
| LineParser.ScanHead | parse_canaero_log.py:9 | a successful scan of `\(([\d.]+)\)\s+can` gives the timestamp group and the gap, which, with the literals, make up the line's start |
| LineParser.MatchLine | parse_canaero_log.py:9 | a match is well-formed, is followed by nothing that could extend it, and the line is its text followed by the rest |
| LineParser.MatchLineComplete | parse_canaero_log.py:205 | every line made of a well-formed match followed by a non-hex character (or nothing) matches, with exactly those groups |
| LineParser.MatchUnique | parse_canaero_log.py:205 | two matches of the same line have the same groups and the same rest |
| LineParser.TwoPointsNotFloat | parse_canaero_log.py:209 | a timestamp group with two decimal points raises in `float()` |
| LineParser.LonePointNotFloat | parse_canaero_log.py:209 | a timestamp group without a digit raises in `float()` |
| LineParser.DecimalIsFloat | parse_canaero_log.py:209 | digits, a point and digits are a number |
| LineParser.FloatLiteral | parse_canaero_log.py:209 | whether `float()` accepts the timestamp group; `FloatLiteralGrammar` characterises it |
| LineParser.FloatLiteralGrammar | parse_canaero_log.py:209 | on strings of digits and points, `float()` accepts exactly those with at most one point and at least one digit |
| LineParser.CanIdText | parse_canaero_log.py:233 | the CAN id column splits into `0x<HEX>` and `(<decimal>)` |
| LineParser.ParseLine | parse_canaero_log.py:203-243 | a parsed record's CAN id column has two words |
| LineParser.FrameOf | parse_canaero_log.py:212-215 | the frame has one byte per two data digits |
| LineParser.MakeRecord | parse_canaero_log.py:222-243 | the dictionary built from a match and its frame; `ParsedFields` and `ParsedCanId` state each field |
| LineParser.ParseMatch | parse_canaero_log.py:209-243 | `parse_line` after the match; `MatchOutcomes` states when it raises, yields nothing or yields a record |
| LineParser.OutcomeCases | parse_canaero_log.py:205-220 | a line raises exactly when it matches with a timestamp group `float()` rejects; it yields a record exactly when it matches, the timestamp is a number and the data group is an even number (at least 8) of digits |
| LineParser.MatchOutcomes | parse_canaero_log.py:209-220 | the same, for a given match |
| LineParser.ParsedFields | parse_canaero_log.py:222-242 | the record's node id, service code and message code are frame bytes 0, 2 and 3; the data-type code is byte 1 as `0x%02X`; the decoder gets exactly bytes 4 onwards; `raw_data_hex` is the whole frame in upper-case hex and reads back as the frame; the timestamp is the matched group |
| LineParser.ParsedCanId | parse_canaero_log.py:229-235 | the CAN id column is `0x<HEX> (<decimal>)` of the matched id, and the name and unit are the catalogue's for it |
| LineParser.ParseCandumpLine | parse_canaero_log.py:203-243 | parsing inverts the log format: a candump line rendered from a timestamp, bus, id and frame of at least 4 bytes, followed by anything that cannot extend the data, parses to the record of that very frame |
| LineParser.ParseMatchOfCandump | parse_canaero_log.py:209-243 | the match of such a line is well-formed and yields that record |
| LineParser.CandumpFrame | parse_canaero_log.py:211-215 | the data group of such a line decodes to its frame and the id group reads back as its id |
| LogPipeline.FilterSet | parse_canaero_log.py:264 | there is a filter set exactly when a non-empty list of ids is given |
| LogPipeline.FilterKey | parse_canaero_log.py:264 | `f"0x{can_id:X}"`; `FilterKeyMatches` states that it matches a CAN id column exactly for the same id |
| LogPipeline.Kept | parse_canaero_log.py:269 | the filter test; `FilterMembership` and `ParsedLineKept` state that it is membership of the line's id in the list |
| LogPipeline.EmitStep | parse_canaero_log.py:267-270 | one turn of the loop, carried out by `WriteRow` |
| LogPipeline.Emit | parse_canaero_log.py:266-270 | the loop over the lines as a fold of `EmitStep`; `RowsComeFromLines`, `Concatenation`, `WrittenIffKept` and `RaisesIffBadTimestamp` state its properties |
| LogPipeline.LogRows | parse_canaero_log.py:264-270 | the rows and the escaping error of `parse_log_file`, which `ParseLogFile` computes |
| LogPipeline.Outcomes | parse_canaero_log.py:266-267 | one parse outcome per input line |
| LogPipeline.ParseLogFile | parse_canaero_log.py:264-270 | the loop writes exactly the rows, and raises exactly when, the specification `LogRows` says |
| LogPipeline.WriteRow | parse_canaero_log.py:268-270 | one turn of the loop: a timestamp error stops the loop, a non-record is skipped, and a record is appended exactly when it passes the filter |
| LogPipeline.EmitStops | parse_canaero_log.py:266-270 | once a timestamp error escapes, later lines do not change the rows |
| LogPipeline.RowsComeFromLines | parse_canaero_log.py:266-270 | every row written passes the filter and is the record of one of the input lines |
| LogPipeline.Concatenation | parse_canaero_log.py:266-270 | lines are handled one after the other: the rows of two stretches of input are those of the first followed by those of the second, unless the first raised |
| LogPipeline.WrittenIffKept | parse_canaero_log.py:268-270 | without a timestamp error, the record of line `k` is written, between the rows of the lines before and after it, exactly when it passes the filter |
| LogPipeline.RaisesIffBadTimestamp | parse_canaero_log.py:209 | the loop raises exactly when some line has a timestamp group `float()` rejects |
| LogPipeline.NeverRaises | parse_canaero_log.py:209 | without such a line the loop does not raise |
| LogPipeline.FilterKeyMatches | parse_canaero_log.py:264-269 | the `0x%X` key of a filter id equals the first word of a CAN id column exactly when the ids are equal; negative filter ids never match |
| LogPipeline.FilterMembership | parse_canaero_log.py:264-269 | with a non-empty filter list, the CAN id column of `id` passes exactly when `id` is in the list |
| LogPipeline.ParsedCanIdColumn | parse_canaero_log.py:233 | a parsed line's CAN id column is that of the id in its id group |
| LogPipeline.ParsedLineKept | parse_canaero_log.py:269 | a parsed record passes a non-empty filter exactly when its line's CAN id is listed |
| LogPipeline.NoFilterKeepsAll | parse_canaero_log.py:264-270 | with no filter (missing or empty list) and no timestamp error, every parsed record is written, in order |
| CorrectTs.Check | correct-ts.py:41-54 | a line is accepted exactly when it is at least 19 characters long and starts with `(`, 10 digits, `.`, 6 digits and `)`; a shorter non-empty line that fits that prefix as far as it goes raises `IndexError`; every other line is rejected |
| CorrectTs.RejectedWithoutParenthesis | correct-ts.py:42-43 | an empty line, or one not starting with `(`, is neither accepted nor raises |
| CorrectTs.QuotedLines | correct-ts.py:39-40 | the quoted line with six fractional digits is accepted, and the one with seven is rejected |
| CorrectTs.CheckedStamp | correct-ts.py:23 | for an accepted line, `float` in `getCanDate` receives exactly the 17 characters `dddddddddd.dddddd` of the timestamp |
| CorrectTs.GetCanDate | correct-ts.py:21-30 | the line is cut exactly when it has at least three words and the third holds `#`; the interface is the second word, the CAN id text holds no `#`, the node id has at most 2 characters and the data at most 32; `FieldsOfLine` gives every field |
| CorrectTs.FieldsOfLine | correct-ts.py:21-30 | for any line, whatever its spacing, line ending or further words, whose third word is `<id>#<data>` with one `#`: the timestamp text is characters 1–17 of the first word, the interface the second word, the CAN id the text before `#`, the node id characters 0–1 and the data characters 8–39 of the text after it |
| CorrectTs.SplitFields | correct-ts.py:25 | `split('#')` has a second field exactly when `#` occurs, and the first field is the text before it |
| CorrectTs.CandumpFields | correct-ts.py:20-30 | on a candump line as read from the log, ending in a newline or other whitespace, the fields are the interface, the CAN id text, the node id as the first frame byte in hex, and the data as frame bytes 4 to 19 in hex |
| CorrectTs.HexWord | correct-ts.py:25 | hex text is one word without `#` |
| CorrectTs.ThreeWords | correct-ts.py:22 | three words joined by single spaces split back into those words |
| CorrectTs.NodeIdDigits | correct-ts.py:28 | digits 0 and 1 of a frame's hex are its first byte |
| CorrectTs.DataDigits | correct-ts.py:29 | digits 8 to 39 of a frame's hex are bytes 4 to 19 (fewer when the frame is shorter) |
| CorrectTs.SliceOfMiddle | correct-ts.py:29 | the slice `[8:40]` of a string picks out the middle part when the prefix has 8 characters |
| CorrectTs.Sighted | correct-ts.py:33-36 | after `statistics(ids, id)` the id is a key whose count is one more than before, or 2 when it was new; the other keys and counts are unchanged |
| CorrectTs.Occurrences | correct-ts.py:33-36 | an id occurs at most as often as the sequence is long, and zero times exactly when it is absent |
| CorrectTs.Tally | correct-ts.py:33-36 | the dictionary after `statistics` has been called with each id in turn; `TallyCounts` states its keys and counts |
| CorrectTs.TallyCounts | correct-ts.py:33-36 | after a sequence of calls, the keys are exactly the ids seen, and each count is one more than the number of times the id was seen |
| CorrectTs.IdCounts.constructor | correct-ts.py:76-77 | a counter starts empty, with no sightings |
| CorrectTs.IdCounts.Statistics | correct-ts.py:33-36 | one call records the sighting, keeps the dictionary equal to the tally of all sightings, and updates it as `Sighted` says |

## Left out

- Timestamps stay text. `datetime.fromtimestamp(...).isoformat(...)` and its range errors are not part of this model: the record carries the matched timestamp group. Only whether `float()` accepts the group is modelled.
- Floats are kept as bit patterns. The `f` and `d` struct formats yield `FloatBits(bits, width)`; the IEEE-754 value is not computed. No table entry joins several floats with commas, so `str(float)` is never needed.
- Character classes are ASCII only. `\d`, `\s` and `str.isdigit` also accept non-ASCII digits and whitespace in Python; those characters are not modelled.
- `upper()` is ASCII upper-casing. It is only applied to hex digits here.
- File I/O, `csv.DictWriter` and `argparse` are not modelled. `parse_log_file` is modelled on a sequence of lines (the file's lines, each with its line ending) and returns the sequence of rows written. The CSV quoting of those rows is not part of this model.
- `main` and `hex_int` of `parse_canaero_log.py` are not part of this model: they only parse command-line arguments.
- `correct-ts.py` lines 57-150 are not part of this model: the script body that reads the log, opens new log files, prints and calls the three helpers. The constructor of `IdCounts` stands for the two `{}` initialisations it performs.
- CorrectTs.GetCanDate: the `float()` conversion of the timestamp text is not modelled. The text passed to `float` is returned, so a `ValueError` there is not represented.
- The counters of `statistics` hold unbounded integers as keys. The script's keys are the `int` values of hex texts, so nothing is lost.
- LogPipeline.WriteRow: the filter test takes the first word of the CAN id column when there is one. Every parsed record's column has two words (`LineParser.ParseLine`), so this is the source's `split()[0]`.
- The other scripts of the repository are not part of this model: the database loaders, the message synchroniser and the player.
