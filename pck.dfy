/** The Wwise file package (AKPK): a header of six u32 fields, a string
    table of language names, a table of sound banks, a table of streamed
    WEM files and a list of external u32 values, followed by the file data.
    The stored offsets of the entries only order them: a reader derives
    each file's position by laying the entries out from the end of the
    header, rounding up to each entry's block size. */
module Pck {
  import opened Bytes

  const AKPK: seq<byte> := [0x41, 0x4B, 0x50, 0x4B]

  /** The stream position of the string count: after the magic and the six
      u32 header fields. */
  const STRING_START: nat := 28

  /** `PckError`. `Assertion` is declared but never raised by the codec. */
  datatype PckError = Io | InvalidMagic(magic: seq<byte>) | Assertion(message: string)

  /** `PckFileEntry`, laid out in memory field by field as little-endian u32s. */
  datatype FileEntry = FileEntry(id: u32, paddingBlockSize: u32, length: u32, offset: u32, languageId: u32)

  datatype PckString = PckString(index: u32, value: string)

  /** A string-table slot: where the string starts, relative to the string
      count, and its language index. */
  datatype StringEntry = StringEntry(offset: u32, index: u32)

  /** The fields of `PckHeader` that are stored in the file. */
  datatype HeaderData = HeaderData(headerLength: u32, version: u32, stringTable: seq<PckString>,
                                   bnkEntries: seq<FileEntry>, wemEntries: seq<FileEntry>,
                                   externalEntries: seq<u32>)

  /** `utils::string_to_utf16_bytes`. */
  type Encoder = string -> seq<byte>

  /** `utils::string_from_utf16_reader` on a stream over the bytes with its
      cursor at the position: the string, or None on an I/O error. */
  type Decoder = (seq<byte>, nat) -> Option<string>

  // ---------------------------------------------------------------- records

  function FileEntryBytes(e: FileEntry): (r: seq<byte>)
    ensures |r| == 20
  {
    LeU32(e.id) + LeU32(e.paddingBlockSize) + LeU32(e.length) + LeU32(e.offset) + LeU32(e.languageId)
  }

  /** The entry the twenty bytes at `pos` hold. */
  function FileEntryAt(data: seq<byte>, pos: nat): FileEntry
    requires pos + 20 <= |data|
  {
    FileEntry(U32FromLe(data[pos..pos + 4]), U32FromLe(data[pos + 4..pos + 8]), U32FromLe(data[pos + 8..pos + 12]),
              U32FromLe(data[pos + 12..pos + 16]), U32FromLe(data[pos + 16..pos + 20]))
  }

  lemma {:induction false} FileEntryRoundTrip(data: seq<byte>, pos: nat, e: FileEntry)
    requires At(data, pos, FileEntryBytes(e))
    ensures pos + 20 <= |data| && FileEntryAt(data, pos) == e
  {
    var a, b, c, d, f := LeU32(e.id), LeU32(e.paddingBlockSize), LeU32(e.length), LeU32(e.offset), LeU32(e.languageId);
    AtSplit(data, pos, a + b + c + d, f);
    AtSplit(data, pos, a + b + c, d);
    AtSplit(data, pos, a + b, c);
    AtSplit(data, pos, a, b);
    LeU32RoundTrip(e.id);
    LeU32RoundTrip(e.paddingBlockSize);
    LeU32RoundTrip(e.length);
    LeU32RoundTrip(e.offset);
    LeU32RoundTrip(e.languageId);
  }

  function EntryBlobs(es: seq<FileEntry>): (r: seq<seq<byte>>)
    ensures |r| == |es| && forall i :: 0 <= i < |es| ==> r[i] == FileEntryBytes(es[i])
  {
    seq(|es|, i requires 0 <= i < |es| => FileEntryBytes(es[i]))
  }

  /** The entries of a table, back to back. */
  function EntriesBytes(es: seq<FileEntry>): (r: seq<byte>)
    ensures |r| == 20 * |es|
  {
    TotalLengthUniform(EntryBlobs(es), 20);
    Concat(EntryBlobs(es))
  }

  /** `count` entries read back to back from `pos`, or None when the stream
      ends first. */
  function EntriesAt(data: seq<byte>, pos: nat, count: nat): (r: Option<seq<FileEntry>>)
    ensures r.Some? <==> count == 0 || pos + 20 * count <= |data|
    ensures r.Some? ==> |r.value| == count
    ensures r.Some? ==> forall i :: 0 <= i < count ==> r.value[i] == FileEntryAt(data, pos + 20 * i)
  {
    if count == 0 || pos + 20 * count <= |data| then
      Some(seq(count, i requires 0 <= i < count => FileEntryAt(data, pos + 20 * i)))
    else None
  }

  lemma {:induction false} EntriesRoundTrip(data: seq<byte>, pos: nat, es: seq<FileEntry>)
    requires At(data, pos, EntriesBytes(es))
    ensures EntriesAt(data, pos, |es|) == Some(es)
  {
    forall i | 0 <= i < |es| ensures FileEntryAt(data, pos + 20 * i) == es[i] {
      ConcatUniformAt(data, pos, EntryBlobs(es), 20, i, pos + 20 * i);
      FileEntryRoundTrip(data, pos + 20 * i, es[i]);
    }
    assert EntriesAt(data, pos, |es|).value == es;
  }

  /** A table on disk: its u32 count, then its entries. */
  function TableAt(data: seq<byte>, pos: nat): (r: Option<(seq<FileEntry>, nat)>)
    ensures r.Some? ==> r.value.1 == pos + 4 + 20 * |r.value.0| <= |data|
    ensures r.Some? ==> U32At(data, pos) == Some(|r.value.0|)
  {
    match U32At(data, pos)
    case None => None
    case Some(count) =>
      match EntriesAt(data, pos + 4, count)
      case None => None
      case Some(es) => Some((es, pos + 4 + 20 * count))
  }

  function U32Blobs(xs: seq<u32>): (r: seq<seq<byte>>)
    ensures |r| == |xs| && forall i :: 0 <= i < |xs| ==> r[i] == LeU32(xs[i])
  {
    seq(|xs|, i requires 0 <= i < |xs| => LeU32(xs[i]))
  }

  function U32sBytes(xs: seq<u32>): (r: seq<byte>)
    ensures |r| == 4 * |xs|
  {
    TotalLengthUniform(U32Blobs(xs), 4);
    Concat(U32Blobs(xs))
  }

  /** `count` u32 values read back to back from `pos`. */
  function U32sAt(data: seq<byte>, pos: nat, count: nat): (r: Option<seq<u32>>)
    ensures r.Some? <==> count == 0 || pos + 4 * count <= |data|
    ensures r.Some? ==> |r.value| == count
    ensures r.Some? ==> forall i :: 0 <= i < count ==> r.value[i] == U32FromLe(data[pos + 4 * i..pos + 4 * i + 4])
  {
    if count == 0 || pos + 4 * count <= |data| then
      Some(seq(count, i requires 0 <= i < count => U32FromLe(data[pos + 4 * i..pos + 4 * i + 4])))
    else None
  }

  lemma {:induction false} U32sRoundTrip(data: seq<byte>, pos: nat, xs: seq<u32>)
    requires At(data, pos, U32sBytes(xs))
    ensures U32sAt(data, pos, |xs|) == Some(xs)
  {
    forall i | 0 <= i < |xs| ensures U32FromLe(data[pos + 4 * i..pos + 4 * i + 4]) == xs[i] {
      ConcatUniformAt(data, pos, U32Blobs(xs), 4, i, pos + 4 * i);
      LeU32RoundTrip(xs[i]);
    }
    assert U32sAt(data, pos, |xs|).value == xs;
  }

  function StringEntryBytes(s: StringEntry): (r: seq<byte>)
    ensures |r| == 8
  {
    LeU32(s.offset) + LeU32(s.index)
  }

  function StringEntryAt(data: seq<byte>, pos: nat): StringEntry
    requires pos + 8 <= |data|
  {
    StringEntry(U32FromLe(data[pos..pos + 4]), U32FromLe(data[pos + 4..pos + 8]))
  }

  lemma {:induction false} StringEntryRoundTrip(data: seq<byte>, pos: nat, s: StringEntry)
    requires At(data, pos, StringEntryBytes(s))
    ensures pos + 8 <= |data| && StringEntryAt(data, pos) == s
  {
    AtSplit(data, pos, LeU32(s.offset), LeU32(s.index));
    LeU32RoundTrip(s.offset);
    LeU32RoundTrip(s.index);
  }

  function StringEntryBlobs(ses: seq<StringEntry>): (r: seq<seq<byte>>)
    ensures |r| == |ses| && forall i :: 0 <= i < |ses| ==> r[i] == StringEntryBytes(ses[i])
  {
    seq(|ses|, i requires 0 <= i < |ses| => StringEntryBytes(ses[i]))
  }

  function StringEntriesBytes(ses: seq<StringEntry>): (r: seq<byte>)
    ensures |r| == 8 * |ses|
  {
    TotalLengthUniform(StringEntryBlobs(ses), 8);
    Concat(StringEntryBlobs(ses))
  }

  /** `count` string-table slots read back to back from `pos`. */
  function StringEntriesAt(data: seq<byte>, pos: nat, count: nat): (r: Option<seq<StringEntry>>)
    ensures r.Some? <==> count == 0 || pos + 8 * count <= |data|
    ensures r.Some? ==> |r.value| == count
    ensures r.Some? ==> forall i :: 0 <= i < count ==> r.value[i] == StringEntryAt(data, pos + 8 * i)
  {
    if count == 0 || pos + 8 * count <= |data| then
      Some(seq(count, i requires 0 <= i < count => StringEntryAt(data, pos + 8 * i)))
    else None
  }

  lemma {:induction false} StringEntriesRoundTrip(data: seq<byte>, pos: nat, ses: seq<StringEntry>)
    requires At(data, pos, StringEntriesBytes(ses))
    ensures StringEntriesAt(data, pos, |ses|) == Some(ses)
  {
    forall i | 0 <= i < |ses| ensures StringEntryAt(data, pos + 8 * i) == ses[i] {
      ConcatUniformAt(data, pos, StringEntryBlobs(ses), 8, i, pos + 8 * i);
      StringEntryRoundTrip(data, pos + 8 * i, ses[i]);
    }
    assert StringEntriesAt(data, pos, |ses|).value == ses;
  }

  // ---------------------------------------------------------------- parsing

  /** The second loop of the string table: each string decoded where its
      slot points, `STRING_START` plus the slot's offset. */
  function DecodeStrings(data: seq<byte>, ses: seq<StringEntry>, dec: Decoder): (r: Option<seq<PckString>>)
    ensures r.Some? <==> forall i :: 0 <= i < |ses| ==> dec(data, STRING_START + ses[i].offset).Some?
    ensures r.Some? ==> |r.value| == |ses|
    ensures r.Some? ==> forall i :: 0 <= i < |ses| ==>
              r.value[i] == PckString(ses[i].index, dec(data, STRING_START + ses[i].offset).value)
  {
    if forall i :: 0 <= i < |ses| ==> dec(data, STRING_START + ses[i].offset).Some? then
      Some(seq(|ses|, i requires 0 <= i < |ses| => PckString(ses[i].index, dec(data, STRING_START + ses[i].offset).value)))
    else None
  }

  /** The string table: its count, its slots, then the strings. */
  function StringsAt(data: seq<byte>, dec: Decoder): (r: Option<seq<PckString>>)
  {
    match U32At(data, STRING_START)
    case None => None
    case Some(count) =>
      match StringEntriesAt(data, STRING_START + 4, count)
      case None => None
      case Some(ses) => DecodeStrings(data, ses, dec)
  }

  /** `PckHeader::from_reader` on a stream over `data`, the position table
      aside. After the string table the cursor is put at `STRING_START` plus
      the stored language length, whatever the strings consumed; the
      external list holds a quarter of its stored byte length. */
  function ParseHeader(data: seq<byte>, dec: Decoder): (r: Result<HeaderData, PckError>)
    ensures |data| >= 4 && data[..4] != AKPK ==> r == Err(InvalidMagic(data[..4]))
    ensures r.Ok? ==> |data| >= 32 && data[..4] == AKPK
    ensures r.Ok? ==> r.value.headerLength == U32FromLe(data[4..8]) && r.value.version == U32FromLe(data[8..12])
    ensures r.Ok? ==> StringsAt(data, dec) == Some(r.value.stringTable)
    ensures r.Ok? ==> var t := TableAt(data, STRING_START + U32FromLe(data[12..16]));
              t.Some? && t.value.0 == r.value.bnkEntries &&
              TableAt(data, t.value.1).Some? && TableAt(data, t.value.1).value.0 == r.value.wemEntries
    ensures r.Ok? ==> |r.value.externalEntries| == U32FromLe(data[24..28]) / 4
    ensures r.Err? ==> r.error.Io? || r.error.InvalidMagic?
  {
    if |data| < 4 then Err(Io)
    else if data[..4] != AKPK then Err(InvalidMagic(data[..4]))
    else if |data| < 32 then Err(Io)
    else
      var languageLength := U32FromLe(data[12..16]);
      var externalLength := U32FromLe(data[24..28]);
      match StringsAt(data, dec)
      case None => Err(Io)
      case Some(strs) =>
        match TableAt(data, STRING_START + languageLength)
        case None => Err(Io)
        case Some((bnk, p)) =>
          match TableAt(data, p)
          case None => Err(Io)
          case Some((wem, q)) =>
            match U32sAt(data, q, externalLength / 4)
            case None => Err(Io)
            case Some(ext) => Ok(HeaderData(U32FromLe(data[4..8]), U32FromLe(data[8..12]), strs, bnk, wem, ext))
  }
  // ------------------------------------------------------------------ sizes

  /** The UTF-16 bytes of each string of the table, in order. */
  function Utf16(strs: seq<PckString>, enc: Encoder): (r: seq<seq<byte>>)
    ensures |r| == |strs| && forall i :: 0 <= i < |strs| ==> r[i] == enc(strs[i].value)
  {
    seq(|strs|, i requires 0 <= i < |strs| => enc(strs[i].value))
  }

  /** `bnk_table_size` and `wem_table_size`: the count, then 20 bytes an entry. */
  function TableSize(es: seq<FileEntry>): nat {
    4 + 20 * |es|
  }

  /** `external_entries_size`. */
  function ExternalSize(xs: seq<u32>): nat {
    4 * |xs|
  }

  /** `language_size`: the strings' UTF-16 bytes, the count and 8 bytes a slot. */
  function LanguageSizeOf(strs: seq<PckString>, enc: Encoder): nat {
    TotalLength(Utf16(strs, enc)) + 4 + 8 * |strs|
  }

  /** `header_size`: everything after the header-length field. */
  function HeaderSizeOf(h: HeaderData, enc: Encoder): nat {
    TableSize(h.bnkEntries) + TableSize(h.wemEntries) + ExternalSize(h.externalEntries) +
    LanguageSizeOf(h.stringTable, enc) + 20
  }

  /** `get_data_offset_start`: `header_size() as u32 + 8`, in u32 arithmetic. */
  function DataOffsetStart(h: HeaderData, enc: Encoder): u32 {
    Wrap32(Wrap32(HeaderSizeOf(h, enc)) + 8)
  }

  /** The sizes the package test reads off its sample file: no banks, 333
      WEM entries, one external value and a 20-byte language table. */
  lemma {:induction false} SampleSizes(h: HeaderData, enc: Encoder)
    requires |h.bnkEntries| == 0 && |h.wemEntries| == 333 && |h.externalEntries| == 1
    requires LanguageSizeOf(h.stringTable, enc) == 20
    ensures TableSize(h.bnkEntries) == 4 && TableSize(h.wemEntries) == 6664
    ensures ExternalSize(h.externalEntries) == 4
    ensures HeaderSizeOf(h, enc) == 6712 && DataOffsetStart(h, enc) == 6720
  {
  }

  // ---------------------------------------------------------------- writing

  /** Where string `j` starts, counted from the string count: after the
      count and every slot, and after the strings before it. */
  function StringOffset(strs: seq<PckString>, enc: Encoder, j: nat): nat
    requires j <= |strs|
  {
    4 + 8 * |strs| + TotalLength(Utf16(strs, enc)[..j])
  }

  /** The slots `write_to` gives the strings, offsets cut to u32. */
  function StringEntries(strs: seq<PckString>, enc: Encoder): (r: seq<StringEntry>)
    ensures |r| == |strs|
    ensures forall j :: 0 <= j < |strs| ==> r[j] == StringEntry(Wrap32(StringOffset(strs, enc, j)), strs[j].index)
  {
    seq(|strs|, j requires 0 <= j < |strs| => StringEntry(Wrap32(StringOffset(strs, enc, j)), strs[j].index))
  }

  /** The first string starts right after the slots, and each string
      starts where the one before it ends. */
  lemma {:induction false} StringOffsetsRun(strs: seq<PckString>, enc: Encoder, j: nat)
    requires j < |strs|
    ensures StringOffset(strs, enc, 0) == 4 + 8 * |strs|
    ensures StringOffset(strs, enc, j + 1) == StringOffset(strs, enc, j) + |enc(strs[j].value)|
    ensures StringOffset(strs, enc, |strs|) == LanguageSizeOf(strs, enc)
  {
    ConcatSnoc(Utf16(strs, enc), j);
    assert Utf16(strs, enc)[..|strs|] == Utf16(strs, enc);
  }

  /** The language section `write_to` emits: the count, the slots, then the
      strings' bytes one after the other. */
  function LanguageBytes(strs: seq<PckString>, enc: Encoder): seq<byte> {
    LeU32(Wrap32(|strs|)) + StringEntriesBytes(StringEntries(strs, enc)) + Concat(Utf16(strs, enc))
  }

  /** The size `write_to` measures for the language section is `language_size()`. */
  lemma {:induction false} LanguageBytesSize(strs: seq<PckString>, enc: Encoder)
    ensures |LanguageBytes(strs, enc)| == LanguageSizeOf(strs, enc)
  {
  }

  /** The fixed fields as first written: the magic, the version, and zeros
      for the sizes not yet known. */
  function HeaderStart(version: u32, w: Sink): (r: Sink)
    ensures r.pos == w.pos + 28
  {
    w.Write(AKPK).Write(LeU32(0)).Write(LeU32(version)).Write(LeU32(0)).Write(LeU32(0)).Write(LeU32(0)).Write(LeU32(0))
  }

  /** The language section: the string count, the slots, the strings. */
  function LanguageWrite(strs: seq<PckString>, enc: Encoder, w: Sink): (r: Sink)
    ensures r.pos == w.pos + LanguageSizeOf(strs, enc)
  {
    w.Write(LeU32(Wrap32(|strs|))).Write(StringEntriesBytes(StringEntries(strs, enc))).Write(Concat(Utf16(strs, enc)))
  }

  /** The bank table, the sound table and the external values. */
  function TablesWrite(bnk: seq<FileEntry>, wem: seq<FileEntry>, ext: seq<u32>, w: Sink): (r: Sink)
    ensures r.pos == w.pos + TableSize(bnk) + TableSize(wem) + ExternalSize(ext)
  {
    w.Write(LeU32(Wrap32(|bnk|))).Write(EntriesBytes(bnk)).Write(LeU32(Wrap32(|wem|))).Write(EntriesBytes(wem)).Write(U32sBytes(ext))
  }

  /** The back-patch: the header size at offset 4, the four section sizes
      from offset 12 on, and the cursor returned to `endPos`. */
  function PatchSizes(w: Sink, headerSize: nat, languageSize: nat, bnkSize: nat, wemSize: nat, extSize: nat, endPos: nat): (r: Sink)
    ensures r.pos == endPos
  {
    var w4 := w.Seek(4).Write(LeU32(Wrap32(headerSize)));
    w4.Seek(w4.pos + 4).Write(LeU32(Wrap32(languageSize))).Write(LeU32(Wrap32(bnkSize)))
      .Write(LeU32(Wrap32(wemSize))).Write(LeU32(Wrap32(extSize))).Seek(endPos)
  }

  /** `PckHeader::write_to` on a writer in state `w`: the magic, the header
      length, the version and four zeroed lengths; the string table, the two
      tables and the external values; then the header length and the four
      lengths are patched in at positions 4 and 12 to 28, the header length
      as 20 plus the measured language size plus the other table sizes, and
      the cursor goes back to the end of the tables. */
  function WriteHeader(h: HeaderData, enc: Encoder, w: Sink): (r: Sink)
    ensures r.pos == w.pos + HeaderSizeOf(h, enc) + 8
  {
    var w3 := TablesWrite(h.bnkEntries, h.wemEntries, h.externalEntries, LanguageWrite(h.stringTable, enc, HeaderStart(h.version, w)));
    PatchSizes(w3, HeaderSizeOf(h, enc), LanguageSizeOf(h.stringTable, enc),
               TableSize(h.bnkEntries), TableSize(h.wemEntries), ExternalSize(h.externalEntries), w3.pos)
  }

  /** The stages of `write_to`, taken one at a time, make up the whole. */
  lemma {:induction false} WriteHeaderStages(h: HeaderData, enc: Encoder, w: Sink, w1: Sink, w2: Sink, w3: Sink)
    requires w1 == HeaderStart(h.version, w) && w2 == LanguageWrite(h.stringTable, enc, w1)
    requires w3 == TablesWrite(h.bnkEntries, h.wemEntries, h.externalEntries, w2)
    ensures WriteHeader(h, enc, w) == PatchSizes(w3, HeaderSizeOf(h, enc), LanguageSizeOf(h.stringTable, enc),
                                                 TableSize(h.bnkEntries), TableSize(h.wemEntries), ExternalSize(h.externalEntries), w3.pos)
  {
  }

  // -------------------------------------------------------------- positions

  /** Entries ordered by stored offset. */
  predicate SortedByOffset(es: seq<FileEntry>) {
    forall i, j :: 0 <= i < j < |es| ==> es[i].offset <= es[j].offset
  }

  /** `e` placed after every entry whose offset is not larger. */
  function InsertByOffset(sorted: seq<FileEntry>, e: FileEntry): (r: seq<FileEntry>)
    ensures |r| == |sorted| + 1
    ensures multiset(r) == multiset(sorted) + multiset{e}
  {
    if sorted == [] || sorted[|sorted| - 1].offset <= e.offset then sorted + [e]
    else
      var n := |sorted| - 1;
      assert sorted == sorted[..n] + [sorted[n]];
      InsertByOffset(sorted[..n], e) + [sorted[n]]
  }

  /** `sort_by_key(|(entry, _)| entry.offset)`: a stable sort, here by insertion. */
  function SortByOffset(es: seq<FileEntry>): (r: seq<FileEntry>)
    ensures |r| == |es| && multiset(r) == multiset(es)
  {
    if es == [] then []
    else
      var n := |es| - 1;
      assert es == es[..n] + [es[n]];
      InsertByOffset(SortByOffset(es[..n]), es[n])
  }

  lemma {:induction false} InsertSorted(sorted: seq<FileEntry>, e: FileEntry)
    requires SortedByOffset(sorted)
    ensures SortedByOffset(InsertByOffset(sorted, e))
    decreases |sorted|
  {
    if sorted != [] && sorted[|sorted| - 1].offset > e.offset {
      var n := |sorted| - 1;
      InsertSorted(sorted[..n], e);
      InsertBounded(sorted[..n], e, sorted[n].offset);
    }
  }

  lemma {:induction false} InsertBounded(sorted: seq<FileEntry>, e: FileEntry, bound: nat)
    requires forall i :: 0 <= i < |sorted| ==> sorted[i].offset <= bound
    requires e.offset <= bound
    ensures forall i :: 0 <= i < |sorted| + 1 ==> InsertByOffset(sorted, e)[i].offset <= bound
    decreases |sorted|
  {
    if sorted != [] && sorted[|sorted| - 1].offset > e.offset {
      InsertBounded(sorted[..|sorted| - 1], e, bound);
    }
  }

  /** The sort orders the entries by offset and only reorders them. */
  lemma {:induction false} SortByOffsetSorts(es: seq<FileEntry>)
    ensures SortedByOffset(SortByOffset(es))
    ensures multiset(SortByOffset(es)) == multiset(es)
  {
    if es != [] {
      SortByOffsetSorts(es[..|es| - 1]);
      InsertSorted(SortByOffset(es[..|es| - 1]), es[|es| - 1]);
    }
  }

  /** Entries already in offset order stay as they are: ties keep their order. */
  lemma {:induction false} SortByOffsetOfSorted(es: seq<FileEntry>)
    requires SortedByOffset(es)
    ensures SortByOffset(es) == es
  {
    if es != [] {
      var n := |es| - 1;
      SortByOffsetOfSorted(es[..n]);
      assert es[..n] + [es[n]] == es;
    }
  }

  /** The `current_pos` step of `calculate_file_positions`: rounded up to
      the alignment when it exceeds 1, in u32 arithmetic. */
  function AlignUp(cur: u32, alignment: u32): u32 {
    if alignment > 1 && cur % alignment != 0 then Wrap32(cur + (alignment - cur % alignment)) else cur
  }

  /** The positions the loop of `calculate_file_positions` gives entries
      taken in order, starting from `cur`. */
  function SortedPositions(cur: u32, es: seq<FileEntry>): (r: seq<u32>)
    ensures |r| == |es|
    decreases |es|
  {
    if es == [] then []
    else
      var p := AlignUp(cur, es[0].paddingBlockSize);
      [p] + SortedPositions(Wrap32(p + es[0].length), es[1..])
  }

  /** The smallest multiple of `alignment` not below `cur` (when the
      alignment exceeds 1). */
  function Align(cur: nat, alignment: nat): (r: nat)
    ensures cur <= r
    ensures alignment <= 1 ==> r == cur
    ensures alignment > 1 ==> r % alignment == 0 && r < cur + alignment
  {
    if alignment > 1 && cur % alignment != 0 then
      var q := cur / alignment;
      assert cur == alignment * q + cur % alignment;
      assert cur + (alignment - cur % alignment) == alignment * (q + 1);
      MultipleMod(alignment, q + 1);
      cur + (alignment - cur % alignment)
    else cur
  }

  lemma {:induction false} MultipleMod(a: nat, m: nat)
    requires a > 0
    ensures (a * m) % a == 0
  {
    var x := a * m;
    var t := m - x / a;
    assert x == a * (x / a) + x % a;
    assert x % a == a * t;
    assert 0 <= a * t < a;
  }

  /** The layout in unbounded arithmetic: each entry at the next aligned
      position after the one before it ends. */
  function Layout(cur: nat, es: seq<FileEntry>): (r: seq<nat>)
    ensures |r| == |es|
    decreases |es|
  {
    if es == [] then []
    else
      var p := Align(cur, es[0].paddingBlockSize);
      [p] + Layout(p + es[0].length, es[1..])
  }

  /** Where the layout from `cur` ends. */
  function LayoutEnd(cur: nat, es: seq<FileEntry>): (r: nat)
    ensures cur <= r
    decreases |es|
  {
    if es == [] then cur else LayoutEnd(Align(cur, es[0].paddingBlockSize) + es[0].length, es[1..])
  }

  /** Every entry lies at or after the start, on its alignment, after the
      end of the entry before it, and before the end of the layout. */
  lemma {:induction false} LayoutPlacesEntries(cur: nat, es: seq<FileEntry>)
    decreases |es|
    ensures forall i :: 0 <= i < |es| ==> cur <= Layout(cur, es)[i]
    ensures forall i :: 0 <= i < |es| && es[i].paddingBlockSize > 1 ==>
              Layout(cur, es)[i] % es[i].paddingBlockSize == 0
    ensures forall i :: 0 <= i < |es| ==> Layout(cur, es)[i] + es[i].length <= LayoutEnd(cur, es)
    ensures forall i :: 0 <= i < |es| - 1 ==> Layout(cur, es)[i] + es[i].length <= Layout(cur, es)[i + 1]
  {
    if es != [] {
      var p := Align(cur, es[0].paddingBlockSize);
      var next := p + es[0].length;
      var rest := es[1..];
      LayoutPlacesEntries(next, rest);
      var l := Layout(cur, es);
      assert l == [p] + Layout(next, rest);
      forall i | 1 <= i < |es| ensures l[i] == Layout(next, rest)[i - 1] && es[i] == rest[i - 1] {
      }
      if |rest| > 0 {
        assert next <= Layout(next, rest)[0];
      }
    }
  }

  /** While the layout stays below 2^32 the u32 loop computes it exactly. */
  lemma {:induction false} PositionsAgree(cur: u32, es: seq<FileEntry>)
    requires LayoutEnd(cur, es) < U32_LIMIT
    ensures SortedPositions(cur, es) == Layout(cur, es)
    decreases |es|
  {
    if es != [] {
      var p := Align(cur, es[0].paddingBlockSize);
      assert p + es[0].length <= LayoutEnd(cur, es);
      assert AlignUp(cur, es[0].paddingBlockSize) == p;
      PositionsAgree(p + es[0].length, es[1..]);
    }
  }

  /** The worked example: from 100, five bytes unaligned and then ten bytes
      on a 16-byte block give 100 and 112. */
  lemma {:induction false} PositionsExample()
    ensures SortedPositions(100, [FileEntry(1, 1, 5, 0, 0), FileEntry(2, 16, 10, 5, 0)]) == [100, 112]
  {
    var a, b := FileEntry(1, 1, 5, 0, 0), FileEntry(2, 16, 10, 5, 0);
    assert [a, b][1..] == [b];
    assert AlignUp(105, 16) == 112;
    assert SortedPositions(117, []) == [];
  }

  /** `pos_map`: the position of each entry under its id, inserted in order,
      so a later entry with the same id replaces an earlier one. */
  function PositionMap(es: seq<FileEntry>, ps: seq<u32>): (m: map<u32, u32>)
    requires |es| == |ps|
    ensures forall i :: 0 <= i < |es| ==> es[i].id in m
    ensures forall id :: id in m ==> exists i :: 0 <= i < |es| && es[i].id == id
  {
    if es == [] then map[]
    else
      var n := |es| - 1;
      PositionMap(es[..n], ps[..n])[es[n].id := ps[n]]
  }

  /** The map holds, for each id, the position of the last entry carrying it. */
  lemma {:induction false} PositionMapLast(es: seq<FileEntry>, ps: seq<u32>, i: nat)
    requires |es| == |ps| && i < |es|
    requires forall j :: i < j < |es| ==> es[j].id != es[i].id
    ensures PositionMap(es, ps)[es[i].id] == ps[i]
  {
    var n := |es| - 1;
    if i < n {
      PositionMapLast(es[..n], ps[..n], i);
    }
  }

  /** The position of each entry of a table: its id looked up, 0 if absent. */
  function LookUp(m: map<u32, u32>, es: seq<FileEntry>): (r: seq<u32>)
    ensures |r| == |es|
  {
    seq(|es|, i requires 0 <= i < |es| => if es[i].id in m then m[es[i].id] else 0)
  }

  /** One turn of the position loop of `calculate_file_positions`. */
  lemma {:induction false} SortedPositionsStep(start: u32, es: seq<FileEntry>, i: nat, cur: u32, ps: seq<u32>, p: u32)
    requires i < |es| && ps + SortedPositions(cur, es[i..]) == SortedPositions(start, es)
    requires p == AlignUp(cur, es[i].paddingBlockSize)
    ensures (ps + [p]) + SortedPositions(Wrap32(p + es[i].length), es[i + 1..]) == SortedPositions(start, es)
  {
    assert es[i..][1..] == es[i + 1..];
    assert SortedPositions(cur, es[i..]) == [p] + SortedPositions(Wrap32(p + es[i].length), es[i + 1..]);
    assert (ps + [p]) + SortedPositions(Wrap32(p + es[i].length), es[i + 1..]) == ps + SortedPositions(cur, es[i..]);
  }

  lemma {:induction false} SortedPositionsDone(start: u32, es: seq<FileEntry>, cur: u32, ps: seq<u32>)
    requires ps + SortedPositions(cur, es[|es|..]) == SortedPositions(start, es)
    ensures ps == SortedPositions(start, es)
  {
    assert es[|es|..] == [];
    assert ps + [] == ps;
  }

  lemma {:induction false} PositionMapSnoc(es: seq<FileEntry>, ps: seq<u32>, i: nat)
    requires |es| == |ps| && i < |es|
    ensures PositionMap(es[..i + 1], ps[..i + 1]) == PositionMap(es[..i], ps[..i])[es[i].id := ps[i]]
  {
    assert es[..i + 1][..i] == es[..i];
    assert ps[..i + 1][..i] == ps[..i];
  }

  /** `calculate_file_positions`: both tables merged, sorted by stored
      offset, laid out from the data start; then each table's positions. */
  function FilePositions(h: HeaderData, enc: Encoder): (r: (seq<u32>, seq<u32>))
    ensures |r.0| == |h.bnkEntries| && |r.1| == |h.wemEntries|
  {
    var sorted := SortByOffset(h.bnkEntries + h.wemEntries);
    var m := PositionMap(sorted, SortedPositions(DataOffsetStart(h, enc), sorted));
    (LookUp(m, h.bnkEntries), LookUp(m, h.wemEntries))
  }
  /** The loop's positions, walking the entries in order, as long as the
      layout stays below 2^32: each at or after the start, on its alignment,
      and after the end of the entry before it. */
  lemma {:induction false} SortedPositionsPlaced(cur: u32, es: seq<FileEntry>)
    requires LayoutEnd(cur, es) < U32_LIMIT
    ensures forall i :: 0 <= i < |es| ==> cur <= SortedPositions(cur, es)[i]
    ensures forall i :: 0 <= i < |es| && es[i].paddingBlockSize > 1 ==>
              SortedPositions(cur, es)[i] % es[i].paddingBlockSize == 0
    ensures forall i :: 0 <= i < |es| - 1 ==>
              SortedPositions(cur, es)[i] + es[i].length <= SortedPositions(cur, es)[i + 1]
  {
    PositionsAgree(cur, es);
    LayoutPlacesEntries(cur, es);
  }

  /** The index of the last entry carrying `id`. */
  function LastWithId(es: seq<FileEntry>, id: u32): (r: nat)
    requires exists i :: 0 <= i < |es| && es[i].id == id
    ensures r < |es| && es[r].id == id
    ensures forall j :: r < j < |es| ==> es[j].id != id
  {
    var n := |es| - 1;
    if es[n].id == id then n
    else
      var i :| 0 <= i < |es| && es[i].id == id;
      assert es[..n][i].id == id;
      LastWithId(es[..n], id)
  }

  /** Entries carrying the same id are the same entry. */
  predicate IdsDetermineEntries(es: seq<FileEntry>) {
    forall x, y :: x in es && y in es && x.id == y.id ==> x == y
  }

  /** An entry's id looked up in the position map built over all entries
      sorted: a position at or after the start, and on the entry's own
      alignment when entries with one id agree. */
  lemma {:induction false} LookUpOne(all: seq<FileEntry>, x: FileEntry, start: u32,
                                     sorted: seq<FileEntry>, ps: seq<u32>)
    requires sorted == SortByOffset(all) && ps == SortedPositions(start, sorted)
    requires x in all && LayoutEnd(start, sorted) < U32_LIMIT
    ensures x.id in PositionMap(sorted, ps) && start <= PositionMap(sorted, ps)[x.id]
    ensures IdsDetermineEntries(all) && x.paddingBlockSize > 1 ==>
              PositionMap(sorted, ps)[x.id] % x.paddingBlockSize == 0
  {
    var k := InSorted(all, x, sorted);
    var j := LastWithId(sorted, x.id);
    PositionMapLast(sorted, ps, j);
    PositionOf(start, sorted, j);
    if IdsDetermineEntries(all) {
      SortedMember(all, sorted, j);
    }
  }

  lemma {:induction false} InSorted(all: seq<FileEntry>, x: FileEntry, sorted: seq<FileEntry>) returns (k: nat)
    requires sorted == SortByOffset(all) && x in all
    ensures k < |sorted| && sorted[k] == x
  {
    assert x in multiset(all);
    assert x in multiset(sorted);
    k :| 0 <= k < |sorted| && sorted[k] == x;
  }

  lemma {:induction false} SortedMember(all: seq<FileEntry>, sorted: seq<FileEntry>, j: nat)
    requires sorted == SortByOffset(all) && j < |sorted|
    ensures sorted[j] in all
  {
    assert sorted[j] in multiset(sorted);
  }

  lemma {:induction false} PositionOf(start: u32, sorted: seq<FileEntry>, j: nat)
    requires LayoutEnd(start, sorted) < U32_LIMIT && j < |sorted|
    ensures start <= SortedPositions(start, sorted)[j]
    ensures sorted[j].paddingBlockSize > 1 ==> SortedPositions(start, sorted)[j] % sorted[j].paddingBlockSize == 0
  {
    SortedPositionsPlaced(start, sorted);
  }

  /** The positions `calculate_file_positions` records, while the layout of
      all entries stays below 2^32: at or after the data start, and on the
      entry's alignment when entries with one id agree. */
  lemma {:induction false} FilePositionsPlaced(h: HeaderData, enc: Encoder)
    requires LayoutEnd(DataOffsetStart(h, enc), SortByOffset(h.bnkEntries + h.wemEntries)) < U32_LIMIT
    ensures forall i :: 0 <= i < |h.bnkEntries| ==> DataOffsetStart(h, enc) <= FilePositions(h, enc).0[i]
    ensures forall i :: 0 <= i < |h.wemEntries| ==> DataOffsetStart(h, enc) <= FilePositions(h, enc).1[i]
    ensures IdsDetermineEntries(h.bnkEntries + h.wemEntries) ==>
              forall i :: 0 <= i < |h.bnkEntries| && h.bnkEntries[i].paddingBlockSize > 1 ==>
                FilePositions(h, enc).0[i] % h.bnkEntries[i].paddingBlockSize == 0
    ensures IdsDetermineEntries(h.bnkEntries + h.wemEntries) ==>
              forall i :: 0 <= i < |h.wemEntries| && h.wemEntries[i].paddingBlockSize > 1 ==>
                FilePositions(h, enc).1[i] % h.wemEntries[i].paddingBlockSize == 0
  {
    var all := h.bnkEntries + h.wemEntries;
    var start := DataOffsetStart(h, enc);
    var sorted := SortByOffset(all);
    var ps := SortedPositions(start, sorted);
    assert forall i :: 0 <= i < |h.bnkEntries| ==> h.bnkEntries[i] in all;
    assert forall i :: 0 <= i < |h.wemEntries| ==> h.wemEntries[i] in all;
    TablePlaced(all, h.bnkEntries, start, sorted, ps);
    TablePlaced(all, h.wemEntries, start, sorted, ps);
  }

  lemma {:induction false} TablePlaced(all: seq<FileEntry>, es: seq<FileEntry>, start: u32,
                                       sorted: seq<FileEntry>, ps: seq<u32>)
    requires sorted == SortByOffset(all) && ps == SortedPositions(start, sorted)
    requires forall i :: 0 <= i < |es| ==> es[i] in all
    requires LayoutEnd(start, sorted) < U32_LIMIT
    ensures forall i :: 0 <= i < |es| ==> start <= LookUp(PositionMap(sorted, ps), es)[i]
    ensures IdsDetermineEntries(all) ==> forall i :: 0 <= i < |es| && es[i].paddingBlockSize > 1 ==>
              LookUp(PositionMap(sorted, ps), es)[i] % es[i].paddingBlockSize == 0
  {
    var m := PositionMap(sorted, ps);
    forall i | 0 <= i < |es|
      ensures start <= LookUp(m, es)[i]
      ensures IdsDetermineEntries(all) && es[i].paddingBlockSize > 1 ==> LookUp(m, es)[i] % es[i].paddingBlockSize == 0
    {
      LookUpOne(all, es[i], start, sorted, ps);
    }
  }
  // ------------------------------------------------------------ the readers

  /** The slot loop of `from_reader`: `count` pairs of offset and index. */
  method ReadStringEntries(data: seq<byte>, pos: nat, count: nat) returns (r: Option<seq<StringEntry>>)
    ensures r == StringEntriesAt(data, pos, count)
  {
    var entries: seq<StringEntry> := [];
    var cursor: nat := pos;
    for i := 0 to count
      invariant cursor == pos + 8 * i
      invariant i > 0 ==> cursor <= |data|
      invariant entries == seq(i, j requires 0 <= j < i => StringEntryAt(data, pos + 8 * j))
    {
      if cursor + 8 > |data| {
        return None;
      }
      entries := entries + [StringEntryAt(data, cursor)];
      cursor := cursor + 8;
    }
    return Some(entries);
  }

  /** The string loop of `from_reader`: each string decoded after seeking to
      `STRING_START` plus its slot's offset. */
  method ReadStrings(data: seq<byte>, ses: seq<StringEntry>, dec: Decoder) returns (r: Option<seq<PckString>>)
    ensures r == DecodeStrings(data, ses, dec)
  {
    var strs: seq<PckString> := [];
    for i := 0 to |ses|
      invariant forall j :: 0 <= j < i ==> dec(data, STRING_START + ses[j].offset).Some?
      invariant |strs| == i
      invariant forall j :: 0 <= j < i ==> strs[j] == PckString(ses[j].index, dec(data, STRING_START + ses[j].offset).value)
    {
      var wstr := dec(data, STRING_START + ses[i].offset);
      if wstr.None? {
        return None;
      }
      strs := strs + [PckString(ses[i].index, wstr.value)];
    }
    assert strs == DecodeStrings(data, ses, dec).value;
    return Some(strs);
  }

  /** One table of `from_reader`: the count, then twenty bytes an entry. */
  method ReadTable(data: seq<byte>, pos: nat) returns (r: Option<(seq<FileEntry>, nat)>)
    ensures r == TableAt(data, pos)
  {
    if pos + 4 > |data| {
      return None;
    }
    var count := U32FromLe(data[pos..pos + 4]);
    var entries: seq<FileEntry> := [];
    var cursor: nat := pos + 4;
    for i := 0 to count
      invariant cursor == pos + 4 + 20 * i
      invariant i > 0 ==> cursor <= |data|
      invariant entries == seq(i, j requires 0 <= j < i => FileEntryAt(data, pos + 4 + 20 * j))
    {
      if cursor + 20 > |data| {
        return None;
      }
      entries := entries + [FileEntryAt(data, cursor)];
      cursor := cursor + 20;
    }
    return Some((entries, cursor));
  }

  /** The external loop of `from_reader`. */
  method ReadU32s(data: seq<byte>, pos: nat, count: nat) returns (r: Option<seq<u32>>)
    ensures r == U32sAt(data, pos, count)
  {
    var values: seq<u32> := [];
    var cursor: nat := pos;
    for i := 0 to count
      invariant cursor == pos + 4 * i
      invariant i > 0 ==> cursor <= |data|
      invariant values == seq(i, j requires 0 <= j < i => U32FromLe(data[pos + 4 * j..pos + 4 * j + 4]))
    {
      if cursor + 4 > |data| {
        return None;
      }
      values := values + [U32FromLe(data[cursor..cursor + 4])];
      cursor := cursor + 4;
    }
    return Some(values);
  }

  // ------------------------------------------------------------ the writers

  /** The table loops of `write_to`: each entry's twenty bytes in turn. */
  method WriteEntries(w: Sink, es: seq<FileEntry>) returns (w': Sink)
    ensures w' == w.Write(EntriesBytes(es))
  {
    w' := w;
    for i := 0 to |es|
      invariant w' == w.Write(Concat(EntryBlobs(es)[..i]))
    {
      ConcatSnoc(EntryBlobs(es), i);
      WriteTwice(w, Concat(EntryBlobs(es)[..i]), FileEntryBytes(es[i]));
      w' := w'.Write(FileEntryBytes(es[i]));
    }
    assert EntryBlobs(es)[..|es|] == EntryBlobs(es);
  }

  /** The external loop of `write_to`. */
  method WriteU32s(w: Sink, xs: seq<u32>) returns (w': Sink)
    ensures w' == w.Write(U32sBytes(xs))
  {
    w' := w;
    for i := 0 to |xs|
      invariant w' == w.Write(Concat(U32Blobs(xs)[..i]))
    {
      ConcatSnoc(U32Blobs(xs), i);
      WriteTwice(w, Concat(U32Blobs(xs)[..i]), LeU32(xs[i]));
      w' := w'.Write(LeU32(xs[i]));
    }
    assert U32Blobs(xs)[..|xs|] == U32Blobs(xs);
  }

  /** The opening writes of `write_to`. */
  method WriteStart(w: Sink, version: u32) returns (w': Sink)
    ensures w' == HeaderStart(version, w)
  {
    w' := w.Write(AKPK);
    w' := w'.Write(LeU32(0));
    w' := w'.Write(LeU32(version));
    w' := w'.Write(LeU32(0));
    w' := w'.Write(LeU32(0));
    w' := w'.Write(LeU32(0));
    w' := w'.Write(LeU32(0));
  }

  /** The table writes of `write_to`. */
  method WriteTables(w: Sink, bnk: seq<FileEntry>, wem: seq<FileEntry>, ext: seq<u32>) returns (w': Sink)
    ensures w' == TablesWrite(bnk, wem, ext, w)
  {
    w' := w.Write(LeU32(Wrap32(|bnk|)));
    w' := WriteEntries(w', bnk);
    w' := w'.Write(LeU32(Wrap32(|wem|)));
    w' := WriteEntries(w', wem);
    w' := WriteU32s(w', ext);
  }

  /** The back-patch of `write_to`. */
  method WriteSizes(w: Sink, headerSize: nat, languageSize: nat, bnkSize: nat, wemSize: nat, extSize: nat, endPos: nat)
    returns (w': Sink)
    ensures w' == PatchSizes(w, headerSize, languageSize, bnkSize, wemSize, extSize, endPos)
  {
    w' := w.Seek(4);
    w' := w'.Write(LeU32(Wrap32(headerSize)));
    w' := w'.Seek(w'.pos + 4);
    w' := w'.Write(LeU32(Wrap32(languageSize)));
    w' := w'.Write(LeU32(Wrap32(bnkSize)));
    w' := w'.Write(LeU32(Wrap32(wemSize)));
    w' := w'.Write(LeU32(Wrap32(extSize)));
    w' := w'.Seek(endPos);
  }

  /** Byte blocks written one after another. */
  method WriteBlobs(w: Sink, blobs: seq<seq<byte>>) returns (w': Sink)
    ensures w' == w.Write(Concat(blobs))
  {
    w' := w;
    for i := 0 to |blobs|
      invariant w' == w.Write(Concat(blobs[..i]))
    {
      ConcatSnoc(blobs, i);
      WriteTwice(w, Concat(blobs[..i]), blobs[i]);
      w' := w'.Write(blobs[i]);
    }
    assert blobs[..|blobs|] == blobs;
  }

  /** The slot loop of `write_to`: each string's offset, counted from the
      string count, and its index. */
  method WriteStringSlots(w: Sink, strs: seq<PckString>, enc: Encoder, utf16Strings: seq<seq<byte>>) returns (w': Sink)
    requires utf16Strings == Utf16(strs, enc)
    ensures w' == w.Write(StringEntriesBytes(StringEntries(strs, enc)))
  {
    var offset: nat := 4 + 4 * 2 * |strs|;
    w' := w;
    ghost var blobs := StringEntryBlobs(StringEntries(strs, enc));
    for i := 0 to |strs|
      invariant offset == StringOffset(strs, enc, i)
      invariant w' == w.Write(Concat(blobs[..i]))
    {
      ghost var slot := StringEntry(Wrap32(offset), strs[i].index);
      assert blobs[i] == StringEntryBytes(slot);
      ConcatSnoc(blobs, i);
      WriteTwice(w', LeU32(Wrap32(offset)), LeU32(strs[i].index));
      WriteTwice(w, Concat(blobs[..i]), StringEntryBytes(slot));
      w' := w'.Write(LeU32(Wrap32(offset)));
      w' := w'.Write(LeU32(strs[i].index));
      StringOffsetsRun(strs, enc, i);
      offset := offset + |utf16Strings[i]|;
    }
    assert blobs[..|strs|] == blobs;
  }

  /** The closure `write_to` measures: the string count, each slot with a
      running offset that starts after the slots, then the strings' bytes. */
  method WriteLanguage(w: Sink, strs: seq<PckString>, enc: Encoder) returns (w': Sink)
    ensures w' == LanguageWrite(strs, enc, w)
  {
    w' := w.Write(LeU32(Wrap32(|strs|)));
    var utf16Strings: seq<seq<byte>> := [];
    for i := 0 to |strs|
      invariant utf16Strings == Utf16(strs, enc)[..i]
    {
      assert Utf16(strs, enc)[..i + 1] == Utf16(strs, enc)[..i] + [enc(strs[i].value)];
      utf16Strings := utf16Strings + [enc(strs[i].value)];
    }
    assert utf16Strings == Utf16(strs, enc);
    w' := WriteStringSlots(w', strs, enc, utf16Strings);
    w' := WriteBlobs(w', utf16Strings);
  }

  /** The loop of `calculate_file_positions` over the sorted entries:
      each entry aligned up from where the one before it ends. */
  method PositionsLoop(start: u32, allEntries: seq<FileEntry>) returns (sortedPositions: seq<u32>)
    ensures sortedPositions == SortedPositions(start, allEntries)
  {
    sortedPositions := [];
    var currentPos: u32 := start;
    for i := 0 to |allEntries|
      invariant sortedPositions + SortedPositions(currentPos, allEntries[i..]) == SortedPositions(start, allEntries)
    {
      var entry := allEntries[i];
      var alignment := entry.paddingBlockSize;
      ghost var unaligned := currentPos;
      if alignment > 1 && currentPos % alignment != 0 {
        currentPos := Wrap32(currentPos + (alignment - currentPos % alignment));
      }
      assert currentPos == AlignUp(unaligned, alignment);
      SortedPositionsStep(start, allEntries, i, unaligned, sortedPositions, currentPos);
      sortedPositions := sortedPositions + [currentPos];
      currentPos := Wrap32(currentPos + entry.length);
    }
    SortedPositionsDone(start, allEntries, currentPos, sortedPositions);
  }

  /** The `pos_map` loop of `calculate_file_positions`: id to position,
      a later entry overwriting an earlier one with the same id. */
  method PositionMapLoop(allEntries: seq<FileEntry>, sortedPositions: seq<u32>) returns (posMap: map<u32, u32>)
    requires |allEntries| == |sortedPositions|
    ensures posMap == PositionMap(allEntries, sortedPositions)
  {
    posMap := map[];
    for i := 0 to |allEntries|
      invariant posMap == PositionMap(allEntries[..i], sortedPositions[..i])
    {
      PositionMapSnoc(allEntries, sortedPositions, i);
      posMap := posMap[allEntries[i].id := sortedPositions[i]];
    }
    assert allEntries[..|allEntries|] == allEntries;
    assert sortedPositions[..|allEntries|] == sortedPositions;
  }

  /** The body of `calculate_file_positions` once the data start is known. */
  method PlaceEntries(h: HeaderData, enc: Encoder, start: u32) returns (bnk: seq<u32>, wem: seq<u32>)
    requires start == DataOffsetStart(h, enc)
    ensures (bnk, wem) == FilePositions(h, enc)
  {
    var allEntries := SortByOffset(h.bnkEntries + h.wemEntries);
    var sortedPositions := PositionsLoop(start, allEntries);
    var posMap := PositionMapLoop(allEntries, sortedPositions);
    bnk := LookUp(posMap, h.bnkEntries);
    wem := LookUp(posMap, h.wemEntries);
  }

  // ---------------------------------------------------------------- classes

  /** `PckHeader`: the stored fields and the positions derived from them. */
  class PckHeader {
    var headerLength: u32
    var version: u32
    var stringTable: seq<PckString>
    var bnkEntries: seq<FileEntry>
    var wemEntries: seq<FileEntry>
    var externalEntries: seq<u32>
    var bnkPositions: seq<u32>
    var wemPositions: seq<u32>

    /** The header `from_reader` assembles, or deserialisation restores:
        the positions stay empty until they are calculated. */
    constructor (d: HeaderData)
      ensures Data() == d && bnkPositions == [] && wemPositions == []
    {
      headerLength, version, stringTable := d.headerLength, d.version, d.stringTable;
      bnkEntries, wemEntries, externalEntries := d.bnkEntries, d.wemEntries, d.externalEntries;
      bnkPositions, wemPositions := [], [];
    }

    function Data(): HeaderData
      reads this
    {
      HeaderData(headerLength, version, stringTable, bnkEntries, wemEntries, externalEntries)
    }

    /** `language_size`: the strings' UTF-16 lengths summed, then the count
        and the slots. */
    method LanguageSize(enc: Encoder) returns (size: nat)
      ensures size == LanguageSizeOf(stringTable, enc)
    {
      size := 0;
      for i := 0 to |stringTable|
        invariant size == TotalLength(Utf16(stringTable, enc)[..i])
      {
        ConcatSnoc(Utf16(stringTable, enc), i);
        size := size + |enc(stringTable[i].value)|;
      }
      assert Utf16(stringTable, enc)[..|stringTable|] == Utf16(stringTable, enc);
      size := size + 4 + |stringTable| * 8;
    }

    /** `header_size`. */
    method HeaderSize(enc: Encoder) returns (size: nat)
      ensures size == HeaderSizeOf(Data(), enc)
    {
      var languageSize := LanguageSize(enc);
      size := TableSize(bnkEntries) + TableSize(wemEntries) + ExternalSize(externalEntries) + languageSize + 20;
    }

    /** `get_data_offset_start`. */
    method GetDataOffsetStart(enc: Encoder) returns (start: u32)
      ensures start == DataOffsetStart(Data(), enc)
    {
      var size := HeaderSize(enc);
      start := Wrap32(Wrap32(size) + 8);
    }

    /** `calculate_file_positions`: sorts all entries by stored offset, lays
        them out from the data start and records each table's positions. */
    method CalculateFilePositions(enc: Encoder)
      modifies this
      ensures Data() == old(Data())
      ensures (bnkPositions, wemPositions) == FilePositions(Data(), enc)
    {
      var start := GetDataOffsetStart(enc);
      var bnk, wem := PlaceEntries(Data(), enc, start);
      bnkPositions, wemPositions := bnk, wem;
    }

    /** `wem_reader`: None past the end of the table, otherwise a reader
        bounded to the entry and starting at its calculated position. */
    method WemReader(source: seq<byte>, cursor: nat, index: nat) returns (r: Option<PckFileReader>)
      requires |wemPositions| == |wemEntries|
      ensures r.None? <==> index >= |wemEntries|
      ensures r.Some? ==> fresh(r.value) && r.value.Valid() && r.value.readSize == 0
      ensures r.Some? ==> r.value.entry == wemEntries[index] && r.value.startPos == wemPositions[index]
      ensures r.Some? ==> r.value.source == source && r.value.cursor == cursor
    {
      if index >= |wemEntries| {
        return None;
      }
      var reader := new PckFileReader(source, cursor, wemEntries[index], wemPositions[index]);
      return Some(reader);
    }

    /** `bnk_reader`, the same over the bank table. */
    method BnkReader(source: seq<byte>, cursor: nat, index: nat) returns (r: Option<PckFileReader>)
      requires |bnkPositions| == |bnkEntries|
      ensures r.None? <==> index >= |bnkEntries|
      ensures r.Some? ==> fresh(r.value) && r.value.Valid() && r.value.readSize == 0
      ensures r.Some? ==> r.value.entry == bnkEntries[index] && r.value.startPos == bnkPositions[index]
      ensures r.Some? ==> r.value.source == source && r.value.cursor == cursor
    {
      if index >= |bnkEntries| {
        return None;
      }
      var reader := new PckFileReader(source, cursor, bnkEntries[index], bnkPositions[index]);
      return Some(reader);
    }

    /** `write_to` on a writer in state `w`. */
    method WriteTo(w: Sink, enc: Encoder) returns (w': Sink)
      ensures w' == WriteHeader(Data(), enc, w)
    {
      var writer := WriteStart(w, version);
      ghost var w1 := writer;
      var before := writer.pos;
      writer := WriteLanguage(writer, stringTable, enc);
      ghost var w2 := writer;
      var languageSize := writer.pos - before;
      assert languageSize == LanguageSizeOf(stringTable, enc);
      writer := WriteTables(writer, bnkEntries, wemEntries, externalEntries);
      ghost var w3 := writer;
      var bnkTableSize := TableSize(bnkEntries);
      var wemTableSize := TableSize(wemEntries);
      var unkStructSize := ExternalSize(externalEntries);
      var headerSize := 4 * 5 + languageSize + bnkTableSize + wemTableSize + unkStructSize;
      assert headerSize == HeaderSizeOf(Data(), enc);
      var endPos := writer.pos;
      writer := WriteSizes(writer, headerSize, languageSize, bnkTableSize, wemTableSize, unkStructSize, endPos);
      WriteHeaderStages(Data(), enc, w, w1, w2, w3);
      return writer;
    }
  }

  /** `PckHeader::from_reader` on a stream over `data`, read from its start. */
  method FromReader(data: seq<byte>, enc: Encoder, dec: Decoder) returns (r: Result<PckHeader, PckError>)
    ensures r.Err? <==> ParseHeader(data, dec).Err?
    ensures r.Err? ==> r.error == ParseHeader(data, dec).error
    ensures r.Ok? ==> fresh(r.value) && r.value.Data() == ParseHeader(data, dec).value
    ensures r.Ok? ==> (r.value.bnkPositions, r.value.wemPositions) == FilePositions(r.value.Data(), enc)
  {
    var d := ReadHeaderData(data, dec);
    if d.Err? {
      return Err(d.error);
    }
    var header := new PckHeader(d.value);
    header.CalculateFilePositions(enc);
    return Ok(header);
  }

  /** The reads of `PckHeader::from_reader`, field by field, up to the
      constructor call. */
  method ReadHeaderData(data: seq<byte>, dec: Decoder) returns (r: Result<HeaderData, PckError>)
    ensures r == ParseHeader(data, dec)
  {
    if |data| < 4 {
      return Err(Io);
    }
    var magic := data[..4];
    if magic != AKPK {
      return Err(InvalidMagic(magic));
    }
    if |data| < 32 {
      return Err(Io);
    }
    var headerLength := U32FromLe(data[4..8]);
    var version := U32FromLe(data[8..12]);
    var languageLength := U32FromLe(data[12..16]);
    var externalTableLength := U32FromLe(data[24..28]);
    var stringCount := U32FromLe(data[STRING_START..STRING_START + 4]);
    var entries := ReadStringEntries(data, STRING_START + 4, stringCount);
    if entries.None? {
      return Err(Io);
    }
    var stringTable := ReadStrings(data, entries.value, dec);
    if stringTable.None? {
      return Err(Io);
    }
    var bnk := ReadTable(data, STRING_START + languageLength);
    if bnk.None? {
      return Err(Io);
    }
    var wem := ReadTable(data, bnk.value.1);
    if wem.None? {
      return Err(Io);
    }
    var external := ReadU32s(data, wem.value.1, externalTableLength / 4);
    if external.None? {
      return Err(Io);
    }
    return Ok(HeaderData(headerLength, version, stringTable.value, bnk.value.0, wem.value.0, external.value));
  }

  /** What a cursor over `data` reads for a buffer of `n` bytes at `pos`:
      up to `n` bytes, fewer where the data ends. */
  function Window(data: seq<byte>, pos: nat, n: nat): (r: seq<byte>)
    ensures |r| <= n
    ensures pos + n <= |data| ==> r == data[pos..pos + n]
    ensures |r| < n ==> pos + |r| >= |data|
  {
    if pos >= |data| then [] else if pos + n <= |data| then data[pos..pos + n] else data[pos..]
  }

  /** What one more read adds joins on to what was read before. */
  lemma {:induction false} WindowStep(data: seq<byte>, pos: nat, before: nat, k: nat, bytes: seq<byte>, after: nat)
    requires |Window(data, pos, before)| == before
    requires bytes == Window(data, pos + before, k) && after == before + |bytes|
    ensures Window(data, pos, before) + bytes == Window(data, pos, after)
  {
  }

  /** Once a read returns nothing, reading further returns nothing too. */
  lemma {:induction false} WindowStop(data: seq<byte>, pos: nat, done: nat, n: nat, chunk: nat)
    requires done <= n && chunk > 0
    requires Window(data, pos + done, Min(chunk, n - done)) == []
    ensures Window(data, pos, n) == Window(data, pos, done)
  {
  }

  /** `PckFileReader`: a read cursor over the stream, bounded to one entry. */
  class PckFileReader {
    /** The contents of the underlying stream. */
    const source: seq<byte>
    /** The underlying stream's position. */
    var cursor: nat
    const entry: FileEntry
    const startPos: nat
    var readSize: nat

    /** Never more than the entry's length read, and once reading has begun
        the underlying cursor sits right after what was read. */
    ghost predicate Valid()
      reads this
    {
      readSize <= entry.length && (readSize > 0 ==> cursor == startPos + readSize)
    }

    constructor (source: seq<byte>, cursor: nat, entry: FileEntry, startPos: nat)
      ensures this.source == source && this.cursor == cursor && this.entry == entry && this.startPos == startPos
      ensures readSize == 0 && Valid()
    {
      this.source, this.cursor, this.entry, this.startPos := source, cursor, entry, startPos;
      readSize := 0;
    }

    /** `read` into a buffer of `bufLen` bytes: the first call seeks to the
        start, and no call reads past the entry's length. */
    method Read(bufLen: nat) returns (bytes: seq<byte>)
      requires Valid()
      modifies this
      ensures Valid()
      ensures |bytes| <= bufLen && readSize == old(readSize) + |bytes|
      ensures bytes == Window(source, startPos + old(readSize), Min(bufLen, entry.length - old(readSize)))
    {
      if readSize == 0 && entry.length > 0 {
        cursor := startPos;
      }
      var available := entry.length - readSize;
      if available == 0 {
        return [];
      }
      var readLimit := Min(bufLen, available);
      if readLimit == 0 {
        return [];
      }
      bytes := Window(source, cursor, readLimit);
      cursor := cursor + |bytes|;
      readSize := readSize + |bytes|;
    }

    /** Reading until a call returns nothing, as `read_to_end` and `io::copy`
        do: all of the entry's bytes that the stream holds. */
    method ReadToEnd(chunk: nat) returns (out: seq<byte>)
      requires Valid() && readSize == 0 && chunk > 0
      modifies this
      ensures out == Window(source, startPos, entry.length)
      ensures startPos + entry.length <= |source| ==> |out| == entry.length
    {
      out := [];
      while true
        invariant Valid() && |out| == readSize && out == Window(source, startPos, readSize)
        decreases entry.length - readSize
      {
        ghost var before := readSize;
        var bytes := Read(chunk);
        if bytes == [] {
          WindowStop(source, startPos, before, entry.length, chunk);
          break;
        }
        WindowStep(source, startPos, before, Min(chunk, entry.length - before), bytes, readSize);
        out := out + bytes;
      }
    }
  }

  function Min(a: nat, b: nat): nat {
    if a <= b then a else b
  }
}
