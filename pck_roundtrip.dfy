/** What `PckHeader::write_to` writes, `PckHeader::from_reader` reads back:
    the header with its header length set to the size written, provided no
    size wraps around and the string reader reads what the string writer
    wrote. */
module PckRoundTrip {
  import opened Bytes
  import opened Pck

  /** The header size, and so every size and string offset in it, fits in
      a u32. */
  predicate Fits(h: HeaderData, enc: Encoder) {
    HeaderSizeOf(h, enc) < U32_LIMIT
  }

  /** `string_from_utf16_reader` reads back what `string_to_utf16_bytes`
      wrote, whatever follows it. */
  ghost predicate DecodesBack(enc: Encoder, dec: Decoder) {
    forall s: string, data: seq<byte>, p: nat :: At(data, p, enc(s)) ==> dec(data, p) == Some(s)
  }

  /** The first 28 bytes as first written. */
  function Start(version: u32): (r: seq<byte>)
    ensures |r| == 28
  {
    AKPK + LeU32(0) + LeU32(version) + LeU32(0) + LeU32(0) + LeU32(0) + LeU32(0)
  }

  /** A table as written: its count, then its entries. */
  function TableBytes(es: seq<FileEntry>): (r: seq<byte>)
    ensures |r| == TableSize(es)
  {
    LeU32(Wrap32(|es|)) + EntriesBytes(es)
  }

  /** The two tables and the external values, as written. */
  function TablesBytes(bnk: seq<FileEntry>, wem: seq<FileEntry>, ext: seq<u32>): (r: seq<byte>)
    ensures |r| == TableSize(bnk) + TableSize(wem) + ExternalSize(ext)
  {
    TableBytes(bnk) + TableBytes(wem) + U32sBytes(ext)
  }

  /** Everything after the 28 bytes of fixed fields. */
  function Body(h: HeaderData, enc: Encoder): seq<byte> {
    LanguageBytes(h.stringTable, enc) + TablesBytes(h.bnkEntries, h.wemEntries, h.externalEntries)
  }

  /** The four section sizes as patched in from position 12. */
  function Sizes(h: HeaderData, enc: Encoder): (r: seq<byte>)
    ensures |r| == 16
  {
    LeU32(Wrap32(LanguageSizeOf(h.stringTable, enc))) + LeU32(Wrap32(TableSize(h.bnkEntries))) +
    LeU32(Wrap32(TableSize(h.wemEntries))) + LeU32(Wrap32(ExternalSize(h.externalEntries)))
  }

  // ------------------------------------------------------- writing stages

  lemma {:induction false} HeaderStartIs(version: u32, w: Sink)
    ensures HeaderStart(version, w) == w.Write(Start(version))
  {
    var z := LeU32(0);
    WriteTwice(w, AKPK, z);
    WriteTwice(w, AKPK + z, LeU32(version));
    WriteTwice(w, AKPK + z + LeU32(version), z);
    WriteTwice(w, AKPK + z + LeU32(version) + z, z);
    WriteTwice(w, AKPK + z + LeU32(version) + z + z, z);
    WriteTwice(w, AKPK + z + LeU32(version) + z + z + z, z);
  }

  lemma {:induction false} LanguageWriteIs(strs: seq<PckString>, enc: Encoder, w: Sink)
    ensures LanguageWrite(strs, enc, w) == w.Write(LanguageBytes(strs, enc))
  {
    var a, b, c := LeU32(Wrap32(|strs|)), StringEntriesBytes(StringEntries(strs, enc)), Concat(Utf16(strs, enc));
    WriteTwice(w, a, b);
    WriteTwice(w, a + b, c);
  }

  lemma {:induction false} TablesWriteIs(bnk: seq<FileEntry>, wem: seq<FileEntry>, ext: seq<u32>, w: Sink)
    ensures TablesWrite(bnk, wem, ext, w) == w.Write(TablesBytes(bnk, wem, ext))
  {
    var a, b, c, d, e := LeU32(Wrap32(|bnk|)), EntriesBytes(bnk), LeU32(Wrap32(|wem|)), EntriesBytes(wem), U32sBytes(ext);
    WriteTwice(w, a, b);
    WriteTwice(w.Write(a + b), c, d);
    WriteTwice(w, a + b, c + d);
    WriteTwice(w, a + b + (c + d), e);
  }

  /** A write at the end of the buffer appends. */
  lemma {:induction false} AppendWrite(w: Sink, a: seq<byte>, buf: seq<byte>)
    requires w.AtEnd() && buf == w.buf + a
    ensures w.Write(a) == Sink(buf, |buf|)
  {
  }

  lemma {:induction false} Assoc(a: seq<byte>, b: seq<byte>, c: seq<byte>)
    ensures a + b + c == a + (b + c)
  {
  }

  /** Before the back-patch, a fresh writer holds the fixed fields followed
      by the body. */
  lemma {:induction false} Unpatched(h: HeaderData, enc: Encoder, w1: Sink, w2: Sink, w3: Sink)
    requires w1 == HeaderStart(h.version, Sink([], 0))
    requires w2 == LanguageWrite(h.stringTable, enc, w1)
    requires w3 == TablesWrite(h.bnkEntries, h.wemEntries, h.externalEntries, w2)
    ensures w3.buf == Start(h.version) + Body(h, enc) && w3.pos == |w3.buf|
  {
    var start, lang := Start(h.version), LanguageBytes(h.stringTable, enc);
    var tables := TablesBytes(h.bnkEntries, h.wemEntries, h.externalEntries);
    HeaderStartIs(h.version, Sink([], 0));
    assert [] + start == start;
    AppendWrite(Sink([], 0), start, start);
    LanguageWriteIs(h.stringTable, enc, w1);
    AppendWrite(w1, lang, start + lang);
    TablesWriteIs(h.bnkEntries, h.wemEntries, h.externalEntries, w2);
    AppendWrite(w2, tables, start + lang + tables);
    Assoc(start, lang, tables);
  }

  /** The back-patch as two writes: the header size at 4, the sizes at 12. */
  lemma {:induction false} PatchSizesIs(w: Sink, hs: nat, ls: nat, bs: nat, ws: nat, xs: nat, endPos: nat)
    ensures PatchSizes(w, hs, ls, bs, ws, xs, endPos).buf ==
            w.Seek(4).Write(LeU32(Wrap32(hs))).Seek(12).Write(LeU32(Wrap32(ls)) + LeU32(Wrap32(bs)) + LeU32(Wrap32(ws)) + LeU32(Wrap32(xs))).buf
  {
    var w4 := w.Seek(4).Write(LeU32(Wrap32(hs))).Seek(12);
    var a, b, c, d := LeU32(Wrap32(ls)), LeU32(Wrap32(bs)), LeU32(Wrap32(ws)), LeU32(Wrap32(xs));
    WriteTwice(w4, a, b);
    WriteTwice(w4, a + b, c);
    WriteTwice(w4, a + b + c, d);
  }

  /** A write inside the buffer keeps its length. */
  lemma {:induction false} WriteInside(w: Sink, p: nat, bytes: seq<byte>)
    requires p + |bytes| <= |w.buf|
    ensures |w.Seek(p).Write(bytes).buf| == |w.buf|
  {
  }

  /** Where every piece of a fresh header lands. */
  lemma {:induction false} WrittenLayout(h: HeaderData, enc: Encoder, buf: seq<byte>)
    requires buf == WriteHeader(h, enc, Sink([], 0)).buf
    ensures |buf| == 28 + |Body(h, enc)|
    ensures At(buf, 0, AKPK) && At(buf, 4, LeU32(Wrap32(HeaderSizeOf(h, enc)))) && At(buf, 8, LeU32(h.version))
    ensures At(buf, 12, Sizes(h, enc)) && At(buf, 28, Body(h, enc))
  {
    var w1 := HeaderStart(h.version, Sink([], 0));
    var w2 := LanguageWrite(h.stringTable, enc, w1);
    var w3 := TablesWrite(h.bnkEntries, h.wemEntries, h.externalEntries, w2);
    Unpatched(h, enc, w1, w2, w3);
    var hs := LeU32(Wrap32(HeaderSizeOf(h, enc)));
    PatchSizesIs(w3, HeaderSizeOf(h, enc), LanguageSizeOf(h.stringTable, enc), TableSize(h.bnkEntries),
                 TableSize(h.wemEntries), ExternalSize(h.externalEntries), w3.pos);
    var start := Start(h.version);
    var body := Body(h, enc);
    AtAfter([], AKPK, w3.buf);
    AtAfter(AKPK + LeU32(0), LeU32(h.version), w3.buf);
    AtAfter(start, body, w3.buf);
    var w4 := w3.Seek(4).Write(hs);
    WriteLands(w3, 4, hs);
    WriteInside(w3, 4, hs);
    WriteElsewhere(w3, 4, hs, 0, AKPK);
    WriteElsewhere(w3, 4, hs, 8, LeU32(h.version));
    WriteElsewhere(w3, 4, hs, 28, body);
    var sizes := Sizes(h, enc);
    WriteLands(w4, 12, sizes);
    WriteInside(w4, 12, sizes);
    WriteElsewhere(w4, 12, sizes, 0, AKPK);
    WriteElsewhere(w4, 12, sizes, 4, hs);
    WriteElsewhere(w4, 12, sizes, 8, LeU32(h.version));
    WriteElsewhere(w4, 12, sizes, 28, body);
  }

  // ------------------------------------------------------- reading stages

  /** The string table reads back from the language section. */
  lemma {:induction false} StringsBack(data: seq<byte>, strs: seq<PckString>, enc: Encoder, dec: Decoder)
    requires At(data, STRING_START, LanguageBytes(strs, enc))
    requires LanguageSizeOf(strs, enc) < U32_LIMIT && DecodesBack(enc, dec)
    ensures StringsAt(data, dec) == Some(strs)
  {
    var ses := StringEntries(strs, enc);
    var q := STRING_START + 4 + 8 * |strs|;
    SlotsBack(data, strs, enc, ses, q);
    TextsBack(data, strs, enc, dec, ses, q);
    StringsAtFrom(data, dec, |strs|, ses, strs);
  }

  /** The count and the slots of the string table read back. */
  lemma {:induction false} SlotsBack(data: seq<byte>, strs: seq<PckString>, enc: Encoder, ses: seq<StringEntry>, q: nat)
    requires At(data, STRING_START, LanguageBytes(strs, enc)) && LanguageSizeOf(strs, enc) < U32_LIMIT
    requires ses == StringEntries(strs, enc) && q == STRING_START + 4 + 8 * |strs|
    ensures U32At(data, STRING_START) == Some(|strs|) && StringEntriesAt(data, STRING_START + 4, |strs|) == Some(ses)
    ensures At(data, q, Concat(Utf16(strs, enc)))
  {
    LanguageParts(data, strs, enc, STRING_START + 4, q);
    StringEntriesRoundTrip(data, STRING_START + 4, ses);
  }

  /** The strings the slots point at decode to the table written. */
  lemma {:induction false} TextsBack(data: seq<byte>, strs: seq<PckString>, enc: Encoder, dec: Decoder, ses: seq<StringEntry>, q: nat)
    requires At(data, q, Concat(Utf16(strs, enc))) && q == STRING_START + 4 + 8 * |strs|
    requires LanguageSizeOf(strs, enc) < U32_LIMIT && DecodesBack(enc, dec) && ses == StringEntries(strs, enc)
    ensures DecodeStrings(data, ses, dec) == Some(strs)
  {
    DecodedBack(data, strs, enc, dec, ses);
    DecodeAll(data, ses, dec, strs);
  }

  /** The string table from its three stages. */
  lemma {:induction false} StringsAtFrom(data: seq<byte>, dec: Decoder, n: nat, ses: seq<StringEntry>, strs: seq<PckString>)
    requires U32At(data, STRING_START) == Some(n) && StringEntriesAt(data, STRING_START + 4, n) == Some(ses)
    requires DecodeStrings(data, ses, dec) == Some(strs)
    ensures StringsAt(data, dec) == Some(strs)
  {
  }

  /** The count and the slots read back, and the strings lie after them. */
  lemma {:induction false} LanguageParts(data: seq<byte>, strs: seq<PckString>, enc: Encoder, p: nat, q: nat)
    requires At(data, STRING_START, LanguageBytes(strs, enc)) && LanguageSizeOf(strs, enc) < U32_LIMIT
    requires p == STRING_START + 4 && q == p + 8 * |strs|
    ensures U32At(data, STRING_START) == Some(|strs|)
    ensures At(data, p, StringEntriesBytes(StringEntries(strs, enc)))
    ensures At(data, q, Concat(Utf16(strs, enc)))
  {
    var count := LeU32(Wrap32(|strs|));
    AtSplit3(data, STRING_START, count, StringEntriesBytes(StringEntries(strs, enc)), Concat(Utf16(strs, enc)), p, q);
    U32AtEncoded(data, STRING_START, Wrap32(|strs|));
  }

  /** Every slot's string decodes to the string written. */
  lemma {:induction false} DecodedBack(data: seq<byte>, strs: seq<PckString>, enc: Encoder, dec: Decoder, ses: seq<StringEntry>)
    requires At(data, STRING_START + 4 + 8 * |strs|, Concat(Utf16(strs, enc)))
    requires LanguageSizeOf(strs, enc) < U32_LIMIT && DecodesBack(enc, dec) && ses == StringEntries(strs, enc)
    ensures forall i :: 0 <= i < |ses| ==> dec(data, STRING_START + ses[i].offset) == Some(strs[i].value)
    ensures forall i :: 0 <= i < |ses| ==> ses[i].index == strs[i].index
  {
    forall i | 0 <= i < |ses| ensures dec(data, STRING_START + ses[i].offset) == Some(strs[i].value) {
      StringBack(data, strs, enc, dec, ses, i);
    }
  }

  lemma {:induction false} StringBack(data: seq<byte>, strs: seq<PckString>, enc: Encoder, dec: Decoder, ses: seq<StringEntry>, i: nat)
    requires At(data, STRING_START + 4 + 8 * |strs|, Concat(Utf16(strs, enc)))
    requires LanguageSizeOf(strs, enc) < U32_LIMIT && DecodesBack(enc, dec) && ses == StringEntries(strs, enc) && i < |ses|
    ensures dec(data, STRING_START + ses[i].offset) == Some(strs[i].value)
  {
    var p := STRING_START + ses[i].offset;
    StringBytesAt(data, strs, enc, ses, i, p);
    DecodeAt(enc, dec, data, p, strs[i].value);
  }

  /** Slot `i` points at the encoding of string `i`. */
  lemma {:induction false} StringBytesAt(data: seq<byte>, strs: seq<PckString>, enc: Encoder, ses: seq<StringEntry>, i: nat, p: nat)
    requires At(data, STRING_START + 4 + 8 * |strs|, Concat(Utf16(strs, enc)))
    requires LanguageSizeOf(strs, enc) < U32_LIMIT && ses == StringEntries(strs, enc) && i < |ses|
    requires p == STRING_START + ses[i].offset
    ensures At(data, p, enc(strs[i].value))
  {
    var u := Utf16(strs, enc);
    var lo := TotalLength(u[..i]);
    SlotOffset(strs, enc, i, lo);
    BlobAt(data, STRING_START + 4 + 8 * |strs|, u, i, lo, p);
  }

  /** Slot `i` points at the bytes of string `i`. */
  lemma {:induction false} SlotOffset(strs: seq<PckString>, enc: Encoder, i: nat, lo: nat)
    requires LanguageSizeOf(strs, enc) < U32_LIMIT && i < |strs| && lo == TotalLength(Utf16(strs, enc)[..i])
    ensures StringEntries(strs, enc)[i].offset == 4 + 8 * |strs| + lo
  {
    ConcatAt(Utf16(strs, enc), i);
  }

  /** Block `i` of blocks laid back to back. */
  lemma {:induction false} BlobAt(data: seq<byte>, base: nat, u: seq<seq<byte>>, i: nat, lo: nat, p: nat)
    requires At(data, base, Concat(u)) && i < |u| && lo == TotalLength(u[..i]) && p == base + lo
    ensures At(data, p, u[i])
  {
    ConcatAt(u, i);
    AtSub(data, base, Concat(u), lo, lo + |u[i]|);
  }

  /** Strings that all decode give the table of their slots' indices. */
  lemma {:induction false} DecodeAll(data: seq<byte>, ses: seq<StringEntry>, dec: Decoder, strs: seq<PckString>)
    requires |ses| == |strs|
    requires forall i :: 0 <= i < |ses| ==> dec(data, STRING_START + ses[i].offset) == Some(strs[i].value)
    requires forall i :: 0 <= i < |ses| ==> ses[i].index == strs[i].index
    ensures DecodeStrings(data, ses, dec) == Some(strs)
  {
    assert DecodeStrings(data, ses, dec).value == strs;
  }

  lemma {:induction false} DecodeAt(enc: Encoder, dec: Decoder, data: seq<byte>, p: nat, s: string)
    requires DecodesBack(enc, dec) && At(data, p, enc(s))
    ensures dec(data, p) == Some(s)
  {
  }

  /** A table reads back from its bytes. */
  lemma {:induction false} TableBack(data: seq<byte>, pos: nat, es: seq<FileEntry>, next: nat)
    requires At(data, pos, TableBytes(es)) && TableSize(es) < U32_LIMIT && next == pos + TableSize(es)
    ensures TableAt(data, pos) == Some((es, next))
  {
    var n := |es|;
    assert Wrap32(n) == n;
    AtSplitAt(data, pos, LeU32(n), EntriesBytes(es), pos + 4);
    U32AtEncoded(data, pos, n);
    EntriesRoundTrip(data, pos + 4, es);
    TableAtFrom(data, pos, n, es, next);
  }

  lemma {:induction false} TableAtFrom(data: seq<byte>, pos: nat, n: nat, es: seq<FileEntry>, next: nat)
    requires U32At(data, pos) == Some(n) && EntriesAt(data, pos + 4, n) == Some(es) && next == pos + 4 + 20 * n
    ensures TableAt(data, pos) == Some((es, next))
  {
  }

  /** The two tables and the external values read back from their bytes. */
  lemma {:induction false} TablesBack(data: seq<byte>, pos: nat, bnk: seq<FileEntry>, wem: seq<FileEntry>, ext: seq<u32>, p: nat, q: nat)
    requires At(data, pos, TablesBytes(bnk, wem, ext))
    requires TableSize(bnk) + TableSize(wem) < U32_LIMIT
    requires p == pos + TableSize(bnk) && q == p + TableSize(wem)
    ensures TableAt(data, pos) == Some((bnk, p))
    ensures TableAt(data, p) == Some((wem, q))
    ensures U32sAt(data, q, |ext|) == Some(ext)
  {
    AtSplit3(data, pos, TableBytes(bnk), TableBytes(wem), U32sBytes(ext), p, q);
    TableBack(data, pos, bnk, p);
    TableBack(data, p, wem, q);
    U32sRoundTrip(data, q, ext);
  }

  /** Reading the fixed fields back. */
  lemma {:induction false} FieldsBack(data: seq<byte>, h: HeaderData, enc: Encoder)
    requires At(data, 0, AKPK) && At(data, 4, LeU32(Wrap32(HeaderSizeOf(h, enc)))) && At(data, 8, LeU32(h.version))
    requires At(data, 12, Sizes(h, enc)) && |data| >= 32 && Fits(h, enc)
    ensures data[..4] == AKPK
    ensures U32FromLe(data[4..8]) == HeaderSizeOf(h, enc) && U32FromLe(data[8..12]) == h.version
    ensures U32FromLe(data[12..16]) == LanguageSizeOf(h.stringTable, enc)
    ensures U32FromLe(data[24..28]) == ExternalSize(h.externalEntries)
  {
    var a, b, c, d := LeU32(Wrap32(LanguageSizeOf(h.stringTable, enc))), LeU32(Wrap32(TableSize(h.bnkEntries))),
                      LeU32(Wrap32(TableSize(h.wemEntries))), LeU32(Wrap32(ExternalSize(h.externalEntries)));
    AtSplit(data, 12, a + b + c, d);
    AtSplit(data, 12, a + b, c);
    AtSplit(data, 12, a, b);
    assert data[..4] == AKPK;
    assert data[4..8] == LeU32(Wrap32(HeaderSizeOf(h, enc)));
    assert data[8..12] == LeU32(h.version);
    assert data[12..16] == a;
    assert data[24..28] == d;
    LeU32RoundTrip(Wrap32(HeaderSizeOf(h, enc)));
    LeU32RoundTrip(h.version);
    LeU32RoundTrip(Wrap32(LanguageSizeOf(h.stringTable, enc)));
    LeU32RoundTrip(Wrap32(ExternalSize(h.externalEntries)));
  }

  /** `from_reader` from its stages, each read where the one before ended. */
  lemma {:induction false} ParseFrom(data: seq<byte>, dec: Decoder, hl: u32, v: u32, strs: seq<PckString>,
                                     bnk: seq<FileEntry>, wem: seq<FileEntry>, ext: seq<u32>, pos: nat, p: nat, q: nat, m: nat)
    requires |data| >= 32 && data[..4] == AKPK && U32FromLe(data[4..8]) == hl && U32FromLe(data[8..12]) == v
    requires pos == STRING_START + U32FromLe(data[12..16]) && m == U32FromLe(data[24..28]) / 4
    requires StringsAt(data, dec) == Some(strs)
    requires TableAt(data, pos) == Some((bnk, p)) && TableAt(data, p) == Some((wem, q))
    requires U32sAt(data, q, m) == Some(ext)
    ensures ParseHeader(data, dec) == Ok(HeaderData(hl, v, strs, bnk, wem, ext))
  {
  }

  /** Where every piece lands in a stream that starts with a fresh header. */
  lemma {:induction false} StreamLayout(h: HeaderData, enc: Encoder, data: seq<byte>, pos: nat)
    requires WriteHeader(h, enc, Sink([], 0)).buf <= data && pos == STRING_START + LanguageSizeOf(h.stringTable, enc)
    ensures |data| >= 32
    ensures At(data, 0, AKPK) && At(data, 4, LeU32(Wrap32(HeaderSizeOf(h, enc)))) && At(data, 8, LeU32(h.version))
    ensures At(data, 12, Sizes(h, enc)) && At(data, STRING_START, LanguageBytes(h.stringTable, enc))
    ensures At(data, pos, TablesBytes(h.bnkEntries, h.wemEntries, h.externalEntries))
  {
    var buf := WriteHeader(h, enc, Sink([], 0)).buf;
    WrittenLayout(h, enc, buf);
    AtPrefix(buf, data, 0, AKPK);
    AtPrefix(buf, data, 4, LeU32(Wrap32(HeaderSizeOf(h, enc))));
    AtPrefix(buf, data, 8, LeU32(h.version));
    AtPrefix(buf, data, 12, Sizes(h, enc));
    AtPrefix(buf, data, 28, Body(h, enc));
    AtSplitAt(data, STRING_START, LanguageBytes(h.stringTable, enc), TablesBytes(h.bnkEntries, h.wemEntries, h.externalEntries), pos);
  }

  /** The header `from_reader` reads from any stream that starts with the
      bytes `write_to` wrote to an empty one: the same header, the header
      length now the size written. */
  lemma {:induction false} HeaderRoundTrip(h: HeaderData, enc: Encoder, dec: Decoder, data: seq<byte>)
    requires Fits(h, enc) && DecodesBack(enc, dec)
    requires WriteHeader(h, enc, Sink([], 0)).buf <= data
    ensures ParseHeader(data, dec) == Ok(h.(headerLength := HeaderSizeOf(h, enc)))
  {
    var pos := STRING_START + LanguageSizeOf(h.stringTable, enc);
    StreamLayout(h, enc, data, pos);
    FieldsBack(data, h, enc);
    StringsBack(data, h.stringTable, enc, dec);
    var p := pos + TableSize(h.bnkEntries);
    var q := p + TableSize(h.wemEntries);
    TablesBack(data, pos, h.bnkEntries, h.wemEntries, h.externalEntries, p, q);
    var m := |h.externalEntries|;
    assert ExternalSize(h.externalEntries) / 4 == m;
    ParseFrom(data, dec, HeaderSizeOf(h, enc), h.version, h.stringTable, h.bnkEntries, h.wemEntries, h.externalEntries, pos, p, q, m);
  }
}
