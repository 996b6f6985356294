/** Writing a sound bank and reading it back gives the same bank, for every
    bank whose declared lengths agree with its payloads and whose DIDX
    entries describe its blobs without overlap. */
module BnkRoundTrip {
  import opened Bytes
  import opened Bnk

  /** Two DIDX regions share no byte. */
  predicate Disjoint(a: DidxEntry, b: DidxEntry) {
    a.length == 0 || b.length == 0 || a.offset + a.length <= b.offset || b.offset + b.length <= a.offset
  }

  /** The first `n` DIDX entries describe the first `n` blobs: each entry has
      its blob's length, lies inside the section's `len` bytes, and no two
      regions overlap. */
  predicate EntriesFit(blobs: seq<seq<byte>>, es: seq<DidxEntry>, len: nat, n: nat)
    requires n <= |blobs| && n <= |es|
  {
    && (forall i :: 0 <= i < n ==> es[i].length == |blobs[i]| && es[i].offset + es[i].length <= len)
    && (forall i, j :: 0 <= i < j < n ==> Disjoint(es[i], es[j]))
  }

  /** What a section must satisfy, given the sections `before` it, for the
      reader to recover it from what the writer emits. */
  predicate SectionWellFormed(sec: Section, before: seq<Section>) {
    match sec.payload
    case Bkhd(_, _, unknown) => sec.magic == BKHD && sec.sectionLength == 8 + |unknown|
    case Didx(es) => sec.magic == DIDX && sec.sectionLength / 12 == |es|
    case Hirc(hs) =>
      && sec.magic == HIRC && |hs| < U32_LIMIT
      && forall i :: 0 <= i < |hs| ==> HircConsistent(hs[i])
    case Data(blobs) =>
      && sec.magic == DATA
      && FirstDidx(before).Some?
      && LastDidx(before) == FirstDidx(before)
      && |blobs| == |FirstDidx(before).value|
      && EntriesFit(blobs, FirstDidx(before).value, sec.sectionLength, |blobs|)
    case Unk(d) => sec.magic !in {BKHD, DIDX, HIRC, DATA} && sec.sectionLength == |d|
  }

  predicate WellFormed(b: Bank) {
    forall k :: 0 <= k < |b.sections| ==> SectionWellFormed(b.sections[k], b.sections[..k])
  }

  /** The bytes the writer emits after the length field for a section other
      than DATA. */
  function PayloadBytes(p: SectionPayload): seq<byte>
    requires !p.Data?
  {
    match p
    case Bkhd(version, id, unknown) => LeU32(version) + LeU32(id) + unknown
    case Didx(es) => DidxBytes(es)
    case Hirc(hs) => LeU32(Wrap32(|hs|)) + HircBytes(hs)
    case Unk(d) => d
  }

  function Header(sec: Section): (r: seq<byte>)
    ensures |r| == 8
  {
    sec.magic + LeU32(sec.sectionLength)
  }

  /** What a writer at or past the end of what it holds holds once it writes:
      the gap up to the cursor filled with zeros. */
  function Filled(w: Sink): (r: seq<byte>)
    requires |w.buf| <= w.pos
    ensures |r| == w.pos && w.buf <= r
  {
    w.buf + Zeros(w.pos - |w.buf|)
  }

  // ------------------------------------------------------------ the writer

  /** The tag and length land at the cursor, and afterwards the writer
      appends. */
  lemma {:induction false} HeaderWrite(sec: Section, w: Sink)
    requires |w.buf| <= w.pos
    ensures w.Write(sec.magic).Write(LeU32(sec.sectionLength)) == Sink(Filled(w) + Header(sec), w.pos + 8)
  {
  }

  /** Every section but DATA is written as its header and its payload bytes. */
  lemma {:induction false} NonDataWrite(sec: Section, w: Sink, didx: Option<seq<DidxEntry>>)
    requires !sec.payload.Data? && |w.buf| <= w.pos
    ensures WriteSection(sec, w, didx).Ok?
    ensures WriteSection(sec, w, didx).value.0.buf == Filled(w) + Header(sec) + PayloadBytes(sec.payload)
    ensures WriteSection(sec, w, didx).value.0.pos == w.pos + 8 + |PayloadBytes(sec.payload)|
  {
    HeaderWrite(sec, w);
    var h := Filled(w) + Header(sec);
    match sec.payload
    case Bkhd(version, id, unknown) =>
      assert h + LeU32(version) + LeU32(id) + unknown == h + PayloadBytes(sec.payload);
    case Didx(es) =>
    case Hirc(hs) =>
      assert h + LeU32(Wrap32(|hs|)) + HircBytes(hs) == h + PayloadBytes(sec.payload);
    case Unk(d) =>
  }

  /** The DATA loop of the writer, from a writer at its end at `start`: what
      was there stays, nothing lands beyond the section, and every blob
      stands at its offset. */
  lemma {:induction false} PlaceBlobsLayout(w: Sink, start: nat, blobs: seq<seq<byte>>, es: seq<DidxEntry>, len: nat)
    requires w.AtEnd() && w.pos == start
    requires |blobs| <= |es| && EntriesFit(blobs, es, len, |blobs|)
    ensures w.buf <= PlaceBlobs(w, start, blobs, es).buf
    ensures |PlaceBlobs(w, start, blobs, es).buf| <= start + len
    ensures forall i :: 0 <= i < |blobs| && blobs[i] != [] ==>
              At(PlaceBlobs(w, start, blobs, es).buf, start + es[i].offset, blobs[i])
  {
    PlaceFirstBlobs(w, start, blobs, es, len, |blobs|);
    assert blobs[..|blobs|] == blobs;
  }

  /** The first `n` blobs, those with bytes, stand in `buf` at their offsets
      from `start`. */
  ghost predicate Placed(buf: seq<byte>, start: nat, blobs: seq<seq<byte>>, es: seq<DidxEntry>, n: nat)
    requires n <= |blobs| <= |es|
  {
    forall i :: 0 <= i < n && blobs[i] != [] ==> At(buf, start + es[i].offset, blobs[i])
  }

  /** The first `n` turns of the DATA loop of the writer. */
  lemma {:induction false} PlaceFirstBlobs(w: Sink, start: nat, blobs: seq<seq<byte>>, es: seq<DidxEntry>, len: nat, n: nat)
    requires w.AtEnd() && w.pos == start
    requires n <= |blobs| <= |es| && EntriesFit(blobs, es, len, |blobs|)
    ensures w.buf <= PlaceBlobs(w, start, blobs[..n], es).buf
    ensures |PlaceBlobs(w, start, blobs[..n], es).buf| <= start + len
    ensures Placed(PlaceBlobs(w, start, blobs[..n], es).buf, start, blobs, es, n)
    decreases n
  {
    if n == 0 {
      assert blobs[..0] == [];
    } else {
      var m := n - 1;
      PlaceFirstBlobs(w, start, blobs, es, len, m);
      PlaceBlobsSnoc(w, start, blobs, es, m, n);
      PlaceTurn(w.buf, PlaceBlobs(w, start, blobs[..m], es), start, blobs, es, len, m, n);
    }
  }

  /** Turn `n - 1` of the DATA loop of the writer, after the blobs before it
      stand at their offsets: what was there stays, nothing lands beyond the
      section, and the first `n` blobs stand at their offsets. */
  lemma {:induction false} PlaceTurn(prefix: seq<byte>, prev: Sink, start: nat, blobs: seq<seq<byte>>, es: seq<DidxEntry>, len: nat, m: nat, n: nat)
    requires n == m + 1 && n <= |blobs| <= |es| && EntriesFit(blobs, es, len, |blobs|)
    requires prefix <= prev.buf && |prefix| <= start && |prev.buf| <= start + len
    requires Placed(prev.buf, start, blobs, es, m)
    ensures prefix <= prev.Seek(start + es[m].offset).Write(blobs[m]).buf
    ensures |prev.Seek(start + es[m].offset).Write(blobs[m]).buf| <= start + len
    ensures Placed(prev.Seek(start + es[m].offset).Write(blobs[m]).buf, start, blobs, es, n)
  {
    var p := start + es[m].offset;
    PlaceOneBlob(prefix, prev, p, blobs[m], start + len);
    PlaceKeepsEarlier(prev, p, start, blobs, es, m);
  }

  lemma {:induction false} PlaceBlobsSnoc(w: Sink, start: nat, blobs: seq<seq<byte>>, es: seq<DidxEntry>, m: nat, n: nat)
    requires n == m + 1 && n <= |blobs| <= |es|
    ensures PlaceBlobs(w, start, blobs[..n], es) ==
            PlaceBlobs(w, start, blobs[..m], es).Seek(start + es[m].offset).Write(blobs[m])
  {
    assert blobs[..n][..m] == blobs[..m];
  }

  /** Turn `m` of the DATA loop of the writer leaves the blobs placed before
      it where they stand. */
  lemma {:induction false} PlaceKeepsEarlier(before: Sink, p: nat, start: nat, blobs: seq<seq<byte>>, es: seq<DidxEntry>, m: nat)
    requires m < |blobs| <= |es| && p == start + es[m].offset && |blobs[m]| == es[m].length
    requires forall i :: 0 <= i < m ==> es[i].length == |blobs[i]| && Disjoint(es[i], es[m])
    requires forall i :: 0 <= i < m && blobs[i] != [] ==> At(before.buf, start + es[i].offset, blobs[i])
    ensures forall i :: 0 <= i < m && blobs[i] != [] ==>
              At(before.Seek(p).Write(blobs[m]).buf, start + es[i].offset, blobs[i])
  {
    forall i | 0 <= i < m && blobs[i] != []
      ensures At(before.Seek(p).Write(blobs[m]).buf, start + es[i].offset, blobs[i])
    {
      WriteElsewhere(before, p, blobs[m], start + es[i].offset, blobs[i]);
    }
  }

  /** One turn of the DATA loop of the writer keeps `prefix` and the bound. */
  lemma {:induction false} PlaceOneBlob(prefix: seq<byte>, w: Sink, p: nat, blob: seq<byte>, bound: nat)
    requires prefix <= w.buf && |prefix| <= p && |w.buf| <= bound && p + |blob| <= bound
    ensures prefix <= w.Seek(p).Write(blob).buf
    ensures |w.Seek(p).Write(blob).buf| <= bound
    ensures blob != [] ==> At(w.Seek(p).Write(blob).buf, p, blob)
  {
    WriteKeepsPrefix(w.Seek(p), prefix, blob);
    if blob != [] {
      WriteLands(w, p, blob);
    }
  }

  /** A DATA section is written as its header followed by its blobs at their
      offsets, and the cursor ends `len` bytes after the header. */
  lemma {:induction false} DataWrite(sec: Section, w: Sink, es: seq<DidxEntry>)
    requires sec.payload.Data? && |w.buf| <= w.pos
    requires |sec.payload.dataList| == |es| && EntriesFit(sec.payload.dataList, es, sec.sectionLength, |es|)
    ensures WriteSection(sec, w, Some(es)).Ok?
    ensures var w' := WriteSection(sec, w, Some(es)).value.0;
            var start := w.pos + 8;
            && Filled(w) + Header(sec) <= w'.buf
            && w'.pos == start + sec.sectionLength
            && |w'.buf| <= w'.pos
            && forall i :: 0 <= i < |es| && sec.payload.dataList[i] != [] ==>
                 At(w'.buf, start + es[i].offset, sec.payload.dataList[i])
  {
    HeaderWrite(sec, w);
    var w1 := Sink(Filled(w) + Header(sec), w.pos + 8);
    PlaceBlobsLayout(w1, w1.pos, sec.payload.dataList, es, sec.sectionLength);
  }

  // ------------------------------------------------------------ the reader

  /** A little-endian length at `pos` reads back, and what follows it stands
      four bytes on. */
  lemma {:induction false} LengthField(data: seq<byte>, pos: nat, len: u32, rest: seq<byte>)
    requires At(data, pos, LeU32(len) + rest)
    ensures U32At(data, pos) == Some(len) && At(data, pos + 4, rest)
  {
    AtSplit(data, pos, LeU32(len), rest);
    U32AtEncoded(data, pos, len);
  }

  /** A tag and a length written after `front`: the tag stands at `|front|`
      and the length and what follows it four bytes on. */
  lemma {:induction false} HeaderLayout(data: seq<byte>, front: seq<byte>, magic: Tag, len: u32, rest: seq<byte>)
    requires front + (magic + LeU32(len)) + rest <= data
    ensures |front| + 4 <= |data| && data[|front|..|front| + 4] == magic
    ensures At(data, |front| + 4, LeU32(len) + rest)
  {
    assert front + (magic + LeU32(len)) + rest == front + (magic + (LeU32(len) + rest));
    AtAfter(front, magic + (LeU32(len) + rest), data);
    AtSplit(data, |front|, magic, LeU32(len) + rest);
  }

  /** The tag of a section selects the branch of the reader. */
  lemma {:induction false} StepAt(data: seq<byte>, pos: nat, before: seq<Section>)
    requires pos + 4 <= |data|
    ensures data[pos..pos + 4] == DATA ==> ParseStep(data, pos, before) == DataSectionAt(data, pos + 4, before)
    ensures data[pos..pos + 4] != DATA ==> ParseStep(data, pos, before) == SectionAt(data, pos + 4, data[pos..pos + 4])
  {
  }

  lemma {:induction false} BkhdFields(data: seq<byte>, pos: nat, len: u32, version: u32, id: u32, unknown: seq<byte>)
    requires At(data, pos, LeU32(len) + (LeU32(version) + LeU32(id) + unknown))
    ensures U32At(data, pos) == Some(len) && pos + 12 + |unknown| <= |data|
    ensures U32FromLe(data[pos + 4..pos + 4 + 4]) == version
    ensures U32FromLe(data[pos + 4 + 4..pos + 4 + 8]) == id
    ensures data[pos + 4 + 8..pos + 4 + (8 + |unknown|)] == unknown
  {
    LengthField(data, pos, len, LeU32(version) + LeU32(id) + unknown);
    AtSplit(data, pos + 4, LeU32(version) + LeU32(id), unknown);
    AtSplit(data, pos + 4, LeU32(version), LeU32(id));
    U32AtEncoded(data, pos + 4, version);
    U32AtEncoded(data, pos + 8, id);
  }

  lemma {:induction false} BkhdAt(data: seq<byte>, pos: nat, magic: Tag, len: u32, version: u32, id: u32, unknown: seq<byte>, next: nat)
    requires magic == BKHD && next == pos + 4 + len
    requires len == 8 + |unknown| && U32At(data, pos) == Some(len) && pos + 12 + |unknown| <= |data|
    requires U32FromLe(data[pos + 4..pos + 4 + 4]) == version
    requires U32FromLe(data[pos + 4 + 4..pos + 4 + 8]) == id
    requires data[pos + 4 + 8..pos + 4 + (8 + |unknown|)] == unknown
    ensures SectionAt(data, pos, magic) == Ok((Section(magic, len, Bkhd(version, id, unknown)), next))
  {
  }

  /** A BKHD whose length counts its fields reads back from its length field on. */
  lemma {:induction false} BkhdRead(data: seq<byte>, pos: nat, magic: Tag, len: u32, version: u32, id: u32, unknown: seq<byte>, next: nat)
    requires magic == BKHD && len == 8 + |unknown|
    requires At(data, pos, LeU32(len) + (LeU32(version) + LeU32(id) + unknown))
    requires next == pos + 4 + |LeU32(version) + LeU32(id) + unknown|
    ensures SectionAt(data, pos, magic) == Ok((Section(magic, len, Bkhd(version, id, unknown)), next))
  {
    BkhdFields(data, pos, len, version, id, unknown);
    BkhdAt(data, pos, magic, len, version, id, unknown, next);
  }

  lemma {:induction false} DidxAt(data: seq<byte>, pos: nat, magic: Tag, len: u32, es: seq<DidxEntry>, next: nat)
    requires magic == DIDX && next == pos + 4 + 12 * |es|
    requires U32At(data, pos) == Some(len) && len / 12 == |es|
    requires DidxEntriesAt(data, pos + 4, |es|) == Ok(es)
    ensures SectionAt(data, pos, magic) == Ok((Section(magic, len, Didx(es)), next))
  {
  }

  /** A DIDX whose length counts its entries reads back from its length field on. */
  lemma {:induction false} DidxRead(data: seq<byte>, pos: nat, magic: Tag, len: u32, es: seq<DidxEntry>, next: nat)
    requires magic == DIDX && len / 12 == |es|
    requires At(data, pos, LeU32(len) + DidxBytes(es))
    requires next == pos + 4 + |DidxBytes(es)|
    ensures SectionAt(data, pos, magic) == Ok((Section(magic, len, Didx(es)), next))
  {
    LengthField(data, pos, len, DidxBytes(es));
    DidxEntriesRoundTrip(data, pos + 4, es);
    DidxAt(data, pos, magic, len, es, next);
  }

  lemma {:induction false} HircAt(data: seq<byte>, pos: nat, magic: Tag, len: u32, hs: seq<HircEntry>, next: nat)
    requires magic == HIRC
    requires U32At(data, pos) == Some(len) && U32At(data, pos + 4) == Some(|hs|)
    requires HircFrom(data, pos + 8, |hs|, []).Ok?
    requires HircFrom(data, pos + 8, |hs|, []).value.0 == hs
    requires HircFrom(data, pos + 8, |hs|, []).value.1 == next
    ensures SectionAt(data, pos, magic) == Ok((Section(magic, len, Hirc(hs)), next))
  {
  }

  /** A HIRC of consistent records reads back from its length field on. */
  lemma {:induction false} HircRead(data: seq<byte>, pos: nat, magic: Tag, len: u32, hs: seq<HircEntry>, next: nat)
    requires magic == HIRC && |hs| < U32_LIMIT && forall i :: 0 <= i < |hs| ==> HircConsistent(hs[i])
    requires At(data, pos, LeU32(len) + (LeU32(Wrap32(|hs|)) + HircBytes(hs)))
    requires next == pos + 4 + |LeU32(Wrap32(|hs|)) + HircBytes(hs)|
    ensures SectionAt(data, pos, magic) == Ok((Section(magic, len, Hirc(hs)), next))
  {
    TwoFields(data, pos, len, Wrap32(|hs|), HircBytes(hs));
    HircLoop(data, pos + 8, hs);
    HircAt(data, pos, magic, len, hs, next);
  }

  /** Two little-endian fields at `pos` read back, and what follows them
      stands eight bytes on. */
  lemma {:induction false} TwoFields(data: seq<byte>, pos: nat, a: u32, b: u32, rest: seq<byte>)
    requires At(data, pos, LeU32(a) + (LeU32(b) + rest))
    ensures U32At(data, pos) == Some(a) && U32At(data, pos + 4) == Some(b)
    ensures At(data, pos + 8, rest)
  {
    LengthField(data, pos, a, LeU32(b) + rest);
    LengthField(data, pos + 4, b, rest);
  }

  lemma {:induction false} HircLoop(data: seq<byte>, pos: nat, hs: seq<HircEntry>)
    requires forall i :: 0 <= i < |hs| ==> HircConsistent(hs[i])
    requires At(data, pos, HircBytes(hs))
    ensures HircFrom(data, pos, |hs|, []).Ok?
    ensures HircFrom(data, pos, |hs|, []).value.0 == hs
    ensures HircFrom(data, pos, |hs|, []).value.1 == pos + |HircBytes(hs)|
  {
    HircRoundTrip(data, pos, hs, []);
    assert [] + hs == hs;
  }

  /** A section with an unknown tag reads back from its length field on. */
  lemma {:induction false} UnkRead(data: seq<byte>, pos: nat, magic: Tag, len: u32, d: seq<byte>, next: nat)
    requires magic !in {BKHD, DIDX, HIRC, DATA} && len == |d|
    requires At(data, pos, LeU32(len) + d) && next == pos + 4 + |d|
    ensures SectionAt(data, pos, magic) == Ok((Section(magic, len, Unk(d)), next))
  {
    LengthField(data, pos, len, d);
  }

  /** A well-formed section other than DATA reads back from its length field on. */
  lemma {:induction false} NonDataRead(data: seq<byte>, pos: nat, sec: Section, before: seq<Section>, next: nat)
    requires !sec.payload.Data? && SectionWellFormed(sec, before)
    requires At(data, pos, LeU32(sec.sectionLength) + PayloadBytes(sec.payload))
    requires next == pos + 4 + |PayloadBytes(sec.payload)|
    ensures sec.magic != DATA
    ensures SectionAt(data, pos, sec.magic) == Ok((sec, next))
  {
    match sec.payload {
      case Bkhd(version, id, unknown) => BkhdRead(data, pos, sec.magic, sec.sectionLength, version, id, unknown, next);
      case Didx(es) => DidxRead(data, pos, sec.magic, sec.sectionLength, es, next);
      case Hirc(hs) => HircRead(data, pos, sec.magic, sec.sectionLength, hs, next);
      case Unk(d) => UnkRead(data, pos, sec.magic, sec.sectionLength, d, next);
    }
  }

  /** The reader at the tag of a well-formed section other than DATA, written
      after `front`, reads it back and stops after it. */
  lemma {:induction false} NonDataParse(sec: Section, before: seq<Section>, front: seq<byte>, pos: nat, next: nat, data: seq<byte>)
    requires !sec.payload.Data? && SectionWellFormed(sec, before)
    requires front + Header(sec) + PayloadBytes(sec.payload) <= data && |front| == pos
    requires next == pos + 8 + |PayloadBytes(sec.payload)|
    ensures pos + 4 <= |data|
    ensures ParseStep(data, pos, before) == Ok((sec, next))
  {
    HeaderLayout(data, front, sec.magic, sec.sectionLength, PayloadBytes(sec.payload));
    NonDataRead(data, pos + 4, sec, before, next);
    StepAt(data, pos, before);
  }

  /** A tag and a length written after `front`, DATA's header, read back. */
  lemma {:induction false} DataHeader(data: seq<byte>, front: seq<byte>, magic: Tag, len: u32)
    requires front + (magic + LeU32(len)) <= data
    ensures |front| + 4 <= |data| && data[|front|..|front| + 4] == magic
    ensures U32At(data, |front| + 4) == Some(len)
  {
    AtAfter(front, magic + LeU32(len), data);
    AtSplit(data, |front|, magic, LeU32(len));
    U32AtEncoded(data, |front| + 4, len);
  }

  /** The DATA loop of the reader recovers blobs standing at their offsets. */
  lemma {:induction false} BlobsRoundTrip(data: seq<byte>, start: nat, es: seq<DidxEntry>, blobs: seq<seq<byte>>)
    requires |blobs| == |es|
    requires forall i :: 0 <= i < |es| ==> es[i].length == |blobs[i]|
    requires forall i :: 0 <= i < |es| && blobs[i] != [] ==> At(data, start + es[i].offset, blobs[i])
    ensures BlobsAt(data, start, es) == Ok(blobs)
  {
    assert forall i :: 0 <= i < |es| ==> BlobFits(data, start, es[i]);
    assert BlobsAt(data, start, es).value == blobs;
  }

  /** Blobs at their offsets in what was written stand there in every stream
      that begins with it, and read back. */
  lemma {:induction false} DataBlobs(written: seq<byte>, data: seq<byte>, start: nat, es: seq<DidxEntry>, blobs: seq<seq<byte>>)
    requires written <= data && |blobs| == |es|
    requires forall i :: 0 <= i < |es| ==> es[i].length == |blobs[i]|
    requires forall i :: 0 <= i < |es| && blobs[i] != [] ==> At(written, start + es[i].offset, blobs[i])
    ensures BlobsAt(data, start, es) == Ok(blobs)
  {
    forall i | 0 <= i < |es| && blobs[i] != []
      ensures At(data, start + es[i].offset, blobs[i])
    {
      AtPrefix(written, data, start + es[i].offset, blobs[i]);
    }
    BlobsRoundTrip(data, start, es, blobs);
  }

  /** The reader at a DATA tag whose blobs read back. */
  lemma {:induction false} DataParseAt(data: seq<byte>, pos: nat, before: seq<Section>, sec: Section, next: nat)
    requires sec.magic == DATA && sec.payload.Data? && next == pos + 8 + sec.sectionLength
    requires pos + 4 <= |data| && data[pos..pos + 4] == DATA && U32At(data, pos + 4) == Some(sec.sectionLength)
    requires FirstDidx(before).Some? && BlobsAt(data, pos + 8, FirstDidx(before).value) == Ok(sec.payload.dataList)
    ensures ParseStep(data, pos, before) == Ok((sec, next))
  {
    StepAt(data, pos, before);
  }

  // ------------------------------------------------------------ one section

  /** Writing one well-formed section from a writer at or past its end
      succeeds, keeps what was written, and leaves the cursor past it and at
      or past the end again. */
  lemma {:induction false} SectionWrites(sec: Section, before: seq<Section>, w: Sink)
    requires SectionWellFormed(sec, before) && |w.buf| <= w.pos
    ensures WriteSection(sec, w, LastDidx(before)).Ok?
    ensures var w' := WriteSection(sec, w, LastDidx(before)).value.0;
            w.buf <= w'.buf && |w'.buf| <= w'.pos && w.pos < w'.pos
  {
    if sec.payload.Data? {
      DataWrite(sec, w, FirstDidx(before).value);
    } else {
      NonDataWrite(sec, w, LastDidx(before));
    }
  }

  /** The reader, at the cursor where the writer began a section other than
      DATA, recovers it and ends where the writer did, in any stream that
      begins with what the writer holds. */
  lemma {:induction false} NonDataRoundTrip(sec: Section, before: seq<Section>, w: Sink, data: seq<byte>)
    requires !sec.payload.Data? && SectionWellFormed(sec, before) && |w.buf| <= w.pos
    requires WriteSection(sec, w, LastDidx(before)).Ok?
    requires WriteSection(sec, w, LastDidx(before)).value.0.buf <= data
    ensures w.pos + 4 <= |data|
    ensures ParseStep(data, w.pos, before) == Ok((sec, WriteSection(sec, w, LastDidx(before)).value.0.pos))
  {
    NonDataWrite(sec, w, LastDidx(before));
    NonDataParse(sec, before, Filled(w), w.pos, WriteSection(sec, w, LastDidx(before)).value.0.pos, data);
  }

  /** The reader at the tag of a well-formed DATA section written after
      `front`, its blobs at their offsets, reads it back and stops at the end
      its length gives. */
  lemma {:induction false} DataParse(sec: Section, before: seq<Section>, front: seq<byte>, pos: nat, next: nat, written: seq<byte>, data: seq<byte>)
    requires sec.payload.Data? && SectionWellFormed(sec, before)
    requires front + Header(sec) <= written && written <= data && |front| == pos
    requires forall i :: 0 <= i < |sec.payload.dataList| && sec.payload.dataList[i] != [] ==>
               At(written, pos + 8 + FirstDidx(before).value[i].offset, sec.payload.dataList[i])
    requires next == pos + 8 + sec.sectionLength
    ensures pos + 4 <= |data|
    ensures ParseStep(data, pos, before) == Ok((sec, next))
  {
    PrefixTrans(front + Header(sec), written, data);
    DataHeader(data, front, sec.magic, sec.sectionLength);
    DataBlobs(written, data, pos + 8, FirstDidx(before).value, sec.payload.dataList);
    DataParseAt(data, pos, before, sec, next);
  }

  /** The reader, at the cursor where the writer began a DATA section,
      recovers it and ends where the writer did, in any stream that begins
      with what the writer holds. */
  lemma {:induction false} DataRoundTrip(sec: Section, before: seq<Section>, w: Sink, data: seq<byte>)
    requires sec.payload.Data? && SectionWellFormed(sec, before) && |w.buf| <= w.pos
    requires WriteSection(sec, w, LastDidx(before)).Ok?
    requires WriteSection(sec, w, LastDidx(before)).value.0.buf <= data
    ensures w.pos + 4 <= |data|
    ensures ParseStep(data, w.pos, before) == Ok((sec, WriteSection(sec, w, LastDidx(before)).value.0.pos))
  {
    DataWrite(sec, w, FirstDidx(before).value);
    var w' := WriteSection(sec, w, LastDidx(before)).value.0;
    DataParse(sec, before, Filled(w), w.pos, w'.pos, w'.buf, data);
  }

  // ------------------------------------------------------------ the bank

  /** The writer's state after the first `k` sections of a well-formed bank:
      it has not failed, its cursor is at or past the end of what it holds,
      and it holds the entries of the last DIDX among them. */
  lemma {:induction false} WriteAllState(secs: seq<Section>, k: nat)
    requires WellFormed(Bank(secs)) && k <= |secs|
    ensures WriteAll(secs[..k], Sink([], 0)).Ok?
    ensures |WriteAll(secs[..k], Sink([], 0)).value.0.buf| <= WriteAll(secs[..k], Sink([], 0)).value.0.pos
    ensures WriteAll(secs[..k], Sink([], 0)).value.1 == LastDidx(secs[..k])
  {
    if k > 0 {
      WriteAllState(secs, k - 1);
      var w := WriteAll(secs[..k - 1], Sink([], 0)).value.0;
      WriteAllSnoc(secs, Sink([], 0), k - 1);
      SectionWrites(secs[k - 1], secs[..k - 1], w);
      LastDidxSnoc(secs, k - 1);
    }
  }

  lemma {:induction false} LastDidxSnoc(secs: seq<Section>, k: nat)
    requires k < |secs|
    ensures LastDidx(secs[..k + 1]) == if secs[k].payload.Didx? then Some(secs[k].payload.entries) else LastDidx(secs[..k])
  {
    assert secs[..k + 1][..k] == secs[..k];
  }

  /** Section `k` of a well-formed bank, written after the first `k`. */
  lemma {:induction false} WriteAllNext(secs: seq<Section>, k: nat)
    requires WellFormed(Bank(secs)) && k < |secs|
    ensures WriteAll(secs[..k], Sink([], 0)).Ok?
    ensures var w := WriteAll(secs[..k], Sink([], 0)).value.0;
            && |w.buf| <= w.pos
            && WriteSection(secs[k], w, LastDidx(secs[..k])).Ok?
            && WriteAll(secs[..k + 1], Sink([], 0)) == WriteSection(secs[k], w, LastDidx(secs[..k]))
  {
    WriteAllState(secs, k);
    var w := WriteAll(secs[..k], Sink([], 0)).value.0;
    WriteAllSnoc(secs, Sink([], 0), k);
    SectionWrites(secs[k], secs[..k], w);
  }

  /** Writing section `k` keeps what the first `k` left. */
  lemma {:induction false} WriteAllStep(secs: seq<Section>, k: nat)
    requires WellFormed(Bank(secs)) && k < |secs|
    ensures WriteAll(secs[..k], Sink([], 0)).Ok? && WriteAll(secs[..k + 1], Sink([], 0)).Ok?
    ensures WriteAll(secs[..k], Sink([], 0)).value.0.buf <= WriteAll(secs[..k + 1], Sink([], 0)).value.0.buf
  {
    WriteAllNext(secs, k);
    SectionWrites(secs[k], secs[..k], WriteAll(secs[..k], Sink([], 0)).value.0);
  }

  /** What the writer holds after `k` sections begins what it holds after
      `j >= k`. */
  lemma {:induction false} WriteAllGrows(secs: seq<Section>, k: nat, j: nat)
    requires WellFormed(Bank(secs)) && k <= j <= |secs|
    ensures WriteAll(secs[..k], Sink([], 0)).Ok? && WriteAll(secs[..j], Sink([], 0)).Ok?
    ensures WriteAll(secs[..k], Sink([], 0)).value.0.buf <= WriteAll(secs[..j], Sink([], 0)).value.0.buf
    decreases j
  {
    if k < j {
      WriteAllGrows(secs, k, j - 1);
      WriteAllStep(secs, j - 1);
      PrefixTrans(WriteAll(secs[..k], Sink([], 0)).value.0.buf, WriteAll(secs[..j - 1], Sink([], 0)).value.0.buf,
                  WriteAll(secs[..j], Sink([], 0)).value.0.buf);
    } else {
      WriteAllState(secs, k);
    }
  }

  /** The reader, at the cursor where the writer began section `k`, reads
      it back and stops where the writer began section `k + 1`. */
  lemma {:induction false} SectionRead(secs: seq<Section>, k: nat, data: seq<byte>)
    requires WellFormed(Bank(secs)) && k < |secs|
    requires WriteAll(secs[..k + 1], Sink([], 0)).Ok? && WriteAll(secs[..k + 1], Sink([], 0)).value.0.buf <= data
    ensures WriteAll(secs[..k], Sink([], 0)).Ok?
    ensures var pos := WriteAll(secs[..k], Sink([], 0)).value.0.pos;
            pos + 4 <= |data| &&
            ParseStep(data, pos, secs[..k]) == Ok((secs[k], WriteAll(secs[..k + 1], Sink([], 0)).value.0.pos))
  {
    WriteAllNext(secs, k);
    var w := WriteAll(secs[..k], Sink([], 0)).value.0;
    if secs[k].payload.Data? {
      DataRoundTrip(secs[k], secs[..k], w, data);
    } else {
      NonDataRoundTrip(secs[k], secs[..k], w, data);
    }
  }

  lemma {:induction false} ParseFromStep(data: seq<byte>, pos: nat, before: seq<Section>, sec: Section, next: nat, after: seq<Section>)
    requires pos + 4 <= |data| && ParseStep(data, pos, before) == Ok((sec, next)) && after == before + [sec]
    ensures ParseFrom(data, pos, before) == ParseFrom(data, next, after)
  {
  }

  /** From the cursor where the writer began section `k`, the reader
      recovers sections `k` onwards after the first `k`. */
  lemma {:induction false} ParseRest(secs: seq<Section>, k: nat)
    requires WellFormed(Bank(secs)) && k <= |secs|
    ensures WriteAll(secs, Sink([], 0)).Ok? && WriteAll(secs[..k], Sink([], 0)).Ok?
    ensures ParseFrom(WriteAll(secs, Sink([], 0)).value.0.buf,
                      WriteAll(secs[..k], Sink([], 0)).value.0.pos, secs[..k]) == Ok(secs)
    decreases |secs| - k
  {
    if k == |secs| {
      ParseRestEnd(secs);
    } else {
      ParseRest(secs, k + 1);
      ParseRestStep(secs, k);
    }
  }

  /** After the last section the reader finds the end of the stream. */
  lemma {:induction false} ParseRestEnd(secs: seq<Section>)
    requires WellFormed(Bank(secs))
    ensures WriteAll(secs, Sink([], 0)).Ok? && WriteAll(secs[..|secs|], Sink([], 0)).Ok?
    ensures ParseFrom(WriteAll(secs, Sink([], 0)).value.0.buf,
                      WriteAll(secs[..|secs|], Sink([], 0)).value.0.pos, secs[..|secs|]) == Ok(secs)
  {
    WriteAllState(secs, |secs|);
    assert secs[..|secs|] == secs;
  }

  /** Reading section `k` leads from the cursor where the writer began it to
      the cursor where it began section `k + 1`. */
  lemma {:induction false} ParseRestStep(secs: seq<Section>, k: nat)
    requires WellFormed(Bank(secs)) && k < |secs|
    requires WriteAll(secs, Sink([], 0)).Ok? && WriteAll(secs[..k + 1], Sink([], 0)).Ok?
    requires ParseFrom(WriteAll(secs, Sink([], 0)).value.0.buf,
                       WriteAll(secs[..k + 1], Sink([], 0)).value.0.pos, secs[..k + 1]) == Ok(secs)
    ensures WriteAll(secs[..k], Sink([], 0)).Ok?
    ensures ParseFrom(WriteAll(secs, Sink([], 0)).value.0.buf,
                      WriteAll(secs[..k], Sink([], 0)).value.0.pos, secs[..k]) == Ok(secs)
  {
    WriteAllGrows(secs, k + 1, |secs|);
    assert secs[..|secs|] == secs;
    var data := WriteAll(secs, Sink([], 0)).value.0.buf;
    SectionRead(secs, k, data);
    var pos := WriteAll(secs[..k], Sink([], 0)).value.0.pos;
    TakeSnoc(secs, k);
    ParseFromStep(data, pos, secs[..k], secs[k], WriteAll(secs[..k + 1], Sink([], 0)).value.0.pos, secs[..k + 1]);
  }

  lemma {:induction false} TakeSnoc(secs: seq<Section>, k: nat)
    requires k < |secs|
    ensures secs[..k + 1] == secs[..k] + [secs[k]]
  {
  }

  /** A well-formed bank written to an empty file reads back as itself. */
  lemma {:induction false} RoundTrip(b: Bank)
    requires WellFormed(b)
    ensures WriteBank(b, Sink([], 0)).Ok?
    ensures ParseBank(WriteBank(b, Sink([], 0)).value.buf) == Ok(b)
  {
    ParseRest(b.sections, 0);
    assert b.sections[..0] == [];
  }
}
