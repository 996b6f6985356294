/** The Wwise sound-bank container: a run of sections, each a four-byte tag,
    a little-endian u32 length and a payload. DATA is sliced into blobs by
    the entries of a DIDX section. Reading and writing are stated as
    functions over the byte stream and implemented by methods that walk the
    stream the way the Rust readers and writers do. */
module Bnk {
  import opened Bytes

  type Tag = s: seq<byte> | |s| == 4 witness [0, 0, 0, 0]

  const BKHD: Tag := [0x42, 0x4B, 0x48, 0x44]
  const DIDX: Tag := [0x44, 0x49, 0x44, 0x58]
  const HIRC: Tag := [0x48, 0x49, 0x52, 0x43]
  const DATA: Tag := [0x44, 0x41, 0x54, 0x41]

  /** `size_of::<DidxEntry>()`: three u32 fields. */
  const DIDX_ENTRY_SIZE: nat := 12

  /** `BnkError`, plus the panics of the reader and the writer. */
  datatype BnkError = Io | MissingDidx | Panic

  datatype DidxEntry = DidxEntry(id: u32, offset: u32, length: u32)

  datatype HircEntry = HircEntry(typeId: byte, length: u32, id: u32, data: seq<byte>)

  datatype SectionPayload =
    | Bkhd(version: u32, id: u32, unknown: seq<byte>)
    | Didx(entries: seq<DidxEntry>)
    | Hirc(records: seq<HircEntry>)
    | Data(dataList: seq<seq<byte>>)
    | Unk(data: seq<byte>)

  datatype Section = Section(magic: Tag, sectionLength: u32, payload: SectionPayload)

  datatype Bank = Bank(sections: seq<Section>)

  // ---------------------------------------------------------------- records

  /** A DIDX entry in memory order, `{id, offset, length}`, each little-endian. */
  function DidxEntryBytes(e: DidxEntry): (r: seq<byte>)
    ensures |r| == DIDX_ENTRY_SIZE
  {
    LeU32(e.id) + LeU32(e.offset) + LeU32(e.length)
  }

  /** The entry the twelve bytes at `pos` describe. */
  function DidxEntryAt(data: seq<byte>, pos: nat): DidxEntry
    requires pos + DIDX_ENTRY_SIZE <= |data|
  {
    DidxEntry(U32FromLe(data[pos..pos + 4]), U32FromLe(data[pos + 4..pos + 8]), U32FromLe(data[pos + 8..pos + 12]))
  }

  lemma {:induction false} DidxEntryRoundTrip(data: seq<byte>, pos: nat, e: DidxEntry)
    requires At(data, pos, DidxEntryBytes(e))
    ensures pos + DIDX_ENTRY_SIZE <= |data| && DidxEntryAt(data, pos) == e
  {
    AtSplit(data, pos, LeU32(e.id) + LeU32(e.offset), LeU32(e.length));
    AtSplit(data, pos, LeU32(e.id), LeU32(e.offset));
    LeU32RoundTrip(e.id);
    LeU32RoundTrip(e.offset);
    LeU32RoundTrip(e.length);
  }

  /** The entries of a DIDX payload, one after the other. */
  function DidxBytes(es: seq<DidxEntry>): (r: seq<byte>)
    ensures |r| == 12 * |es|
  {
    if es == [] then [] else DidxEntryBytes(es[0]) + DidxBytes(es[1..])
  }

  lemma {:induction false} DidxBytesAppend(es: seq<DidxEntry>, e: DidxEntry)
    ensures DidxBytes(es + [e]) == DidxBytes(es) + DidxEntryBytes(e)
  {
    if es != [] {
      assert (es + [e])[1..] == es[1..] + [e];
      DidxBytesAppend(es[1..], e);
    } else {
      assert DidxBytes([e]) == DidxEntryBytes(e) + DidxBytes([]);
    }
  }

  /** A HIRC record: type byte, length, id, then the data. */
  function HircEntryBytes(h: HircEntry): (r: seq<byte>)
    ensures |r| == 9 + |h.data|
  {
    [h.typeId] + LeU32(h.length) + LeU32(h.id) + h.data
  }

  function HircBytes(hs: seq<HircEntry>): seq<byte> {
    if hs == [] then [] else HircEntryBytes(hs[0]) + HircBytes(hs[1..])
  }

  lemma {:induction false} HircBytesAppend(hs: seq<HircEntry>, h: HircEntry)
    ensures HircBytes(hs + [h]) == HircBytes(hs) + HircEntryBytes(h)
  {
    if hs != [] {
      assert (hs + [h])[1..] == hs[1..] + [h];
      HircBytesAppend(hs[1..], h);
    } else {
      assert HircBytes([h]) == HircEntryBytes(h) + HircBytes([]);
    }
  }

  /** A record is consistent when its length field counts the id and the data. */
  predicate HircConsistent(h: HircEntry) {
    h.length == |h.data| + 4
  }

  /** `HircEntry::from_reader`, the type byte already read: length, id, then
      `length - 4` bytes of data; a length below 4 underflows and panics.
      Returns the record and the cursor after it. */
  function HircEntryFromReader(data: seq<byte>, pos: nat, typeId: byte): (r: Result<(HircEntry, nat), BnkError>)
    ensures r.Ok? ==> HircConsistent(r.value.0) && r.value.0.typeId == typeId
    ensures r.Ok? ==> r.value.1 == pos + 4 + r.value.0.length <= |data|
    ensures r == Err(Panic) <==> pos + 8 <= |data| && U32FromLe(data[pos..pos + 4]) < 4
  {
    if pos + 8 > |data| then Err(Io)
    else
      var length := U32FromLe(data[pos..pos + 4]);
      var id := U32FromLe(data[pos + 4..pos + 8]);
      if length < 4 then Err(Panic)
      else if pos + 8 + (length - 4) > |data| then Err(Io)
      else Ok((HircEntry(typeId, length, id, data[pos + 8..pos + 8 + (length - 4)]), pos + 8 + (length - 4)))
  }

  /** Write-then-read of one HIRC record is the identity when its length is consistent. */
  lemma {:induction false} HircEntryRoundTrip(data: seq<byte>, pos: nat, h: HircEntry)
    requires At(data, pos, HircEntryBytes(h)) && HircConsistent(h)
    ensures pos < |data| && data[pos] == h.typeId
    ensures HircEntryFromReader(data, pos + 1, h.typeId) == Ok((h, pos + |HircEntryBytes(h)|))
  {
    AtSplit(data, pos, [h.typeId] + LeU32(h.length) + LeU32(h.id), h.data);
    AtSplit(data, pos, [h.typeId] + LeU32(h.length), LeU32(h.id));
    AtSplit(data, pos, [h.typeId], LeU32(h.length));
    U32AtEncoded(data, pos + 1, h.length);
    U32AtEncoded(data, pos + 5, h.id);
    assert data[pos..pos + 1] == [h.typeId];
  }

  /** The HIRC record loop: `remaining` more records from `pos`, gathered
      after `acc`, and the cursor after the last. */
  function HircFrom(data: seq<byte>, pos: nat, remaining: nat, acc: seq<HircEntry>): (r: Result<(seq<HircEntry>, nat), BnkError>)
    ensures r.Ok? ==> r.value.1 >= pos && |r.value.0| == |acc| + remaining
    ensures r.Ok? && pos <= |data| ==> r.value.1 <= |data|
    decreases remaining
  {
    if remaining == 0 then Ok((acc, pos))
    else
      match HircNext(data, pos)
      case Err(e) => Err(e)
      case Ok((h, next)) => HircFrom(data, next, remaining - 1, acc + [h])
  }

  /** One turn of the HIRC loop: the type byte, then the rest of the record. */
  function HircNext(data: seq<byte>, pos: nat): (r: Result<(HircEntry, nat), BnkError>)
    ensures r.Ok? ==> pos < r.value.1 <= |data|
  {
    if pos >= |data| then Err(Io) else HircEntryFromReader(data, pos + 1, data[pos])
  }

  /** Each turn of the HIRC loop from `pos` yields the next of `hs`, and
      the cursor moves past its bytes. */
  ghost predicate HircChain(data: seq<byte>, pos: nat, hs: seq<HircEntry>)
    decreases |hs|
  {
    hs == [] ||
    (HircNext(data, pos) == Ok((hs[0], pos + |HircEntryBytes(hs[0])|)) &&
     HircChain(data, pos + |HircEntryBytes(hs[0])|, hs[1..]))
  }

  /** Consistent records written one after another form a chain. */
  lemma {:induction false} HircBytesChain(data: seq<byte>, pos: nat, hs: seq<HircEntry>)
    requires At(data, pos, HircBytes(hs))
    requires forall i :: 0 <= i < |hs| ==> HircConsistent(hs[i])
    ensures HircChain(data, pos, hs)
    decreases |hs|
  {
    if hs != [] {
      var h, rest, p := hs[0], hs[1..], pos + |HircEntryBytes(hs[0])|;
      AtSplit(data, pos, HircEntryBytes(h), HircBytes(rest));
      HircNextAt(data, pos, h);
      HircBytesChain(data, p, rest);
    }
  }

  /** One turn of the HIRC loop reads back a consistent record written at `pos`. */
  lemma {:induction false} HircNextAt(data: seq<byte>, pos: nat, h: HircEntry)
    requires At(data, pos, HircEntryBytes(h)) && HircConsistent(h)
    ensures HircNext(data, pos) == Ok((h, pos + |HircEntryBytes(h)|))
  {
    HircEntryRoundTrip(data, pos, h);
  }

  /** The HIRC loop follows the chain to its end. */
  lemma {:induction false} HircChainRoundTrip(data: seq<byte>, pos: nat, hs: seq<HircEntry>, acc: seq<HircEntry>)
    requires HircChain(data, pos, hs)
    ensures var r := HircFrom(data, pos, |hs|, acc);
      r.Ok? && r.value.0 == acc + hs && r.value.1 == pos + |HircBytes(hs)|
    decreases |hs|
  {
    if hs != [] {
      HircChainRoundTrip(data, pos + |HircEntryBytes(hs[0])|, hs[1..], acc + [hs[0]]);
      ConsTail(acc, hs);
    }
  }

  /** The HIRC loop reads back consistent records written one after another. */
  lemma {:induction false} HircRoundTrip(data: seq<byte>, pos: nat, hs: seq<HircEntry>, acc: seq<HircEntry>)
    requires At(data, pos, HircBytes(hs))
    requires forall i :: 0 <= i < |hs| ==> HircConsistent(hs[i])
    ensures var r := HircFrom(data, pos, |hs|, acc);
      r.Ok? && r.value.0 == acc + hs && r.value.1 == pos + |HircBytes(hs)|
  {
    HircBytesChain(data, pos, hs);
    HircChainRoundTrip(data, pos, hs, acc);
  }

  lemma {:induction false} ConsTail<T>(acc: seq<T>, s: seq<T>)
    requires s != []
    ensures acc + [s[0]] + s[1..] == acc + s
  {
  }

  // ---------------------------------------------------------------- reading

  /** `entry_count` DIDX entries read back to back from `pos`. */
  function DidxEntriesAt(data: seq<byte>, pos: nat, count: nat): (r: Result<seq<DidxEntry>, BnkError>)
    ensures r.Ok? <==> count == 0 || pos + 12 * count <= |data|
    ensures r.Ok? ==> |r.value| == count
    ensures r.Ok? ==> forall i :: 0 <= i < count ==> r.value[i] == DidxEntryAt(data, pos + 12 * i)
  {
    if count == 0 || pos + 12 * count <= |data| then
      Ok(seq(count, i requires 0 <= i < count => DidxEntryAt(data, pos + 12 * i)))
    else Err(Io)
  }

  /** Entry after entry from `pos`, the stream holds `es`. */
  ghost predicate DidxChain(data: seq<byte>, pos: nat, es: seq<DidxEntry>)
    decreases |es|
  {
    es == [] ||
    (pos + 12 <= |data| && DidxEntryAt(data, pos) == es[0] && DidxChain(data, pos + 12, es[1..]))
  }

  lemma {:induction false} DidxBytesChain(data: seq<byte>, pos: nat, es: seq<DidxEntry>)
    requires At(data, pos, DidxBytes(es))
    ensures DidxChain(data, pos, es)
    decreases |es|
  {
    if es != [] {
      var e, rest := es[0], es[1..];
      AtSplit(data, pos, DidxEntryBytes(e), DidxBytes(rest));
      DidxEntryRoundTrip(data, pos, e);
      DidxBytesChain(data, pos + 12, rest);
    }
  }

  lemma {:induction false} DidxChainEntries(data: seq<byte>, pos: nat, es: seq<DidxEntry>)
    requires DidxChain(data, pos, es)
    ensures pos + 12 * |es| <= |data| || es == []
    ensures forall i :: 0 <= i < |es| ==> DidxEntryAt(data, pos + 12 * i) == es[i]
    decreases |es|
  {
    if es != [] {
      DidxChainEntries(data, pos + 12, es[1..]);
      forall i | 1 <= i < |es| ensures DidxEntryAt(data, pos + 12 * i) == es[i] {
        assert pos + 12 * i == pos + 12 + 12 * (i - 1);
        assert es[1..][i - 1] == es[i];
      }
    }
  }

  /** The entries a DIDX payload holds read back as themselves. */
  lemma {:induction false} DidxEntriesRoundTrip(data: seq<byte>, pos: nat, es: seq<DidxEntry>)
    requires At(data, pos, DidxBytes(es))
    ensures DidxEntriesAt(data, pos, |es|) == Ok(es)
  {
    DidxBytesChain(data, pos, es);
    DidxChainEntries(data, pos, es);
    DidxEntriesFrom(data, pos, es);
  }

  lemma {:induction false} DidxEntriesFrom(data: seq<byte>, pos: nat, es: seq<DidxEntry>)
    requires pos + 12 * |es| <= |data| || es == []
    requires forall i :: 0 <= i < |es| ==> DidxEntryAt(data, pos + 12 * i) == es[i]
    ensures DidxEntriesAt(data, pos, |es|) == Ok(es)
  {
    assert DidxEntriesAt(data, pos, |es|).value == es;
  }

  /** `Section::from_reader` for every tag but DATA, with the cursor just
      after the tag: the section and the cursor after it. */
  function SectionAt(data: seq<byte>, pos: nat, magic: Tag): (r: Result<(Section, nat), BnkError>)
    requires magic != DATA
    ensures r.Ok? ==> r.value.0.magic == magic && pos + 4 <= r.value.1 <= |data|
  {
    match U32At(data, pos)
    case None => Err(Io)
    case Some(len) =>
      var q := pos + 4;
      if magic == BKHD then
        if q + 8 > |data| then Err(Io)
        else if len < 8 then Err(Panic)
        else if q + len > |data| then Err(Io)
        else
          var version := U32FromLe(data[q..q + 4]);
          var id := U32FromLe(data[q + 4..q + 8]);
          Ok((Section(magic, len, Bkhd(version, id, data[q + 8..q + len])), q + len))
      else if magic == DIDX then
        match DidxEntriesAt(data, q, len / 12)
        case Err(e) => Err(e)
        case Ok(es) => Ok((Section(magic, len, Didx(es)), q + 12 * |es|))
      else if magic == HIRC then
        match U32At(data, q)
        case None => Err(Io)
        case Some(count) =>
          match HircFrom(data, q + 4, count, [])
          case Err(e) => Err(e)
          case Ok((hs, next)) => Ok((Section(magic, len, Hirc(hs)), next))
      else
        match Slice(data, q, len)
        case None => Err(Io)
        case Some(d) => Ok((Section(magic, len, Unk(d)), q + len))
  }

  /** What `Section::from_reader` keeps of each kind of section: BKHD keeps
      `length - 8` unknown bytes, DIDX reads `length / 12` entries, HIRC
      records have consistent lengths, and an unknown tag keeps exactly
      `length` opaque bytes; the cursor ends after what was read. */
  lemma {:induction false} SectionAtLayout(data: seq<byte>, pos: nat, magic: Tag)
    requires magic != DATA
    ensures var r := SectionAt(data, pos, magic);
            r.Ok? ==> U32At(data, pos) == Some(r.value.0.sectionLength)
    ensures var r := SectionAt(data, pos, magic);
            r.Ok? && magic == BKHD ==>
              && r.value.0.payload.Bkhd?
              && |r.value.0.payload.unknown| + 8 == r.value.0.sectionLength
              && r.value.1 == pos + 4 + r.value.0.sectionLength
    ensures var r := SectionAt(data, pos, magic);
            r.Ok? && magic == DIDX ==>
              && r.value.0.payload.Didx?
              && |r.value.0.payload.entries| == r.value.0.sectionLength / 12
              && r.value.1 == pos + 4 + 12 * |r.value.0.payload.entries|
    ensures var r := SectionAt(data, pos, magic);
            r.Ok? && magic == HIRC ==>
              && r.value.0.payload.Hirc?
              && forall h :: h in r.value.0.payload.records ==> HircConsistent(h)
    ensures var r := SectionAt(data, pos, magic);
            r.Ok? && magic != BKHD && magic != DIDX && magic != HIRC ==>
              && r.value.1 == pos + 4 + r.value.0.sectionLength
              && r.value.0.payload == Unk(data[pos + 4..r.value.1])
  {
    if magic == HIRC && U32At(data, pos).Some? && U32At(data, pos + 4).Some? {
      HircFromConsistent(data, pos + 8, U32At(data, pos + 4).value, []);
    }
  }

  lemma {:induction false} HircFromConsistent(data: seq<byte>, pos: nat, remaining: nat, acc: seq<HircEntry>)
    requires forall h :: h in acc ==> HircConsistent(h)
    ensures HircFrom(data, pos, remaining, acc).Ok? ==>
      forall h :: h in HircFrom(data, pos, remaining, acc).value.0 ==> HircConsistent(h)
    decreases remaining
  {
    if remaining > 0 && pos < |data| {
      var e := HircEntryFromReader(data, pos + 1, data[pos]);
      if e.Ok? {
        HircFromConsistent(data, e.value.1, remaining - 1, acc + [e.value.0]);
      }
    }
  }

  /** `find_map` over the sections read so far: the entries of the first DIDX. */
  function FirstDidx(secs: seq<Section>): Option<seq<DidxEntry>> {
    if secs == [] then None
    else if secs[0].payload.Didx? then Some(secs[0].payload.entries)
    else FirstDidx(secs[1..])
  }

  /** `find_map` finds a Didx exactly when there is one, and it is the first. */
  lemma {:induction false} FirstDidxIsFirst(secs: seq<Section>)
    ensures FirstDidx(secs).Some? <==> exists k :: 0 <= k < |secs| && secs[k].payload.Didx?
    ensures FirstDidx(secs).Some? ==>
              exists k :: && 0 <= k < |secs| && secs[k].payload == Didx(FirstDidx(secs).value)
                          && forall j :: 0 <= j < k ==> !secs[j].payload.Didx?
  {
    if secs != [] && !secs[0].payload.Didx? {
      FirstDidxIsFirst(secs[1..]);
      assert forall k :: 1 <= k < |secs| ==> secs[k] == secs[1..][k - 1];
      if FirstDidx(secs).Some? {
        var k :| && 0 <= k < |secs[1..]| && secs[1..][k].payload == Didx(FirstDidx(secs).value)
                 && forall j :: 0 <= j < k ==> !secs[1..][j].payload.Didx?;
        assert secs[k + 1] == secs[1..][k];
        assert forall j :: 1 <= j < k + 1 ==> !secs[j].payload.Didx?;
      }
    }
  }

  /** The entries of the last DIDX among `secs`: what the writer's
      `didx_entries` holds after writing them. */
  function LastDidx(secs: seq<Section>): Option<seq<DidxEntry>> {
    if secs == [] then None
    else if secs[|secs| - 1].payload.Didx? then Some(secs[|secs| - 1].payload.entries)
    else LastDidx(secs[..|secs| - 1])
  }

  /** The writer holds entries exactly when a Didx was written, and they are
      the last one's. */
  lemma {:induction false} LastDidxIsLast(secs: seq<Section>)
    ensures LastDidx(secs).Some? <==> exists k :: 0 <= k < |secs| && secs[k].payload.Didx?
    ensures LastDidx(secs).Some? ==>
              exists k :: && 0 <= k < |secs| && secs[k].payload == Didx(LastDidx(secs).value)
                          && forall j :: k < j < |secs| ==> !secs[j].payload.Didx?
  {
    if secs != [] && !secs[|secs| - 1].payload.Didx? {
      var front := secs[..|secs| - 1];
      LastDidxIsLast(front);
      assert forall k :: 0 <= k < |front| ==> secs[k] == front[k];
      if LastDidx(secs).Some? {
        var k :| && 0 <= k < |front| && front[k].payload == Didx(LastDidx(secs).value)
                 && forall j :: k < j < |front| ==> !front[j].payload.Didx?;
        assert forall j :: k < j < |secs| ==> !secs[j].payload.Didx?;
      }
    }
  }

  /** `read_exact` can fill the blob entry `e` names: it is empty, or it
      ends inside the stream. */
  predicate BlobFits(data: seq<byte>, start: nat, e: DidxEntry) {
    e.length == 0 || start + e.offset + e.length <= |data|
  }

  /** The bytes of the blob entry `e` names, `length` of them from
      `start + offset`. */
  function BlobAt(data: seq<byte>, start: nat, e: DidxEntry): (r: seq<byte>)
    requires BlobFits(data, start, e)
    ensures |r| == e.length
  {
    if e.length == 0 then [] else data[start + e.offset..start + e.offset + e.length]
  }

  /** The DATA loop: one blob per entry, entry `i`'s blob being the bytes
      `[start + offset_i, start + offset_i + length_i)`; a blob reaching past
      the end of the stream is an I/O error. */
  function BlobsAt(data: seq<byte>, start: nat, es: seq<DidxEntry>): (r: Result<seq<seq<byte>>, BnkError>)
    ensures r.Ok? <==> forall i :: 0 <= i < |es| ==> BlobFits(data, start, es[i])
    ensures r.Ok? ==> |r.value| == |es|
    ensures r.Ok? ==> forall i :: 0 <= i < |es| ==> r.value[i] == BlobAt(data, start, es[i])
  {
    if forall i :: 0 <= i < |es| ==> BlobFits(data, start, es[i]) then
      Ok(seq(|es|, i requires 0 <= i < |es| && BlobFits(data, start, es[i]) => BlobAt(data, start, es[i])))
    else Err(Io)
  }

  /** The DATA branch of `Bnk::from_reader`, the cursor just after the tag:
      the length, then the entries of the first DIDX among `before`, then the
      blobs; the cursor ends `length` bytes after the length field. */
  function DataSectionAt(data: seq<byte>, pos: nat, before: seq<Section>): (r: Result<(Section, nat), BnkError>)
    ensures r.Ok? ==> r.value.0.magic == DATA && r.value.1 == pos + 4 + r.value.0.sectionLength
  {
    match U32At(data, pos)
    case None => Err(Io)
    case Some(len) =>
      match FirstDidx(before)
      case None => Err(MissingDidx)
      case Some(es) =>
        match BlobsAt(data, pos + 4, es)
        case Err(e) => Err(e)
        case Ok(blobs) => Ok((Section(DATA, len, Data(blobs)), pos + 4 + len))
  }

  /** A parsed DATA section has one blob per entry of the first DIDX, blob `i`
      being the bytes `[s + offset_i, s + offset_i + length_i)` where `s` is
      just after the length field; without a DIDX before it the parse fails
      with `MissingDidx`. */
  lemma {:induction false} DataSectionLayout(data: seq<byte>, pos: nat, before: seq<Section>)
    ensures var r := DataSectionAt(data, pos, before);
            r.Ok? ==> && U32At(data, pos) == Some(r.value.0.sectionLength)
                      && FirstDidx(before).Some? && r.value.0.payload.Data?
                      && |r.value.0.payload.dataList| == |FirstDidx(before).value|
                      && forall i :: 0 <= i < |FirstDidx(before).value| ==>
                           r.value.0.payload.dataList[i] == BlobAt(data, pos + 4, FirstDidx(before).value[i])
    ensures U32At(data, pos).Some? && FirstDidx(before).None? ==> DataSectionAt(data, pos, before) == Err(MissingDidx)
  {
  }

  /** One turn of the `Bnk::from_reader` loop once a whole tag is available. */
  function ParseStep(data: seq<byte>, pos: nat, before: seq<Section>): (r: Result<(Section, nat), BnkError>)
    requires pos + 4 <= |data|
    ensures r.Ok? ==> r.value.1 >= pos + 8 && r.value.0.magic == data[pos..pos + 4]
  {
    var magic: Tag := data[pos..pos + 4];
    if magic == DATA then DataSectionAt(data, pos + 4, before) else SectionAt(data, pos + 4, magic)
  }

  /** The rest of the `Bnk::from_reader` loop from `pos`, with `before` read
      already. A tag cut short by the end of the stream ends the loop, keeping
      what was read. */
  function ParseFrom(data: seq<byte>, pos: nat, before: seq<Section>): (r: Result<seq<Section>, BnkError>)
    ensures pos + 4 > |data| ==> r == Ok(before)
    ensures r.Ok? ==> before <= r.value
    decreases |data| - pos
  {
    if pos + 4 > |data| then Ok(before)
    else
      match ParseStep(data, pos, before)
      case Err(e) => Err(e)
      case Ok((sec, next)) =>
        var r := ParseFrom(data, next, before + [sec]);
        assert r.Ok? ==> before <= before + [sec] <= r.value;
        r
  }

  /** `Bnk::from_reader` on a stream positioned at its start. */
  function ParseBank(data: seq<byte>): Result<Bank, BnkError> {
    match ParseFrom(data, 0, [])
    case Err(e) => Err(e)
    case Ok(secs) => Ok(Bank(secs))
  }

  /** A DATA tag with no DIDX read before it fails the parse. */
  lemma {:induction false} ParseDataWithoutDidx(data: seq<byte>, pos: nat, before: seq<Section>)
    requires pos + 8 <= |data| && data[pos..pos + 4] == DATA
    requires forall k :: 0 <= k < |before| ==> !before[k].payload.Didx?
    ensures ParseFrom(data, pos, before) == Err(MissingDidx)
  {
    FirstDidxIsFirst(before);
  }

  /** Reading the tags ends, successfully, when fewer than four bytes remain,
      and keeps every section read before. */
  lemma {:induction false} ParseEndsAtEof(data: seq<byte>, before: seq<Section>, tail: seq<byte>)
    requires |tail| < 4
    ensures ParseFrom(data + tail, |data|, before) == Ok(before)
  {
  }

  // ------------------------------------------------------------ the readers

  /** `Section::from_reader`: the stream over `data` with its cursor at `pos`,
      just after `magic`. Returns the section and where the cursor ends. */
  method SectionFromReader(data: seq<byte>, pos: nat, magic: Tag) returns (r: Result<(Section, nat), BnkError>)
    requires magic != DATA
    ensures r == SectionAt(data, pos, magic)
  {
    if pos + 4 > |data| {
      return Err(Io);
    }
    var sectionLength := U32FromLe(data[pos..pos + 4]);
    var cursor: nat := pos + 4;
    if magic == BKHD {
      if cursor + 8 > |data| {
        return Err(Io);
      }
      var version := U32FromLe(data[cursor..cursor + 4]);
      var id := U32FromLe(data[cursor + 4..cursor + 8]);
      if sectionLength < 8 {
        return Err(Panic);
      }
      if cursor + sectionLength > |data| {
        return Err(Io);
      }
      var unknown := data[cursor + 8..cursor + sectionLength];
      return Ok((Section(magic, sectionLength, Bkhd(version, id, unknown)), cursor + sectionLength));
    } else if magic == DIDX {
      var read := ReadDidxEntries(data, cursor, sectionLength / 12);
      if read.Err? {
        return Err(read.error);
      }
      return Ok((Section(magic, sectionLength, Didx(read.value)), cursor + 12 * |read.value|));
    } else if magic == HIRC {
      if cursor + 4 > |data| {
        return Err(Io);
      }
      var count := U32FromLe(data[cursor..cursor + 4]);
      var read := ReadHircEntries(data, cursor + 4, count);
      if read.Err? {
        return Err(read.error);
      }
      HircFromConsistent(data, cursor + 4, count, []);
      return Ok((Section(magic, sectionLength, Hirc(read.value.0)), read.value.1));
    } else {
      if cursor + sectionLength > |data| {
        return Err(Io);
      }
      var next: nat := cursor + sectionLength;
      return Ok((Section(magic, sectionLength, Unk(data[cursor..next])), next));
    }
  }

  /** The DATA branch of `Bnk::from_reader`, the cursor just after the tag. */
  method DataSectionFromReader(data: seq<byte>, pos: nat, sections: seq<Section>) returns (r: Result<(Section, nat), BnkError>)
    ensures r == DataSectionAt(data, pos, sections)
  {
    if pos + 4 > |data| {
      return Err(Io);
    }
    var totalLength := U32FromLe(data[pos..pos + 4]);
    var didxEntries := FirstDidx(sections);
    if didxEntries.None? {
      return Err(MissingDidx);
    }
    var es := didxEntries.value;
    var dataStartPos := pos + 4;
    var dataList: seq<seq<byte>> := [];
    for i := 0 to |es|
      invariant forall j :: 0 <= j < i ==> BlobFits(data, dataStartPos, es[j])
      invariant dataList == seq(i, j requires 0 <= j < i && BlobFits(data, dataStartPos, es[j]) =>
                                  BlobAt(data, dataStartPos, es[j]))
    {
      var entry := es[i];
      var blob: seq<byte> := [];
      if entry.length > 0 {
        if dataStartPos + entry.offset + entry.length > |data| {
          return Err(Io);
        }
        blob := data[dataStartPos + entry.offset..dataStartPos + entry.offset + entry.length];
      }
      dataList := dataList + [blob];
    }
    return Ok((Section(DATA, totalLength, Data(dataList)), dataStartPos + totalLength));
  }

  /** The DIDX loop of `Section::from_reader`: `entryCount` entries of twelve bytes. */
  method ReadDidxEntries(data: seq<byte>, pos: nat, entryCount: nat) returns (r: Result<seq<DidxEntry>, BnkError>)
    ensures r == DidxEntriesAt(data, pos, entryCount)
  {
    var entries: seq<DidxEntry> := [];
    var cursor: nat := pos;
    for i := 0 to entryCount
      invariant cursor == pos + 12 * i
      invariant i > 0 ==> cursor <= |data|
      invariant entries == seq(i, j requires 0 <= j < i => DidxEntryAt(data, pos + 12 * j))
    {
      if cursor + DIDX_ENTRY_SIZE > |data| {
        return Err(Io);
      }
      entries := entries + [DidxEntryAt(data, cursor)];
      cursor := cursor + DIDX_ENTRY_SIZE;
    }
    return Ok(entries);
  }

  /** The HIRC loop of `Section::from_reader`: `count` records, each a type
      byte and a `HircEntry`; returns them and the cursor after the last. */
  method ReadHircEntries(data: seq<byte>, pos: nat, count: nat) returns (r: Result<(seq<HircEntry>, nat), BnkError>)
    ensures r == HircFrom(data, pos, count, [])
  {
    var entries: seq<HircEntry> := [];
    var cursor: nat := pos;
    for i := 0 to count
      invariant HircFrom(data, cursor, count - i, entries) == HircFrom(data, pos, count, [])
    {
      if cursor >= |data| {
        return Err(Io);
      }
      var entryType := data[cursor];
      var entry := HircEntryFromReader(data, cursor + 1, entryType);
      if entry.Err? {
        return Err(entry.error);
      }
      entries := entries + [entry.value.0];
      cursor := entry.value.1;
    }
    return Ok((entries, cursor));
  }

  /** `Bnk::from_reader` on a stream over `data`, read from its start. */
  method BnkFromReader(data: seq<byte>) returns (r: Result<Bank, BnkError>)
    ensures r == ParseBank(data)
  {
    var sections: seq<Section> := [];
    var pos: nat := 0;
    while pos + 4 <= |data|
      invariant ParseFrom(data, pos, sections) == ParseFrom(data, 0, [])
      decreases |data| - pos
    {
      var magic: Tag := data[pos..pos + 4];
      var read: Result<(Section, nat), BnkError>;
      if magic == DATA {
        read := DataSectionFromReader(data, pos + 4, sections);
      } else {
        read := SectionFromReader(data, pos + 4, magic);
      }
      assert read == ParseStep(data, pos, sections);
      if read.Err? {
        return Err(read.error);
      }
      sections := sections + [read.value.0];
      pos := read.value.1;
    }
    return Ok(Bank(sections));
  }

  // ---------------------------------------------------------------- writing

  /** The DATA loop of `Bnk::write_to`: blob `i` is written at
      `start + didx[i].offset`, in order. */
  function PlaceBlobs(w: Sink, start: nat, blobs: seq<seq<byte>>, es: seq<DidxEntry>): Sink
    requires |blobs| <= |es|
  {
    if blobs == [] then w
    else
      var n := |blobs| - 1;
      PlaceBlobs(w, start, blobs[..n], es).Seek(start + es[n].offset).Write(blobs[n])
  }

  /** One turn of the `Bnk::write_to` loop: the section's tag and length,
      then its payload; `didx` is the entries of the last Didx written. */
  function WriteSection(sec: Section, w: Sink, didx: Option<seq<DidxEntry>>): (r: Result<(Sink, Option<seq<DidxEntry>>), BnkError>)
    ensures r.Ok? ==> r.value.1 == if sec.payload.Didx? then Some(sec.payload.entries) else didx
    ensures sec.payload.Data? && didx.None? ==> r == Err(MissingDidx)
    ensures sec.payload.Data? && r.Ok? ==> r.value.0.pos == w.pos + 8 + sec.sectionLength
    ensures !sec.payload.Data? ==> r.Ok?
  {
    var w1 := w.Write(sec.magic).Write(LeU32(sec.sectionLength));
    match sec.payload
    case Bkhd(version, id, unknown) => Ok((w1.Write(LeU32(version)).Write(LeU32(id)).Write(unknown), didx))
    case Didx(es) => Ok((w1.Write(DidxBytes(es)), Some(es)))
    case Hirc(hs) => Ok((w1.Write(LeU32(Wrap32(|hs|))).Write(HircBytes(hs)), didx))
    case Data(blobs) =>
      if didx.None? then Err(MissingDidx)
      else if |blobs| > |didx.value| then Err(Panic)
      else Ok((PlaceBlobs(w1, w1.pos, blobs, didx.value).Seek(w1.pos + sec.sectionLength), didx))
    case Unk(d) => Ok((w1.Write(d), didx))
  }

  /** `Bnk::write_to` over the first sections: the writer afterwards and the
      entries of the last Didx written. */
  function WriteAll(secs: seq<Section>, w: Sink): Result<(Sink, Option<seq<DidxEntry>>), BnkError> {
    if secs == [] then Ok((w, None))
    else
      match WriteAll(secs[..|secs| - 1], w)
      case Err(e) => Err(e)
      case Ok((w', didx)) => WriteSection(secs[|secs| - 1], w', didx)
  }

  /** `Bnk::write_to`. */
  function WriteBank(b: Bank, w: Sink): Result<Sink, BnkError> {
    match WriteAll(b.sections, w)
    case Err(e) => Err(e)
    case Ok((w', _)) => Ok(w')
  }

  lemma {:induction false} WriteAllError(secs: seq<Section>, w: Sink, k: nat)
    requires k <= |secs| && WriteAll(secs[..k], w).Err?
    ensures WriteAll(secs, w) == Err(WriteAll(secs[..k], w).error)
    decreases |secs| - k
  {
    if k < |secs| {
      assert secs[..k + 1][..k] == secs[..k];
      WriteAllError(secs, w, k + 1);
    } else {
      assert secs[..k] == secs;
    }
  }

  /** Writing only fails at a Data payload: a bank with a Data payload before
      any Didx payload fails with `MissingDidx`. */
  lemma {:induction false} WriteDataWithoutDidx(secs: seq<Section>, w: Sink, k: nat)
    requires k < |secs| && secs[k].payload.Data?
    requires forall j :: 0 <= j < k ==> !secs[j].payload.Didx?
    ensures WriteBank(Bank(secs), w) == Err(MissingDidx)
  {
    NoDidxYet(secs, w, k);
    WriteAllSnoc(secs, w, k);
    WriteAllError(secs, w, k + 1);
  }

  /** The writer over one more section: it fails if it had failed, and
      otherwise writes that section. */
  lemma {:induction false} WriteAllSnoc(secs: seq<Section>, w: Sink, k: nat)
    requires k < |secs|
    ensures WriteAll(secs[..k], w).Err? ==> WriteAll(secs[..k + 1], w) == WriteAll(secs[..k], w)
    ensures WriteAll(secs[..k], w).Ok? ==>
              WriteAll(secs[..k + 1], w) == WriteSection(secs[k], WriteAll(secs[..k], w).value.0, WriteAll(secs[..k], w).value.1)
  {
    assert secs[..k + 1][..k] == secs[..k];
    assert secs[..k + 1][k] == secs[k];
  }

  /** Before the first Didx payload the writer holds no entries, or has
      already failed for want of them. */
  lemma {:induction false} NoDidxYet(secs: seq<Section>, w: Sink, k: nat)
    requires k <= |secs|
    requires forall j :: 0 <= j < k ==> !secs[j].payload.Didx?
    ensures WriteAll(secs[..k], w) == Err(MissingDidx) ||
            (WriteAll(secs[..k], w).Ok? && WriteAll(secs[..k], w).value.1 == None)
  {
    if k > 0 {
      NoDidxYet(secs, w, k - 1);
      assert secs[..k][..k - 1] == secs[..k - 1];
      assert secs[..k][k - 1] == secs[k - 1];
    }
  }

  // ------------------------------------------------------------ the writers

  /** `Bnk::write_to` on a writer in state `w`: the writer afterwards. */
  method BnkWriteTo(b: Bank, w: Sink) returns (r: Result<Sink, BnkError>)
    ensures r == WriteBank(b, w)
  {
    var writer := w;
    var didxEntries: Option<seq<DidxEntry>> := None;
    var secs := b.sections;
    for k := 0 to |secs|
      invariant WriteAll(secs[..k], w) == Ok((writer, didxEntries))
    {
      WriteAllSnoc(secs, w, k);
      var step := WriteSectionTo(secs[k], writer, didxEntries);
      if step.Err? {
        WriteAllError(secs, w, k + 1);
        return Err(step.error);
      }
      writer, didxEntries := step.value.0, step.value.1;
    }
    assert secs[..|secs|] == secs;
    return Ok(writer);
  }

  /** The body of the `Bnk::write_to` loop for one section. */
  method WriteSectionTo(section: Section, w: Sink, didx: Option<seq<DidxEntry>>) returns (r: Result<(Sink, Option<seq<DidxEntry>>), BnkError>)
    ensures r == WriteSection(section, w, didx)
  {
    var writer := w.Write(section.magic);
    writer := writer.Write(LeU32(section.sectionLength));
    var didxEntries := didx;
    match section.payload {
      case Bkhd(version, id, unknown) =>
        writer := writer.Write(LeU32(version));
        writer := writer.Write(LeU32(id));
        writer := writer.Write(unknown);
      case Didx(entries) =>
        didxEntries := Some(entries);
        writer := WriteDidxEntries(writer, entries);
      case Hirc(entries) =>
        writer := writer.Write(LeU32(Wrap32(|entries|)));
        writer := WriteHircEntries(writer, entries);
      case Data(dataList) =>
        if didxEntries.None? {
          return Err(MissingDidx);
        }
        var dataStartPos := writer.pos;
        var placed := WriteDataList(writer, dataList, didxEntries.value);
        if placed.None? {
          return Err(Panic);
        }
        writer := placed.value.Seek(dataStartPos + section.sectionLength);
      case Unk(data) =>
        writer := writer.Write(data);
    }
    return Ok((writer, didxEntries));
  }

  /** The Didx loop of `Bnk::write_to`. */
  method WriteDidxEntries(w: Sink, es: seq<DidxEntry>) returns (w': Sink)
    ensures w' == w.Write(DidxBytes(es))
  {
    w' := w;
    for i := 0 to |es|
      invariant w' == w.Write(DidxBytes(es[..i]))
    {
      assert es[..i + 1] == es[..i] + [es[i]];
      DidxBytesAppend(es[..i], es[i]);
      WriteTwice(w, DidxBytes(es[..i]), DidxEntryBytes(es[i]));
      w' := w'.Write(DidxEntryBytes(es[i]));
    }
    assert es[..|es|] == es;
  }

  /** The Hirc loop of `Bnk::write_to`, each record by `HircEntry::write_to`. */
  method WriteHircEntries(w: Sink, hs: seq<HircEntry>) returns (w': Sink)
    ensures w' == w.Write(HircBytes(hs))
  {
    w' := w;
    for i := 0 to |hs|
      invariant w' == w.Write(HircBytes(hs[..i]))
    {
      assert hs[..i + 1] == hs[..i] + [hs[i]];
      HircBytesAppend(hs[..i], hs[i]);
      WriteTwice(w, HircBytes(hs[..i]), HircEntryBytes(hs[i]));
      w' := w'.Write(HircEntryBytes(hs[i]));
    }
    assert hs[..|hs|] == hs;
  }

  /** The Data loop of `Bnk::write_to`, from the position after the length
      field; None when `didx_entries[i]` is out of bounds and panics. */
  method WriteDataList(w: Sink, blobs: seq<seq<byte>>, es: seq<DidxEntry>) returns (r: Option<Sink>)
    ensures r.None? <==> |blobs| > |es|
    ensures r.Some? ==> r.value == PlaceBlobs(w, w.pos, blobs, es)
  {
    var dataStartPos := w.pos;
    var writer := w;
    for i := 0 to |blobs|
      invariant i <= |es| || i == 0
      invariant i <= |es| ==> writer == PlaceBlobs(w, dataStartPos, blobs[..i], es)
    {
      if i >= |es| {
        return None;
      }
      assert blobs[..i + 1][..i] == blobs[..i];
      writer := writer.Seek(dataStartPos + es[i].offset).Write(blobs[i]);
    }
    assert blobs[..|blobs|] == blobs;
    return Some(writer);
  }

  /** `Section::new`: builds the Didx or the Data section around a payload,
      with its tag and its length (`12 * n`, or the sum of the blob lengths,
      both as u32); any other payload is unimplemented and panics. */
  method SectionNew(payload: SectionPayload) returns (r: Result<Section, BnkError>)
    ensures payload.Didx? ==> r == Ok(Section(DIDX, Wrap32(12 * |payload.entries|), payload))
    ensures payload.Data? ==> r == Ok(Section(DATA, Wrap32(TotalLength(payload.dataList)), payload))
    ensures !payload.Didx? && !payload.Data? ==> r == Err(Panic)
  {
    match payload {
      case Didx(entries) =>
        return Ok(Section(DIDX, Wrap32(Wrap32(|entries|) * 12), payload));
      case Data(dataList) =>
        var totalLength := 0;
        for i := 0 to |dataList|
          invariant totalLength == TotalLength(dataList[..i])
        {
          assert dataList[..i + 1][..i] == dataList[..i];
          totalLength := totalLength + |dataList[i]|;
        }
        assert dataList[..|dataList|] == dataList;
        return Ok(Section(DATA, Wrap32(totalLength), payload));
      case _ =>
        return Err(Panic);
    }
  }
}
