# mhws-sound-tool in Dafny

This project models the core of mhws-sound-tool, a tool that unpacks and repacks the two
Wwise audio containers of Monster Hunter Wilds.

- **Sound bank (`.bnk`).** A sequence of sections, each a 4-byte tag, a little-endian u32
  length and a payload: BKHD (header), DIDX (the `{id, offset, length}` index of the embedded
  WEM files), HIRC (hierarchy records), DATA (the WEM payloads) and opaque unknown sections.
- **File package (`.pck`).** The AKPK header with its language string table, the bank and WEM
  entry tables of 20-byte records, and the external list. WEM positions are derived from the
  header, not stored.
- **Projects.** A dump writes every embedded WEM as `[idx]id.wem` next to a metadata file. A
  repack reads those files back, applies replacements (index before id), rebuilds DIDX/DATA
  or re-lays the package entries, and writes to the first free `name`, `name.new`,
  `name.new.new`, ... path.
- **The command-line front end**, which picks an action from each input path's magic bytes or
  extension, and the older copy of the project code that it calls.
- **The Wwise external-source manifest** (`WwiseSource`) and the `bin` tool table of the
  configuration file.

Modules, one file each:

- `Bytes` (bytes.dfy): bytes and u32 values, little-endian fields, and a writer `Sink(buf, pos)`
  with the seek/overwrite behaviour of a file or cursor.
- `Text` (text.dfy): decimal printing and parsing, whitespace trimming and `str::replace` as the
  Rust standard library defines them.
- `Bnk` (bnk.dfy) and `BnkRoundTrip` (bnk_roundtrip.dfy): the sound-bank codec, and the proof
  that writing a well-formed bank and parsing the bytes gives the bank back.
- `Pck` (pck.dfy) and `PckRoundTrip` (pck_roundtrip.dfy): the package header codec, its size
  arithmetic, the position calculation, the bounded entry reader, and the header round trip.
- `Project` (project.dfy): WEM file names, replacement keys, the bank dump and repack, and
  the output path.
- `PckProject` (pck_project.dfy): the package repack and dump.
- `MainEntry` (main_entry.dfy): `main.rs`, its own parser, packaging, dumping and dispatch.
- `Wwise` (wwise.dfy) and `Config` (config.dfy).

A reader is a byte sequence plus a cursor. Each parser is a function over the bytes, and a
method that walks the stream as the Rust reader does is proved equal to it. A writer is a
`Sink` value. Writing methods are proved equal to the functions that specify them, and the
round-trip lemmas relate the writing and parsing functions. `PckHeader`, `PckFileReader`,
`WwiseSource` and `Config` update their fields in place, so they are classes. A bank is
never mutated after it is built, so it is a datatype.

Some quirks are modelled as written, not fixed. The lemmas that show them are in the table
below.

- The parser slices DATA with the *first* DIDX section. The writer places blobs with the *most
  recently written* one (`FirstDidxIsFirst`, `LastDidxIsLast`). The bank round trip therefore
  requires the two to agree.
- The package repack re-lays the surviving entries back to back from the data start, with no
  alignment (`RelaidPacked`). Parsing the result re-derives aligned positions from the header.
- The package repack sets an entry's length to the size of the loose file, even when a
  replacement supplies different bytes (`LoadedLast`: `fileSize` is the loose size while the
  payload is the replacement).
- A bank dump fails when a DATA section comes before any DIDX section. It also fails when the
  latest DIDX section has no entries (`DumpedWemsOk`).

## Model

| member | source | states |
|---|---|---|
| Bnk.DidxEntryRoundTrip | src/bnk.rs:273-279 | the 12 bytes `{id, offset, length}` written for a DIDX entry read back as that entry |
| Bnk.DidxEntriesAt | src/bnk.rs:174-183 | the DIDX reader succeeds exactly when the count's 12-byte records fit, and entry i is the record at `pos + 12i` |
| Bnk.DidxEntriesRoundTrip | src/bnk.rs:174-183 | the DIDX entries the writer emits read back in order |
| Bnk.ReadDidxEntries | src/bnk.rs:174-183 | the reading loop returns what DidxEntriesAt specifies |
| Bnk.HircEntryFromReader | src/bnk.rs:245-259 | a HIRC record reads length, id, then `length - 4` data bytes; it panics exactly when the length is below 4; the record read is consistent and the cursor ends after it |
| Bnk.HircEntryRoundTrip | src/bnk.rs:245-270 | a record written as type, length, id, data reads back unchanged when `length == |data| + 4` |
| Bnk.HircRoundTrip | src/bnk.rs:184-195 | the records of a HIRC section read back in order, and the cursor ends after the last one |
| Bnk.ReadHircEntries | src/bnk.rs:184-195 | the HIRC reading loop returns what HircFrom specifies |
| Bnk.SectionAtLayout | src/bnk.rs:159-203 | BKHD keeps `section_length - 8` unknown bytes; DIDX reads `section_length / 12` entries; HIRC records are consistent; an unknown tag keeps exactly `section_length` opaque bytes; the cursor ends after the section |
| Bnk.SectionFromReader | src/bnk.rs:159-211 | `Section::from_reader` returns the section SectionAt specifies |
| Bnk.FirstDidxIsFirst | src/bnk.rs:38-47 | `find_map` finds entries exactly when some section is a Didx, and they are the first such section's |
| Bnk.BlobsAt | src/bnk.rs:50-55 | the blobs are read exactly when every entry fits; blob i is the `length_i` bytes at `start + offset_i` |
| Bnk.DataSectionLayout | src/bnk.rs:36-61 | a parsed DATA section has one blob per entry of the first DIDX section, blob i being the bytes at `s + offset_i`; the cursor ends at `s + section_length`; with no DIDX the result is MissingDidx |
| Bnk.DataSectionFromReader | src/bnk.rs:36-61 | the DATA branch of the reader returns what DataSectionAt specifies |
| Bnk.ParseDataWithoutDidx | src/bnk.rs:36-47 | a DATA tag with no DIDX section read before it fails the parse with MissingDidx |
| Bnk.ParseEndsAtEof | src/bnk.rs:29-35 | fewer than four bytes left where a tag is due ends the parse successfully with the sections read so far |
| Bnk.ParseFrom | src/bnk.rs:29-66 | parsing ends with the sections read so far at end of stream, and only ever adds sections after them |
| Bnk.BnkFromReader | src/bnk.rs:24-68 | the reading loop returns the bank ParseBank specifies |
| Bnk.LastDidxIsLast | src/bnk.rs:90-96 | the writer holds entries exactly when a Didx has been written, and they are the last one's |
| Bnk.WriteSection | src/bnk.rs:76-122 | a Didx replaces the held entries and other payloads keep them; a Data payload with no entries held fails with MissingDidx; after a Data payload the writer is at `s + section_length`; other payloads never fail |
| Bnk.WriteDataWithoutDidx | src/bnk.rs:103-106 | a Data payload with no Didx before it makes the whole write fail with MissingDidx |
| Bnk.WriteAllError | src/bnk.rs:76-123 | once a section fails to write, the write of the whole bank fails with that error |
| Bnk.WriteSectionTo | src/bnk.rs:77-122 | the per-section writing code produces what WriteSection specifies |
| Bnk.WriteDidxEntries | src/bnk.rs:90-96 | the DIDX loop writes the entries' 12-byte records in order |
| Bnk.WriteHircEntries | src/bnk.rs:97-102 | the HIRC loop writes the count, then each record in order |
| Bnk.WriteDataList | src/bnk.rs:107-113 | the blob loop panics exactly when there are more blobs than entries, and otherwise places each blob at `s + offset_i` |
| Bnk.BnkWriteTo | src/bnk.rs:70-125 | the writing loop produces the bytes WriteBank specifies |
| Bnk.SectionNew | src/bnk.rs:137-157 | a Didx section gets tag DIDX and length `12·n`, a Data section gets tag DATA and the sum of the blob lengths (both wrapped to u32), any other payload panics |
| BnkRoundTrip.PlaceBlobsLayout | src/bnk.rs:107-117 | every non-empty blob i lies at `start + offset_i` in the written bytes, and nothing is written past `start + section_length` |
| BnkRoundTrip.DataWrite | src/bnk.rs:103-118 | a DATA section writes its header, places every blob at `s + offset_i`, and leaves the writer at `s + section_length` |
| BnkRoundTrip.NonDataRoundTrip | src/bnk.rs:159-203 | a well-formed BKHD, DIDX, HIRC or unknown section that was written parses back as itself, and the cursor lands where the writer stopped |
| BnkRoundTrip.DataRoundTrip | src/bnk.rs:36-61 | a well-formed DATA section that was written parses back as itself, and the cursor lands where the writer stopped |
| BnkRoundTrip.RoundTrip | src/bnk.rs:24-125 | writing a well-formed bank succeeds, and parsing the bytes gives the same bank |
| Pck.FileEntryRoundTrip | src/pck.rs:302-310 | an entry written as its five LE u32 fields `{id, padding_block_size, length, offset, language_id}` reads back as itself |
| Pck.EntriesAt | src/pck.rs:86-102 | an entry table is read exactly when its 20-byte records fit, and entry i is the record at `pos + 20i` |
| Pck.EntriesRoundTrip | src/pck.rs:231-241 | the entries of a written table read back in order |
| Pck.TableAt | src/pck.rs:86-93 | a table read gives as many entries as its count field, and the cursor ends after them |
| Pck.ReadTable | src/pck.rs:86-102 | the table-reading loop returns what TableAt specifies |
| Pck.U32sAt | src/pck.rs:104-107 | the external list is read exactly when its u32 values fit, value i being the four bytes at `pos + 4i` |
| Pck.U32sRoundTrip | src/pck.rs:242-244 | the external values written read back in order |
| Pck.ReadU32s | src/pck.rs:104-107 | the external-list loop returns what U32sAt specifies |
| Pck.StringEntriesAt | src/pck.rs:64-72 | the string slots are read exactly when they fit, and slot i is `{offset, index}` at `pos + 8i` |
| Pck.StringEntryRoundTrip | src/pck.rs:218-219 | a string slot written as offset and index reads back as itself |
| Pck.StringEntriesRoundTrip | src/pck.rs:215-223 | the written slots read back in order |
| Pck.ReadStringEntries | src/pck.rs:64-72 | the slot-reading loop returns what StringEntriesAt specifies |
| Pck.DecodeStrings | src/pck.rs:73-81 | the strings decode exactly when each slot's string decodes, and string i is decoded at `string_start + offset_i` and paired with its index |
| Pck.ReadStrings | src/pck.rs:73-81 | the decoding loop returns what DecodeStrings specifies |
| Pck.ParseHeader | src/pck.rs:42-123 | a first four bytes other than AKPK fail with InvalidMagic carrying them; when parsing succeeds, header length and version are the stored fields, the bank table is read at `string_start + language_length` whatever the strings consumed, the WEM table follows it, and the external list has `external_table_length / 4` values |
| Pck.SampleSizes | src/pck.rs:381-386 | with no bank entries, 333 WEM entries, one external value and a 20-byte language block, the table sizes are 4, 6664 and 4, the header size 6712 and the data start 6720 |
| Pck.StringEntries | src/pck.rs:214-223 | the slots carry each string's index and its running offset |
| Pck.StringOffsetsRun | src/pck.rs:214-223 | the first string offset is `4 + 8·n`; each later one adds the previous string's UTF-16 length; after the last comes the language size |
| Pck.LanguageBytesSize | src/pck.rs:290-299 | the language block written is `language_size()` bytes long: `4 + 8·n + Σ UTF-16 lengths` |
| Pck.HeaderStart | src/pck.rs:199-205 | the magic, the version and five zeroed fields advance the writer by 28 bytes |
| Pck.LanguageWrite | src/pck.rs:208-229 | writing the language block advances the writer by the language size |
| Pck.TablesWrite | src/pck.rs:231-244 | writing the tables advances the writer by `bnk_table_size + wem_table_size + external_entries_size` |
| Pck.PatchSizes | src/pck.rs:254-264 | after back-patching, the writer is back at the end of the tables |
| Pck.WriteHeader | src/pck.rs:195-267 | `write_to` leaves the writer `header_size + 8` bytes further on |
| Pck.WriteStart | src/pck.rs:199-205 | the opening writes produce HeaderStart |
| Pck.WriteStringSlots | src/pck.rs:215-223 | the offset loop writes the slots StringEntries specifies |
| Pck.WriteLanguage | src/pck.rs:208-229 | the measured language block is what LanguageWrite specifies |
| Pck.WriteEntries | src/pck.rs:232-235 | the entry loop writes the records in order |
| Pck.WriteU32s | src/pck.rs:242-244 | the external loop writes the values in order |
| Pck.WriteTables | src/pck.rs:231-244 | the table writes produce TablesWrite |
| Pck.WriteSizes | src/pck.rs:254-264 | the back-patching writes produce PatchSizes |
| Pck.InsertSorted | src/pck.rs:133 | inserting into an offset-sorted list keeps it sorted |
| Pck.SortByOffsetSorts | src/pck.rs:133 | the merged entries are sorted by stored offset and are a permutation of the two tables |
| Pck.Align | src/pck.rs:139-143 | the aligned position is not before the current one, is unchanged for alignment ≤ 1, and otherwise is the next multiple of the alignment |
| Pck.LayoutPlacesEntries | src/pck.rs:135-147 | every position is at or after the start, is a multiple of its alignment when that exceeds 1, and is at or after the previous position plus the previous length |
| Pck.PositionsAgree | src/pck.rs:135-147 | without u32 overflow, the u32 position loop computes that layout |
| Pck.PositionsExample | src/pck.rs:135-147 | from 100, an entry of length 5 and alignment 1, then one of length 10 and alignment 16, are placed at 100 and 112 |
| Pck.PositionsLoop | src/pck.rs:135-147 | the `current_pos` loop returns what SortedPositions specifies |
| Pck.PositionMap | src/pck.rs:149-152 | the map has a key for every entry's id and for no other id |
| Pck.PositionMapLast | src/pck.rs:149-152 | an id maps to the position of its last entry in sorted order |
| Pck.PositionMapLoop | src/pck.rs:149-152 | the insertion loop builds PositionMap |
| Pck.FilePositions | src/pck.rs:154-162 | there is one position per bank entry and one per WEM entry |
| Pck.FilePositionsPlaced | src/pck.rs:125-163 | every derived position is at or after the data start; when ids are unique, each position is a multiple of its entry's alignment above 1 |
| Pck.PlaceEntries | src/pck.rs:125-163 | the calculation's body computes FilePositions |
| Pck.PckHeader.constructor | src/pck.rs:109-118 | the header holds the fields read, with no positions yet |
| Pck.PckHeader.LanguageSize | src/pck.rs:290-299 | the accumulator loop computes the language size |
| Pck.PckHeader.HeaderSize | src/pck.rs:269-275 | `header_size` is the sum of the part sizes plus 20 |
| Pck.PckHeader.GetDataOffsetStart | src/pck.rs:165-167 | the data start is `header_size + 8`, as a truncating u32 cast |
| Pck.PckHeader.CalculateFilePositions | src/pck.rs:125-163 | the stored fields stay as they were, and the positions become FilePositions |
| Pck.PckHeader.WemReader | src/pck.rs:169-180 | None exactly for an index at or past the WEM count; otherwise a fresh reader over that entry at its derived position, with nothing read |
| Pck.PckHeader.BnkReader | src/pck.rs:182-193 | the same for the bank entries |
| Pck.PckHeader.WriteTo | src/pck.rs:195-267 | the bytes written are WriteHeader of the stored fields |
| Pck.FromReader | src/pck.rs:42-123 | fails exactly when ParseHeader does, with its error; otherwise the header holds ParseHeader's fields and the positions FilePositions derives |
| Pck.ReadHeaderData | src/pck.rs:42-107 | the reads of `from_reader`, in order, return what ParseHeader specifies, errors included |
| Pck.PckFileReader.constructor | src/pck.rs:329-336 | a reader over the stream at the entry's start, with nothing read yet |
| Pck.PckFileReader.Read | src/pck.rs:343-361 | one call returns at most the buffer's length and never passes the entry's end: the bytes at `start + read_size`, up to the smaller of the buffer and what remains |
| Pck.PckFileReader.ReadToEnd | src/pck.rs:388-394 | reading until a call returns nothing yields the entry's bytes, exactly `length` of them when the stream holds them |
| PckRoundTrip.WrittenLayout | src/pck.rs:195-264 | the written header is the magic, the back-patched `header_length` (`header_size()`), the version, the four part sizes, then the strings and tables |
| PckRoundTrip.HeaderRoundTrip | src/pck.rs:42-267 | when the header size fits in u32 and the string codec reads back what it writes, parsing what `write_to` wrote gives the header back, with `header_length` set to `header_size()` |
| Project.DigitRun | src/project.rs:19 | the run of ASCII digits at a position: all digits, and followed by the end or a non-digit |
| Project.WemNameCaptures | src/project.rs:19 | `^\[(\d+)\](\d+)` captures two non-empty digit runs that form the name's prefix, and the id run is maximal |
| Project.CapturesOf | src/project.rs:19 | a name `[a]b` followed by a non-digit captures exactly a and b |
| Project.ParseWemName | src/project.rs:517-529 | the name is trimmed; no match gives BadName; an id that overflows u32 gives BadId; otherwise the id is its digits' value and the index is its value, or `u32::MAX` when it overflows |
| Project.ParseDigits | src/project.rs:520-521 | `parse::<u32>` of a digit string is its value exactly when that is below 2^32 |
| Project.NameOverflow | src/project.rs:520-525 | an overflowing index becomes `u32::MAX`; an overflowing id is an error |
| Project.DumpNameParses | src/project.rs:92-96 | a dumped name followed by text that starts with a non-digit parses as its dumped index and id |
| Project.DumpNameRoundTrip | src/project.rs:92-96 | every dumped name `[{:03}]id` or `[{:04}]id` (with or without `.wem`) parses back as its index and id, for every count |
| Project.WemNameExamples | src/project.rs:629-643 | the four names of the unit test parse to (1, 12345678), (12, 98765432), (999, 99999999) and (0, 0) |
| Project.ExampleFirst | src/project.rs:631 | "[001]12345678.wem" parses to (1, 12345678) |
| Project.ExampleSecond | src/project.rs:632 | "[012]98765432.wem" parses to (12, 98765432) |
| Project.ExampleThird | src/project.rs:633 | "[999]99999999.wem" parses to (999, 99999999) |
| Project.ExampleFourth | src/project.rs:634 | "[000]00000000.wem" parses to (0, 0) |
| Project.ParseIdOrIndex | src/project.rs:494-500 | a bracketed string can only be an Index, and any other string only an Id |
| Project.IdOrIndexRoundTrip | src/project.rs:494-507 | `from_str(_to_string(k)) == Some(k)` for every key |
| Project.Replaced | src/project.rs:274-293 | an Index(idx) replacement wins over an Id(id) replacement, and a WEM with neither keeps its bytes |
| Project.ReplacedKeepsKeys | src/project.rs:274-293 | replacing keeps every WEM's index and id, and WEMs with no key stay as they were |
| Project.ApplyReplacements | src/project.rs:274-293 | the in-place replacement loop computes ReplacedAll |
| Project.WemEntries | src/project.rs:247-252 | only regular files with extension `wem` are kept |
| Project.WemEntriesAll | src/project.rs:247-252 | a listing of WEM files alone is kept whole |
| Project.WemInfos | src/project.rs:246-264 | loading succeeds exactly when every WEM name parses; each loaded WEM has its file's parsed index, id and bytes, in listing order; a failure carries the name error |
| Project.WemInfosFailed | src/project.rs:261 | the first name that fails to parse decides the result |
| Project.LoadsAs | src/project.rs:246-264 | a listing of WEM files whose names parse to given keys loads as exactly those WEMs |
| Project.ReadWemFiles | src/project.rs:246-264 | the directory loop computes WemInfos |
| Project.SortBySorts | src/project.rs:295 | sorting by idx gives a list ordered by idx that is a permutation of the input |
| Project.SortByOrdered | src/project.rs:295 | sorting a list already ordered by idx leaves it unchanged |
| Project.PackedDidxExact | src/project.rs:297-307 | DIDX offset i is the sum of the preceding blob lengths, length i is blob i's length, and every entry ends within the total |
| Project.BuildDidx | src/project.rs:297-307 | the offset loop builds PackedDidx |
| Project.InsertSections | src/project.rs:310-321 | with at least one section, Didx goes in at index 1 and Data at index 2; on an empty bank the insert panics |
| Project.RepackedWellFormed | src/project.rs:295-321 | from metadata without DIDX or DATA, the rebuilt bank is well formed |
| Project.RepackedReadsBack | src/project.rs:295-339 | the rebuilt bank writes and parses back as itself; its section 1 is the packed DIDX and section 2 the data of the WEMs sorted by idx |
| Project.OutputPath | src/project.rs:325-335 | the path is the base with the fewest `.new` suffixes that does not exist; every shorter candidate exists |
| Project.OutputPathIsNew | src/project.rs:325-335 | the chosen path never exists, so an existing original is never overwritten |
| Project.RepackBank | src/project.rs:234-344 | missing metadata, a bad WEM name or a failed write is the error; otherwise the bytes are the rebuilt bank's, written to the first free output path |
| Project.NamedBlobs | src/project.rs:87-104 | the dump names as many files as there are blobs paired with entries |
| Project.NamedBlobsReadBack | src/project.rs:87-104 | dumped file i is a `.wem` file holding blob i, and its name parses as (i, id_i) |
| Project.NameBlobs | src/project.rs:87-104 | the naming loop computes NamedBlobs |
| Project.DumpedWemsOk | src/project.rs:78-108 | the dump succeeds exactly when every DATA section comes after a non-empty latest DIDX |
| Project.DumpedFailed | src/project.rs:84-85 | the first DATA section without entries decides the error |
| Project.MetaSections | src/project.rs:111-117 | the metadata keeps no Didx and no Data section |
| Project.MetaSectionsKeep | src/project.rs:111-117 | sections other than Didx and Data are all kept, in order |
| Project.MetaSectionsAppend | src/project.rs:111-117 | filtering works section by section, so order is preserved |
| Project.MetaSectionsWellFormed | src/project.rs:111-117 | filtering a well-formed bank leaves well-formed metadata |
| Project.DumpBank | src/project.rs:54-138 | the result is DumpedWems' files and the filtered metadata bank, or the dump error |
| Project.DumpedLoads | src/project.rs:92-96 | the dumped files load back as the blobs paired with their indices and ids |
| Project.DumpThenRepack | src/project.rs:54-344 | dumping a bank laid out as a repack lays it out, then repacking the dump with no replacements, gives the same bank |
| Project.RepackDumpRepack | src/project.rs:54-344 | a repacked bank dumps, and repacking that dump gives the same bank again |
| PckProject.Lookup | src/project.rs:445 | a looked-up value is stored under that key |
| PckProject.LookupIn | src/project.rs:445 | a stored key is found, and with unique keys it gives its value |
| PckProject.Insert | src/project.rs:384-392 | IndexMap insert: the key then maps to the new value, other keys are unaffected, and the size grows only for a new key |
| PckProject.MetaMapLast | src/project.rs:373-393 | an id maps to the metadata of its last loose file |
| PckProject.BuildMetaMap | src/project.rs:373-393 | the directory loop builds MetaMap |
| PckProject.ReplacedLookup | src/project.rs:402-419 | after replacement each key's metadata is the replaced one, with keys kept |
| PckProject.ApplyMetaReplacements | src/project.rs:402-419 | the replacement loop computes ReplacedMap |
| PckProject.LoadedLast | src/project.rs:384-419 | an id's entry has its last loose file's idx and file size, and its payload is the replacement when one applies; the size stays the loose file's |
| PckProject.Surviving | src/project.rs:424-436 | the survivors are entries with a loose file, never more than before |
| PckProject.SurvivingFound | src/project.rs:424-436 | an entry survives exactly when it was in the table and has a loose file |
| PckProject.SurvivingAppend | src/project.rs:424-436 | dropping works entry by entry, so survivors keep their relative order |
| PckProject.SurvivingAll | src/project.rs:424-436 | when every entry has a loose file, nothing is dropped |
| PckProject.MissingPositions | src/project.rs:424-429 | the drop list holds, in increasing order, exactly the indices of entries without a loose file |
| PckProject.SurvivingCount | src/project.rs:424-436 | the count drops by exactly the number of entries removed |
| PckProject.DropMissing | src/project.rs:424-436 | collecting indices and removing them in reverse leaves Surviving |
| PckProject.CollectMissing | src/project.rs:424-429 | the first loop collects exactly MissingPositions |
| PckProject.RemoveMissing | src/project.rs:430-436 | removing the collected indices from the back leaves Surviving |
| PckProject.KeptEntries | src/project.rs:424-436 | an entry is kept exactly when some loose file has its id |
| PckProject.AllKept | src/project.rs:424-436 | a dump's files keep every entry |
| PckProject.Relaid | src/project.rs:443-449 | re-laying keeps the number of entries |
| PckProject.RelaidPacked | src/project.rs:443-449 | offsets are a running sum of loose-file sizes from the data start, in table order, with no alignment; lengths are the file sizes; id, alignment and language are kept |
| PckProject.Reoffset | src/project.rs:443-449 | the re-offset loop computes Relaid |
| PckProject.WritePayloads | src/project.rs:467-479 | writing fails exactly when some WEM has neither bytes nor a file |
| PckProject.PayloadsFailed | src/project.rs:467-479 | the first WEM without bytes decides the error |
| PckProject.WriteWems | src/project.rs:467-479 | the payload loop computes WritePayloads |
| PckProject.Relay | src/project.rs:421-449 | the map is sorted and replaced; the header's WEM table becomes the survivors, re-laid from the data start of the header without the dropped entries; the other fields are unchanged |
| PckProject.RepackedPck | src/project.rs:356-449 | the repack succeeds exactly when every WEM name parses |
| PckProject.RepackedPckErrors | src/project.rs:383 | the repack fails exactly when a WEM name fails to parse, with that name error |
| PckProject.RepackedPckLayout | src/project.rs:463-479 | the output is the written header followed by the WEM payloads in idx order, and the header is `header_size + 8` bytes |
| PckProject.RepackedPckReadsBack | src/project.rs:463-465 | the output header parses back as the re-laid header |
| PckProject.RepackedEntriesFindPayloads | src/project.rs:443-479 | with no replacements and no overflow, each re-laid entry's length is its payload's size and its offset points at that payload in the output |
| PckProject.RepackPck | src/project.rs:356-485 | missing metadata or a bad name is the error; otherwise the bytes are RepackedPckBytes, written to the first free output path |
| PckProject.PckDumped | src/project.rs:162-176 | the dump writes one file per WEM entry |
| PckProject.PckDumpedReadBack | src/project.rs:162-176 | dumped file i is a `.wem` file whose name parses as (i, id_i), holding the entry's bytes at its derived position |
| PckProject.DumpPck | src/project.rs:162-176 | the dump loop computes PckDumped |
| PckProject.PckDumpedLoads | src/project.rs:162-176 | the dumped files load back as the entries' indices, ids and bytes |
| PckProject.DumpThenRepackKeepsEntries | src/project.rs:140-485 | repacking a package's dump succeeds, keeps every entry, and keeps each entry's id, alignment and language |
| MainEntry.MainWemNameCaptures | src/main.rs:29-30 | `^\[(\d{3,4})\](\d+)` captures an index of 3 or 4 digits and a non-empty id |
| MainEntry.CapturesAgree | src/main.rs:29-30 | these captures are the unbounded regex's captures when the index has 3 or 4 digits, and none otherwise |
| MainEntry.ParseWemName | src/main.rs:149-162 | an accepted name has an index below 10000 |
| MainEntry.ParseWemNameAgrees | src/main.rs:149-162 | with a 3–4 digit index the result is the unbounded parser's; otherwise BadName |
| MainEntry.AcceptedMeansTheSame | src/main.rs:149-162 | a name this parser accepts parses the same with the unbounded parser |
| MainEntry.ShortIndexAgrees | src/main.rs:149-162 | names with a 3 or 4 digit index parse alike under both parsers |
| MainEntry.WemNameAgrees | src/main.rs:149-162 | a `[abc]id.wem` name parses alike under both parsers |
| MainEntry.OtherIndexWidthRefused | src/main.rs:29-30 | an index of any other width is BadName here, while the unbounded parser does not report BadName |
| MainEntry.DumpStemAccepted | src/main.rs:67-71 | a dumped name parses back when the index is below 10000 and is refused from 10000 on |
| MainEntry.LargeIndexRefused | src/main.rs:29-30 | WEM number 10000 of a 10001-file dump is "[10000]id": BadName here, (10000, id) with the unbounded parser |
| MainEntry.LargeDumpRefused | src/main.rs:29-30 | loading a dump of more than 10000 WEMs with this parser fails |
| MainEntry.MainWemNameExamples | src/main.rs:612-627 | the four names of the unit test parse as expected, and "[01]5" and "[00001]5" are refused |
| MainEntry.MainExampleFirst | src/main.rs:615 | "[001]12345678.wem" parses to (1, 12345678) |
| MainEntry.AgreesFirst | src/main.rs:615 | both parsers agree on "[001]12345678.wem" |
| MainEntry.MainExampleSecond | src/main.rs:616 | "[012]98765432.wem" parses to (12, 98765432) |
| MainEntry.AgreesSecond | src/main.rs:616 | both parsers agree on "[012]98765432.wem" |
| MainEntry.MainExampleThird | src/main.rs:617 | "[999]99999999.wem" parses to (999, 99999999) |
| MainEntry.AgreesThird | src/main.rs:617 | both parsers agree on "[999]99999999.wem" |
| MainEntry.MainExampleFourth | src/main.rs:618 | "[000]00000000.wem" parses to (0, 0) |
| MainEntry.AgreesFourth | src/main.rs:618 | both parsers agree on "[000]00000000.wem" |
| MainEntry.MainExampleNarrow | src/main.rs:29-30 | "[01]5" is refused |
| MainEntry.MainExampleWide | src/main.rs:29-30 | "[00001]5" is refused |
| MainEntry.PackageBank | src/main.rs:164-250 | missing metadata, a name that `main.rs`'s own 3–4 digit parser refuses (src/main.rs:196) or a failed write is the error; otherwise the bytes are the repacked bank with no replacements, written to the first free output path |
| MainEntry.PackagePck | src/main.rs:252-350 | the same for the package, names read by the same parser (src/main.rs:283): the entries drop and re-lay, and the loose files follow the header |
| MainEntry.LargeBankDumpNotPackaged | src/main.rs:164-250 | packaging a bank dumped with more than 10000 WEMs fails, whatever its metadata |
| MainEntry.LargePckDumpNotPackaged | src/main.rs:252-350 | packaging a package dumped with more than 10000 WEMs fails |
| MainEntry.HandleProject | src/main.rs:352-380 | without `project.json` the result is ProjectJsonMissing; otherwise the project's kind decides bank or package packaging (both with `main.rs`'s own name parser), and its error is passed on |
| MainEntry.DumpBankFile | src/main.rs:524-533 | a parse error or a dump error is the result; otherwise it is the dumped WEMs and the metadata bank without Didx and Data |
| MainEntry.DumpPckFile | src/main.rs:109-147 | a header error is the result; otherwise one file per WEM entry read from the same bytes at its derived position, plus the header |
| MainEntry.FileAction | src/main.rs:519-576 | a file fails only by being too short to read the magic or by being unsupported |
| MainEntry.MagicWins | src/main.rs:524-546 | a file starting BKHD or AKPK is dumped whatever its extension |
| MainEntry.ExtensionDecides | src/main.rs:553-576 | otherwise the extension alone decides: mp3, ogg, aac or wav are accepted, wav is converted directly, anything else is unsupported |
| MainEntry.ShortFileFails | src/main.rs:519-523 | a file fails to read exactly when it has fewer than four bytes |
| MainEntry.DispatchedAll | src/main.rs:511-579 | the loop succeeds exactly when every path is handled, and then the actions are the paths' own actions, in order |
| MainEntry.StopsAtFirstFailure | src/main.rs:511-579 | the first path that fails decides the error |
| MainEntry.FailureStays | src/main.rs:511-579 | once a prefix of the paths fails, the whole run fails the same way |
| MainEntry.MainLoop | src/main.rs:485-582 | with no arguments at all the usage message's `args[0]` panics; with only the program name the result is Usage; otherwise the loop over the paths computes Dispatched |
| Wwise.NormaliseNoSlash | src/wwise.rs:259 | a normalised path holds no '/' |
| Wwise.NormaliseKeepsPlainNames | src/wwise.rs:259 | a path with no '/' and no '\' is unchanged |
| Wwise.NormaliseStripsVerbatim | src/wwise.rs:259 | a leading `\\?\` is removed |
| Wwise.WwiseSource.constructor | src/wwise.rs:258-264 | the root is stored normalised and there are no sources |
| Wwise.WwiseSource.AddSource | src/wwise.rs:266-269 | exactly one normalised source is appended; the root and earlier sources are unchanged |
| Wwise.XmlWithoutSources | src/wwise.rs:279-286 | with no sources the manifest holds no Source line |
| Wwise.XmlAppend | src/wwise.rs:273-278 | adding a source adds its line after the earlier ones |
| Wwise.SourceLineAt | src/wwise.rs:273-278 | source i's line follows the lines of the sources before it |
| Wwise.SourceLinesPrefix | src/wwise.rs:273-278 | the lines of earlier sources come first |
| Wwise.WwiseSource.ToXml | src/wwise.rs:271-287 | the `+=` loop produces the manifest: the head with the root, one line per source in order, then the closing tag |
| Wwise.ConvertArguments | src/wwise.rs:227-236 | the six arguments end with the normalised output directory |
| Wwise.ConvertOutputHasNoSlash | src/wwise.rs:227 | the output argument holds no '/' |
| Config.FindBin | src/config.rs:50-52 | the index of the first entry with the name, or None when no entry has it |
| Config.FindBinUnique | src/config.rs:50-52 | the first entry with the name is the one found |
| Config.FindBinIndex | src/config.rs:54-56 | the search loop computes FindBin |
| Config.SetExisting | src/config.rs:58-60 | for an existing name only the first match's path changes; the length, other entries and its params are kept |
| Config.SetNew | src/config.rs:61-67 | a new name appends `{name, path, params: []}` |
| Config.SetThenGet | src/config.rs:50-68 | after setting, the name is found with the new path |
| Config.SetKeepsOthers | src/config.rs:58-68 | setting one name leaves every other name's lookup unchanged |
| Config.SetIdempotent | src/config.rs:58-68 | setting the same path twice is the same as once |
| Config.DefaultConfig | src/config.rs:118-123 | version 1 with an empty bin list |
| Config.LoadConfigFromFile | src/config.rs:100-116 | success needs a version field equal to 1 and gives the file's settings; any other integer version is UnsupportedVersion |
| Config.LoadedVersion | src/config.rs:92-98 | the loaded settings are always version 1: the file's when it loads, the default otherwise |
| Config.Config.constructor | src/config.rs:92-98 | the settings are the loaded ones |
| Config.Config.GetBinConfig | src/config.rs:50-52 | a found entry has the name and is the first entry of the table with it; None exactly when no entry has it |
| Config.Config.SetBinConfig | src/config.rs:58-68 | the table becomes SetBins of the old one, the version is unchanged, and the name then has the new path |

## Left out

- The `utils` module is not part of this model. `string_to_utf16_bytes` and `string_from_utf16_reader` are parameters (`enc`, `dec`). `calc_write_size` is taken to be the writer's position after minus before.
- Every stream is in memory. I/O errors other than running out of data cannot happen, so the non-EOF read errors that `Bnk::from_reader` ignores at src/bnk.rs:31-35 are not modelled.
- Panics (an index out of bounds, `usize` underflow of `len - 8` and `len - 4`, `Vec::insert` past the end, `args[0]` of an empty argument list) are an explicit `Panic` error value.
- Unwraps that cannot fail in the source are preconditions. `wem_reader(..).unwrap()` becomes a requirement that the positions match the entries.
- Arithmetic follows release builds: u32 sums wrap (`Wrap32`) and `as u32` truncates. The lemmas that need no wrap-around say so in their preconditions.
- `get_wem_offset_start` (src/project.rs:443) is not defined in pck.rs. It is taken to be `get_data_offset_start`.
- The filesystem is a listing of entries `(stem, extension, is-file, bytes)` plus a set of existing paths. `read_dir` order is the listing order. A loose file's size is its byte count.
- Output files are returned as values, not written. A dump that fails part way leaves no partial output in the model.
- `io::copy` chunking and `File::open` errors on payload files are not modelled.
- JSON and TOML (de)serialisation of projects, banks, headers and the configuration is not modelled. The parsed data enters as values (`ProjectFile`, `ConfigFile`).
- `load_replace_files` (src/project.rs:534-619) and its transcoding are not modelled. Its result is a map from `IdOrIndex` keys to bytes.
- The Rust standard library's sort is modelled as a stable insertion sort. `IndexMap::sort_unstable_by` is modelled as stable too, so the model picks one of the orders the source allows when two WEMs share an index.
- `\d` in the Rust regex crate matches every Unicode decimal digit. The model matches ASCII digits only.
- The `Display` form of `IdOrIndex` is only used to name temporary files. Its round trip is stated through `_to_string`.
- Logging, coloured output and interactive prompts are not modelled. `create_project_metadata`, `request_ffmpeg`, `request_wwise_console`, `single_file_to_wem`, ffmpeg, transcode.rs, and WwiseConsole and WwiseProject command execution are not modelled either. The outcome of the action carried out on each path enters `MainEntry.MainLoop` as the `run` parameter.
- The configuration's global mutex, `save`/`try_save`, `init_load` and `initialize` (tool probing) are not modelled.
- Pck.FilePositionsPlaced: the alignment of a derived position is stated only when entry ids are unique. With a shared id, the `HashMap` gives every entry with that id the position of the last one sorted.
- Pck.PckFileReader.ReadToEnd: returns exactly `length` bytes only when the stream holds them. Otherwise it returns what is there.
- PckRoundTrip.HeaderRoundTrip: assumes the header size fits in u32 and that the string decoder reads back what the encoder writes. Both belong to the `utils` module.

## Findings

| source | as written | input that shows it | evidently intended | confidence | as-written member | corrected member |
|---|---|---|---|---|---|---|
| src/main.rs:29-30 | the WEM name pattern `^\[(\d{3,4})\](\d+)` accepts only 3 or 4 index digits | a dump of 10001 WEMs names the last one `[10000]<id>` (src/main.rs:67-71), which packaging then refuses as a bad name | every name the dump writes is read back, as with `^\[(\d+)\](\d+)` at src/project.rs:19 | not executed | MainEntry.ParseWemName (MainEntry.LargeIndexRefused, MainEntry.LargeDumpRefused, MainEntry.LargeBankDumpNotPackaged, MainEntry.LargePckDumpNotPackaged) | Project.ParseWemName (Project.DumpNameRoundTrip) |
