/** The project side of the sound tool: the names the dump gives loose WEM
    files and reads back, the keys of replacement files, and the rebuilding
    of a sound bank or a package from a project directory. */
module Project {
  import opened Bytes
  import opened Text
  import opened Bnk
  import Pck
  import opened BnkRoundTrip

  const U32_MAX: u32 := 0xFFFF_FFFF

  // ------------------------------------------------------------ WEM names

  /** The number of ASCII digits at `s[i..]` before anything else. */
  function DigitRun(s: string, i: nat): (k: nat)
    requires i <= |s|
    ensures i + k <= |s|
    ensures AllDigits(s[i..i + k])
    ensures i + k == |s| || !IsAsciiDigit(s[i + k])
    decreases |s| - i
  {
    if i < |s| && IsAsciiDigit(s[i]) then
      var k := DigitRun(s, i + 1);
      DigitsCons(s, i, k);
      1 + k
    else 0
  }

  /** A digit followed by a run of digits is a run of digits. */
  lemma {:induction false} DigitsCons(s: string, i: nat, k: nat)
    requires i + 1 + k <= |s| && IsAsciiDigit(s[i]) && AllDigits(s[i + 1..i + 1 + k])
    ensures AllDigits(s[i..i + 1 + k])
  {
    assert s[i..i + 1 + k] == [s[i]] + s[i + 1..i + 1 + k];
  }

  /** A run of digits followed by a non-digit, or by the end, has its own length. */
  lemma {:induction false} DigitRunOf(s: string, i: nat, d: string)
    requires i + |d| <= |s| && s[i..i + |d|] == d && AllDigits(d)
    requires i + |d| == |s| || !IsAsciiDigit(s[i + |d|])
    ensures DigitRun(s, i) == |d|
    decreases |d|
  {
    if d != [] {
      assert s[i] == d[0];
      assert s[i + 1..i + |d|] == d[1..];
      DigitRunOf(s, i + 1, d[1..]);
    }
  }

  /** The captures of `^\[(\d+)\](\d+)` in `name`: the digits between the
      brackets and the run of digits right after them. */
  function WemNameCaptures(name: string): (r: Option<(string, string)>)
    ensures r.Some? ==> AllDigits(r.value.0) && |r.value.0| >= 1 && AllDigits(r.value.1) && |r.value.1| >= 1
    ensures r.Some? ==> |r.value.0| + |r.value.1| + 2 <= |name|
    ensures r.Some? ==> name[..|r.value.0| + |r.value.1| + 2] == "[" + r.value.0 + "]" + r.value.1
    ensures r.Some? ==> var n := |r.value.0| + |r.value.1| + 2; n == |name| || !IsAsciiDigit(name[n])
  {
    if |name| == 0 || name[0] != '[' then None
    else
      var k := DigitRun(name, 1);
      if k == 0 || 1 + k == |name| || name[1 + k] != ']' then None
      else
        var m := DigitRun(name, 2 + k);
        if m == 0 then None
        else
          var a, b := name[1..1 + k], name[2 + k..2 + k + m];
          assert name[..k + m + 2] == "[" + a + "]" + b;
          Some((a, b))
  }

  /** Every name that starts with a bracketed run of digits and a run of
      digits is matched, with those two runs as its captures. */
  lemma {:induction false} CapturesOf(a: string, b: string, rest: string)
    requires AllDigits(a) && |a| >= 1 && AllDigits(b) && |b| >= 1
    requires rest == [] || !IsAsciiDigit(rest[0])
    ensures WemNameCaptures("[" + a + "]" + b + rest) == Some((a, b))
  {
    var name := "[" + a + "]" + b + rest;
    assert name[1..1 + |a|] == a;
    DigitRunOf(name, 1, a);
    assert name[1 + |a|] == ']';
    assert name[2 + |a|..2 + |a| + |b|] == b;
    if rest != [] {
      assert name[2 + |a| + |b|] == rest[0];
    }
    DigitRunOf(name, 2 + |a|, b);
  }

  datatype NameError = BadName | BadId

  /** `parse_wem_name`: the name trimmed, then its order index and its id.
      An index too large for a u32 becomes u32::MAX; an id too large is an
      error. */
  function ParseWemName(name: string): (r: Result<(u32, u32), NameError>)
    ensures var c := WemNameCaptures(Trim(name)); r == Err(BadName) <==> c.None?
    ensures var c := WemNameCaptures(Trim(name));
      r == Err(BadId) <==> c.Some? && DigitsValue(c.value.1) >= U32_LIMIT
    ensures var c := WemNameCaptures(Trim(name));
      r.Ok? ==> c.Some? && r.value.1 == DigitsValue(c.value.1)
    ensures var c := WemNameCaptures(Trim(name));
      r.Ok? ==> r.value.0 == if DigitsValue(c.value.0) < U32_LIMIT then DigitsValue(c.value.0) else U32_MAX
  {
    var c := WemNameCaptures(Trim(name));
    if c.None? then Err(BadName)
    else
      var a, b := c.value.0, c.value.1;
      ParseDigits(a);
      ParseDigits(b);
      match ParseU32(b)
      case None => Err(BadId)
      case Some(id) => Ok((match ParseU32(a) case Some(idx) => idx case None => U32_MAX, id))
  }

  /** The width the dump pads order indices to: three digits, or four once
      there are a thousand files or more. */
  function IndexWidth(count: nat): nat {
    if count < 1000 then 3 else 4
  }

  /** The stem of the name the dump gives WEM number `idx` of `count`,
      `[{idx:03}]{id}` or `[{idx:04}]{id}`. */
  function DumpStem(idx: nat, id: u32, count: nat): string {
    "[" + PaddedDecimal(idx, IndexWidth(count)) + "]" + Decimal(id)
  }

  /** The file name the dump gives WEM number `idx` of `count`. */
  function DumpName(idx: nat, id: u32, count: nat): string {
    DumpStem(idx, id, count) + ".wem"
  }

  /** `u32::from_str` on digits alone: their value, when it fits in 32 bits. */
  lemma {:induction false} ParseDigits(s: string)
    requires AllDigits(s) && |s| >= 1
    ensures ParseU32(s) == if DigitsValue(s) < U32_LIMIT then Some(DigitsValue(s)) else None
  {
    assert s[0] != '+';
  }

  /** The names the dump writes read back as the index and id they were made
      from, whatever follows the id digits as long as it starts with no digit
      and ends with no whitespace. */
  lemma {:induction false} DumpNameParses(idx: u32, id: u32, count: nat, rest: string)
    requires rest == [] || (!IsAsciiDigit(rest[0]) && !IsWhitespace(rest[|rest| - 1]))
    ensures ParseWemName(DumpStem(idx, id, count) + rest) == Ok((idx, id))
  {
    var a, b := PaddedDecimal(idx, IndexWidth(count)), Decimal(id);
    PaddedValue(idx, IndexWidth(count));
    NamePartsParse(a, b, rest, idx, id);
  }

  /** The stems and the file names the dump writes both read back. */
  lemma {:induction false} DumpNameRoundTrip(idx: u32, id: u32, count: nat)
    ensures ParseWemName(DumpStem(idx, id, count)) == Ok((idx, id))
    ensures ParseWemName(DumpName(idx, id, count)) == Ok((idx, id))
  {
    DumpStemParses(idx, id, count);
    DumpFileNameParses(idx, id, count);
  }

  lemma {:induction false} DumpStemParses(idx: u32, id: u32, count: nat)
    ensures ParseWemName(DumpStem(idx, id, count)) == Ok((idx, id))
  {
    var stem := DumpStem(idx, id, count);
    DumpNameParses(idx, id, count, []);
    assert stem + [] == stem;
  }

  lemma {:induction false} DumpFileNameParses(idx: u32, id: u32, count: nat)
    ensures ParseWemName(DumpName(idx, id, count)) == Ok((idx, id))
  {
    var ext := ".wem";
    assert ext[0] == '.' && ext[3] == 'm';
    DumpNameParses(idx, id, count, ext);
  }

  /** Names whose index digits overflow a u32 get index u32::MAX; names
      whose id digits overflow are refused. */
  lemma {:induction false} NameOverflow(a: string, b: string)
    requires AllDigits(a) && |a| >= 1 && AllDigits(b) && |b| >= 1
    ensures DigitsValue(a) >= U32_LIMIT && DigitsValue(b) < U32_LIMIT ==>
      ParseWemName("[" + a + "]" + b) == Ok((U32_MAX, DigitsValue(b)))
    ensures DigitsValue(b) >= U32_LIMIT ==> ParseWemName("[" + a + "]" + b) == Err(BadId)
  {
    var name := "[" + a + "]" + b;
    assert name[0] == '[' && name[|name| - 1] == b[|b| - 1];
    TrimStartNoWhitespace(name);
    TrimEndNoWhitespace(name);
    CapturesOf(a, b, []);
    assert name + [] == name;
  }

  /** The names of the unit test read back as the pairs it expects. (The
      name is a parameter so that the solver does not evaluate the parser
      on the literal.) */
  lemma {:induction false} WemNameExamples(name: string)
    ensures name == "[001]12345678.wem" ==> ParseWemName(name) == Ok((1, 12345678))
    ensures name == "[012]98765432.wem" ==> ParseWemName(name) == Ok((12, 98765432))
    ensures name == "[999]99999999.wem" ==> ParseWemName(name) == Ok((999, 99999999))
    ensures name == "[000]00000000.wem" ==> ParseWemName(name) == Ok((0, 0))
  {
    if name == "[001]12345678.wem" {
      ExampleFirst(name);
    } else if name == "[012]98765432.wem" {
      ExampleSecond(name);
    } else if name == "[999]99999999.wem" {
      ExampleThird(name);
    } else if name == "[000]00000000.wem" {
      ExampleFourth(name);
    }
  }

  lemma {:induction false} ExampleFirst(name: string)
    requires name == "[001]12345678.wem"
    ensures ParseWemName(name) == Ok((1, 12345678))
  {
    var a, b := "001", "12345678";
    assert name == "[" + a + "]" + b + ".wem";
    DigitsOf3(a);
    DigitsOf8(b);
    NamePartsParse(a, b, ".wem", 1, 12345678);
  }

  lemma {:induction false} ExampleSecond(name: string)
    requires name == "[012]98765432.wem"
    ensures ParseWemName(name) == Ok((12, 98765432))
  {
    var a, b := "012", "98765432";
    assert name == "[" + a + "]" + b + ".wem";
    DigitsOf3(a);
    DigitsOf8(b);
    NamePartsParse(a, b, ".wem", 12, 98765432);
  }

  lemma {:induction false} ExampleThird(name: string)
    requires name == "[999]99999999.wem"
    ensures ParseWemName(name) == Ok((999, 99999999))
  {
    var a, b := "999", "99999999";
    assert name == "[" + a + "]" + b + ".wem";
    DigitsOf3(a);
    DigitsOf8(b);
    NamePartsParse(a, b, ".wem", 999, 99999999);
  }

  lemma {:induction false} ExampleFourth(name: string)
    requires name == "[000]00000000.wem"
    ensures ParseWemName(name) == Ok((0, 0))
  {
    assert name == "[" + "000" + "]" + "00000000" + ".wem";
    NoDigitsValue("000");
    NoDigitsValue("00000000");
    NamePartsParse("000", "00000000", ".wem", 0, 0);
  }

  /** The value of a three-digit spelling, digit by digit. */
  lemma {:induction false} DigitsOf3(s: string)
    requires AllDigits(s) && |s| == 3
    ensures DigitsValue(s) == 100 * (s[0] as int - 48) + 10 * (s[1] as int - 48) + (s[2] as int - 48)
  {
    assert s[..0] == [] && s[..3] == s;
    DigitsSnoc(s, 1);
    DigitsSnoc(s, 2);
    DigitsSnoc(s, 3);
  }

  /** The value of an eight-digit spelling, digit by digit. */
  lemma {:induction false} DigitsOf8(s: string)
    requires AllDigits(s) && |s| == 8
    ensures DigitsValue(s) ==
      10000000 * (s[0] as int - 48) + 1000000 * (s[1] as int - 48) + 100000 * (s[2] as int - 48) +
      10000 * (s[3] as int - 48) + 1000 * (s[4] as int - 48) + 100 * (s[5] as int - 48) +
      10 * (s[6] as int - 48) + (s[7] as int - 48)
  {
    assert s[..0] == [] && s[..8] == s;
    DigitsSnoc(s, 1);
    DigitsSnoc(s, 2);
    DigitsSnoc(s, 3);
    DigitsSnoc(s, 4);
    DigitsSnoc(s, 5);
    DigitsSnoc(s, 6);
    DigitsSnoc(s, 7);
    DigitsSnoc(s, 8);
  }

  /** The value of the first `n` digits from that of the first `n - 1`. */
  lemma {:induction false} DigitsSnoc(s: string, n: nat)
    requires AllDigits(s) && 0 < n <= |s|
    ensures AllDigits(s[..n]) && AllDigits(s[..n - 1])
    ensures DigitsValue(s[..n]) == 10 * DigitsValue(s[..n - 1]) + (s[n - 1] as int - 48)
  {
    assert s[..n][..n - 1] == s[..n - 1];
  }

  /** A name made of a bracketed run of digits, a run of digits and a tail
      that starts with no digit and ends with no whitespace parses to the
      two runs' values. */
  lemma {:induction false} NamePartsParse(a: string, b: string, rest: string, idx: u32, id: u32)
    requires AllDigits(a) && |a| >= 1 && AllDigits(b) && |b| >= 1
    requires DigitsValue(a) == idx && DigitsValue(b) == id
    requires rest == [] || (!IsAsciiDigit(rest[0]) && !IsWhitespace(rest[|rest| - 1]))
    ensures ParseWemName("[" + a + "]" + b + rest) == Ok((idx, id))
  {
    var name := "[" + a + "]" + b + rest;
    assert name[0] == '[';
    assert name[|name| - 1] == if rest == [] then b[|b| - 1] else rest[|rest| - 1];
    TrimStartNoWhitespace(name);
    TrimEndNoWhitespace(name);
    CapturesOf(a, b, rest);
  }

  // ------------------------------------------------------- replacement keys

  /** The key of a replacement file: a WEM id, or an order index in brackets. */
  datatype IdOrIndex = Id(id: u32) | Index(index: u32)

  /** `IdOrIndex::from_str`: `[n]` is an index, anything else must be an id. */
  function ParseIdOrIndex(s: string): (r: Option<IdOrIndex>)
    ensures r.Some? && r.value.Index? ==> |s| >= 2 && s[0] == '[' && s[|s| - 1] == ']'
    ensures r.Some? && r.value.Id? ==> !(|s| >= 2 && s[0] == '[' && s[|s| - 1] == ']')
  {
    if |s| > 0 && s[0] == '[' && s[|s| - 1] == ']' then
      match ParseU32(s[1..|s| - 1])
      case Some(n) => Some(Index(n))
      case None => None
    else
      match ParseU32(s)
      case Some(n) => Some(Id(n))
      case None => None
  }

  /** `IdOrIndex::_to_string`, which `Display` also prints. */
  function IdOrIndexString(k: IdOrIndex): string {
    match k
    case Id(id) => Decimal(id)
    case Index(index) => "[" + Decimal(index) + "]"
  }

  /** Every key reads back from the text it prints as. */
  lemma {:induction false} IdOrIndexRoundTrip(k: IdOrIndex)
    ensures ParseIdOrIndex(IdOrIndexString(k)) == Some(k)
  {
    match k
    case Id(id) =>
      ParseDecimal(id);
    case Index(index) =>
      var s := IdOrIndexString(k);
      assert s[1..|s| - 1] == Decimal(index);
      ParseDecimal(index);
  }

  /** The replacements: transcoded WEM bytes under the key of their file. */
  type Replacements = map<IdOrIndex, seq<byte>>

  /** The bytes that stand for the WEM with order index `idx` and id `id`:
      a replacement by index wins over one by id, and without either the
      WEM keeps its own bytes. */
  function Replaced(rep: Replacements, idx: u32, id: u32, data: seq<byte>): (r: seq<byte>)
    ensures Index(idx) in rep ==> r == rep[Index(idx)]
    ensures Index(idx) !in rep && Id(id) in rep ==> r == rep[Id(id)]
    ensures Index(idx) !in rep && Id(id) !in rep ==> r == data
  {
    if Index(idx) in rep then rep[Index(idx)]
    else if Id(id) in rep then rep[Id(id)]
    else data
  }

  // ------------------------------------------------------- loose WEM files

  /** An entry of the project directory: its file stem and extension,
      whether it is a regular file, and its contents. */
  datatype DirEntry = DirEntry(stem: string, extension: string, isFile: bool, contents: seq<byte>)

  /** Only regular files with the extension `wem` are loose WEMs. */
  predicate IsWemFile(e: DirEntry) {
    e.isFile && e.extension == "wem"
  }

  /** The WEM name parser a repack uses. */
  type NameParser = string -> Result<(u32, u32), NameError>

  /** `WemInfo`: a loose WEM with the index and id its name gives. */
  datatype WemInfo = WemInfo(idx: u32, id: u32, data: seq<byte>)

  /** `w` is what the directory entry `e` loads as. */
  predicate LoadedFrom(e: DirEntry, parse: NameParser, w: WemInfo) {
    parse(e.stem) == Ok((w.idx, w.id)) && w.data == e.contents
  }

  /** The loose WEMs of a listing, in listing order. */
  function WemEntries(listing: seq<DirEntry>): (r: seq<DirEntry>)
    ensures forall k :: 0 <= k < |r| ==> IsWemFile(r[k])
  {
    if listing == [] then []
    else
      var n := |listing| - 1;
      WemEntries(listing[..n]) + if IsWemFile(listing[n]) then [listing[n]] else []
  }

  /** What the loose WEMs of a listing load as, in listing order; the first
      WEM whose name does not parse fails the whole read. */
  function WemInfos(listing: seq<DirEntry>, parse: NameParser): (r: Result<seq<WemInfo>, NameError>)
    ensures r.Ok? <==> forall k :: 0 <= k < |WemEntries(listing)| ==> parse(WemEntries(listing)[k].stem).Ok?
    ensures r.Ok? ==> |r.value| == |WemEntries(listing)|
    ensures r.Ok? ==> forall k :: 0 <= k < |r.value| ==> LoadedFrom(WemEntries(listing)[k], parse, r.value[k])
    ensures r.Err? ==> exists k :: 0 <= k < |WemEntries(listing)| && parse(WemEntries(listing)[k].stem) == Err(r.error)
  {
    if listing == [] then Ok([])
    else
      var n := |listing| - 1;
      var e := listing[n];
      var es := WemEntries(listing[..n]);
      assert WemEntries(listing) == es + if IsWemFile(e) then [e] else [];
      assert forall k :: 0 <= k < |es| ==> WemEntries(listing)[k] == es[k];
      match WemInfos(listing[..n], parse)
      case Err(err) => Err(err)
      case Ok(ws) =>
        if !IsWemFile(e) then Ok(ws)
        else
          assert WemEntries(listing)[|es|] == e;
          match parse(e.stem)
          case Err(err) => Err(err)
          case Ok((idx, id)) => Ok(ws + [WemInfo(idx, id, e.contents)])
  }

  /** Once a prefix of the listing fails, the whole listing fails the same way. */
  lemma {:induction false} WemInfosFailed(listing: seq<DirEntry>, parse: NameParser, k: nat)
    requires k <= |listing| && WemInfos(listing[..k], parse).Err?
    ensures WemInfos(listing, parse) == WemInfos(listing[..k], parse)
    decreases |listing| - k
  {
    if k < |listing| {
      assert listing[..k + 1][..k] == listing[..k];
      WemInfosFailed(listing, parse, k + 1);
    } else {
      assert listing[..k] == listing;
    }
  }

  /** The directory loop of `repack`: each loose WEM's name parsed and its
      contents read. */
  method ReadWemFiles(listing: seq<DirEntry>, parse: NameParser) returns (r: Result<seq<WemInfo>, NameError>)
    ensures r == WemInfos(listing, parse)
  {
    var wems := [];
    for i := 0 to |listing|
      invariant WemInfos(listing[..i], parse) == Ok(wems)
    {
      assert listing[..i + 1][..i] == listing[..i];
      var entry := listing[i];
      if IsWemFile(entry) {
        var parsed := parse(entry.stem);
        if parsed.Err? {
          WemInfosFailed(listing, parse, i + 1);
          return Err(parsed.error);
        }
        wems := wems + [WemInfo(parsed.value.0, parsed.value.1, entry.contents)];
      }
    }
    assert listing[..|listing|] == listing;
    return Ok(wems);
  }

  /** Every loose WEM with its bytes replaced as the replacements say. */
  function ReplacedAll(wems: seq<WemInfo>, rep: Replacements): (r: seq<WemInfo>)
    ensures |r| == |wems|
  {
    seq(|wems|, i requires 0 <= i < |wems| => wems[i].(data := Replaced(rep, wems[i].idx, wems[i].id, wems[i].data)))
  }

  /** The replacement loop of `BnkProject::repack`, over the loose WEMs in place. */
  method ApplyReplacements(wems: seq<WemInfo>, rep: Replacements) returns (r: seq<WemInfo>)
    ensures r == ReplacedAll(wems, rep)
  {
    r := wems;
    for i := 0 to |r|
      invariant |r| == |wems|
      invariant forall j :: 0 <= j < i ==> r[j] == ReplacedAll(wems, rep)[j]
      invariant forall j :: i <= j < |r| ==> r[j] == wems[j]
    {
      var wem := r[i];
      if Index(wem.idx) in rep {
        r := r[i := wem.(data := rep[Index(wem.idx)])];
      } else if Id(wem.id) in rep {
        r := r[i := wem.(data := rep[Id(wem.id)])];
      }
    }
  }

  /** A WEM keeps its id and index; only its bytes may change. */
  lemma {:induction false} ReplacedKeepsKeys(wems: seq<WemInfo>, rep: Replacements, i: nat)
    requires i < |wems|
    ensures ReplacedAll(wems, rep)[i].idx == wems[i].idx && ReplacedAll(wems, rep)[i].id == wems[i].id
    ensures Index(wems[i].idx) !in rep && Id(wems[i].id) !in rep ==> ReplacedAll(wems, rep)[i] == wems[i]
  {
  }

  // ----------------------------------------------------- ordering by index

  /** The index a loose WEM was dumped under, its sort key. */
  function WemIdx(w: WemInfo): nat {
    w.idx
  }

  predicate SortedBy<T>(s: seq<T>, key: T -> nat) {
    forall i, j :: 0 <= i < j < |s| ==> key(s[i]) <= key(s[j])
  }

  /** `x` placed after every element whose key is not larger. */
  function InsertBy<T>(sorted: seq<T>, x: T, key: T -> nat): (r: seq<T>)
    ensures |r| == |sorted| + 1
    ensures multiset(r) == multiset(sorted) + multiset{x}
  {
    if sorted == [] || key(sorted[|sorted| - 1]) <= key(x) then sorted + [x]
    else
      var n := |sorted| - 1;
      assert sorted == sorted[..n] + [sorted[n]];
      InsertBy(sorted[..n], x, key) + [sorted[n]]
  }

  /** A stable sort by `key`, here by insertion: `sort_by_key`. */
  function SortBy<T>(s: seq<T>, key: T -> nat): (r: seq<T>)
    ensures |r| == |s| && multiset(r) == multiset(s)
  {
    if s == [] then []
    else
      var n := |s| - 1;
      assert s == s[..n] + [s[n]];
      InsertBy(SortBy(s[..n], key), s[n], key)
  }

  lemma {:induction false} InsertBySorted<T>(sorted: seq<T>, x: T, key: T -> nat)
    requires SortedBy(sorted, key)
    ensures SortedBy(InsertBy(sorted, x, key), key)
    decreases |sorted|
  {
    if sorted != [] && key(sorted[|sorted| - 1]) > key(x) {
      var n := |sorted| - 1;
      InsertBySorted(sorted[..n], x, key);
      InsertByBounded(sorted[..n], x, key, key(sorted[n]));
    }
  }

  lemma {:induction false} InsertByBounded<T>(sorted: seq<T>, x: T, key: T -> nat, bound: nat)
    requires forall i :: 0 <= i < |sorted| ==> key(sorted[i]) <= bound
    requires key(x) <= bound
    ensures forall i :: 0 <= i < |sorted| + 1 ==> key(InsertBy(sorted, x, key)[i]) <= bound
    decreases |sorted|
  {
    if sorted != [] && key(sorted[|sorted| - 1]) > key(x) {
      InsertByBounded(sorted[..|sorted| - 1], x, key, bound);
    }
  }

  /** The sort orders by the key and only reorders. */
  lemma {:induction false} SortBySorts<T>(s: seq<T>, key: T -> nat)
    ensures SortedBy(SortBy(s, key), key)
    ensures multiset(SortBy(s, key)) == multiset(s)
  {
    if s != [] {
      SortBySorts(s[..|s| - 1], key);
      InsertBySorted(SortBy(s[..|s| - 1], key), s[|s| - 1], key);
    }
  }

  /** Sorting what is already in order changes nothing. */
  lemma {:induction false} SortByOrdered<T>(s: seq<T>, key: T -> nat)
    requires SortedBy(s, key)
    ensures SortBy(s, key) == s
  {
    if s != [] {
      var pre := s[..|s| - 1];
      var x := s[|s| - 1];
      SortedPrefix(s, key, pre);
      SortByOrdered(pre, key);
      SortBySnoc(s, key, pre, x);
      InsertAtEnd(pre, x, key, s);
    }
  }

  /** One unfolding of `SortBy` at the last element. */
  lemma {:induction false} SortBySnoc<T>(s: seq<T>, key: T -> nat, pre: seq<T>, x: T)
    requires s != [] && pre == s[..|s| - 1] && x == s[|s| - 1]
    ensures SortBy(s, key) == InsertBy(SortBy(pre, key), x, key)
  {
  }

  /** A prefix of a sorted list is sorted. */
  lemma {:induction false} SortedPrefix<T>(s: seq<T>, key: T -> nat, pre: seq<T>)
    requires SortedBy(s, key) && pre <= s
    ensures SortedBy(pre, key)
  {
    forall i, j | 0 <= i < j < |pre|
      ensures key(pre[i]) <= key(pre[j])
    {
      assert pre[i] == s[i] && pre[j] == s[j];
    }
  }

  /** The last element of a sorted list, inserted after the rest, stays last. */
  lemma {:induction false} InsertAtEnd<T>(pre: seq<T>, x: T, key: T -> nat, s: seq<T>)
    requires s != [] && pre == s[..|s| - 1] && x == s[|s| - 1] && SortedBy(s, key)
    ensures InsertBy(pre, x, key) == s
  {
    assert s == pre + [x];
    if pre != [] {
      assert pre[|pre| - 1] == s[|pre| - 1];
    }
  }

  // ------------------------------------------------------------ bank repack

  /** The WEMs' bytes, in order. */
  function DataList(ws: seq<WemInfo>): (r: seq<seq<byte>>)
    ensures |r| == |ws|
  {
    seq(|ws|, i requires 0 <= i < |ws| => ws[i].data)
  }

  /** The DIDX entries of WEMs packed end to end with no padding: each at the
      sum of the lengths before it and as long as its bytes, both in u32
      arithmetic. */
  function PackedDidx(ws: seq<WemInfo>): (r: seq<DidxEntry>)
    ensures |r| == |ws|
  {
    seq(|ws|, i requires 0 <= i < |ws| =>
      DidxEntry(ws[i].id, Wrap32(TotalLength(DataList(ws)[..i])), Wrap32(|ws[i].data|)))
  }

  /** Adding modulo 2^32 commutes with reducing modulo 2^32. */
  lemma {:induction false} WrapAdd(x: nat, y: nat)
    ensures Wrap32(Wrap32(x) + Wrap32(y)) == Wrap32(x + y)
  {
    var m := U32_LIMIT;
    var qx, qy := x / m, y / m;
    assert x == qx * m + Wrap32(x) && y == qy * m + Wrap32(y);
    assert x + y == (qx + qy) * m + (Wrap32(x) + Wrap32(y));
  }

  /** The DIDX loop of `BnkProject::repack`: a running u32 offset. */
  method BuildDidx(ws: seq<WemInfo>) returns (entries: seq<DidxEntry>)
    ensures entries == PackedDidx(ws)
  {
    entries := [];
    var offset: u32 := 0;
    for i := 0 to |ws|
      invariant |entries| == i && offset == Wrap32(TotalLength(DataList(ws)[..i]))
      invariant forall j :: 0 <= j < i ==> entries[j] == PackedDidx(ws)[j]
    {
      var entries1 := entries + [DidxEntry(ws[i].id, offset, Wrap32(|ws[i].data|))];
      var offset1 := Wrap32(offset as int + Wrap32(|ws[i].data|));
      DidxStep(ws, i, entries, offset, entries1, offset1);
      entries, offset := entries1, offset1;
    }
  }

  /** One turn of the DIDX loop keeps its invariant. */
  lemma {:induction false} DidxStep(ws: seq<WemInfo>, i: nat, entries: seq<DidxEntry>, offset: u32, entries1: seq<DidxEntry>, offset1: u32)
    requires i < |ws| && |entries| == i && offset == Wrap32(TotalLength(DataList(ws)[..i]))
    requires forall j :: 0 <= j < i ==> entries[j] == PackedDidx(ws)[j]
    requires entries1 == entries + [DidxEntry(ws[i].id, offset, Wrap32(|ws[i].data|))]
    requires offset1 == Wrap32(offset as int + Wrap32(|ws[i].data|))
    ensures |entries1| == i + 1 && offset1 == Wrap32(TotalLength(DataList(ws)[..i + 1]))
    ensures forall j :: 0 <= j < i + 1 ==> entries1[j] == PackedDidx(ws)[j]
  {
    ConcatSnoc(DataList(ws), i);
    WrapAdd(TotalLength(DataList(ws)[..i]), |ws[i].data|);
    assert entries1[i] == PackedDidx(ws)[i];
  }

  /** When the bytes fit in 32 bits, the packed entries are exact: each
      entry starts where the one before it ends, with its blob's length. */
  lemma {:induction false} PackedDidxExact(ws: seq<WemInfo>, i: nat)
    requires TotalLength(DataList(ws)) < U32_LIMIT && i < |ws|
    ensures PackedDidx(ws)[i].offset == TotalLength(DataList(ws)[..i])
    ensures PackedDidx(ws)[i].length == |ws[i].data|
    ensures PackedDidx(ws)[i].offset + PackedDidx(ws)[i].length == TotalLength(DataList(ws)[..i + 1])
    ensures PackedDidx(ws)[i].offset + PackedDidx(ws)[i].length <= TotalLength(DataList(ws))
  {
    TotalLengthPrefix(DataList(ws), i + 1);
    ConcatSnoc(DataList(ws), i);
  }

  /** `Vec::insert`: `x` put at index `i`; an index past the end panics. */
  function VecInsert<T>(s: seq<T>, i: nat, x: T): (r: Option<seq<T>>)
    ensures r.Some? <==> i <= |s|
    ensures r.Some? ==> |r.value| == |s| + 1 && r.value[i] == x
    ensures r.Some? ==> r.value[..i] == s[..i] && r.value[i + 1..] == s[i..]
  {
    if i > |s| then None else Some(s[..i] + [x] + s[i..])
  }

  /** The two inserts of `repack`: the new Didx at index 1 and the new Data
      at index 2, around the first section of the metadata bank. */
  function InsertSections(secs: seq<Section>, didx: Section, data: Section): (r: Result<seq<Section>, BnkError>)
    ensures r.Ok? <==> |secs| >= 1
    ensures r.Ok? ==> r.value == [secs[0], didx, data] + secs[1..]
  {
    match VecInsert(secs, 1, didx)
    case None => Err(Panic)
    case Some(s1) =>
      match VecInsert(s1, 2, data)
      case None => Err(Panic)
      case Some(s2) =>
        assert s2 == [secs[0], didx, data] + secs[1..];
        Ok(s2)
  }

  /** The sections the repacked bank holds: the metadata bank's, with the
      DIDX and DATA of the WEMs, sorted by index, packed end to end. */
  function RepackedSections(meta: seq<Section>, wems: seq<WemInfo>): Result<seq<Section>, BnkError> {
    var sorted := SortBy(wems, WemIdx);
    var es := PackedDidx(sorted);
    InsertSections(meta, Section(DIDX, Wrap32(12 * |es|), Didx(es)),
                   Section(DATA, Wrap32(TotalLength(DataList(sorted))), Data(DataList(sorted))))
  }

  /** Appending a WEM adds its bytes to the total. */
  lemma {:induction false} DataTotalSnoc(s: seq<WemInfo>, w: WemInfo)
    ensures TotalLength(DataList(s + [w])) == TotalLength(DataList(s)) + |w.data|
  {
    var d := DataList(s + [w]);
    assert d[..|d| - 1] == DataList(s);
  }

  lemma {:induction false} InsertByTotal(s: seq<WemInfo>, w: WemInfo)
    ensures TotalLength(DataList(InsertBy(s, w, WemIdx))) == TotalLength(DataList(s)) + |w.data|
    decreases |s|
  {
    if s == [] || s[|s| - 1].idx <= w.idx {
      DataTotalSnoc(s, w);
    } else {
      var n := |s| - 1;
      assert s == s[..n] + [s[n]];
      InsertByTotal(s[..n], w);
      DataTotalSnoc(InsertBy(s[..n], w, WemIdx), s[n]);
      DataTotalSnoc(s[..n], s[n]);
    }
  }

  /** Sorting does not change how many bytes the WEMs hold. */
  lemma {:induction false} SortByTotal(ws: seq<WemInfo>)
    ensures TotalLength(DataList(SortBy(ws, WemIdx))) == TotalLength(DataList(ws))
  {
    if ws != [] {
      var n := |ws| - 1;
      assert ws == ws[..n] + [ws[n]];
      SortByTotal(ws[..n]);
      InsertByTotal(SortBy(ws[..n], WemIdx), ws[n]);
      DataTotalSnoc(ws[..n], ws[n]);
    }
  }

  /** Packed entries lie inside the DATA section and do not overlap. */
  lemma {:induction false} PackedDidxFits(ws: seq<WemInfo>)
    requires TotalLength(DataList(ws)) < U32_LIMIT
    ensures EntriesFit(DataList(ws), PackedDidx(ws), TotalLength(DataList(ws)), |ws|)
  {
    var blobs, es := DataList(ws), PackedDidx(ws);
    forall i | 0 <= i < |ws|
      ensures es[i].length == |blobs[i]| && es[i].offset + es[i].length <= TotalLength(blobs)
    {
      PackedDidxExact(ws, i);
    }
    forall i, j | 0 <= i < j < |ws|
      ensures Disjoint(es[i], es[j])
    {
      PackedDidxExact(ws, i);
      PackedDidxExact(ws, j);
      assert blobs[..j][..i + 1] == blobs[..i + 1];
      TotalLengthPrefix(blobs[..j], i + 1);
    }
  }

  /** Only a DATA section's well-formedness depends on what precedes it. */
  lemma {:induction false} NonDataWellFormed(sec: Section, b1: seq<Section>, b2: seq<Section>)
    requires !sec.payload.Data? && SectionWellFormed(sec, b1)
    ensures SectionWellFormed(sec, b2)
  {
  }

  /** The inserted DATA section is well formed after the metadata's first
      section and the inserted DIDX. */
  lemma {:induction false} InsertedDataWellFormed(m0: Section, ws: seq<WemInfo>, didx: Section, data: Section)
    requires !m0.payload.Didx? && TotalLength(DataList(ws)) < U32_LIMIT
    requires didx.payload == Didx(PackedDidx(ws))
    requires data == Section(DATA, Wrap32(TotalLength(DataList(ws))), Data(DataList(ws)))
    ensures SectionWellFormed(data, [m0, didx])
  {
    assert [m0, didx][1..] == [didx];
    assert [m0, didx][..1] == [m0];
    PackedDidxFits(ws);
  }

  /** Under the source's own limits (the bytes and the DIDX fit in 32 bits),
      a metadata bank with neither DIDX nor DATA, once the WEMs are inserted,
      is a bank the reader recovers from what the writer emits. */
  lemma {:induction false} RepackedWellFormed(meta: seq<Section>, wems: seq<WemInfo>)
    requires |meta| >= 1
    requires forall k :: 0 <= k < |meta| ==> !meta[k].payload.Didx? && !meta[k].payload.Data?
    requires forall k :: 0 <= k < |meta| ==> SectionWellFormed(meta[k], meta[..k])
    requires TotalLength(DataList(wems)) < U32_LIMIT && 12 * |wems| < U32_LIMIT
    ensures RepackedSections(meta, wems).Ok?
    ensures WellFormed(Bnk.Bank(RepackedSections(meta, wems).value))
  {
    var sorted := SortBy(wems, WemIdx);
    SortByTotal(wems);
    var es := PackedDidx(sorted);
    var didx := Section(DIDX, Wrap32(12 * |es|), Didx(es));
    var data := Section(DATA, Wrap32(TotalLength(DataList(sorted))), Data(DataList(sorted)));
    var secs := [meta[0], didx, data] + meta[1..];
    assert RepackedSections(meta, wems) == Ok(secs);
    forall k | 0 <= k < |secs|
      ensures SectionWellFormed(secs[k], secs[..k])
    {
      if k == 0 {
        assert secs[..0] == meta[..0];
      } else if k == 1 {
        assert Wrap32(12 * |es|) == 12 * |es|;
      } else if k == 2 {
        assert secs[..2] == [meta[0], didx];
        InsertedDataWellFormed(meta[0], sorted, didx, data);
      } else {
        assert secs[k] == meta[k - 2];
        NonDataWellFormed(meta[k - 2], meta[..k - 2], secs[..k]);
      }
    }
  }

  /** The repacked bank reads back as written, its DIDX listing the WEMs
      sorted by index and packed end to end and its DATA holding their bytes
      in that order. */
  lemma {:induction false} RepackedReadsBack(meta: seq<Section>, wems: seq<WemInfo>)
    requires |meta| >= 1
    requires forall k :: 0 <= k < |meta| ==> !meta[k].payload.Didx? && !meta[k].payload.Data?
    requires forall k :: 0 <= k < |meta| ==> SectionWellFormed(meta[k], meta[..k])
    requires TotalLength(DataList(wems)) < U32_LIMIT && 12 * |wems| < U32_LIMIT
    ensures RepackedSections(meta, wems).Ok?
    ensures var b := Bnk.Bank(RepackedSections(meta, wems).value);
      && WriteBank(b, Sink([], 0)).Ok?
      && ParseBank(WriteBank(b, Sink([], 0)).value.buf) == Ok(b)
      && b.sections[1].payload == Didx(PackedDidx(SortBy(wems, WemIdx)))
      && b.sections[2].payload == Data(DataList(SortBy(wems, WemIdx)))
  {
    RepackedWellFormed(meta, wems);
    RoundTrip(Bnk.Bank(RepackedSections(meta, wems).value));
  }

  // ------------------------------------------------------------ output path

  /** The base path with `k` suffixes `.new`. */
  function Suffixed(base: string, k: nat): (r: string)
    ensures |r| == |base| + 4 * k
  {
    if k == 0 then base else Suffixed(base, k - 1) + ".new"
  }

  /** The existing paths at least `n` characters long. */
  function Longer(existing: set<string>, n: nat): set<string> {
    set p | p in existing && |p| >= n
  }

  /** `path` is what the output loop settles on: the base with the fewest
      `.new` suffixes that names no existing path. */
  ghost predicate IsOutputPath(base: string, existing: set<string>, path: string) {
    exists k: nat :: path == Suffixed(base, k) && path !in existing &&
      forall j :: 0 <= j < k ==> Suffixed(base, j) in existing
  }

  /** The output path loop of `repack`: `.new` appended while the path exists. */
  method OutputPath(base: string, existing: set<string>) returns (path: string, k: nat)
    ensures path == Suffixed(base, k) && path !in existing
    ensures forall j :: 0 <= j < k ==> Suffixed(base, j) in existing
  {
    path, k := base, 0;
    while path in existing
      invariant path == Suffixed(base, k)
      invariant forall j :: 0 <= j < k ==> Suffixed(base, j) in existing
      decreases Longer(existing, |path|)
    {
      assert path in Longer(existing, |path|) && path !in Longer(existing, |path| + 4);
      path, k := path + ".new", k + 1;
    }
  }

  /** The output never lands on an existing file, the source among them. */
  lemma {:induction false} OutputPathIsNew(base: string, existing: set<string>, path: string)
    requires IsOutputPath(base, existing, path)
    ensures path !in existing
    ensures base in existing ==> path != base
  {
  }

  // ------------------------------------------------------------ the repacks

  datatype RepackError = MetadataMissing | BadWemName(NameError) | BankFailed(BnkError) | Internal(idx: u32)

  /** The bank `BnkProject::repack` writes, before it is written. */
  function RepackedBank(meta: Bank, listing: seq<DirEntry>, parse: NameParser, rep: Replacements): (r: Result<Bnk.Bank, RepackError>)
  {
    match WemInfos(listing, parse)
    case Err(e) => Err(BadWemName(e))
    case Ok(wems) =>
      match RepackedSections(meta.sections, ReplacedAll(wems, rep))
      case Err(e) => Err(BankFailed(e))
      case Ok(secs) => Ok(Bnk.Bank(secs))
  }

  /** `BnkProject::repack` (and `package_bank`, with its own name parser and
      no replacements): the output path it picks and the bytes it writes
      there. */
  method RepackBank(metadata: Option<Bank>, listing: seq<DirEntry>, parse: NameParser, rep: Replacements,
                    base: string, existing: set<string>) returns (r: Result<(string, seq<byte>), RepackError>)
    ensures metadata.None? ==> r == Err(MetadataMissing)
    ensures metadata.Some? && RepackedBank(metadata.value, listing, parse, rep).Err? ==>
      r == Err(RepackedBank(metadata.value, listing, parse, rep).error)
    ensures metadata.Some? && RepackedBank(metadata.value, listing, parse, rep).Ok? ==>
      match WriteBank(RepackedBank(metadata.value, listing, parse, rep).value, Sink([], 0))
      case Err(e) => r == Err(BankFailed(e))
      case Ok(w) => r.Ok? && r.value.1 == w.buf && IsOutputPath(base, existing, r.value.0)
  {
    if metadata.None? {
      return Err(MetadataMissing);
    }
    var meta := metadata.value;
    var read := ReadWemFiles(listing, parse);
    if read.Err? {
      return Err(BadWemName(read.error));
    }
    var wems := ApplyReplacements(read.value, rep);
    var sorted := SortBy(wems, WemIdx);
    var didxEntries := BuildDidx(sorted);
    var didx := SectionNew(Didx(didxEntries));
    var data := SectionNew(Data(DataList(sorted)));
    var sections := InsertSections(meta.sections, didx.value, data.value);
    if sections.Err? {
      return Err(BankFailed(sections.error));
    }
    var path, k := OutputPath(base, existing);
    var written := BnkWriteTo(Bnk.Bank(sections.value), Sink([], 0));
    if written.Err? {
      return Err(BankFailed(written.error));
    }
    return Ok((path, written.value.buf));
  }

  // ------------------------------------------------------------ bank dump

  datatype DumpError = DidxMissing

  /** What the dump's DIDX entries hold after `secs`: the last Didx's, or none. */
  function LatestEntries(secs: seq<Section>): seq<DidxEntry> {
    match LastDidx(secs)
    case None => []
    case Some(es) => es
  }

  /** The WEM files one DATA section dumps: blob `i` under the name made of
      its index and entry `i`'s id, for as many blobs as there are entries. */
  function NamedBlobs(blobs: seq<seq<byte>>, es: seq<DidxEntry>): (r: seq<DirEntry>)
    ensures |r| == Pck.Min(|blobs|, |es|)
  {
    seq(Pck.Min(|blobs|, |es|), i requires 0 <= i < Pck.Min(|blobs|, |es|) =>
      DirEntry(DumpStem(i, es[i].id, |es|), "wem", true, blobs[i]))
  }

  /** Every dumped file is a loose WEM holding its blob, whose name reads
      back as its position and its entry's id. */
  lemma {:induction false} NamedBlobsReadBack(blobs: seq<seq<byte>>, es: seq<DidxEntry>, i: nat)
    requires i < |blobs| && i < |es| && |es| < U32_LIMIT
    ensures IsWemFile(NamedBlobs(blobs, es)[i]) && NamedBlobs(blobs, es)[i].contents == blobs[i]
    ensures ParseWemName(NamedBlobs(blobs, es)[i].stem) == Ok((i as u32, es[i].id))
  {
    DumpNameRoundTrip(i, es[i].id, |es|);
  }

  /** The loose WEMs `dump_bnk` writes, in order: every DATA section's blobs
      named after the entries of the DIDX seen last; a DATA section with no
      entries before it fails the dump. */
  function DumpedWems(secs: seq<Section>): Result<seq<DirEntry>, DumpError> {
    if secs == [] then Ok([])
    else
      var n := |secs| - 1;
      match DumpedWems(secs[..n])
      case Err(e) => Err(e)
      case Ok(files) =>
        match secs[n].payload
        case Data(blobs) =>
          if LatestEntries(secs[..n]) == [] then Err(DidxMissing)
          else Ok(files + NamedBlobs(blobs, LatestEntries(secs[..n])))
        case _ => Ok(files)
  }

  /** A section is dumpable after `before` when, being DATA, it has entries. */
  predicate Dumpable(secs: seq<Section>, k: nat)
    requires k < |secs|
  {
    secs[k].payload.Data? ==> LatestEntries(secs[..k]) != []
  }

  /** The dump fails exactly when some DATA section has no DIDX entries
      before it. */
  lemma {:induction false} DumpedWemsOk(secs: seq<Section>)
    ensures DumpedWems(secs).Ok? <==> forall k :: 0 <= k < |secs| ==> Dumpable(secs, k)
  {
    if secs != [] {
      var n := |secs| - 1;
      DumpedWemsOk(secs[..n]);
      forall k | 0 <= k < n
        ensures Dumpable(secs, k) == Dumpable(secs[..n], k)
      {
        assert secs[..n][..k] == secs[..k];
      }
      assert DumpedWems(secs).Ok? == (DumpedWems(secs[..n]).Ok? && Dumpable(secs, n));
    }
  }

  /** The sections `dump_bnk` keeps as metadata: all but DIDX and DATA, in order. */
  function MetaSections(secs: seq<Section>): (r: seq<Section>)
    ensures forall k :: 0 <= k < |r| ==> !r[k].payload.Didx? && !r[k].payload.Data?
    ensures |r| <= |secs|
  {
    if secs == [] then []
    else
      var n := |secs| - 1;
      MetaSections(secs[..n]) + if secs[n].payload.Didx? || secs[n].payload.Data? then [] else [secs[n]]
  }

  /** The metadata keeps every section that is neither DIDX nor DATA. */
  lemma {:induction false} MetaSectionsKeep(secs: seq<Section>)
    requires forall k :: 0 <= k < |secs| ==> !secs[k].payload.Didx? && !secs[k].payload.Data?
    ensures MetaSections(secs) == secs
  {
    if secs != [] {
      var n := |secs| - 1;
      MetaSectionsKeep(secs[..n]);
      assert secs == secs[..n] + [secs[n]];
    }
  }

  /** Filtering a concatenation filters each part. */
  lemma {:induction false} MetaSectionsAppend(a: seq<Section>, b: seq<Section>)
    ensures MetaSections(a + b) == MetaSections(a) + MetaSections(b)
  {
    if b == [] {
      assert a + b == a;
    } else {
      var n := |b| - 1;
      assert (a + b)[..|a| + n] == a + b[..n];
      MetaSectionsAppend(a, b[..n]);
    }
  }

  /** The metadata of a bank the reader recovers is itself such a bank. */
  lemma {:induction false} MetaSectionsWellFormed(secs: seq<Section>)
    requires forall k :: 0 <= k < |secs| ==> SectionWellFormed(secs[k], secs[..k])
    ensures forall k :: 0 <= k < |MetaSections(secs)| ==>
      SectionWellFormed(MetaSections(secs)[k], MetaSections(secs)[..k])
  {
    if secs != [] {
      var n := |secs| - 1;
      forall k | 0 <= k < n
        ensures SectionWellFormed(secs[..n][k], secs[..n][..k])
      {
        assert secs[..n][..k] == secs[..k];
      }
      MetaSectionsWellFormed(secs[..n]);
      var m := MetaSections(secs[..n]);
      forall k | 0 <= k < |MetaSections(secs)|
        ensures SectionWellFormed(MetaSections(secs)[k], MetaSections(secs)[..k])
      {
        if k < |m| {
          assert MetaSections(secs)[..k] == m[..k];
        } else {
          NonDataWellFormed(secs[n], secs[..n], MetaSections(secs)[..k]);
        }
      }
    }
  }

  /** `dump_bnk` on a parsed bank: the loose WEMs it writes and the
      metadata bank it saves. */
  method DumpBank(bank: Bank) returns (r: Result<(seq<DirEntry>, Bank), DumpError>)
    ensures DumpedWems(bank.sections).Err? ==> r == Err(DumpedWems(bank.sections).error)
    ensures DumpedWems(bank.sections).Ok? ==> r == Ok((DumpedWems(bank.sections).value, Bnk.Bank(MetaSections(bank.sections))))
  {
    var secs := bank.sections;
    var didxEntries: seq<DidxEntry> := [];
    var files: seq<DirEntry> := [];
    for i := 0 to |secs|
      invariant didxEntries == LatestEntries(secs[..i])
      invariant DumpedWems(secs[..i]) == Ok(files)
    {
      assert secs[..i + 1][..i] == secs[..i];
      match secs[i].payload {
        case Didx(es) =>
          didxEntries := es;
        case Data(blobs) =>
          if didxEntries == [] {
            DumpedFailed(secs, i + 1);
            return Err(DidxMissing);
          }
          var named := NameBlobs(blobs, didxEntries);
          files := files + named;
        case _ =>
      }
    }
    assert secs[..|secs|] == secs;
    return Ok((files, Bnk.Bank(MetaSections(secs))));
  }

  /** The zip of one DATA section's blobs with the entries, naming each file. */
  method NameBlobs(blobs: seq<seq<byte>>, es: seq<DidxEntry>) returns (files: seq<DirEntry>)
    ensures files == NamedBlobs(blobs, es)
  {
    files := [];
    var n := Pck.Min(|blobs|, |es|);
    for i := 0 to n
      invariant files == NamedBlobs(blobs, es)[..i]
    {
      var name := if |es| < 1000 then "[" + PaddedDecimal(i, 3) + "]" + Decimal(es[i].id)
                  else "[" + PaddedDecimal(i, 4) + "]" + Decimal(es[i].id);
      files := files + [DirEntry(name, "wem", true, blobs[i])];
      assert NamedBlobs(blobs, es)[..i + 1] == NamedBlobs(blobs, es)[..i] + [NamedBlobs(blobs, es)[i]];
    }
    assert NamedBlobs(blobs, es)[..n] == NamedBlobs(blobs, es);
  }

  /** Once a prefix of the sections fails to dump, the whole bank fails. */
  lemma {:induction false} DumpedFailed(secs: seq<Section>, k: nat)
    requires k <= |secs| && DumpedWems(secs[..k]).Err?
    ensures DumpedWems(secs) == DumpedWems(secs[..k])
    decreases |secs| - k
  {
    if k < |secs| {
      assert secs[..k + 1][..k] == secs[..k];
      DumpedFailed(secs, k + 1);
    } else {
      assert secs[..k] == secs;
    }
  }

  // ------------------------------------------------------ dump, then repack

  /** The loose WEMs a dump of `es` and `blobs` loads as: WEM `i` has index
      `i`, entry `i`'s id and blob `i`. */
  function DumpedWemInfos(es: seq<DidxEntry>, blobs: seq<seq<byte>>): (r: seq<WemInfo>)
    requires |es| == |blobs| < U32_LIMIT
    ensures |r| == |es|
  {
    seq(|es|, i requires 0 <= i < |es| => WemInfo(i as u32, es[i].id, blobs[i]))
  }

  lemma {:induction false} WemEntriesAll(listing: seq<DirEntry>)
    requires forall k :: 0 <= k < |listing| ==> IsWemFile(listing[k])
    ensures WemEntries(listing) == listing
  {
    if listing != [] {
      var n := |listing| - 1;
      WemEntriesAll(listing[..n]);
      assert listing == listing[..n] + [listing[n]];
    }
  }

  /** A listing of loose WEMs whose names all parse loads as the WEMs the
      names and contents give. */
  lemma {:induction false} LoadsAs(listing: seq<DirEntry>, parse: NameParser, ws: seq<WemInfo>)
    requires |ws| == |listing|
    requires forall k :: 0 <= k < |listing| ==> IsWemFile(listing[k])
    requires forall k :: 0 <= k < |listing| ==> parse(listing[k].stem) == Ok((ws[k].idx, ws[k].id))
    requires forall k :: 0 <= k < |listing| ==> listing[k].contents == ws[k].data
    ensures WemInfos(listing, parse) == Ok(ws)
  {
    WemEntriesAll(listing);
    var r := WemInfos(listing, parse);
    assert r.Ok?;
    forall k | 0 <= k < |listing|
      ensures r.value[k] == ws[k]
    {
      assert LoadedFrom(listing[k], parse, r.value[k]);
    }
    assert r.value == ws;
  }

  /** Reading back a dump loads each WEM under its position and id. */
  lemma {:induction false} DumpedLoads(blobs: seq<seq<byte>>, es: seq<DidxEntry>)
    requires |es| == |blobs| < U32_LIMIT
    ensures WemInfos(NamedBlobs(blobs, es), ParseWemName) == Ok(DumpedWemInfos(es, blobs))
  {
    var listing := NamedBlobs(blobs, es);
    var ws := DumpedWemInfos(es, blobs);
    forall k | 0 <= k < |listing|
      ensures IsWemFile(listing[k]) && listing[k].contents == ws[k].data
      ensures ParseWemName(listing[k].stem) == Ok((ws[k].idx, ws[k].id))
    {
      NamedBlobsReadBack(blobs, es, k);
    }
    LoadsAs(listing, ParseWemName, ws);
  }

  /** Sections with no DATA add no loose WEMs. */
  lemma {:induction false} DumpedNoData(pre: seq<Section>, rest: seq<Section>)
    requires forall k :: 0 <= k < |rest| ==> !rest[k].payload.Data?
    ensures DumpedWems(pre + rest) == DumpedWems(pre)
  {
    if rest == [] {
      assert pre + rest == pre;
    } else {
      var n := |rest| - 1;
      assert (pre + rest)[..|pre| + n] == pre + rest[..n];
      DumpedNoData(pre, rest[..n]);
    }
  }

  /** The first three sections of a repacked bank: the metadata's first,
      the DIDX and the DATA. */
  lemma {:induction false} DumpedLayout(s0: Section, didx: Section, data: Section, es: seq<DidxEntry>, blobs: seq<seq<byte>>)
    requires !s0.payload.Didx? && !s0.payload.Data? && es != []
    requires didx.payload == Didx(es) && data.payload == Data(blobs)
    ensures DumpedWems([s0, didx, data]) == Ok(NamedBlobs(blobs, es))
    ensures MetaSections([s0, didx, data]) == [s0]
  {
    var one, two, three := [s0], [s0, didx], [s0, didx, data];
    assert one[..0] == [] && two[..1] == one && three[..2] == two;
    assert DumpedWems(one) == Ok([]) && MetaSections(one) == [s0];
    assert DumpedWems(two) == Ok([]) && MetaSections(two) == [s0];
    assert LatestEntries(two) == es;
    assert DumpedWems(three) == Ok([] + NamedBlobs(blobs, es));
    assert [] + NamedBlobs(blobs, es) == NamedBlobs(blobs, es);
  }

  /** The WEMs a dump loads hold the blobs and ids they came from. */
  lemma {:induction false} DumpedWemInfosData(es: seq<DidxEntry>, blobs: seq<seq<byte>>)
    requires |es| == |blobs| < U32_LIMIT
    ensures DataList(DumpedWemInfos(es, blobs)) == blobs
    ensures SortedBy(DumpedWemInfos(es, blobs), WemIdx)
    ensures ReplacedAll(DumpedWemInfos(es, blobs), map[]) == DumpedWemInfos(es, blobs)
  {
  }

  /** Dumping a bank laid out as a repack lays it out and repacking the dump
      with no replacements rebuilds the same bank. */
  lemma {:induction false} DumpThenRepack(s0: Section, es: seq<DidxEntry>, blobs: seq<seq<byte>>, rest: seq<Section>)
    requires !s0.payload.Didx? && !s0.payload.Data?
    requires forall k :: 0 <= k < |rest| ==> !rest[k].payload.Didx? && !rest[k].payload.Data?
    requires 0 < |es| == |blobs| < U32_LIMIT
    requires es == PackedDidx(DumpedWemInfos(es, blobs))
    ensures var secs := [s0, Section(DIDX, Wrap32(12 * |es|), Didx(es)),
                         Section(DATA, Wrap32(TotalLength(blobs)), Data(blobs))] + rest;
      && DumpedWems(secs) == Ok(NamedBlobs(blobs, es))
      && RepackedBank(Bnk.Bank(MetaSections(secs)), NamedBlobs(blobs, es), ParseWemName, map[]) == Ok(Bnk.Bank(secs))
  {
    var didx := Section(DIDX, Wrap32(12 * |es|), Didx(es));
    var data := Section(DATA, Wrap32(TotalLength(blobs)), Data(blobs));
    var secs := [s0, didx, data] + rest;
    DumpedLayout(s0, didx, data, es, blobs);
    DumpedNoData([s0, didx, data], rest);
    MetaSectionsAppend([s0, didx, data], rest);
    MetaSectionsKeep(rest);
    var ws := DumpedWemInfos(es, blobs);
    DumpedLoads(blobs, es);
    DumpedWemInfosData(es, blobs);
    SortByOrdered(ws, WemIdx);
    assert ([s0] + rest)[1..] == rest;
    assert RepackedSections([s0] + rest, ws) == Ok(secs);
  }

  /** Repacking is stable under a dump: dumping a repacked bank that holds
      WEMs and repacking that dump with no replacements gives the same bank. */
  lemma {:induction false} RepackDumpRepack(meta: seq<Section>, wems: seq<WemInfo>)
    requires |meta| >= 1 && |wems| >= 1
    requires forall k :: 0 <= k < |meta| ==> !meta[k].payload.Didx? && !meta[k].payload.Data?
    requires 12 * |wems| < U32_LIMIT
    ensures RepackedSections(meta, wems).Ok?
    ensures var secs := RepackedSections(meta, wems).value;
      && DumpedWems(secs).Ok?
      && RepackedBank(Bnk.Bank(MetaSections(secs)), DumpedWems(secs).value, ParseWemName, map[]) == Ok(Bnk.Bank(secs))
  {
    var sorted := SortBy(wems, WemIdx);
    var es := PackedDidx(sorted);
    var blobs := DataList(sorted);
    PackedDidxOfDump(sorted, es, blobs);
    assert forall k :: 0 <= k < |meta[1..]| ==> meta[1..][k] == meta[k + 1];
    DumpThenRepack(meta[0], es, blobs, meta[1..]);
  }

  /** The packed entries depend only on the WEMs' ids and bytes. */
  lemma {:induction false} PackedDidxOfDump(sorted: seq<WemInfo>, es: seq<DidxEntry>, blobs: seq<seq<byte>>)
    requires |sorted| < U32_LIMIT && es == PackedDidx(sorted) && blobs == DataList(sorted)
    ensures es == PackedDidx(DumpedWemInfos(es, blobs))
  {
    var ws := DumpedWemInfos(es, blobs);
    assert DataList(ws) == blobs;
  }
}

