/** The command-line front end: the older WEM name parser it carries, its
    dump and package helpers, and the loop that sends each path given on
    the command line to the right one by magic or by extension. */
module MainEntry {
  import opened Bytes
  import opened Text
  import Bnk
  import Pck
  import Project
  import PckProject

  // ------------------------------------------------------------ WEM names

  /** The captures of `^\[(\d{3,4})\](\d+)` in `name`. The bracket has to
      close right after three or four digits, so a longer or shorter run of
      index digits does not match at all. */
  function MainWemNameCaptures(name: string): (r: Option<(string, string)>)
    ensures r.Some? ==> 3 <= |r.value.0| <= 4 && AllDigits(r.value.0)
    ensures r.Some? ==> AllDigits(r.value.1) && |r.value.1| >= 1
  {
    if |name| == 0 || name[0] != '[' then None
    else
      var k := Project.DigitRun(name, 1);
      if k < 3 || k > 4 || 1 + k == |name| || name[1 + k] != ']' then None
      else
        var m := Project.DigitRun(name, 2 + k);
        if m == 0 then None
        else Some((name[1..1 + k], name[2 + k..2 + k + m]))
  }

  /** The older regex matches exactly the names the newer one matches with
      three or four index digits, and captures the same runs. */
  lemma {:induction false} CapturesAgree(name: string)
    ensures var c := Project.WemNameCaptures(name);
      MainWemNameCaptures(name) == if c.Some? && 3 <= |c.value.0| <= 4 then c else None
  {
  }

  /** `parse_wem_name` of the command-line tool: as the project's, but over
      the older regex. */
  function ParseWemName(name: string): (r: Result<(u32, u32), Project.NameError>)
    ensures r.Ok? ==> r.value.0 < 10000
  {
    var c := MainWemNameCaptures(Trim(name));
    if c.None? then Err(Project.BadName)
    else
      Project.ParseDigits(c.value.0);
      DigitsBelow(c.value.0);
      Pow10Grows(|c.value.0|, 4);
      match ParseU32(c.value.1)
      case None => Err(Project.BadId)
      case Some(id) => Ok((match ParseU32(c.value.0) case Some(idx) => idx case None => Project.U32_MAX, id))
  }

  /** The two parsers agree on every name whose index has three or four
      digits; every other name the older one refuses as a bad name. */
  lemma {:induction false} ParseWemNameAgrees(name: string)
    ensures var c := Project.WemNameCaptures(Trim(name));
      c.Some? && 3 <= |c.value.0| <= 4 ==> ParseWemName(name) == Project.ParseWemName(name)
    ensures var c := Project.WemNameCaptures(Trim(name));
      !(c.Some? && 3 <= |c.value.0| <= 4) ==> ParseWemName(name) == Err(Project.BadName)
  {
    CapturesAgree(Trim(name));
  }

  /** A name the older parser accepts means the same to the newer one. */
  lemma {:induction false} AcceptedMeansTheSame(name: string)
    requires ParseWemName(name).Ok?
    ensures Project.ParseWemName(name) == ParseWemName(name)
  {
    ParseWemNameAgrees(name);
  }

  /** The stem the dump gives WEM `idx` reads back through the older parser
      exactly when the index has at most four digits. */
  lemma {:induction false} DumpStemAccepted(idx: u32, id: u32, count: nat)
    ensures idx < 10000 ==> ParseWemName(Project.DumpStem(idx, id, count)) == Ok((idx, id))
    ensures idx >= 10000 ==> ParseWemName(Project.DumpStem(idx, id, count)) == Err(Project.BadName)
  {
    var stem := Project.DumpStem(idx, id, count);
    var a, b := PaddedDecimal(idx, Project.IndexWidth(count)), Decimal(id);
    assert stem == "[" + a + "]" + b + [];
    TrimStartNoWhitespace(stem);
    TrimEndNoWhitespace(stem);
    Project.CapturesOf(a, b, []);
    ParseWemNameAgrees(stem);
    DecimalLength(idx, 4);
    if idx < 10000 {
      Project.DumpNameRoundTrip(idx, id, count);
    }
  }

  /** What the dump writes for an index from 10000 on, the older parser
      refuses, while the project's parser reads it back. */
  lemma {:induction false} LargeIndexRefused(id: u32)
    ensures ParseWemName(Project.DumpStem(10000, id, 10001)) == Err(Project.BadName)
    ensures Project.ParseWemName(Project.DumpStem(10000, id, 10001)) == Ok((10000, id))
  {
    DumpStemAccepted(10000, id, 10001);
    Project.DumpNameRoundTrip(10000, id, 10001);
  }

  /** So a bank dumped with more than 10000 WEMs cannot be packaged back
      with the older parser. */
  lemma {:induction false} LargeDumpRefused(blobs: seq<seq<byte>>, es: seq<Bnk.DidxEntry>)
    requires 10000 < |es| == |blobs| < U32_LIMIT
    ensures Project.WemInfos(Project.NamedBlobs(blobs, es), ParseWemName).Err?
  {
    var listing := Project.NamedBlobs(blobs, es);
    forall k | 0 <= k < |listing|
      ensures Project.IsWemFile(listing[k])
    {
      Project.NamedBlobsReadBack(blobs, es, k);
    }
    Project.WemEntriesAll(listing);
    assert listing[10000].stem == Project.DumpStem(10000, es[10000].id, |es|);
    DumpStemAccepted(10000, es[10000].id, |es|);
  }

  /** A name with a three- or four-digit index in brackets, digits and a
      tail that starts with no digit and ends with no whitespace. */
  lemma {:induction false} ShortIndexAgrees(a: string, b: string, rest: string)
    requires AllDigits(a) && 3 <= |a| <= 4 && AllDigits(b) && |b| >= 1
    requires rest == [] || (!IsAsciiDigit(rest[0]) && !IsWhitespace(rest[|rest| - 1]))
    ensures ParseWemName("[" + a + "]" + b + rest) == Project.ParseWemName("[" + a + "]" + b + rest)
  {
    var name := "[" + a + "]" + b + rest;
    assert name[|name| - 1] == if rest == [] then b[|b| - 1] else rest[|rest| - 1];
    TrimStartNoWhitespace(name);
    TrimEndNoWhitespace(name);
    Project.CapturesOf(a, b, rest);
    ParseWemNameAgrees(name);
  }

  lemma {:induction false} WemNameAgrees(name: string, a: string, b: string)
    requires AllDigits(a) && |a| == 3 && AllDigits(b) && |b| >= 1
    requires name == "[" + a + "]" + b + ".wem"
    ensures ParseWemName(name) == Project.ParseWemName(name)
  {
    ShortIndexAgrees(a, b, ".wem");
  }

  /** A name whose bracketed index has a digit count other than three or
      four is refused. */
  lemma {:induction false} OtherIndexWidthRefused(a: string, b: string)
    requires AllDigits(a) && |a| >= 1 && !(3 <= |a| <= 4) && AllDigits(b) && |b| >= 1
    ensures ParseWemName("[" + a + "]" + b) == Err(Project.BadName)
    ensures Project.ParseWemName("[" + a + "]" + b).Ok? || Project.ParseWemName("[" + a + "]" + b) == Err(Project.BadId)
  {
    var name := "[" + a + "]" + b;
    assert name == "[" + a + "]" + b + [];
    assert name[|name| - 1] == b[|b| - 1];
    TrimStartNoWhitespace(name);
    TrimEndNoWhitespace(name);
    Project.CapturesOf(a, b, []);
    ParseWemNameAgrees(name);
  }

  /** The unit test's names, and two names it would refuse. (The name is a
      parameter so that the solver does not evaluate the parser on the
      literal.) */
  lemma {:induction false} MainWemNameExamples(name: string)
    ensures name == "[001]12345678.wem" ==> ParseWemName(name) == Ok((1, 12345678))
    ensures name == "[012]98765432.wem" ==> ParseWemName(name) == Ok((12, 98765432))
    ensures name == "[999]99999999.wem" ==> ParseWemName(name) == Ok((999, 99999999))
    ensures name == "[000]00000000.wem" ==> ParseWemName(name) == Ok((0, 0))
    ensures name == "[01]5" ==> ParseWemName(name) == Err(Project.BadName)
    ensures name == "[00001]5" ==> ParseWemName(name) == Err(Project.BadName)
  {
    if name == "[001]12345678.wem" {
      MainExampleFirst(name);
    }     else if name == "[012]98765432.wem" {
      MainExampleSecond(name);
    }     else if name == "[999]99999999.wem" {
      MainExampleThird(name);
    }     else if name == "[000]00000000.wem" {
      MainExampleFourth(name);
    }     else if name == "[01]5" {
      MainExampleNarrow(name);
    }     else if name == "[00001]5" {
      MainExampleWide(name);
    }
  }

  lemma {:induction false} MainExampleFirst(name: string)
    requires name == "[001]12345678.wem"
    ensures ParseWemName(name) == Ok((1, 12345678))
  {
    Project.ExampleFirst(name);
    AgreesFirst(name);
  }

  lemma {:induction false} AgreesFirst(name: string)
    requires name == "[001]12345678.wem"
    ensures ParseWemName(name) == Project.ParseWemName(name)
  {
    WemNameAgrees(name, "001", "12345678");
  }

  lemma {:induction false} MainExampleSecond(name: string)
    requires name == "[012]98765432.wem"
    ensures ParseWemName(name) == Ok((12, 98765432))
  {
    Project.ExampleSecond(name);
    AgreesSecond(name);
  }

  lemma {:induction false} AgreesSecond(name: string)
    requires name == "[012]98765432.wem"
    ensures ParseWemName(name) == Project.ParseWemName(name)
  {
    WemNameAgrees(name, "012", "98765432");
  }

  lemma {:induction false} MainExampleThird(name: string)
    requires name == "[999]99999999.wem"
    ensures ParseWemName(name) == Ok((999, 99999999))
  {
    Project.ExampleThird(name);
    AgreesThird(name);
  }

  lemma {:induction false} AgreesThird(name: string)
    requires name == "[999]99999999.wem"
    ensures ParseWemName(name) == Project.ParseWemName(name)
  {
    WemNameAgrees(name, "999", "99999999");
  }

  lemma {:induction false} MainExampleFourth(name: string)
    requires name == "[000]00000000.wem"
    ensures ParseWemName(name) == Ok((0, 0))
  {
    Project.ExampleFourth(name);
    AgreesFourth(name);
  }

  lemma {:induction false} AgreesFourth(name: string)
    requires name == "[000]00000000.wem"
    ensures ParseWemName(name) == Project.ParseWemName(name)
  {
    WemNameAgrees(name, "000", "00000000");
  }

  lemma {:induction false} MainExampleNarrow(name: string)
    requires name == "[01]5"
    ensures ParseWemName(name) == Err(Project.BadName)
  {
    assert name == "[" + "01" + "]" + "5";
    OtherIndexWidthRefused("01", "5");
  }

  lemma {:induction false} MainExampleWide(name: string)
    requires name == "[00001]5"
    ensures ParseWemName(name) == Err(Project.BadName)
  {
    assert name == "[" + "00001" + "]" + "5";
    OtherIndexWidthRefused("00001", "5");
  }

  // ------------------------------------------------------------- packaging

  /** The bank file `package_bank` writes from its metadata and listing.
      No replacements apply, and names are read by this file's own
      parser, the one that takes 3 or 4 index digits. */
  function BankPackaged(metadata: Option<Bnk.Bank>, listing: seq<Project.DirEntry>): Result<seq<byte>, Project.RepackError> {
    match metadata
    case None => Err(Project.MetadataMissing)
    case Some(meta) =>
      match Project.RepackedBank(meta, listing, ParseWemName, map[])
      case Err(e) => Err(e)
      case Ok(bank) =>
        match Bnk.WriteBank(bank, Sink([], 0))
        case Err(e) => Err(Project.BankFailed(e))
        case Ok(w) => Ok(w.buf)
  }

  /** The package file `package_pck` writes, likewise. */
  function PckPackaged(metadata: Option<Pck.HeaderData>, listing: seq<Project.DirEntry>, enc: Pck.Encoder)
    : Result<seq<byte>, Project.RepackError>
  {
    match metadata
    case None => Err(Project.MetadataMissing)
    case Some(h) => PckProject.RepackedPckBytes(h, listing, ParseWemName, map[], enc)
  }

  /** `package_bank`: the bank rebuilt from the loose WEMs alone, written
      to the first free output path. */
  method PackageBank(metadata: Option<Bnk.Bank>, listing: seq<Project.DirEntry>, base: string, existing: set<string>)
    returns (r: Result<(string, seq<byte>), Project.RepackError>)
    ensures BankPackaged(metadata, listing).Err? ==> r == Err(BankPackaged(metadata, listing).error)
    ensures BankPackaged(metadata, listing).Ok? ==>
      r.Ok? && r.value.1 == BankPackaged(metadata, listing).value && Project.IsOutputPath(base, existing, r.value.0)
  {
    r := Project.RepackBank(metadata, listing, ParseWemName, map[], base, existing);
  }

  /** `package_pck`: the package rebuilt from the loose WEMs alone, written
      to the first free output path. */
  method PackagePck(metadata: Option<Pck.HeaderData>, listing: seq<Project.DirEntry>, enc: Pck.Encoder,
                    base: string, existing: set<string>)
    returns (r: Result<(string, seq<byte>), Project.RepackError>)
    ensures PckPackaged(metadata, listing, enc).Err? ==> r == Err(PckPackaged(metadata, listing, enc).error)
    ensures PckPackaged(metadata, listing, enc).Ok? ==>
      r.Ok? && r.value.1 == PckPackaged(metadata, listing, enc).value && Project.IsOutputPath(base, existing, r.value.0)
  {
    r := PckProject.RepackPck(metadata, listing, ParseWemName, map[], enc, base, existing);
  }

  /** So packaging a bank dumped with more than 10000 WEMs fails, whatever
      its metadata. */
  lemma {:induction false} LargeBankDumpNotPackaged(meta: Bnk.Bank, blobs: seq<seq<byte>>, es: seq<Bnk.DidxEntry>)
    requires 10000 < |es| == |blobs| < U32_LIMIT
    ensures BankPackaged(Some(meta), Project.NamedBlobs(blobs, es)).Err?
  {
    LargeDumpRefused(blobs, es);
  }

  /** Likewise for a package dumped with more than 10000 WEMs. */
  lemma {:induction false} LargePckDumpNotPackaged(h: Pck.HeaderData, ps: seq<u32>, source: seq<byte>, enc: Pck.Encoder)
    requires 10000 < |h.wemEntries| == |ps| < U32_LIMIT
    ensures PckPackaged(Some(h), PckProject.PckDumped(h.wemEntries, ps, source), enc).Err?
  {
    var es := h.wemEntries;
    var listing := PckProject.PckDumped(es, ps, source);
    Project.WemEntriesAll(listing);
    assert listing[10000].stem == Project.DumpStem(10000, es[10000].id, |es|);
    DumpStemAccepted(10000, es[10000].id, |es|);
  }

  /** What `project.json` says a project directory holds, with the
      metadata file it names (None when that file is missing). */
  datatype ProjectFile = BankProject(bankMeta: Option<Bnk.Bank>) | PackageProject(pckMeta: Option<Pck.HeaderData>)

  datatype ProjectError = ProjectJsonMissing | PackageFailed(Project.RepackError)

  /** `handle_project`: a directory without `project.json` is an error;
      otherwise the project is packaged by its kind. */
  method HandleProject(project: Option<ProjectFile>, listing: seq<Project.DirEntry>, enc: Pck.Encoder,
                       base: string, existing: set<string>)
    returns (r: Result<(string, seq<byte>), ProjectError>)
    ensures project.None? ==> r == Err(ProjectJsonMissing)
    ensures project.Some? ==>
      var p := if project.value.BankProject? then BankPackaged(project.value.bankMeta, listing)
               else PckPackaged(project.value.pckMeta, listing, enc);
      && (p.Err? ==> r == Err(PackageFailed(p.error)))
      && (p.Ok? ==> r.Ok? && r.value.1 == p.value && Project.IsOutputPath(base, existing, r.value.0))
  {
    if project.None? {
      return Err(ProjectJsonMissing);
    }
    var packaged;
    if project.value.BankProject? {
      packaged := PackageBank(project.value.bankMeta, listing, base, existing);
    } else {
      packaged := PackagePck(project.value.pckMeta, listing, enc, base, existing);
    }
    if packaged.Err? {
      return Err(PackageFailed(packaged.error));
    }
    return Ok(packaged.value);
  }

  // ----------------------------------------------------------------- dumps

  datatype BankDumpError = BankParseFailed(Bnk.BnkError) | BankDumpFailed(Project.DumpError)

  /** A sound bank file: parsed, then dumped to loose WEMs and metadata. */
  method DumpBankFile(contents: seq<byte>) returns (r: Result<(seq<Project.DirEntry>, Bnk.Bank), BankDumpError>)
    ensures Bnk.ParseBank(contents).Err? ==> r == Err(BankParseFailed(Bnk.ParseBank(contents).error))
    ensures Bnk.ParseBank(contents).Ok? ==>
      var secs := Bnk.ParseBank(contents).value.sections;
      && (Project.DumpedWems(secs).Err? ==> r == Err(BankDumpFailed(Project.DumpedWems(secs).error)))
      && (Project.DumpedWems(secs).Ok? ==> r == Ok((Project.DumpedWems(secs).value, Bnk.Bank(Project.MetaSections(secs)))))
  {
    var bank := Bnk.BnkFromReader(contents);
    if bank.Err? {
      return Err(BankParseFailed(bank.error));
    }
    var dumped := Project.DumpBank(bank.value);
    if dumped.Err? {
      return Err(BankDumpFailed(dumped.error));
    }
    return Ok(dumped.value);
  }

  /** `dump_pck` on a package file: its header read, every WEM copied out
      under its name, the header kept as metadata. (The cursor the header
      read leaves does not matter: each entry's reader seeks before it
      reads.) */
  method DumpPckFile(contents: seq<byte>, enc: Pck.Encoder, dec: Pck.Decoder)
    returns (r: Result<(seq<Project.DirEntry>, Pck.HeaderData), Pck.PckError>)
    ensures Pck.ParseHeader(contents, dec).Err? ==> r == Err(Pck.ParseHeader(contents, dec).error)
    ensures Pck.ParseHeader(contents, dec).Ok? ==>
      var h := Pck.ParseHeader(contents, dec).value;
      r == Ok((PckProject.PckDumped(h.wemEntries, Pck.FilePositions(h, enc).1, contents), h))
  {
    var header := Pck.FromReader(contents, enc, dec);
    if header.Err? {
      return Err(header.error);
    }
    var files := PckProject.DumpPck(header.value, contents, 0);
    return Ok((files, header.value.Data()));
  }

  // -------------------------------------------------------------- dispatch

  /** What the command line does with one path. */
  datatype Action = Package | DumpSoundBank | DumpFilePackage | TranscodeThenConvert | ConvertToWem

  datatype MainError =
    | Panic
    | Usage
    | NotFound(path: string)
    | ReadFailed(path: string)
    | Unsupported(path: string)
    | HandlerFailed(path: string)

  /** A path on disk: a directory, or a file with its extension (empty when
      it has none) and its contents. */
  datatype Node = Directory | File(extension: string, contents: seq<byte>)

  type FileSystem = map<string, Node>

  /** The paths the front end hands to the audio transcoder first. */
  predicate Transcodable(extension: string) {
    extension == "mp3" || extension == "ogg" || extension == "aac"
  }

  /** The choice for a file: four bytes are read first, a sound bank or a
      package is told by its magic, and only then does the extension count. */
  function FileAction(path: string, extension: string, contents: seq<byte>): (r: Result<Action, MainError>)
    ensures r.Err? ==> r == Err(ReadFailed(path)) || r == Err(Unsupported(path))
  {
    if |contents| < 4 then Err(ReadFailed(path))
    else if contents[..4] == Bnk.BKHD then Ok(DumpSoundBank)
    else if contents[..4] == Pck.AKPK then Ok(DumpFilePackage)
    else if Transcodable(extension) then Ok(TranscodeThenConvert)
    else if extension == "wav" then Ok(ConvertToWem)
    else Err(Unsupported(path))
  }

  /** A file's magic decides its action whatever its name says, and only
      its first four bytes are looked at. */
  lemma {:induction false} MagicWins(path: string, e1: string, e2: string, c1: seq<byte>, c2: seq<byte>)
    requires |c1| >= 4 && |c2| >= 4 && c1[..4] == c2[..4]
    requires c1[..4] == Bnk.BKHD || c1[..4] == Pck.AKPK
    ensures FileAction(path, e1, c1) == FileAction(path, e2, c2)
    ensures FileAction(path, e1, c1).Ok?
  {
  }

  /** Without a known magic, the extension alone decides, and four bytes
      have to be there to be read first. */
  lemma {:induction false} ExtensionDecides(path: string, ext: string, c1: seq<byte>, c2: seq<byte>)
    requires |c1| >= 4 && |c2| >= 4
    requires c1[..4] != Bnk.BKHD && c1[..4] != Pck.AKPK && c2[..4] != Bnk.BKHD && c2[..4] != Pck.AKPK
    ensures FileAction(path, ext, c1) == FileAction(path, ext, c2)
    ensures FileAction(path, ext, c1).Ok? <==> Transcodable(ext) || ext == "wav"
    ensures FileAction(path, ext, c1) == Ok(ConvertToWem) <==> ext == "wav"
  {
  }

  /** Files shorter than the magic fail to read, whatever their extension. */
  lemma {:induction false} ShortFileFails(path: string, ext: string, contents: seq<byte>)
    ensures FileAction(path, ext, contents) == Err(ReadFailed(path)) <==> |contents| < 4
  {
  }

  /** The choice for one path of the command line. */
  function PathAction(fs: FileSystem, path: string): Result<Action, MainError> {
    if path !in fs then Err(NotFound(path))
    else match fs[path]
      case Directory => Ok(Package)
      case File(ext, contents) => FileAction(path, ext, contents)
  }

  /** The outcome of the handler that carries out an action on a path
      (packaging, dumping, or running the external converters). */
  type Handler = (string, Action) -> bool

  /** The paths, in order, each carried out, up to the first failure. */
  function Dispatched(paths: seq<string>, fs: FileSystem, run: Handler): Result<seq<Action>, MainError> {
    if paths == [] then Ok([])
    else
      var n := |paths| - 1;
      match Dispatched(paths[..n], fs, run)
      case Err(e) => Err(e)
      case Ok(done) =>
        match PathAction(fs, paths[n])
        case Err(e) => Err(e)
        case Ok(a) => if run(paths[n], a) then Ok(done + [a]) else Err(HandlerFailed(paths[n]))
  }

  /** `main_entry`: at least one path after the program name, then each in
      turn. With no arguments at all, the usage message's `args[0]` panics. */
  function MainOutcome(args: seq<string>, fs: FileSystem, run: Handler): Result<seq<Action>, MainError> {
    if |args| == 0 then Err(Panic)
    else if |args| < 2 then Err(Usage)
    else Dispatched(args[1..], fs, run)
  }

  /** A path goes through: its action is chosen and carried out. */
  predicate Handled(fs: FileSystem, run: Handler, path: string) {
    PathAction(fs, path).Ok? && run(path, PathAction(fs, path).value)
  }

  /** The error a path that does not go through stops the loop with. */
  function FailureOf(fs: FileSystem, run: Handler, path: string): MainError
    requires !Handled(fs, run, path)
  {
    if PathAction(fs, path).Err? then PathAction(fs, path).error else HandlerFailed(path)
  }

  /** The loop succeeds exactly when every path goes through, and then
      returns each path's action, in order. */
  lemma {:induction false} DispatchedAll(paths: seq<string>, fs: FileSystem, run: Handler)
    ensures Dispatched(paths, fs, run).Ok? <==> forall i :: 0 <= i < |paths| ==> Handled(fs, run, paths[i])
    ensures Dispatched(paths, fs, run).Ok? ==>
      |Dispatched(paths, fs, run).value| == |paths| &&
      forall i :: 0 <= i < |paths| ==> Dispatched(paths, fs, run).value[i] == PathAction(fs, paths[i]).value
  {
    if paths != [] {
      var n := |paths| - 1;
      DispatchedAll(paths[..n], fs, run);
      assert forall i :: 0 <= i < n ==> paths[..n][i] == paths[i];
    }
  }

  /** The loop stops at the first path that does not go through, with that
      path's error; the paths after it are never looked at. */
  lemma {:induction false} StopsAtFirstFailure(paths: seq<string>, fs: FileSystem, run: Handler, k: nat)
    requires k < |paths| && !Handled(fs, run, paths[k])
    requires forall i :: 0 <= i < k ==> Handled(fs, run, paths[i])
    ensures Dispatched(paths, fs, run) == Err(FailureOf(fs, run, paths[k]))
    decreases |paths|
  {
    var n := |paths| - 1;
    if k == n {
      var front := paths[..n];
      assert forall i :: 0 <= i < |front| ==> front[i] == paths[i];
      DispatchedAll(front, fs, run);
    } else {
      var front := paths[..n];
      assert forall i :: 0 <= i < |front| ==> front[i] == paths[i];
      StopsAtFirstFailure(front, fs, run, k);
    }
  }

  /** Once the loop has failed, more paths do not change its error. */
  lemma {:induction false} FailureStays(paths: seq<string>, fs: FileSystem, run: Handler, k: nat)
    requires k <= |paths| && Dispatched(paths[..k], fs, run).Err?
    ensures Dispatched(paths, fs, run) == Dispatched(paths[..k], fs, run)
    decreases |paths| - k
  {
    if k < |paths| {
      assert paths[..k + 1][..k] == paths[..k];
      FailureStays(paths, fs, run, k + 1);
    } else {
      assert paths[..k] == paths;
    }
  }

  /** `main_entry`'s loop over the command-line paths. */
  method MainLoop(args: seq<string>, fs: FileSystem, run: Handler) returns (r: Result<seq<Action>, MainError>)
    ensures r == MainOutcome(args, fs, run)
  {
    if |args| == 0 {
      return Err(Panic);
    }
    if |args| < 2 {
      return Err(Usage);
    }
    var paths := args[1..];
    var done: seq<Action> := [];
    for i := 0 to |paths|
      invariant Dispatched(paths[..i], fs, run) == Ok(done)
    {
      assert paths[..i + 1][..i] == paths[..i];
      var path := paths[i];
      var action: Action;
      if path !in fs {
        FailureStays(paths, fs, run, i + 1);
        return Err(NotFound(path));
      }
      match fs[path] {
        case Directory =>
          action := Package;
        case File(ext, contents) =>
          if |contents| < 4 {
            FailureStays(paths, fs, run, i + 1);
            return Err(ReadFailed(path));
          }
          var magic := contents[..4];
          if magic == Bnk.BKHD {
            action := DumpSoundBank;
          } else if magic == Pck.AKPK {
            action := DumpFilePackage;
          } else if ext == "mp3" || ext == "ogg" || ext == "aac" {
            action := TranscodeThenConvert;
          } else if ext == "wav" {
            action := ConvertToWem;
          } else {
            FailureStays(paths, fs, run, i + 1);
            return Err(Unsupported(path));
          }
      }
      if !run(path, action) {
        FailureStays(paths, fs, run, i + 1);
        return Err(HandlerFailed(path));
      }
      done := done + [action];
    }
    assert paths[..|paths|] == paths;
    return Ok(done);
  }
}
