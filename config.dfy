/** The tool's settings: a version number and the table of external
    programs (`bin`), looked up and updated by program name. */
module Config {
  import opened Bytes

  /** `BinConfig`: a program's name, its path and extra parameters. */
  datatype BinConfig = BinConfig(name: string, path: string, params: seq<string>)

  /** The position of the first entry named `name`, if any. */
  function FindBin(bins: seq<BinConfig>, name: string): (r: Option<nat>)
    ensures r.Some? ==> r.value < |bins| && bins[r.value].name == name
    ensures r.Some? ==> forall j :: 0 <= j < r.value ==> bins[j].name != name
    ensures r.None? ==> forall j :: 0 <= j < |bins| ==> bins[j].name != name
  {
    if bins == [] then None
    else if bins[0].name == name then Some(0)
    else
      match FindBin(bins[1..], name)
      case None =>
        assert forall j :: 1 <= j < |bins| ==> bins[j] == bins[1..][j - 1];
        None
      case Some(i) =>
        assert forall j :: 1 <= j <= i + 1 ==> bins[j] == bins[1..][j - 1];
        Some(i + 1)
  }

  /** The first match is the only index with that name and nothing named so
      before it. */
  lemma {:induction false} FindBinUnique(bins: seq<BinConfig>, name: string, i: nat)
    requires i < |bins| && bins[i].name == name
    requires forall j :: 0 <= j < i ==> bins[j].name != name
    ensures FindBin(bins, name) == Some(i)
  {
    assert FindBin(bins, name).Some?;
  }

  /** The table after `set_bin_config(name, path)`: the path of the first
      entry so named replaced, or a new entry without parameters appended. */
  function SetBins(bins: seq<BinConfig>, name: string, path: string): seq<BinConfig> {
    match FindBin(bins, name)
    case Some(i) => bins[i := bins[i].(path := path)]
    case None => bins + [BinConfig(name, path, [])]
  }

  /** `get_bin_config_mut`'s search: the first entry named `name`. */
  method FindBinIndex(bins: seq<BinConfig>, name: string) returns (r: Option<nat>)
    ensures r == FindBin(bins, name)
  {
    for i := 0 to |bins|
      invariant forall j :: 0 <= j < i ==> bins[j].name != name
    {
      if bins[i].name == name {
        FindBinUnique(bins, name, i);
        return Some(i);
      }
    }
    return None;
  }

  /** After setting a name, looking it up finds an entry with the new path. */
  lemma {:induction false} SetThenGet(bins: seq<BinConfig>, name: string, path: string)
    ensures FindBin(SetBins(bins, name, path), name).Some?
    ensures var r := SetBins(bins, name, path); r[FindBin(r, name).value].path == path
  {
    var r := SetBins(bins, name, path);
    match FindBin(bins, name)
    case Some(i) =>
      FindBinUnique(r, name, i);
    case None =>
      FindBinUnique(r, name, |bins|);
  }

  /** Setting a name that is there changes only that entry's path. */
  lemma {:induction false} SetExisting(bins: seq<BinConfig>, name: string, path: string)
    requires FindBin(bins, name).Some?
    ensures var i, r := FindBin(bins, name).value, SetBins(bins, name, path);
      && |r| == |bins|
      && r[i] == BinConfig(bins[i].name, path, bins[i].params)
      && forall j :: 0 <= j < |bins| && j != i ==> r[j] == bins[j]
  {
  }

  /** Setting a new name appends it, without parameters, at the end. */
  lemma {:induction false} SetNew(bins: seq<BinConfig>, name: string, path: string)
    requires FindBin(bins, name).None?
    ensures SetBins(bins, name, path) == bins + [BinConfig(name, path, [])]
  {
  }

  /** Setting one name leaves what every other name looks up unchanged. */
  lemma {:induction false} SetKeepsOthers(bins: seq<BinConfig>, name: string, path: string, other: string)
    requires other != name
    ensures var r := SetBins(bins, name, path);
      && FindBin(r, other) == FindBin(bins, other)
      && (FindBin(r, other).Some? ==> r[FindBin(r, other).value] == bins[FindBin(bins, other).value])
  {
    var r := SetBins(bins, name, path);
    assert forall j :: 0 <= j < |bins| ==> r[j].name == bins[j].name && (bins[j].name == other ==> r[j] == bins[j]);
    match FindBin(bins, other)
    case Some(i) =>
      FindBinUnique(r, other, i);
    case None =>
  }

  /** Setting the same name with the same path twice changes nothing more. */
  lemma {:induction false} SetIdempotent(bins: seq<BinConfig>, name: string, path: string)
    ensures SetBins(SetBins(bins, name, path), name, path) == SetBins(bins, name, path)
  {
    var r := SetBins(bins, name, path);
    SetThenGet(bins, name, path);
    match FindBin(bins, name)
    case Some(i) =>
      FindBinUnique(r, name, i);
    case None =>
      FindBinUnique(r, name, |bins|);
  }

  /** The settings a config file deserialises to. */
  datatype ConfigData = ConfigData(version: int, bin: seq<BinConfig>)

  /** `default_config`: version 1, no programs. */
  function DefaultConfig(): (r: ConfigData)
    ensures r.version == 1 && r.bin == []
  {
    ConfigData(1, [])
  }

  /** The `version` field as the untyped read of the file sees it. */
  datatype VersionField = Missing | NotInteger | Integer(value: int)

  /** A config file that could be read: its version field, and the typed
      deserialisation of the whole file (None when it fails). */
  datatype ConfigFile = ConfigFile(versionField: VersionField, typed: Option<ConfigData>)

  /** The two reads of one file agree on the version. */
  predicate Consistent(f: ConfigFile) {
    f.typed.Some? ==> f.versionField == Integer(f.typed.value.version)
  }

  datatype LoadError = ReadFailed | NoVersion | VersionNotInteger | UnsupportedVersion(version: int) | Malformed

  /** `load_config_from_file`: the version checked before the typed read. */
  function LoadConfigFromFile(file: Option<ConfigFile>): (r: Result<ConfigData, LoadError>)
    ensures r.Ok? ==> file.Some? && file.value.versionField == Integer(1) && file.value.typed == Some(r.value)
    ensures file.Some? && file.value.versionField.Integer? && file.value.versionField.value != 1 ==>
      r == Err(UnsupportedVersion(file.value.versionField.value))
  {
    match file
    case None => Err(ReadFailed)
    case Some(f) =>
      match f.versionField
      case Missing => Err(NoVersion)
      case NotInteger => Err(VersionNotInteger)
      case Integer(v) =>
        if v != 1 then Err(UnsupportedVersion(v))
        else match f.typed
          case None => Err(Malformed)
          case Some(d) => Ok(d)
  }

  /** `load_config`: the file's settings, or the default ones. */
  function LoadConfig(file: Option<ConfigFile>): ConfigData {
    match LoadConfigFromFile(file)
    case Ok(d) => d
    case Err(_) => DefaultConfig()
  }

  /** Whatever the file holds, the loaded settings are version 1; they are
      the file's exactly when it passes the check. */
  lemma {:induction false} LoadedVersion(file: Option<ConfigFile>)
    requires file.Some? ==> Consistent(file.value)
    ensures LoadConfig(file).version == 1
    ensures LoadConfigFromFile(file).Err? ==> LoadConfig(file) == DefaultConfig()
    ensures LoadConfigFromFile(file).Ok? ==> LoadConfig(file) == file.value.typed.value
  {
  }

  /** `Config`: the settings the tool keeps and updates. */
  class Config {
    var version: int
    var bin: seq<BinConfig>

    /** The settings as loaded from a config file, or the default ones. */
    constructor (file: Option<ConfigFile>)
      ensures version == LoadConfig(file).version && bin == LoadConfig(file).bin
    {
      var d := LoadConfig(file);
      version, bin := d.version, d.bin;
    }

    /** `get_bin_config`: the first entry named `name`, if any. */
    function GetBinConfig(name: string): (r: Option<BinConfig>)
      reads this
      ensures r.Some? ==> r.value in bin && r.value.name == name
      ensures r.Some? ==> exists i :: 0 <= i < |bin| && bin[i] == r.value &&
                            forall j :: 0 <= j < i ==> bin[j].name != name
      ensures r.None? <==> forall j :: 0 <= j < |bin| ==> bin[j].name != name
    {
      match FindBin(bin, name)
      case Some(i) => Some(bin[i])
      case None => None
    }

    /** `set_bin_config`: the first entry so named gets the path, or a new
        entry is appended. */
    method SetBinConfig(name: string, path: string)
      modifies this
      ensures bin == SetBins(old(bin), name, path) && version == old(version)
      ensures GetBinConfig(name).Some? && GetBinConfig(name).value.path == path
    {
      var found := FindBinIndex(bin, name);
      match found {
        case Some(i) =>
          bin := bin[i := bin[i].(path := path)];
        case None =>
          bin := bin + [BinConfig(name, path, [])];
      }
      SetThenGet(old(bin), name, path);
    }
  }
}
