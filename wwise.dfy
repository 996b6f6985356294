/** The Wwise external-source list the tool hands to the Wwise console:
    Windows-style paths and the XML manifest built from them. */
module Wwise {
  import opened Text

  /** The verbatim-path prefix that `canonicalize` puts in front of Windows
      paths, `\\?\`. */
  const VERBATIM: string := "\\\\?\\"

  /** Every '/' made a '\', then every verbatim prefix removed. */
  function NormalisePath(s: string): string {
    ReplaceAll(ReplaceAll(s, "/", "\\"), VERBATIM, "")
  }

  /** A normalised path holds no '/'. */
  lemma {:induction false} NormaliseNoSlash(s: string)
    ensures '/' !in NormalisePath(s)
  {
    ReplaceCharRemoves(s, '/', "\\");
    ReplaceKeepsAbsent(ReplaceAll(s, "/", "\\"), VERBATIM, "", '/');
  }

  /** A path with neither kind of separator is its own normal form. */
  lemma {:induction false} NormaliseKeepsPlainNames(s: string)
    requires '/' !in s && '\\' !in s
    ensures NormalisePath(s) == s
  {
    ReplaceAbsent(s, "/", "\\");
    ReplaceAbsent(s, VERBATIM, "");
  }

  /** A verbatim path loses its prefix and keeps the rest, when the rest
      already uses '\' and holds no second prefix. */
  lemma {:induction false} NormaliseStripsVerbatim(t: string)
    requires '/' !in t
    requires forall i: nat :: !MatchesAt(t, VERBATIM, i)
    ensures NormalisePath(VERBATIM + t) == t
  {
    var s := VERBATIM + t;
    assert '/' !in s;
    ReplaceAbsent(s, "/", "\\");
    assert s[..4] == VERBATIM && s[4..] == t;
    ReplaceNoMatch(t, VERBATIM, "");
  }

  /** One manifest line, `<Source Path="…" Conversion="Vorbis Quality High"/>`. */
  function SourceLine(source: string): string {
    "    <Source Path=\"" + source + "\" Conversion=\"Vorbis Quality High\"/>\n"
  }

  /** The lines of the sources, in order. */
  function SourceLines(sources: seq<string>): string {
    if sources == [] then ""
    else SourceLines(sources[..|sources| - 1]) + SourceLine(sources[|sources| - 1])
  }

  /** The manifest up to its sources. */
  function XmlHead(root: string): string {
    "<?xml version=\"1.0\" encoding=\"UTF-8\"?>\n<ExternalSourcesList SchemaVersion=\"1\" Root=\"" + root + "\">\n"
  }

  const XML_TAIL: string := "\n</ExternalSourcesList>"

  /** The manifest `to_xml` writes. */
  function Xml(root: string, sources: seq<string>): string {
    XmlHead(root) + SourceLines(sources) + XML_TAIL
  }

  /** Without sources the manifest holds no source line. */
  lemma {:induction false} XmlWithoutSources(root: string)
    ensures Xml(root, []) == XmlHead(root) + XML_TAIL
  {
    assert XmlHead(root) + "" == XmlHead(root);
  }

  /** One more source adds exactly its line, just before the closing tag. */
  lemma {:induction false} XmlAppend(root: string, sources: seq<string>, source: string)
    ensures Xml(root, sources + [source]) == XmlHead(root) + SourceLines(sources) + SourceLine(source) + XML_TAIL
  {
    assert (sources + [source])[..|sources|] == sources;
  }

  /** Source `i`'s line follows the lines of the sources before it. */
  lemma {:induction false} SourceLineAt(sources: seq<string>, i: nat)
    requires i < |sources|
    ensures SourceLines(sources[..i + 1]) == SourceLines(sources[..i]) + SourceLine(sources[i])
    ensures SourceLines(sources[..i + 1]) <= SourceLines(sources)
  {
    assert sources[..i + 1][..i] == sources[..i];
    SourceLinesPrefix(sources, i + 1);
  }

  /** The lines of a prefix of the sources start the lines of all of them. */
  lemma {:induction false} SourceLinesPrefix(sources: seq<string>, k: nat)
    requires k <= |sources|
    ensures SourceLines(sources[..k]) <= SourceLines(sources)
    decreases |sources| - k
  {
    if k < |sources| {
      SourceLinesPrefix(sources, k + 1);
      assert sources[..k + 1][..k] == sources[..k];
    } else {
      assert sources[..k] == sources;
    }
  }

  /** `WwiseSource`: the root of the external sources and their paths
      relative to it. */
  class WwiseSource {
    var root: string
    var sources: seq<string>

    /** Every stored path is normalised: no '/' anywhere. */
    predicate Clean()
      reads this
    {
      '/' !in root && forall i :: 0 <= i < |sources| ==> '/' !in sources[i]
    }

    /** `WwiseSource::new`: the normalised root and no sources. */
    constructor (r: string)
      ensures root == NormalisePath(r) && sources == []
      ensures Clean()
    {
      root := NormalisePath(r);
      sources := [];
      NormaliseNoSlash(r);
    }

    /** `add_source`: the normalised source appended at the end. */
    method AddSource(source: string)
      modifies this
      ensures root == old(root) && sources == old(sources) + [NormalisePath(source)]
      ensures old(Clean()) ==> Clean()
    {
      NormaliseNoSlash(source);
      sources := sources + [NormalisePath(source)];
    }

    /** `to_xml`: one line per source, in order, inside the list element. */
    method ToXml() returns (xml: string)
      ensures xml == Xml(root, sources)
    {
      var lines := "";
      for i := 0 to |sources|
        invariant lines == SourceLines(sources[..i])
      {
        SourceLineAt(sources, i);
        lines := lines + SourceLine(sources[i]);
      }
      assert sources[..|sources|] == sources;
      xml := XmlHead(root) + lines + XML_TAIL;
    }
  }

  /** The arguments `convert_external_source` passes to the console: the
      project, the manifest file and the normalised output directory. */
  function ConvertArguments(project: string, sourceFile: string, outputDir: string): (r: seq<string>)
    ensures |r| == 6 && r[5] == NormalisePath(outputDir)
  {
    ["convert-external-source", project, "--source-file", sourceFile, "--output", NormalisePath(outputDir)]
  }

  /** The output directory handed to the console holds no '/'. */
  lemma {:induction false} ConvertOutputHasNoSlash(project: string, sourceFile: string, outputDir: string)
    ensures '/' !in ConvertArguments(project, sourceFile, outputDir)[5]
  {
    NormaliseNoSlash(outputDir);
  }
}
