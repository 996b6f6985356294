/** `PckProject::repack`: a package rebuilt from its saved header and the
    loose WEMs of a project directory. The loose WEMs are kept in an
    insertion-ordered map from WEM id; header entries whose id has no loose
    WEM are dropped, the rest are laid end to end after the header, and the
    WEMs' bytes follow the header in index order. */
module PckProject {
  import opened Bytes
  import opened Pck
  import opened Project
  import PckRoundTrip

  /** What the repack keeps of a loose WEM: its index, its file's size cut to
      32 bits, and where its bytes come from, the loose file or a replacement. */
  datatype WemMeta = WemMeta(idx: u32, fileSize: u32, file: Option<seq<byte>>, data: Option<seq<byte>>)

  /** An `IndexMap` from WEM id: its entries in insertion order. */
  type WemMap = seq<(u32, WemMeta)>

  // ------------------------------------------------------------- the map

  /** `IndexMap::get`: the value stored under `k`. */
  function Lookup(m: WemMap, k: u32): (r: Option<WemMeta>)
    ensures r.Some? ==> (k, r.value) in m
  {
    if m == [] then None
    else if m[0].0 == k then Some(m[0].1)
    else Lookup(m[1..], k)
  }

  /** No key is stored twice. */
  predicate UniqueKeys(m: WemMap) {
    m == [] || (Lookup(m[1..], m[0].0).None? && UniqueKeys(m[1..]))
  }

  /** Whatever is stored is found under its key; with distinct keys, it is
      what is found. */
  lemma {:induction false} LookupIn(m: WemMap, k: u32, v: WemMeta)
    requires (k, v) in m
    ensures Lookup(m, k).Some?
    ensures UniqueKeys(m) ==> Lookup(m, k) == Some(v)
  {
    if m[0] != (k, v) {
      assert (k, v) in m[1..];
      LookupIn(m[1..], k, v);
    }
  }

  /** Two maps holding the same entries, the first with distinct keys, find
      the same value under every key. */
  lemma {:induction false} LookupSameEntries(m: WemMap, s: WemMap, k: u32)
    requires UniqueKeys(m) && multiset(s) == multiset(m)
    ensures Lookup(s, k) == Lookup(m, k)
  {
    var r := Lookup(s, k);
    if r.Some? {
      assert (k, r.value) in multiset(s);
      LookupIn(m, k, r.value);
    } else if Lookup(m, k).Some? {
      var v := Lookup(m, k).value;
      assert (k, v) in multiset(m);
      LookupIn(s, k, v);
    }
  }

  /** `IndexMap::insert`: a key already present keeps its place and takes
      the new value; a new key goes last. */
  function Insert(m: WemMap, k: u32, v: WemMeta): (r: WemMap)
    ensures Lookup(r, k) == Some(v)
    ensures forall j :: j != k ==> Lookup(r, j) == Lookup(m, j)
    ensures |r| == if Lookup(m, k).Some? then |m| else |m| + 1
    ensures UniqueKeys(m) ==> UniqueKeys(r)
  {
    if m == [] then [(k, v)]
    else if m[0].0 == k then
      var r := [(k, v)] + m[1..];
      assert r[1..] == m[1..];
      r
    else
      var r := [m[0]] + Insert(m[1..], k, v);
      assert r[1..] == Insert(m[1..], k, v);
      r
  }

  // ------------------------------------------------------- loading the map

  /** What the map records for a loose WEM read from disk. */
  function MetaOf(w: WemInfo): (r: WemMeta)
    ensures r.idx == w.idx && r.fileSize == Wrap32(|w.data|)
    ensures r.file == Some(w.data) && r.data.None?
  {
    WemMeta(w.idx, Wrap32(|w.data|), Some(w.data), None)
  }

  /** The map the directory loop builds: each loose WEM inserted under its
      id, a later one with the same id taking the earlier one's place. */
  function MetaMap(ws: seq<WemInfo>): (r: WemMap)
    ensures UniqueKeys(r)
  {
    if ws == [] then []
    else
      var n := |ws| - 1;
      Insert(MetaMap(ws[..n]), ws[n].id, MetaOf(ws[n]))
  }

  /** The ids of the loose WEMs. */
  function Ids(ws: seq<WemInfo>): set<u32> {
    if ws == [] then {} else Ids(ws[..|ws| - 1]) + {ws[|ws| - 1].id}
  }

  /** An id is among the ids exactly when some loose WEM has it. */
  lemma {:induction false} IdsHas(ws: seq<WemInfo>, id: u32)
    ensures id in Ids(ws) <==> exists i :: 0 <= i < |ws| && ws[i].id == id
  {
    if ws != [] {
      var n := |ws| - 1;
      IdsHas(ws[..n], id);
      if id in Ids(ws[..n]) {
        var i :| 0 <= i < n && ws[..n][i].id == id;
        assert ws[i].id == id;
      }
      if exists i :: 0 <= i < |ws| && ws[i].id == id {
        var i :| 0 <= i < |ws| && ws[i].id == id;
        if i < n {
          assert ws[..n][i].id == id;
        }
      }
    }
  }

  /** An id is in the map exactly when some loose WEM has it. */
  lemma {:induction false} MetaMapHas(ws: seq<WemInfo>, id: u32)
    ensures Lookup(MetaMap(ws), id).Some? <==> id in Ids(ws)
  {
    if ws != [] {
      MetaMapHas(ws[..|ws| - 1], id);
    }
  }

  /** What is stored under an id is the record of the last loose WEM with it. */
  lemma {:induction false} MetaMapLast(ws: seq<WemInfo>, id: u32, i: nat)
    requires i < |ws| && ws[i].id == id
    requires forall j :: i < j < |ws| ==> ws[j].id != id
    ensures Lookup(MetaMap(ws), id) == Some(MetaOf(ws[i]))
  {
    var n := |ws| - 1;
    if i < n {
      assert forall j :: i < j < n ==> ws[..n][j] == ws[j];
      MetaMapLast(ws[..n], id, i);
    }
  }

  /** The directory loop of `PckProject::repack` after the names are parsed:
      each loose WEM inserted into the map in listing order. */
  method BuildMetaMap(ws: seq<WemInfo>) returns (m: WemMap)
    ensures m == MetaMap(ws)
  {
    m := [];
    for i := 0 to |ws|
      invariant m == MetaMap(ws[..i])
    {
      assert ws[..i + 1][..i] == ws[..i];
      m := Insert(m, ws[i].id, WemMeta(ws[i].idx, Wrap32(|ws[i].data|), Some(ws[i].data), None));
    }
    assert ws[..|ws|] == ws;
  }

  // ---------------------------------------------------------- replacements

  /** A replaced WEM takes the replacement's bytes and forgets its file; by
      index first, then by id. Its recorded size stays the loose file's. */
  function ReplaceMeta(rep: Replacements, id: u32, w: WemMeta): (r: WemMeta)
    ensures r.idx == w.idx && r.fileSize == w.fileSize
    ensures Index(w.idx) in rep ==> r.data == Some(rep[Index(w.idx)]) && r.file.None?
    ensures Index(w.idx) !in rep && Id(id) in rep ==> r.data == Some(rep[Id(id)]) && r.file.None?
    ensures Index(w.idx) !in rep && Id(id) !in rep ==> r == w
  {
    if Index(w.idx) in rep then w.(file := None, data := Some(rep[Index(w.idx)]))
    else if Id(id) in rep then w.(file := None, data := Some(rep[Id(id)]))
    else w
  }

  /** The map with every entry replaced as the replacements say. */
  function ReplacedMap(m: WemMap, rep: Replacements): (r: WemMap)
    ensures |r| == |m|
  {
    seq(|m|, i requires 0 <= i < |m| => (m[i].0, ReplaceMeta(rep, m[i].0, m[i].1)))
  }

  /** Replacing keeps the keys: under each key is the replaced value. */
  lemma {:induction false} ReplacedLookup(m: WemMap, rep: Replacements, k: u32)
    ensures Lookup(ReplacedMap(m, rep), k) ==
      match Lookup(m, k) case None => None case Some(w) => Some(ReplaceMeta(rep, k, w))
    ensures UniqueKeys(m) ==> UniqueKeys(ReplacedMap(m, rep))
  {
    if m != [] {
      var r := ReplacedMap(m, rep);
      assert r[1..] == ReplacedMap(m[1..], rep);
      ReplacedLookup(m[1..], rep, k);
      ReplacedLookup(m[1..], rep, m[0].0);
    }
  }

  /** The replacement loop over the map's values in place. */
  method ApplyMetaReplacements(m: WemMap, rep: Replacements) returns (r: WemMap)
    ensures r == ReplacedMap(m, rep)
  {
    r := m;
    for i := 0 to |m|
      invariant |r| == |m|
      invariant forall j :: 0 <= j < i ==> r[j] == ReplacedMap(m, rep)[j]
      invariant forall j :: i <= j < |m| ==> r[j] == m[j]
    {
      var (id, w) := r[i];
      if Index(w.idx) in rep {
        r := r[i := (id, w.(file := None, data := Some(rep[Index(w.idx)])))];
        continue;
      }
      if Id(id) in rep {
        r := r[i := (id, w.(file := None, data := Some(rep[Id(id)])))];
        continue;
      }
    }
  }

  /** Every value has bytes to write: its loose file or a replacement. */
  predicate HasBytes(m: WemMap) {
    forall i :: 0 <= i < |m| ==> m[i].1.data.Some? || m[i].1.file.Some?
  }

  lemma {:induction false} MetaMapHasBytes(ws: seq<WemInfo>)
    ensures HasBytes(MetaMap(ws))
  {
    if ws != [] {
      var n := |ws| - 1;
      MetaMapHasBytes(ws[..n]);
      InsertHasBytes(MetaMap(ws[..n]), ws[n].id, MetaOf(ws[n]));
    }
  }

  lemma {:induction false} InsertHasBytes(m: WemMap, k: u32, v: WemMeta)
    requires HasBytes(m) && (v.data.Some? || v.file.Some?)
    ensures HasBytes(Insert(m, k, v))
  {
    if m != [] && m[0].0 != k {
      assert HasBytes(m[1..]) by {
        assert forall i :: 0 <= i < |m| - 1 ==> m[1..][i] == m[i + 1];
      }
      InsertHasBytes(m[1..], k, v);
    }
  }

  /** Replacing never leaves a WEM without bytes, so the "internal" failure
      of the write is unreachable from a map the directory loop built. */
  lemma {:induction false} ReplacedHasBytes(m: WemMap, rep: Replacements)
    requires HasBytes(m)
    ensures HasBytes(ReplacedMap(m, rep))
  {
  }

  /** The index a map value was dumped under, the sort key. */
  function MetaIdx(p: (u32, WemMeta)): nat {
    p.1.idx
  }

  // ----------------------------------------------------- dropping entries

  /** The header entry has a loose WEM in the map. */
  predicate Found(m: WemMap, e: FileEntry) {
    Lookup(m, e.id).Some?
  }

  /** The header entries that have a loose WEM, in header order. */
  function Surviving(es: seq<FileEntry>, m: WemMap): (r: seq<FileEntry>)
    ensures |r| <= |es|
    ensures forall k :: 0 <= k < |r| ==> Found(m, r[k])
  {
    if es == [] then []
    else
      var n := |es| - 1;
      Surviving(es[..n], m) + if Found(m, es[n]) then [es[n]] else []
  }

  lemma {:induction false} SurvivingAppend(a: seq<FileEntry>, b: seq<FileEntry>, m: WemMap)
    ensures Surviving(a + b, m) == Surviving(a, m) + Surviving(b, m)
  {
    if b == [] {
      assert a + b == a;
    } else {
      var n := |b| - 1;
      assert (a + b)[..|a| + n] == a + b[..n];
      SurvivingAppend(a, b[..n], m);
    }
  }

  /** Entries that all have a loose WEM all survive. */
  lemma {:induction false} SurvivingAll(es: seq<FileEntry>, m: WemMap)
    requires forall k :: 0 <= k < |es| ==> Found(m, es[k])
    ensures Surviving(es, m) == es
  {
    if es != [] {
      var n := |es| - 1;
      SurvivingAll(es[..n], m);
      assert es == es[..n] + [es[n]];
    }
  }

  /** An entry survives exactly when it has a loose WEM: the kept entries
      are those of the header that are found, in header order. */
  lemma {:induction false} SurvivingFound(es: seq<FileEntry>, m: WemMap, e: FileEntry)
    ensures e in Surviving(es, m) <==> e in es && Found(m, e)
  {
    if es != [] {
      var n := |es| - 1;
      SurvivingFound(es[..n], m, e);
      assert es == es[..n] + [es[n]];
    }
  }

  /** The positions of the header entries with no loose WEM, ascending. */
  function MissingPositions(es: seq<FileEntry>, m: WemMap): (r: seq<nat>)
    ensures forall k :: 0 <= k < |r| ==> r[k] < |es| && !Found(m, es[r[k]])
    ensures forall k, l :: 0 <= k < l < |r| ==> r[k] < r[l]
    ensures forall i :: 0 <= i < |es| && !Found(m, es[i]) ==> i in r
  {
    if es == [] then []
    else
      var n := |es| - 1;
      var r := MissingPositions(es[..n], m);
      assert forall k :: 0 <= k < |r| ==> es[r[k]] == es[..n][r[k]];
      r + if Found(m, es[n]) then [] else [n]
  }

  /** The bound below which the first `j` missing positions lie, the
      entries before it untouched by removing the others. */
  function Bound(drop: seq<nat>, j: nat, len: nat): nat
    requires j <= |drop|
  {
    if j < |drop| then drop[j] else len
  }

  /** Between two consecutive missing positions every entry is found. */
  lemma {:induction false} FoundBetween(es: seq<FileEntry>, m: WemMap, drop: seq<nat>, j: nat, i: nat)
    requires drop == MissingPositions(es, m) && j < |drop|
    requires drop[j] < i < Bound(drop, j + 1, |es|) && i < |es|
    ensures Found(m, es[i])
  {
    forall q | 0 <= q < |drop|
      ensures drop[q] != i
    {
      if q < j {
        assert drop[q] < drop[j];
      } else if q > j + 1 {
        assert drop[j + 1] < drop[q];
      }
    }
    NotIn(drop, i);
  }

  lemma {:induction false} NotIn(drop: seq<nat>, i: nat)
    requires forall q :: 0 <= q < |drop| ==> drop[q] != i
    ensures i !in drop
  {
  }

  /** The entries strictly between two consecutive missing positions. */
  lemma {:induction false} MidFound(es: seq<FileEntry>, m: WemMap, drop: seq<nat>, j: nat, d: nat, b: nat, mid: seq<FileEntry>)
    requires drop == MissingPositions(es, m) && j < |drop|
    requires b == Bound(drop, j + 1, |es|) && d == drop[j] && d < b <= |es| && mid == es[d + 1..b]
    ensures forall i :: 0 <= i < |mid| ==> Found(m, mid[i])
  {
    forall i | 0 <= i < |mid|
      ensures Found(m, mid[i])
    {
      FoundBetween(es, m, drop, j, d + 1 + i);
    }
  }

  /** Removing position `d` below `b` from `es[..b] + tail`. */
  lemma {:induction false} RemoveAt(es: seq<FileEntry>, b: nat, d: nat, tail: seq<FileEntry>, kept: seq<FileEntry>)
    requires d < b <= |es| && kept == es[..b] + tail
    ensures kept[..d] + kept[d + 1..] == es[..d] + es[d + 1..b] + tail
  {
    assert kept[..d] == es[..d];
    assert kept[d + 1..] == es[d + 1..b] + tail;
  }

  /** The survivors from a missing position on: those after it. */
  lemma {:induction false} SurvivingFrom(es: seq<FileEntry>, m: WemMap, d: nat, b: nat, mid: seq<FileEntry>)
    requires d < b <= |es| && !Found(m, es[d]) && mid == es[d + 1..b]
    requires forall i :: 0 <= i < |mid| ==> Found(m, mid[i])
    ensures Surviving(es[d..], m) == mid + Surviving(es[b..], m)
  {
    SurvivingAll(mid, m);
    assert es[d..] == ([es[d]] + mid) + es[b..];
    SurvivingAppend([es[d]] + mid, es[b..], m);
    SurvivingAppend([es[d]], mid, m);
    assert [es[d]][..0] == [];
  }

  /** One removal of the reverse loop: the entry at the next missing
      position goes, and what is left is as the invariant says. */
  lemma {:induction false} DropStep(es: seq<FileEntry>, m: WemMap, drop: seq<nat>, j: nat, kept: seq<FileEntry>, b: nat, d: nat)
    requires drop == MissingPositions(es, m) && j < |drop|
    requires b == Bound(drop, j + 1, |es|) && d == drop[j]
    requires d < b <= |es| && kept == es[..b] + Surviving(es[b..], m)
    ensures kept[..d] + kept[d + 1..] == es[..d] + Surviving(es[d..], m)
  {
    var mid := es[d + 1..b];
    MidFound(es, m, drop, j, d, b, mid);
    SurvivingFrom(es, m, d, b, mid);
    RemoveAt(es, b, d, Surviving(es[b..], m), kept);
  }

  /** Every entry before the first missing position is found. */
  lemma {:induction false} FoundBefore(es: seq<FileEntry>, m: WemMap, drop: seq<nat>, i: nat)
    requires drop == MissingPositions(es, m) && i < Bound(drop, 0, |es|) && i < |es|
    ensures Found(m, es[i])
  {
    forall q | 0 <= q < |drop|
      ensures drop[q] != i
    {
      if q > 0 {
        assert drop[0] < drop[q];
      }
    }
  }

  /** With no removal left, what is kept is the survivors. */
  lemma {:induction false} DropDone(es: seq<FileEntry>, m: WemMap, drop: seq<nat>, b: nat)
    requires drop == MissingPositions(es, m) && b == Bound(drop, 0, |es|) && b <= |es|
    ensures es[..b] + Surviving(es[b..], m) == Surviving(es, m)
  {
    var pre := es[..b];
    forall i | 0 <= i < |pre|
      ensures Found(m, pre[i])
    {
      FoundBefore(es, m, drop, i);
    }
    SurvivingAll(pre, m);
    assert es == pre + es[b..];
    SurvivingAppend(pre, es[b..], m);
  }

  /** The first loop of the drop: the positions of the entries with no
      loose file, in increasing order. */
  method CollectMissing(es: seq<FileEntry>, m: WemMap) returns (drop: seq<nat>)
    ensures drop == MissingPositions(es, m)
  {
    drop := [];
    for i := 0 to |es|
      invariant drop == MissingPositions(es[..i], m)
    {
      assert es[..i + 1][..i] == es[..i];
      if Lookup(m, es[i].id).None? {
        drop := drop + [i];
      }
    }
    assert es[..|es|] == es;
  }

  /** The second loop of the drop: the missing positions removed from the
      last to the first. */
  method RemoveMissing(es: seq<FileEntry>, m: WemMap, drop: seq<nat>) returns (kept: seq<FileEntry>)
    requires drop == MissingPositions(es, m)
    ensures kept == Surviving(es, m)
  {
    kept := es;
    var j := |drop|;
    assert es[|es|..] == [];
    while j > 0
      invariant 0 <= j <= |drop|
      invariant Bound(drop, j, |es|) <= |es|
      invariant kept == es[..Bound(drop, j, |es|)] + Surviving(es[Bound(drop, j, |es|)..], m)
    {
      j := j - 1;
      var b := Bound(drop, j + 1, |es|);
      if j + 1 < |drop| {
        assert drop[j] < drop[j + 1];
      }
      DropStep(es, m, drop, j, kept, b, drop[j]);
      kept := kept[..drop[j]] + kept[drop[j] + 1..];
    }
    DropDone(es, m, drop, Bound(drop, 0, |es|));
  }

  /** The drop of `PckProject::repack`: the missing positions collected,
      then removed from the last to the first. */
  method DropMissing(es: seq<FileEntry>, m: WemMap) returns (kept: seq<FileEntry>)
    ensures kept == Surviving(es, m)
  {
    var drop := CollectMissing(es, m);
    kept := RemoveMissing(es, m, drop);
  }

  // ------------------------------------------------------------ re-offset

  predicate AllFound(es: seq<FileEntry>, m: WemMap) {
    forall k :: 0 <= k < |es| ==> Found(m, es[k])
  }

  /** The recorded size of a found entry's WEM. */
  function SizeOf(m: WemMap, e: FileEntry): u32
    requires Found(m, e)
  {
    Lookup(m, e.id).value.fileSize
  }

  /** The recorded sizes of the entries, summed. */
  function Sizes(es: seq<FileEntry>, m: WemMap): nat
    requires AllFound(es, m)
  {
    if es == [] then 0
    else
      var n := |es| - 1;
      assert AllFound(es[..n], m) by {
        assert forall k :: 0 <= k < n ==> es[..n][k] == es[k];
      }
      Sizes(es[..n], m) + SizeOf(m, es[n])
  }

  lemma {:induction false} AllFoundPrefix(es: seq<FileEntry>, m: WemMap, i: nat)
    requires AllFound(es, m) && i <= |es|
    ensures AllFound(es[..i], m)
  {
    assert forall k :: 0 <= k < i ==> es[..i][k] == es[k];
  }

  lemma {:induction false} SizesSnoc(es: seq<FileEntry>, m: WemMap, i: nat)
    requires AllFound(es, m) && i < |es|
    ensures AllFound(es[..i], m) && AllFound(es[..i + 1], m)
    ensures Sizes(es[..i + 1], m) == Sizes(es[..i], m) + SizeOf(m, es[i])
  {
    AllFoundPrefix(es, m, i);
    AllFoundPrefix(es, m, i + 1);
    assert es[..i + 1][..i] == es[..i];
  }

  lemma {:induction false} SizesPrefix(es: seq<FileEntry>, m: WemMap, i: nat)
    requires AllFound(es, m) && i <= |es|
    ensures AllFound(es[..i], m) && Sizes(es[..i], m) <= Sizes(es, m)
    decreases |es| - i
  {
    AllFoundPrefix(es, m, i);
    if i < |es| {
      SizesSnoc(es, m, i);
      SizesPrefix(es, m, i + 1);
    } else {
      assert es[..i] == es;
    }
  }

  /** The entries laid end to end from `start`: each at the running sum of
      the recorded sizes before it, in u32 arithmetic, with its WEM's
      recorded size as its length; no alignment is applied. */
  function Relaid(es: seq<FileEntry>, m: WemMap, start: u32): (r: seq<FileEntry>)
    requires AllFound(es, m)
    ensures |r| == |es|
  {
    seq(|es|, i requires 0 <= i < |es| =>
      AllFoundPrefix(es, m, i);
      es[i].(offset := Wrap32(start + Sizes(es[..i], m)), length := SizeOf(m, es[i])))
  }

  /** The re-offset loop of `PckProject::repack`, over the entries in place. */
  method Reoffset(es: seq<FileEntry>, m: WemMap, start: u32) returns (r: seq<FileEntry>)
    requires AllFound(es, m)
    ensures r == Relaid(es, m, start)
  {
    ghost var spec := Relaid(es, m, start);
    ghost var before: nat := 0;
    r := [];
    var offset: u32 := start;
    AllFoundPrefix(es, m, 0);
    for i := 0 to |es|
      invariant AllFound(es[..i], m) && before == Sizes(es[..i], m)
      invariant offset == Wrap32(start + before)
      invariant r == spec[..i]
    {
      var entry := es[i];
      var size := Lookup(m, entry.id).value.fileSize;
      var r1 := r + [entry.(offset := offset, length := size)];
      var offset1 := Wrap32(offset as int + size);
      ghost var before1: nat := before + size;
      ReoffsetStep(es, m, start, spec, i, r, before, offset, r1, before1, offset1);
      r, offset, before := r1, offset1, before1;
    }
  }

  /** One turn of the re-offset loop keeps its invariant. */
  lemma {:induction false} ReoffsetStep(es: seq<FileEntry>, m: WemMap, start: u32, spec: seq<FileEntry>, i: nat,
                                        r: seq<FileEntry>, before: nat, offset: u32, r1: seq<FileEntry>, before1: nat, offset1: nat)
    requires AllFound(es, m) && i < |es| && spec == Relaid(es, m, start)
    requires AllFound(es[..i], m) && before == Sizes(es[..i], m) && offset == Wrap32(start + before) && r == spec[..i]
    requires Found(m, es[i]) && r1 == r + [es[i].(offset := offset, length := SizeOf(m, es[i]))]
    requires before1 == before + SizeOf(m, es[i]) && offset1 == Wrap32(offset + SizeOf(m, es[i]))
    ensures AllFound(es[..i + 1], m) && before1 == Sizes(es[..i + 1], m)
    ensures offset1 == Wrap32(start + before1) && r1 == spec[..i + 1]
  {
    RelaidAt(es, m, start, i, spec);
    SizesSnoc(es, m, i);
    NextOffset(start, before, SizeOf(m, es[i]), offset, before1);
    SnocPrefix(spec, i, r, r1);
  }

  lemma {:induction false} SnocPrefix(spec: seq<FileEntry>, i: nat, r: seq<FileEntry>, r1: seq<FileEntry>)
    requires i < |spec| && r == spec[..i] && r1 == r + [spec[i]]
    ensures r1 == spec[..i + 1]
  {
    assert spec[..i + 1] == spec[..i] + [spec[i]];
  }

  /** One step of the running u32 offset. */
  lemma {:induction false} NextOffset(start: u32, before: nat, size: u32, offset: u32, after: nat)
    requires offset == Wrap32(start + before) && after == before + size
    ensures Wrap32(offset + size) == Wrap32(start + after)
  {
    WrapAdd(start + before, size);
  }

  lemma {:induction false} RelaidAt(es: seq<FileEntry>, m: WemMap, start: u32, i: nat, spec: seq<FileEntry>)
    requires AllFound(es, m) && i < |es| && spec == Relaid(es, m, start)
    ensures AllFound(es[..i], m)
    ensures spec[i] == es[i].(offset := Wrap32(start + Sizes(es[..i], m)), length := SizeOf(m, es[i]))
  {
    AllFoundPrefix(es, m, i);
  }

  /** Without overflow the relaid entries are tightly packed: the first at
      `start`, each next one where the one before ends, whatever block size
      an entry asks to be aligned to; only offsets and lengths change. */
  lemma {:induction false} RelaidPacked(es: seq<FileEntry>, m: WemMap, start: u32, i: nat)
    requires AllFound(es, m) && start + Sizes(es, m) < U32_LIMIT && i < |es|
    ensures AllFound(es[..i], m)
    ensures Relaid(es, m, start)[i].offset == start + Sizes(es[..i], m)
    ensures Relaid(es, m, start)[i].length == SizeOf(m, es[i])
    ensures i == 0 ==> Relaid(es, m, start)[i].offset == start
    ensures i + 1 < |es| ==>
      Relaid(es, m, start)[i + 1].offset == Relaid(es, m, start)[i].offset + Relaid(es, m, start)[i].length
    ensures var e := Relaid(es, m, start)[i];
      e.id == es[i].id && e.paddingBlockSize == es[i].paddingBlockSize && e.languageId == es[i].languageId
  {
    SizesPrefix(es, m, i);
    SizesSnoc(es, m, i);
    SizesPrefix(es, m, i + 1);
    assert es[..0] == [];
  }

  // ------------------------------------------------------------ the payloads

  /** The bytes written for a WEM: the replacement's, else the loose file's. */
  function PayloadOf(w: WemMeta): Option<seq<byte>> {
    if w.data.Some? then w.data else w.file
  }

  /** The WEM write loop after the header: each value's bytes in map order;
      a value with neither fails the repack. */
  function WritePayloads(m: WemMap, w: Sink): (r: Result<Sink, RepackError>)
    ensures r.Ok? <==> HasBytes(m)
  {
    if m == [] then Ok(w)
    else
      var n := |m| - 1;
      assert HasBytes(m) <==> HasBytes(m[..n]) && (m[n].1.data.Some? || m[n].1.file.Some?) by {
        assert forall i :: 0 <= i < n ==> m[..n][i] == m[i];
      }
      match WritePayloads(m[..n], w)
      case Err(e) => Err(e)
      case Ok(w') =>
        match PayloadOf(m[n].1)
        case None => Err(Internal(m[n].1.idx))
        case Some(bytes) => Ok(w'.Write(bytes))
  }

  /** The bytes of every value, in map order. */
  function Blobs(m: WemMap): (r: seq<seq<byte>>)
    requires HasBytes(m)
    ensures |r| == |m|
  {
    seq(|m|, i requires 0 <= i < |m| => PayloadOf(m[i].1).value)
  }

  /** Written at the end of what the sink holds, the payloads follow it
      back to back. */
  lemma {:induction false} PayloadsAppend(m: WemMap, w: Sink)
    requires HasBytes(m) && w.AtEnd()
    ensures WritePayloads(m, w) == Ok(Sink(w.buf + Concat(Blobs(m)), |w.buf| + TotalLength(Blobs(m))))
  {
    if m == [] {
      var bs := Blobs(m);
      assert bs == [] && Concat(bs) == [] && TotalLength(bs) == 0;
      assert w.buf + Concat(bs) == w.buf;
    } else {
      var n := |m| - 1;
      assert HasBytes(m[..n]) by {
        assert forall i :: 0 <= i < n ==> m[..n][i] == m[i];
      }
      PayloadsAppend(m[..n], w);
      PayloadsStep(m, w, n, Sink(w.buf + Concat(Blobs(m[..n])), |w.buf| + TotalLength(Blobs(m[..n]))));
    }
  }

  /** One more payload written after those before it. */
  lemma {:induction false} PayloadsStep(m: WemMap, w: Sink, n: nat, w1: Sink)
    requires HasBytes(m) && n + 1 == |m| && HasBytes(m[..n])
    requires WritePayloads(m[..n], w) == Ok(w1) && w1 == Sink(w.buf + Concat(Blobs(m[..n])), |w.buf| + TotalLength(Blobs(m[..n])))
    ensures WritePayloads(m, w) == Ok(Sink(w.buf + Concat(Blobs(m)), |w.buf| + TotalLength(Blobs(m))))
  {
    var b := PayloadOf(m[n].1).value;
    BlobsSnoc(m, n, b);
    PayloadsUnfold(m, w, n, w1, b);
    SinkAppend(w, Concat(Blobs(m[..n])), TotalLength(Blobs(m[..n])), w1, b, Concat(Blobs(m)), TotalLength(Blobs(m)));
  }

  /** Writing `b` at the end of a sink that holds `w.buf + c`. */
  lemma {:induction false} SinkAppend(w: Sink, c: seq<byte>, t: nat, w1: Sink, b: seq<byte>, c2: seq<byte>, t2: nat)
    requires w1 == Sink(w.buf + c, |w.buf| + t) && t == |c| && c2 == c + b && t2 == t + |b|
    ensures w1.Write(b) == Sink(w.buf + c2, |w.buf| + t2)
  {
    assert w1.buf + b == w.buf + c2;
  }

  /** One unfolding of `WritePayloads` at the last value. */
  lemma {:induction false} PayloadsUnfold(m: WemMap, w: Sink, n: nat, w1: Sink, b: seq<byte>)
    requires n + 1 == |m| && WritePayloads(m[..n], w) == Ok(w1) && PayloadOf(m[n].1) == Some(b)
    ensures WritePayloads(m, w) == Ok(w1.Write(b))
  {
  }

  lemma {:induction false} BlobsSnoc(m: WemMap, n: nat, b: seq<byte>)
    requires HasBytes(m) && n + 1 == |m| && HasBytes(m[..n]) && PayloadOf(m[n].1) == Some(b)
    ensures Concat(Blobs(m)) == Concat(Blobs(m[..n])) + b
    ensures TotalLength(Blobs(m)) == TotalLength(Blobs(m[..n])) + |b|
  {
    var bs := Blobs(m);
    assert bs[..n] == Blobs(m[..n]);
    ConcatSnoc(bs, n);
    assert bs[..n + 1] == bs;
  }

  /** The loop of `write_all` and `io::copy` calls after the header. */
  method WriteWems(w: Sink, m: WemMap) returns (r: Result<Sink, RepackError>)
    ensures r == WritePayloads(m, w)
  {
    var out := w;
    for i := 0 to |m|
      invariant WritePayloads(m[..i], w) == Ok(out)
    {
      assert m[..i + 1][..i] == m[..i];
      var meta := m[i].1;
      if meta.data.Some? {
        out := out.Write(meta.data.value);
      } else if meta.file.Some? {
        out := out.Write(meta.file.value);
      } else {
        PayloadsFailed(m, w, i + 1);
        return Err(Internal(meta.idx));
      }
    }
    assert m[..|m|] == m;
    return Ok(out);
  }

  lemma {:induction false} PayloadsFailed(m: WemMap, w: Sink, k: nat)
    requires k <= |m| && WritePayloads(m[..k], w).Err?
    ensures WritePayloads(m, w) == WritePayloads(m[..k], w)
    decreases |m| - k
  {
    if k < |m| {
      assert m[..k + 1][..k] == m[..k];
      PayloadsErrStep(m[..k], m[..k + 1], w);
      PayloadsFailed(m, w, k + 1);
    } else {
      assert m[..k] == m;
    }
  }

  /** A failure stays a failure when one more value follows. */
  lemma {:induction false} PayloadsErrStep(p: WemMap, q: WemMap, w: Sink)
    requires q != [] && p == q[..|q| - 1] && WritePayloads(p, w).Err?
    ensures WritePayloads(q, w) == WritePayloads(p, w)
  {
  }

  // ------------------------------------------------------------ the repack

  /** The removal loop drops exactly the missing entries: the count falls by
      the number of entries with no loose WEM. */
  lemma {:induction false} SurvivingCount(es: seq<FileEntry>, m: WemMap)
    ensures |Surviving(es, m)| + |MissingPositions(es, m)| == |es|
  {
    if es != [] {
      SurvivingCount(es[..|es| - 1], m);
    }
  }

  /** Reordering the map keeps every value's bytes. */
  lemma {:induction false} HasBytesPerm(m: WemMap, s: WemMap)
    requires HasBytes(m) && multiset(s) == multiset(m)
    ensures HasBytes(s)
  {
    forall i | 0 <= i < |s|
      ensures s[i].1.data.Some? || s[i].1.file.Some?
    {
      assert s[i] in multiset(m);
    }
  }

  /** The loose WEMs' map, replaced, then sorted by index. */
  function LoadedMap(ws: seq<WemInfo>, rep: Replacements): WemMap {
    SortBy(ReplacedMap(MetaMap(ws), rep), MetaIdx)
  }

  /** Sorting does not change what is found under an id: the loose WEM's
      record as replaced; and every value has bytes to write. */
  lemma {:induction false} LoadedLookup(ws: seq<WemInfo>, rep: Replacements, k: u32)
    ensures Lookup(LoadedMap(ws, rep), k) ==
      match Lookup(MetaMap(ws), k) case None => None case Some(w) => Some(ReplaceMeta(rep, k, w))
    ensures HasBytes(LoadedMap(ws, rep))
  {
    var replaced := ReplacedMap(MetaMap(ws), rep);
    ReplacedLookup(MetaMap(ws), rep, k);
    LookupSameEntries(replaced, LoadedMap(ws, rep), k);
    MetaMapHasBytes(ws);
    ReplacedHasBytes(MetaMap(ws), rep);
    HasBytesPerm(replaced, LoadedMap(ws, rep));
  }

  /** A header entry is kept exactly when some loose WEM has its id. */
  lemma {:induction false} KeptEntries(es: seq<FileEntry>, ws: seq<WemInfo>, rep: Replacements, e: FileEntry)
    ensures e in Surviving(es, LoadedMap(ws, rep)) <==> e in es && exists i :: 0 <= i < |ws| && ws[i].id == e.id
  {
    SurvivingFound(es, LoadedMap(ws, rep), e);
    LoadedLookup(ws, rep, e.id);
    MetaMapHas(ws, e.id);
    IdsHas(ws, e.id);
  }

  /** What the sorted map holds for the last loose WEM with an id: its
      index, its file's size cut to 32 bits, and as payload the bytes that
      stand for it after replacement. The size is the file's even when a
      replacement supplies other bytes. */
  lemma {:induction false} LoadedLast(ws: seq<WemInfo>, rep: Replacements, i: nat)
    requires i < |ws| && forall j :: i < j < |ws| ==> ws[j].id != ws[i].id
    ensures Lookup(LoadedMap(ws, rep), ws[i].id).Some?
    ensures var v := Lookup(LoadedMap(ws, rep), ws[i].id).value;
      v.idx == ws[i].idx && v.fileSize == Wrap32(|ws[i].data|) &&
      PayloadOf(v) == Some(Replaced(rep, ws[i].idx, ws[i].id, ws[i].data))
  {
    LoadedLookup(ws, rep, ws[i].id);
    MetaMapLast(ws, ws[i].id, i);
  }

  /** The header and the map `PckProject::repack` writes: the loose WEMs
      loaded, replaced and sorted by index; the header's WEM entries with no
      loose WEM dropped and the others re-laid from the data start of the
      shortened header. */
  function RepackedPck(h: HeaderData, listing: seq<DirEntry>, parse: NameParser, rep: Replacements, enc: Encoder)
    : (r: Result<(HeaderData, WemMap), RepackError>)
    ensures r.Ok? <==> WemInfos(listing, parse).Ok?
  {
    match WemInfos(listing, parse)
    case Err(e) => Err(BadWemName(e))
    case Ok(ws) =>
      var m := LoadedMap(ws, rep);
      var kept := Surviving(h.wemEntries, m);
      var h1 := h.(wemEntries := kept);
      Ok((h1.(wemEntries := Relaid(kept, m, DataOffsetStart(h1, enc))), m))
  }

  /** The bytes of the repacked package: the header as `write_to` writes it,
      then the payloads. */
  function RepackedPckBytes(h: HeaderData, listing: seq<DirEntry>, parse: NameParser, rep: Replacements, enc: Encoder)
    : Result<seq<byte>, RepackError>
  {
    match RepackedPck(h, listing, parse, rep, enc)
    case Err(e) => Err(e)
    case Ok(p) =>
      match WritePayloads(p.1, WriteHeader(p.0, enc, Sink([], 0)))
      case Err(e) => Err(e)
      case Ok(w) => Ok(w.buf)
  }

  /** `PckProject::repack` on the header restored from the project's
      metadata (none when the file is missing): the output path it picks and
      the bytes it writes there. */
  method RepackPck(metadata: Option<HeaderData>, listing: seq<DirEntry>, parse: NameParser, rep: Replacements,
                   enc: Encoder, base: string, existing: set<string>) returns (r: Result<(string, seq<byte>), RepackError>)
    ensures metadata.None? ==> r == Err(MetadataMissing)
    ensures metadata.Some? ==>
      match RepackedPckBytes(metadata.value, listing, parse, rep, enc)
      case Err(e) => r == Err(e)
      case Ok(bytes) => r.Ok? && r.value.1 == bytes && IsOutputPath(base, existing, r.value.0)
  {
    if metadata.None? {
      return Err(MetadataMissing);
    }
    var header := new PckHeader(metadata.value);
    var read := ReadWemFiles(listing, parse);
    if read.Err? {
      return Err(BadWemName(read.error));
    }
    var sorted := Relay(header, read.value, rep, enc);
    RepackedPckFrom(metadata.value, listing, parse, rep, enc, read.value, sorted, header.Data());
    var path, k := OutputPath(base, existing);
    var w := header.WriteTo(Sink([], 0), enc);
    var out := WriteWems(w, sorted);
    if out.Err? {
      return Err(out.error);
    }
    return Ok((path, out.value.buf));
  }

  /** The middle of the repack: the map built, replaced and sorted, and the
      header's WEM entries dropped and re-laid in place. */
  method Relay(header: PckHeader, ws: seq<WemInfo>, rep: Replacements, enc: Encoder) returns (sorted: WemMap)
    modifies header
    ensures sorted == LoadedMap(ws, rep)
    ensures var kept := Surviving(old(header.wemEntries), sorted);
      header.Data() == old(header.Data()).(wemEntries := Relaid(kept, sorted, DataOffsetStart(old(header.Data()).(wemEntries := kept), enc)))
  {
    var m := BuildMetaMap(ws);
    m := ApplyMetaReplacements(m, rep);
    sorted := SortBy(m, MetaIdx);
    var kept := DropMissing(header.wemEntries, sorted);
    header.wemEntries := kept;
    var start := header.GetDataOffsetStart(enc);
    var relaid := Reoffset(kept, sorted, start);
    header.wemEntries := relaid;
  }

  /** The stages of the repack, taken one at a time, make up the whole. */
  lemma {:induction false} RepackedPckFrom(h: HeaderData, listing: seq<DirEntry>, parse: NameParser, rep: Replacements, enc: Encoder,
                                           ws: seq<WemInfo>, m: WemMap, hr: HeaderData)
    requires WemInfos(listing, parse) == Ok(ws) && m == LoadedMap(ws, rep)
    requires var kept := Surviving(h.wemEntries, m);
      hr == h.(wemEntries := Relaid(kept, m, DataOffsetStart(h.(wemEntries := kept), enc)))
    ensures RepackedPck(h, listing, parse, rep, enc) == Ok((hr, m))
  {
  }

  /** A header written to an empty stream ends where the cursor is. */
  lemma {:induction false} HeaderAtEnd(h: HeaderData, enc: Encoder)
    ensures WriteHeader(h, enc, Sink([], 0)).AtEnd()
    ensures |WriteHeader(h, enc, Sink([], 0)).buf| == HeaderSizeOf(h, enc) + 8
  {
    var buf := WriteHeader(h, enc, Sink([], 0)).buf;
    PckRoundTrip.WrittenLayout(h, enc, buf);
    LanguageBytesSize(h.stringTable, enc);
  }

  /** The repack fails only on a loose WEM name that does not parse: the
      internal failure for a WEM without bytes never happens. */
  lemma {:induction false} RepackedPckErrors(h: HeaderData, listing: seq<DirEntry>, parse: NameParser, rep: Replacements, enc: Encoder)
    ensures RepackedPckBytes(h, listing, parse, rep, enc).Err? <==> WemInfos(listing, parse).Err?
    ensures WemInfos(listing, parse).Err? ==>
      RepackedPckBytes(h, listing, parse, rep, enc) == Err(BadWemName(WemInfos(listing, parse).error))
  {
    if WemInfos(listing, parse).Ok? {
      LoadedLookup(WemInfos(listing, parse).value, rep, 0);
    }
  }

  /** The repacked package is its header followed by the WEMs' bytes in
      index order. */
  lemma {:induction false} RepackedPckLayout(h: HeaderData, listing: seq<DirEntry>, parse: NameParser, rep: Replacements,
                                             enc: Encoder, ws: seq<WemInfo>, hr: HeaderData, m: WemMap)
    requires WemInfos(listing, parse) == Ok(ws) && RepackedPck(h, listing, parse, rep, enc) == Ok((hr, m))
    ensures HasBytes(m)
    ensures RepackedPckBytes(h, listing, parse, rep, enc) == Ok(WriteHeader(hr, enc, Sink([], 0)).buf + Concat(Blobs(m)))
    ensures |WriteHeader(hr, enc, Sink([], 0)).buf| == HeaderSizeOf(hr, enc) + 8
  {
    LoadedLookup(ws, rep, 0);
    HeaderAtEnd(hr, enc);
    PayloadsAppend(m, WriteHeader(hr, enc, Sink([], 0)));
  }

  /** `from_reader` reads the re-laid header back from the repacked package. */
  lemma {:induction false} RepackedPckReadsBack(h: HeaderData, listing: seq<DirEntry>, parse: NameParser, rep: Replacements,
                                                enc: Encoder, dec: Decoder, ws: seq<WemInfo>, hr: HeaderData, m: WemMap)
    requires WemInfos(listing, parse) == Ok(ws) && RepackedPck(h, listing, parse, rep, enc) == Ok((hr, m))
    requires PckRoundTrip.Fits(hr, enc) && PckRoundTrip.DecodesBack(enc, dec)
    ensures RepackedPckBytes(h, listing, parse, rep, enc).Ok?
    ensures ParseHeader(RepackedPckBytes(h, listing, parse, rep, enc).value, dec) == Ok(hr.(headerLength := HeaderSizeOf(hr, enc)))
  {
    RepackedPckLayout(h, listing, parse, rep, enc, ws, hr, m);
    var front := WriteHeader(hr, enc, Sink([], 0)).buf;
    var bytes := front + Concat(Blobs(m));
    assert front <= bytes;
    PckRoundTrip.HeaderRoundTrip(hr, enc, dec, bytes);
  }

  // ------------------------------------------- entries that find their bytes

  /** A value as the directory loop stores it for a file under 4 GiB: the
      loose file's bytes, not a replacement, with the file's size. */
  predicate Loose(v: WemMeta) {
    v.data.None? && v.file.Some? && v.fileSize == |v.file.value|
  }

  predicate AllLoose(m: WemMap) {
    forall i :: 0 <= i < |m| ==> Loose(m[i].1)
  }

  lemma {:induction false} InsertLoose(m: WemMap, k: u32, v: WemMeta)
    requires AllLoose(m) && Loose(v)
    ensures AllLoose(Insert(m, k, v))
  {
    if m != [] && m[0].0 != k {
      assert AllLoose(m[1..]) by {
        assert forall i :: 0 <= i < |m| - 1 ==> m[1..][i] == m[i + 1];
      }
      InsertLoose(m[1..], k, v);
    }
  }

  lemma {:induction false} MetaMapLoose(ws: seq<WemInfo>)
    requires forall k :: 0 <= k < |ws| ==> |ws[k].data| < U32_LIMIT
    ensures AllLoose(MetaMap(ws))
  {
    if ws != [] {
      var n := |ws| - 1;
      assert forall k :: 0 <= k < n ==> ws[..n][k] == ws[k];
      MetaMapLoose(ws[..n]);
      InsertLoose(MetaMap(ws[..n]), ws[n].id, MetaOf(ws[n]));
    }
  }

  /** Without replacements the sorted map holds the loose files as loaded. */
  lemma {:induction false} LoadedUnreplaced(ws: seq<WemInfo>)
    requires forall k :: 0 <= k < |ws| ==> |ws[k].data| < U32_LIMIT
    ensures AllLoose(LoadedMap(ws, map[]))
  {
    var m0 := MetaMap(ws);
    assert ReplacedMap(m0, map[]) == m0;
    var m := LoadedMap(ws, map[]);
    MetaMapLoose(ws);
    forall k | 0 <= k < |m|
      ensures Loose(m[k].1)
    {
      assert m[k] in multiset(m0);
    }
  }

  /** Each entry of the sorted map is what is found under its key. */
  lemma {:induction false} LoadedEntry(ws: seq<WemInfo>, rep: Replacements, m: WemMap, k: nat)
    requires m == LoadedMap(ws, rep) && k < |m|
    ensures Lookup(m, m[k].0) == Some(m[k].1)
  {
    var replaced := ReplacedMap(MetaMap(ws), rep);
    ReplacedLookup(MetaMap(ws), rep, m[k].0);
    assert m[k] in multiset(replaced);
    LookupIn(replaced, m[k].0, m[k].1);
    LookupSameEntries(replaced, m, m[k].0);
  }

  /** Entries that follow the map one for one and whose recorded sizes are
      their payloads' lengths are laid out at the payloads' running sums. */
  lemma {:induction false} SizesArePayloads(es: seq<FileEntry>, m: WemMap, i: nat)
    requires HasBytes(m) && |es| == |m| && AllFound(es, m) && i <= |es|
    requires forall k :: 0 <= k < |es| ==> SizeOf(m, es[k]) == |Blobs(m)[k]|
    ensures AllFound(es[..i], m) && Sizes(es[..i], m) == TotalLength(Blobs(m)[..i])
  {
    AllFoundPrefix(es, m, i);
    if i == 0 {
      assert es[..i] == [] && Blobs(m)[..i] == [];
    } else {
      SizesArePayloads(es, m, i - 1);
      SizesSnoc(es, m, i - 1);
      ConcatSnoc(Blobs(m), i - 1);
    }
  }

  /** In the tidy case each relaid entry points at its payload: when the
      payloads follow `start` in the written bytes and the package fits in
      u32 offsets, the bytes at entry `i`'s offset and length are payload
      `i`. */
  lemma {:induction false} RelaidWindows(es: seq<FileEntry>, m: WemMap, start: u32, bytes: seq<byte>, i: nat, r: seq<FileEntry>)
    requires HasBytes(m) && |es| == |m| && AllFound(es, m) && i < |es| && r == Relaid(es, m, start)
    requires forall k :: 0 <= k < |es| ==> SizeOf(m, es[k]) == |Blobs(m)[k]|
    requires start + TotalLength(Blobs(m)) < U32_LIMIT && At(bytes, start, Concat(Blobs(m)))
    ensures r[i].length == |Blobs(m)[i]|
    ensures At(bytes, r[i].offset, Blobs(m)[i])
  {
    SizesArePayloads(es, m, i);
    RelaidAt(es, m, start, i, r);
    TotalLengthPrefix(Blobs(m), i);
    var lo := Sizes(es[..i], m);
    assert start + lo < U32_LIMIT;
    assert r[i].offset == start + lo;
    ConcatWindow(bytes, start, Blobs(m), i, lo);
  }

  /** Blob `i` stands where the lengths before it end. */
  lemma {:induction false} ConcatWindow(bytes: seq<byte>, start: nat, bs: seq<seq<byte>>, i: nat, lo: nat)
    requires At(bytes, start, Concat(bs)) && i < |bs| && lo == TotalLength(bs[..i])
    ensures At(bytes, start + lo, bs[i])
  {
    ConcatAt(bs, i);
    AtSub(bytes, start, Concat(bs), lo, lo + |bs[i]|);
  }

  /** With nothing replaced and every loose file under 4 GiB, the recorded
      sizes of header entries that follow the sorted map one for one are
      the lengths of the payloads written for them. */
  lemma {:induction false} UnreplacedSizes(ws: seq<WemInfo>, m: WemMap, kept: seq<FileEntry>)
    requires forall k :: 0 <= k < |ws| ==> |ws[k].data| < U32_LIMIT
    requires m == LoadedMap(ws, map[]) && HasBytes(m) && AllFound(kept, m)
    requires |kept| == |m| && forall k :: 0 <= k < |m| ==> kept[k].id == m[k].0
    ensures forall k :: 0 <= k < |kept| ==> SizeOf(m, kept[k]) == |Blobs(m)[k]|
  {
    LoadedUnreplaced(ws);
    forall k | 0 <= k < |kept|
      ensures SizeOf(m, kept[k]) == |Blobs(m)[k]|
    {
      LoadedEntry(ws, map[], m, k);
      assert Loose(m[k].1);
    }
  }

  /** The tidy case on the parts of the repack: entries that follow the
      unreplaced sorted map one for one, relaid from where the payloads
      begin, point at their payloads. */
  lemma {:induction false} TidyWindows(ws: seq<WemInfo>, m: WemMap, kept: seq<FileEntry>, start: u32,
                                       relaid: seq<FileEntry>, front: seq<byte>, i: nat)
    requires forall k :: 0 <= k < |ws| ==> |ws[k].data| < U32_LIMIT
    requires m == LoadedMap(ws, map[]) && HasBytes(m) && AllFound(kept, m)
    requires |kept| == |m| && forall k :: 0 <= k < |m| ==> kept[k].id == m[k].0
    requires relaid == Relaid(kept, m, start) && start + TotalLength(Blobs(m)) < U32_LIMIT && |front| == start && i < |m|
    ensures relaid[i].length == |Blobs(m)[i]|
    ensures At(front + Concat(Blobs(m)), relaid[i].offset, Blobs(m)[i])
  {
    UnreplacedSizes(ws, m, kept);
    var bytes := front + Concat(Blobs(m));
    AtAfter(front, Concat(Blobs(m)), bytes);
    RelaidWindows(kept, m, start, bytes, i, relaid);
  }

  /** When nothing is replaced, every loose file is under 4 GiB, the kept
      header entries follow the sorted map one for one and the package fits
      in u32 offsets, every WEM entry of the repacked package points at the
      payload written for it, the loose file of the same id. */
  lemma {:induction false} RepackedEntriesFindPayloads(h: HeaderData, listing: seq<DirEntry>, parse: NameParser, enc: Encoder,
                                                       ws: seq<WemInfo>, hr: HeaderData, m: WemMap, i: nat)
    requires WemInfos(listing, parse) == Ok(ws) && RepackedPck(h, listing, parse, map[], enc) == Ok((hr, m))
    requires forall k :: 0 <= k < |ws| ==> |ws[k].data| < U32_LIMIT
    requires |hr.wemEntries| == |m| && forall k :: 0 <= k < |m| ==> hr.wemEntries[k].id == m[k].0
    requires HasBytes(m) && HeaderSizeOf(hr, enc) + 8 + TotalLength(Blobs(m)) < U32_LIMIT && i < |m|
    ensures RepackedPckBytes(h, listing, parse, map[], enc).Ok?
    ensures hr.wemEntries[i].length == |Blobs(m)[i]|
    ensures At(RepackedPckBytes(h, listing, parse, map[], enc).value, hr.wemEntries[i].offset, Blobs(m)[i])
  {
    var kept := Surviving(h.wemEntries, m);
    var h1 := h.(wemEntries := kept);
    var start := DataOffsetStart(h1, enc);
    assert m == LoadedMap(ws, map[]) && hr == h1.(wemEntries := Relaid(kept, m, start));
    assert start == HeaderSizeOf(hr, enc) + 8;
    forall k | 0 <= k < |m|
      ensures kept[k].id == m[k].0
    {
      assert hr.wemEntries[k].id == kept[k].id;
    }
    RepackedPckLayout(h, listing, parse, map[], enc, ws, hr, m);
    TidyWindows(ws, m, kept, start, hr.wemEntries, WriteHeader(hr, enc, Sink([], 0)).buf, i);
  }

  // ------------------------------------------------------------ the dump

  /** The files `dump_pck` writes into the project directory: WEM `i` under
      the name made of its index and id, holding what a reader bounded to
      the entry reads from its calculated position. */
  function PckDumped(es: seq<FileEntry>, ps: seq<u32>, source: seq<byte>): (r: seq<DirEntry>)
    requires |ps| == |es|
    ensures |r| == |es|
  {
    seq(|es|, i requires 0 <= i < |es| => DirEntry(DumpStem(i, es[i].id, |es|), "wem", true, Window(source, ps[i], es[i].length)))
  }

  /** The WEM loop of `dump_pck` over a package whose positions have been
      calculated: a bounded reader per entry, copied out to the end. */
  method DumpPck(header: PckHeader, source: seq<byte>, cursor: nat) returns (files: seq<DirEntry>)
    requires |header.wemPositions| == |header.wemEntries|
    ensures files == PckDumped(header.wemEntries, header.wemPositions, source)
  {
    ghost var spec := PckDumped(header.wemEntries, header.wemPositions, source);
    var n := |header.wemEntries|;
    var at := cursor;
    files := [];
    for i := 0 to n
      invariant files == spec[..i]
    {
      var entry := header.wemEntries[i];
      var name := DumpStem(i, entry.id, n);
      var r := header.WemReader(source, at, i);
      var reader := r.value;
      var contents := reader.ReadToEnd(8192);
      at := reader.cursor;
      files := files + [DirEntry(name, "wem", true, contents)];
    }
  }

  /** Every dumped file is a loose WEM whose name reads back as its index in
      the table and its entry's id. */
  lemma {:induction false} PckDumpedReadBack(es: seq<FileEntry>, ps: seq<u32>, source: seq<byte>, i: nat)
    requires |ps| == |es| < U32_LIMIT && i < |es|
    ensures IsWemFile(PckDumped(es, ps, source)[i])
    ensures ParseWemName(PckDumped(es, ps, source)[i].stem) == Ok((i as u32, es[i].id))
    ensures PckDumped(es, ps, source)[i].contents == Window(source, ps[i], es[i].length)
  {
    DumpNameRoundTrip(i, es[i].id, |es|);
  }

  /** What the repack loads from a dumped project: WEM `i` with index `i`,
      its entry's id and the bytes dumped for it. */
  function PckDumpedInfos(es: seq<FileEntry>, ps: seq<u32>, source: seq<byte>): (r: seq<WemInfo>)
    requires |ps| == |es| < U32_LIMIT
    ensures |r| == |es|
  {
    seq(|es|, i requires 0 <= i < |es| => WemInfo(i, es[i].id, Window(source, ps[i], es[i].length)))
  }

  lemma {:induction false} PckDumpedLoads(es: seq<FileEntry>, ps: seq<u32>, source: seq<byte>)
    requires |ps| == |es| < U32_LIMIT
    ensures WemInfos(PckDumped(es, ps, source), ParseWemName) == Ok(PckDumpedInfos(es, ps, source))
  {
    var listing := PckDumped(es, ps, source);
    var ws := PckDumpedInfos(es, ps, source);
    forall k | 0 <= k < |listing|
      ensures IsWemFile(listing[k]) && listing[k].contents == ws[k].data
      ensures ParseWemName(listing[k].stem) == Ok((ws[k].idx, ws[k].id))
    {
      PckDumpedReadBack(es, ps, source, k);
    }
    LoadsAs(listing, ParseWemName, ws);
  }

  /** Entries whose ids all have a loose WEM all survive the drop. */
  lemma {:induction false} AllKept(es: seq<FileEntry>, ws: seq<WemInfo>, rep: Replacements)
    requires |ws| == |es| && forall k :: 0 <= k < |es| ==> ws[k].id == es[k].id
    ensures Surviving(es, LoadedMap(ws, rep)) == es
  {
    var m := LoadedMap(ws, rep);
    forall k | 0 <= k < |es|
      ensures Found(m, es[k])
    {
      LoadedLookup(ws, rep, es[k].id);
      MetaMapHas(ws, es[k].id);
      IdsHas(ws, es[k].id);
    }
    SurvivingAll(es, m);
  }

  /** Re-laying changes only offsets and lengths. */
  lemma {:induction false} RelaidFields(es: seq<FileEntry>, m: WemMap, start: u32, r: seq<FileEntry>)
    requires AllFound(es, m) && r == Relaid(es, m, start)
    ensures |r| == |es|
    ensures forall i :: 0 <= i < |r| ==>
      r[i].id == es[i].id && r[i].paddingBlockSize == es[i].paddingBlockSize && r[i].languageId == es[i].languageId
  {
  }

  /** Repacking a dumped package drops none of its WEM entries: each keeps
      its place, its id, its alignment and its language, whatever the
      replacements. */
  lemma {:induction false} DumpThenRepackKeepsEntries(h: HeaderData, ps: seq<u32>, source: seq<byte>, listing: seq<DirEntry>, rep: Replacements, enc: Encoder)
    requires |ps| == |h.wemEntries| < U32_LIMIT && listing == PckDumped(h.wemEntries, ps, source)
    ensures RepackedPck(h, listing, ParseWemName, rep, enc).Ok?
    ensures var hr := RepackedPck(h, listing, ParseWemName, rep, enc).value.0;
      |hr.wemEntries| == |h.wemEntries| &&
      forall i :: 0 <= i < |hr.wemEntries| ==>
        hr.wemEntries[i].id == h.wemEntries[i].id && hr.wemEntries[i].paddingBlockSize == h.wemEntries[i].paddingBlockSize &&
        hr.wemEntries[i].languageId == h.wemEntries[i].languageId
  {
    var es := h.wemEntries;
    var ws := PckDumpedInfos(es, ps, source);
    PckDumpedLoads(es, ps, source);
    DumpedInfosIds(es, ps, source, ws);
    KeepsEntriesFrom(h, listing, rep, enc, ws);
  }

  /** The dumped WEMs carry the header entries' ids, in order. */
  lemma {:induction false} DumpedInfosIds(es: seq<FileEntry>, ps: seq<u32>, source: seq<byte>, ws: seq<WemInfo>)
    requires |ps| == |es| < U32_LIMIT && ws == PckDumpedInfos(es, ps, source)
    ensures |ws| == |es| && forall k :: 0 <= k < |ws| ==> ws[k].id == es[k].id
  {
  }

  /** A listing that loads one WEM per header entry, with the entries' ids,
      repacks to entries with the same ids, alignments and languages. */
  lemma {:induction false} KeepsEntriesFrom(h: HeaderData, listing: seq<DirEntry>, rep: Replacements, enc: Encoder, ws: seq<WemInfo>)
    requires WemInfos(listing, ParseWemName) == Ok(ws)
    requires |ws| == |h.wemEntries| && forall k :: 0 <= k < |ws| ==> ws[k].id == h.wemEntries[k].id
    ensures RepackedPck(h, listing, ParseWemName, rep, enc).Ok?
    ensures var hr := RepackedPck(h, listing, ParseWemName, rep, enc).value.0;
      |hr.wemEntries| == |h.wemEntries| &&
      forall i :: 0 <= i < |hr.wemEntries| ==>
        hr.wemEntries[i].id == h.wemEntries[i].id && hr.wemEntries[i].paddingBlockSize == h.wemEntries[i].paddingBlockSize &&
        hr.wemEntries[i].languageId == h.wemEntries[i].languageId
  {
    var es := h.wemEntries;
    AllKept(es, ws, rep);
    var m := LoadedMap(ws, rep);
    assert h.(wemEntries := es) == h;
    RelaidFields(es, m, DataOffsetStart(h, enc), RepackedPck(h, listing, ParseWemName, rep, enc).value.0.wemEntries);
  }
}
