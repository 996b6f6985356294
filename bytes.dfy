/** Byte-level primitives shared by the sound-bank and package codecs: the
    fixed-width integers of the formats, little-endian encoding (byteorder's
    `LE`), bounded reads from a seekable byte stream, and a seekable writer with
    the semantics of a file or of `std::io::Cursor<Vec<u8>>`. */
module Bytes {

  datatype Option<+T> = None | Some(value: T)

  datatype Result<+T, +E> = Ok(value: T) | Err(error: E)

  type byte = x: int | 0 <= x < 256

  const U32_LIMIT: int := 0x1_0000_0000

  type u32 = x: int | 0 <= x < U32_LIMIT

  /** `x as u32` for a non-negative `x`, and the wrapping `+=` on `u32` of a
      release build: the value modulo 2^32. */
  function Wrap32(x: int): (r: u32)
    ensures 0 <= x < U32_LIMIT ==> r == x
  {
    x % U32_LIMIT
  }

  /** The four bytes byteorder's `write_u32::<LE>` emits, least significant first. */
  function LeU32(x: u32): (r: seq<byte>)
    ensures |r| == 4
  {
    [x % 256, (x / 256) % 256, (x / 65536) % 256, x / 16777216]
  }

  /** The value byteorder's `read_u32::<LE>` assembles from four bytes. */
  function U32FromLe(b: seq<byte>): u32
    requires |b| == 4
  {
    b[0] as int + 256 * b[1] as int + 65536 * b[2] as int + 16777216 * b[3] as int
  }

  lemma {:induction false} LeU32RoundTrip(x: u32)
    ensures U32FromLe(LeU32(x)) == x
  {
    var b := LeU32(x);
    assert x == x % 256 + 256 * (x / 256);
    assert x / 256 == (x / 256) % 256 + 256 * (x / 65536);
    assert x / 65536 == (x / 65536) % 256 + 256 * (x / 16777216);
  }

  /** `read_exact` of `n` bytes after seeking to `pos`: fails when the stream
      ends first. Seeking past the end is allowed; the read then fails. */
  function Slice(data: seq<byte>, pos: nat, n: nat): (r: Option<seq<byte>>)
    ensures r.Some? ==> pos + n <= |data| && |r.value| == n
  {
    if pos + n <= |data| then Some(data[pos..pos + n]) else None
  }

  /** `read_u32::<LE>` at `pos`. */
  function U32At(data: seq<byte>, pos: nat): (r: Option<u32>)
    ensures r.Some? ==> pos + 4 <= |data|
  {
    if pos + 4 <= |data| then Some(U32FromLe(data[pos..pos + 4])) else None
  }

  /** `read_u8` at `pos`. */
  function ByteAt(data: seq<byte>, pos: nat): (r: Option<byte>)
    ensures r.Some? ==> pos < |data|
  {
    if pos < |data| then Some(data[pos]) else None
  }

  /** `bytes` stand in `data` from position `pos`. */
  ghost predicate At(data: seq<byte>, pos: nat, bytes: seq<byte>) {
    pos + |bytes| <= |data| && data[pos..pos + |bytes|] == bytes
  }

  lemma {:induction false} AtSplit(data: seq<byte>, pos: nat, a: seq<byte>, b: seq<byte>)
    requires At(data, pos, a + b)
    ensures At(data, pos, a) && At(data, pos + |a|, b)
  {
    assert data[pos..pos + |a|] == (a + b)[..|a|];
    assert data[pos + |a|..pos + |a| + |b|] == (a + b)[|a|..];
  }

  /** `AtSplit` with the position of the second part named. */
  lemma {:induction false} AtSplitAt(data: seq<byte>, pos: nat, a: seq<byte>, b: seq<byte>, p: nat)
    requires At(data, pos, a + b) && p == pos + |a|
    ensures At(data, pos, a) && At(data, p, b)
  {
    AtSplit(data, pos, a, b);
  }

  /** Three parts, with the positions of the last two named. */
  lemma {:induction false} AtSplit3(data: seq<byte>, pos: nat, a: seq<byte>, b: seq<byte>, c: seq<byte>, p: nat, q: nat)
    requires At(data, pos, a + b + c) && p == pos + |a| && q == p + |b|
    ensures At(data, pos, a) && At(data, p, b) && At(data, q, c)
  {
    AtSplitAt(data, pos, a + b, c, q);
    AtSplitAt(data, pos, a, b, p);
  }

  /** A run of bytes inside `bytes` stands where `bytes` puts it. */
  lemma {:induction false} AtSub(data: seq<byte>, pos: nat, bytes: seq<byte>, lo: nat, hi: nat)
    requires At(data, pos, bytes) && lo <= hi <= |bytes|
    ensures At(data, pos + lo, bytes[lo..hi])
  {
    forall k | lo <= k < hi ensures data[pos + k] == bytes[k] {
      assert data[pos..pos + |bytes|][k] == data[pos + k];
    }
    assert data[pos + lo..pos + hi] == bytes[lo..hi];
  }

  lemma {:induction false} U32AtEncoded(data: seq<byte>, pos: nat, x: u32)
    requires At(data, pos, LeU32(x))
    ensures U32At(data, pos) == Some(x)
  {
    LeU32RoundTrip(x);
  }

  function Zeros(n: nat): (r: seq<byte>)
    ensures |r| == n
  {
    seq(n, _ => 0)
  }

  /** The contents of a file after writing `bytes` at `pos`: the bytes there
      are replaced, the file grows when the write reaches past its end, and a
      gap between the old end and `pos` reads as zeros. */
  function Overwrite(buf: seq<byte>, pos: nat, bytes: seq<byte>): (r: seq<byte>)
    ensures |r| == if bytes == [] || pos + |bytes| <= |buf| then |buf| else pos + |bytes|
    ensures pos >= |buf| && bytes != [] ==> r == buf + Zeros(pos - |buf|) + bytes
    ensures pos == |buf| ==> r == buf + bytes
    ensures bytes == [] ==> r == buf
  {
    if bytes == [] then buf else
    var padded := if pos <= |buf| then buf else buf + Zeros(pos - |buf|);
    padded[..pos] + bytes + (if pos + |bytes| < |padded| then padded[pos + |bytes|..] else [])
  }

  /** Byte by byte, a write replaces what it covers, keeps the rest of the
      file, and reads as zeros in a gap it opens past the old end. */
  lemma {:induction false} OverwriteBytes(buf: seq<byte>, pos: nat, bytes: seq<byte>)
    ensures bytes != [] ==> Overwrite(buf, pos, bytes)[pos..pos + |bytes|] == bytes
    ensures forall k :: 0 <= k < |buf| && !(pos <= k < pos + |bytes|) ==> Overwrite(buf, pos, bytes)[k] == buf[k]
    ensures forall k :: |buf| <= k < pos && k < |Overwrite(buf, pos, bytes)| ==> Overwrite(buf, pos, bytes)[k] == 0
  {
  }

  /** A writer that is `io::Write + io::Seek` over a file: its contents and
      its cursor. */
  datatype Sink = Sink(buf: seq<byte>, pos: nat) {

    /** `write_all(bytes)`: the bytes land at the cursor, which moves past them. */
    function Write(bytes: seq<byte>): (w: Sink)
      ensures w.pos == pos + |bytes|
      ensures pos >= |buf| && bytes != [] ==> w.buf == buf + Zeros(pos - |buf|) + bytes && w.AtEnd()
      ensures pos == |buf| ==> w.buf == buf + bytes
    {
      Sink(Overwrite(buf, pos, bytes), pos + |bytes|)
    }

    /** `seek(SeekFrom::Start(p))`: only the cursor moves. */
    function Seek(p: nat): (w: Sink)
      ensures w.buf == buf && w.pos == p
    {
      Sink(buf, p)
    }

    /** The cursor is at the end of what has been written: writes append. */
    predicate AtEnd() {
      pos == |buf|
    }
  }

  /** Two consecutive writes put down the same bytes as one write of both. */
  lemma {:induction false} WriteTwice(w: Sink, a: seq<byte>, b: seq<byte>)
    ensures w.Write(a).Write(b) == w.Write(a + b)
  {
    if a == [] {
      assert a + b == b;
    } else if b == [] {
      assert a + b == a;
    } else {
      WriteTwiceBytes(w, a, b);
    }
  }

  lemma {:induction false} WriteTwiceBytes(w: Sink, a: seq<byte>, b: seq<byte>)
    requires a != [] && b != []
    ensures w.Write(a).Write(b).buf == w.Write(a + b).buf
  {
    var p := w.pos;
    var m := w.Write(a).buf;
    var x := w.Write(a).Write(b).buf;
    var y := w.Write(a + b).buf;
    assert |x| == |y|;
    forall k | 0 <= k < |x| ensures x[k] == y[k] {
      if p <= k < p + |a| {
        assert x[k] == m[k] == a[k - p];
        assert y[k] == (a + b)[k - p];
      } else if p + |a| <= k < p + |a| + |b| {
        assert x[k] == b[k - p - |a|];
        assert y[k] == (a + b)[k - p];
      } else if k < |w.buf| {
        assert x[k] == m[k] == w.buf[k];
      } else {
        assert x[k] == m[k] == 0;
      }
    }
  }

  /** Bytes written at or beyond the end of `prefix` leave `prefix` in place. */
  lemma {:induction false} WriteKeepsPrefix(w: Sink, prefix: seq<byte>, bytes: seq<byte>)
    requires prefix <= w.buf && |prefix| <= w.pos
    ensures prefix <= w.Write(bytes).buf
  {
    var r := w.Write(bytes).buf;
    assert forall k :: 0 <= k < |prefix| ==> r[k] == w.buf[k];
  }

  /** `bytes` stand in `data` from position `|front|` whenever `front + bytes`
      begins `data`. */
  lemma {:induction false} AtAfter(front: seq<byte>, bytes: seq<byte>, data: seq<byte>)
    requires front + bytes <= data
    ensures At(data, |front|, bytes)
  {
    assert data[|front|..|front| + |bytes|] == (front + bytes)[|front|..];
  }

  /** What stands in a stream stands in every stream it begins. */
  lemma {:induction false} AtPrefix(a: seq<byte>, b: seq<byte>, pos: nat, bytes: seq<byte>)
    requires At(a, pos, bytes) && a <= b
    ensures At(b, pos, bytes)
  {
    assert b[pos..pos + |bytes|] == a[pos..pos + |bytes|];
  }

  lemma {:induction false} PrefixTrans(a: seq<byte>, b: seq<byte>, c: seq<byte>)
    requires a <= b && b <= c
    ensures a <= c
  {
  }

  /** A write after a seek leaves its bytes at the seek position. */
  lemma {:induction false} WriteLands(w: Sink, p: nat, bytes: seq<byte>)
    requires bytes != []
    ensures At(w.Seek(p).Write(bytes).buf, p, bytes)
  {
  }

  /** A write after a seek leaves alone the bytes it does not cover. */
  lemma {:induction false} WriteElsewhere(w: Sink, p: nat, bytes: seq<byte>, q: nat, kept: seq<byte>)
    requires At(w.buf, q, kept) && (bytes == [] || q + |kept| <= p || p + |bytes| <= q)
    ensures At(w.Seek(p).Write(bytes).buf, q, kept)
  {
    var r := w.Seek(p).Write(bytes).buf;
    forall k | q <= k < q + |kept| ensures r[k] == w.buf[k] {
    }
    assert r[q..q + |kept|] == w.buf[q..q + |kept|];
  }

  /** The concatenation of byte blobs. */
  function Concat(blobs: seq<seq<byte>>): (r: seq<byte>)
    ensures |r| == TotalLength(blobs)
  {
    if blobs == [] then [] else Concat(blobs[..|blobs| - 1]) + blobs[|blobs| - 1]
  }

  /** The sum of the blobs' lengths. */
  function TotalLength(blobs: seq<seq<byte>>): nat {
    if blobs == [] then 0 else TotalLength(blobs[..|blobs| - 1]) + |blobs[|blobs| - 1]|
  }

  /** Blob `i` of a concatenation stands at the sum of the lengths before it. */
  lemma {:induction false} ConcatAt(blobs: seq<seq<byte>>, i: nat)
    requires i < |blobs|
    ensures TotalLength(blobs[..i]) + |blobs[i]| <= TotalLength(blobs)
    ensures Concat(blobs)[TotalLength(blobs[..i])..TotalLength(blobs[..i]) + |blobs[i]|] == blobs[i]
  {
    var n := |blobs| - 1;
    assert blobs[..n + 1] == blobs;
    if i == n {
      assert blobs[..i] == blobs[..n];
    } else {
      assert blobs[..n][..i] == blobs[..i];
      assert blobs[..n][i] == blobs[i];
      ConcatAt(blobs[..n], i);
      var c := Concat(blobs[..n]);
      var lo := TotalLength(blobs[..i]);
      assert Concat(blobs) == c + blobs[n];
      assert Concat(blobs)[lo..lo + |blobs[i]|] == c[lo..lo + |blobs[i]|];
    }
  }

  /** The lengths of a prefix never exceed the lengths of the whole. */
  lemma {:induction false} TotalLengthPrefix(blobs: seq<seq<byte>>, i: nat)
    requires i <= |blobs|
    ensures TotalLength(blobs[..i]) <= TotalLength(blobs)
  {
    if i < |blobs| {
      var n := |blobs| - 1;
      assert blobs[..n + 1] == blobs;
      assert blobs[..n][..i] == blobs[..i];
      TotalLengthPrefix(blobs[..n], i);
    } else {
      assert blobs[..i] == blobs;
    }
  }
  /** Appending one blob to the list appends it to the concatenation. */
  lemma {:induction false} ConcatSnoc(blobs: seq<seq<byte>>, i: nat)
    requires i < |blobs|
    ensures Concat(blobs[..i + 1]) == Concat(blobs[..i]) + blobs[i]
    ensures TotalLength(blobs[..i + 1]) == TotalLength(blobs[..i]) + |blobs[i]|
  {
    assert blobs[..i + 1][..i] == blobs[..i];
  }

  /** Blobs of one width `w` laid end to end take `w` bytes each. */
  lemma {:induction false} TotalLengthUniform(blobs: seq<seq<byte>>, w: nat)
    requires forall k :: 0 <= k < |blobs| ==> |blobs[k]| == w
    ensures TotalLength(blobs) == w * |blobs|
  {
    if blobs != [] {
      var n := |blobs| - 1;
      TotalLengthUniform(blobs[..n], w);
      assert w * |blobs| == w * n + w;
    }
  }

  /** Blob `i` of a concatenation of blobs of one width `w` stands `w * i`
      bytes after its start. */
  lemma {:induction false} ConcatUniformAt(data: seq<byte>, pos: nat, blobs: seq<seq<byte>>, w: nat, i: nat, q: nat)
    requires At(data, pos, Concat(blobs))
    requires forall k :: 0 <= k < |blobs| ==> |blobs[k]| == w
    requires i < |blobs| && q == pos + w * i
    ensures At(data, q, blobs[i])
  {
    ConcatAt(blobs, i);
    TotalLengthUniform(blobs[..i], w);
    var lo := TotalLength(blobs[..i]);
    AtSub(data, pos, Concat(blobs), lo, lo + |blobs[i]|);
  }
}
