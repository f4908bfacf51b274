/** The byte stream a tree digest is computed over: length-framed paths and contents. */
module Framing {
  import opened Prelude

  newtype byte = x: int | 0 <= x < 256

  type Bytes = seq<byte>

  /** One file of a directory tree: its relative path and its content. */
  datatype Entry = Entry(path: Bytes, content: Bytes)

  // ----- Lengths -----------------------------------------------------------------------

  function Power(width: nat): (p: nat)
    ensures p > 0
  {
    if width == 0 then 1 else 256 * Power(width - 1)
  }

  /** `n` in `width` bytes, most significant first. */
  function BigEndian(n: nat, width: nat): (b: Bytes)
    ensures |b| == width
  {
    if width == 0 then [] else BigEndian(n / 256, width - 1) + [(n % 256) as byte]
  }

  function Value(b: Bytes): nat {
    if b == [] then 0 else 256 * Value(b[..|b| - 1]) + b[|b| - 1] as nat
  }

  lemma {:induction false} ValueOfBigEndian(n: nat, width: nat)
    requires n < Power(width)
    ensures Value(BigEndian(n, width)) == n
  {
    if width > 0 {
      var b := BigEndian(n, width);
      assert b[..|b| - 1] == BigEndian(n / 256, width - 1);
      ValueOfBigEndian(n / 256, width - 1);
    }
  }

  /** Byte by byte: the last byte is the lowest digit to base 256. */
  lemma {:induction false} BigEndianDigits(n: nat, width: nat, k: nat)
    requires k < width
    ensures BigEndian(n, width)[width - 1 - k] as nat == (n / Power(k)) % 256
  {
    var b := BigEndian(n, width);
    assert b[..width - 1] == BigEndian(n / 256, width - 1);
    if k > 0 {
      BigEndianDigits(n / 256, width - 1, k - 1);
      assert b[width - 1 - k] == b[..width - 1][width - 1 - k];
      DivDiv(n, Power(k - 1));
    } else {
      assert n / 1 == n;
    }
  }

  lemma DivDiv(n: nat, p: nat)
    requires p > 0
    ensures (n / 256) / p == n / (256 * p)
  {
    var q, r := n / 256, n % 256;
    var a, b := q / p, q % p;
    assert n == 256 * (a * p + b) + r == 256 * p * a + (256 * b + r);
    assert 0 <= 256 * b + r < 256 * p;
    DivIs(n, 256 * p, a, 256 * b + r);
  }

  lemma DivIs(n: nat, d: nat, q: nat, r: nat)
    requires d > 0 && r < d && n == d * q + r
    ensures n / d == q
  {
    var k := n / d - q;
    assert n == d * (n / d) + n % d;
    assert d * k == r - n % d;
    assert k >= 1 ==> d * k >= d;
    assert k <= -1 ==> d * k + d <= 0;
  }

  // ----- Frames ------------------------------------------------------------------------

  predicate Short(b: Bytes) { |b| < Power(8) }

  function Frame(b: Bytes): Bytes { BigEndian(|b|, 8) + b }

  function Frames(entries: seq<Entry>): Bytes {
    if entries == [] then [] else Frame(entries[0].path) + Frame(entries[0].content) + Frames(entries[1..])
  }

  /** The stream of one file: the length of its path in eight bytes, the path, the length of its
      content in eight bytes, the content. */
  lemma OneFile(path: Bytes, content: Bytes)
    ensures Frames([Entry(path, content)]) == BigEndian(|path|, 8) + path + BigEndian(|content|, 8) + content
  {
    assert [Entry(path, content)][1..] == [];
    assert Frames([]) == [];
  }

  /** Reads one frame off the front of a stream. */
  function ReadFrame(s: Bytes): (r: Option<(Bytes, Bytes)>)
    ensures r.Some? ==> |r.value.1| < |s|
  {
    if |s| < 8 then None
    else
      var n := Value(s[..8]);
      if |s| < 8 + n then None else Some((s[8..8 + n], s[8 + n..]))
  }

  /** Reads a whole stream back into the list of files it frames. */
  function Parse(s: Bytes): Option<seq<Entry>>
    decreases |s|
  {
    if s == [] then Some([])
    else
      var path := ReadFrame(s);
      if path.None? then None
      else
        var content := ReadFrame(path.value.1);
        if content.None? then None
        else
          var rest := Parse(content.value.1);
          if rest.None? then None else Some([Entry(path.value.0, content.value.0)] + rest.value)
  }

  lemma ReadFramed(b: Bytes, rest: Bytes)
    requires Short(b)
    ensures ReadFrame(Frame(b) + rest) == Some((b, rest))
  {
    var s := Frame(b) + rest;
    assert s[..8] == BigEndian(|b|, 8);
    ValueOfBigEndian(|b|, 8);
    assert s[8..8 + |b|] == b && s[8 + |b|..] == rest;
  }

  ghost predicate AllShort(entries: seq<Entry>) {
    forall i :: 0 <= i < |entries| ==> Short(entries[i].path) && Short(entries[i].content)
  }

  /** The lengths that fit are those below 2^64. */
  lemma ShortMeans(b: Bytes)
    ensures Short(b) <==> |b| < 0x1_0000_0000_0000_0000
  {
    assert Power(8) == 256 * (256 * (256 * (256 * (256 * (256 * (256 * (256 * 1)))))));
  }

  /** Parsing recovers exactly the files that were framed, in order. */
  lemma {:induction false} ParseFrames(entries: seq<Entry>)
    requires AllShort(entries)
    ensures Parse(Frames(entries)) == Some(entries)
  {
    hide Frame, ReadFrame;
    if entries != [] {
      var e, rest := entries[0], Frames(entries[1..]);
      var s := Frames(entries);
      assert s == Frame(e.path) + (Frame(e.content) + rest);
      ReadFramed(e.path, Frame(e.content) + rest);
      ReadFramed(e.content, rest);
      FrameNotEmpty(e.path);
      ParseFrames(entries[1..]);
      assert entries == [e] + entries[1..];
    }
  }

  lemma FrameNotEmpty(b: Bytes)
    ensures |Frame(b)| >= 8
  {
  }

  /** Equal streams frame equal lists. */
  lemma FramesInjective(a: seq<Entry>, b: seq<Entry>)
    requires AllShort(a) && AllShort(b) && Frames(a) == Frames(b)
    ensures a == b
  {
    ParseFrames(a);
    ParseFrames(b);
  }

  // ----- Trees -------------------------------------------------------------------------

  /** What a digest leaves out: given paths, and caches. */
  datatype Filter = Filter(excluded: set<Bytes>, cached: Bytes -> bool)

  predicate Skipped(path: Bytes, f: Filter) { path in f.excluded || f.cached(path) }

  function Kept(files: seq<Entry>, f: Filter): seq<Entry> {
    if files == [] then []
    else Kept(files[..|files| - 1], f) + (if Skipped(files[|files| - 1].path, f) then [] else [files[|files| - 1]])
  }

  lemma {:induction false} FramesAppend(entries: seq<Entry>, e: Entry)
    ensures Frames(entries + [e]) == Frames(entries) + Frame(e.path) + Frame(e.content)
  {
    hide Frame;
    var longer := entries + [e];
    if entries == [] {
      assert longer[1..] == [];
    } else {
      FramesAppend(entries[1..], e);
      assert longer[0] == entries[0] && longer[1..] == entries[1..] + [e];
    }
  }

  /** The stream the digest of a sorted file list is fed. It fails exactly when the length of a
      path or content that is not left out does not fit in eight bytes. */
  method TreeStream(files: seq<Entry>, f: Filter) returns (stream: Option<Bytes>)
    ensures stream.Some? <==> AllShort(Kept(files, f))
    ensures stream.Some? ==> stream.value == Frames(Kept(files, f))
  {
    hide Frame, Power;
    var fed: Bytes := [];
    for k := 0 to |files|
      invariant fed == Frames(Kept(files[..k], f)) && AllShort(Kept(files[..k], f))
    {
      var e := files[k];
      assert files[..k + 1][..k] == files[..k];
      assert Kept(files[..k + 1], f) == if Skipped(e.path, f) then Kept(files[..k], f) else Kept(files[..k], f) + [e];
      if Skipped(e.path, f) { continue; }
      if !Short(e.path) || !Short(e.content) {
        KeptPrefix(files, k + 1, f);
        LastTooLong(files, k, f);
        return None;
      }
      FramesAppend(Kept(files[..k], f), e);
      fed := fed + Frame(e.path);
      fed := fed + Frame(e.content);
    }
    assert files[..|files|] == files;
    return Some(fed);
  }

  lemma {:induction false} KeptPrefix(files: seq<Entry>, k: nat, f: Filter)
    requires k <= |files|
    ensures Kept(files[..k], f) <= Kept(files, f)
    decreases |files|
  {
    if k < |files| {
      KeptPrefix(files[..|files| - 1], k, f);
      assert files[..|files| - 1][..k] == files[..k];
    } else {
      assert files[..k] == files;
    }
  }

  lemma LastTooLong(files: seq<Entry>, k: nat, f: Filter)
    requires k < |files| && !Skipped(files[k].path, f) && !(Short(files[k].path) && Short(files[k].content))
    requires Kept(files[..k + 1], f) <= Kept(files, f)
    ensures !AllShort(Kept(files, f))
  {
    var kept := Kept(files[..k + 1], f);
    assert kept[|kept| - 1] == files[k];
    assert Kept(files, f)[|kept| - 1] == files[k];
  }

  type Tree = map<Bytes, Bytes>

  /** Every entry of a listing is a file of the tree with its content, and every file is listed. */
  ghost predicate Lists(files: seq<Entry>, t: Tree) {
    && (forall i :: 0 <= i < |files| ==> files[i].path in t && t[files[i].path] == files[i].content)
    && (forall p :: p in t ==> Entry(p, t[p]) in files)
  }

  ghost function Filtered(t: Tree, f: Filter): Tree { map p | p in t && p !in f.excluded && !f.cached(p) :: t[p] }

  lemma {:induction false} KeptIs(files: seq<Entry>, f: Filter)
    ensures forall e :: e in Kept(files, f) <==> e in files && e.path !in f.excluded && !f.cached(e.path)
  {
    if files != [] {
      KeptIs(files[..|files| - 1], f);
      assert files == files[..|files| - 1] + [files[|files| - 1]];
    }
  }

  /** Two trees whose digests are fed the same stream hold the same files, apart from those left out. */
  lemma EqualStreamsEqualTrees(a: seq<Entry>, b: seq<Entry>, t: Tree, u: Tree, f: Filter)
    requires Lists(a, t) && Lists(b, u)
    requires AllShort(Kept(a, f)) && AllShort(Kept(b, f)) && Frames(Kept(a, f)) == Frames(Kept(b, f))
    ensures Filtered(t, f) == Filtered(u, f)
  {
    hide Frames, AllShort, Kept;
    FramesInjective(Kept(a, f), Kept(b, f));
    KeptIs(a, f);
    KeptIs(b, f);
    forall p ensures p in Filtered(t, f) <==> p in Filtered(u, f) {
      if p in Filtered(t, f) { assert Entry(p, t[p]) in b; }
      if p in Filtered(u, f) { assert Entry(p, u[p]) in a; }
    }
    forall p | p in Filtered(t, f) ensures t[p] == u[p] {
      assert Entry(p, t[p]) in b;
    }
  }
}
