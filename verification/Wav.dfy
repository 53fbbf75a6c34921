/** scripts/personas/spoken.ts, source.ts: RIFF WAVE files, printed and parsed. */
module Riff {
  import opened Bytes

  const BYTE32 := 0x1_0000_0000

  function Le16(n: nat): (b: seq<byte>)
    requires n < 0x1_0000
    ensures |b| == 2
  {
    [n % 256, n / 256]
  }

  function Le32(n: nat): (b: seq<byte>)
    requires n < BYTE32
    ensures |b| == 4
  {
    [n % 256, n / 256 % 256, n / 0x1_0000 % 256, n / 0x100_0000]
  }

  function Read16(b: seq<byte>, at: nat): nat
    requires at + 2 <= |b|
  {
    b[at] as int + b[at + 1] as int * 256
  }

  function Read32(b: seq<byte>, at: nat): nat
    requires at + 4 <= |b|
  {
    b[at] as int + b[at + 1] as int * 256 + b[at + 2] as int * 0x1_0000 + b[at + 3] as int * 0x100_0000
  }

  lemma Read16Back(b: seq<byte>, at: nat, n: nat)
    requires at + 2 <= |b| && n < 0x1_0000 && b[at..at + 2] == Le16(n)
    ensures Read16(b, at) == n
  {
    assert b[at] == b[at..at + 2][0] && b[at + 1] == b[at..at + 2][1];
  }

  lemma Read32Back(b: seq<byte>, at: nat, n: nat)
    requires at + 4 <= |b| && n < BYTE32 && b[at..at + 4] == Le32(n)
    ensures Read32(b, at) == n
  {
    assert b[at] == b[at..at + 4][0] && b[at + 1] == b[at..at + 4][1];
    assert b[at + 2] == b[at..at + 4][2] && b[at + 3] == b[at..at + 4][3];
    Digits(n);
  }

  lemma Digits(n: nat)
    requires n < BYTE32
    ensures n == n % 256 + n / 256 % 256 * 256 + n / 0x1_0000 % 256 * 0x1_0000 + n / 0x100_0000 * 0x100_0000
  {
    assert n / 0x1_0000 == n / 256 / 256;
    assert n / 0x100_0000 == n / 256 / 256 / 256;
  }

  datatype Chunk = Chunk(name: seq<byte>, body: seq<byte>)

  predicate Fits(c: Chunk) {
    |c.name| == 4 && |c.body| < BYTE32
  }

  /** A chunk of odd length is followed by one byte of padding, whatever its value. */
  function Print(c: Chunk): (b: seq<byte>)
    requires Fits(c)
    ensures |b| == 8 + |c.body| + |c.body| % 2
  {
    c.name + Le32(|c.body|) + c.body + (if |c.body| % 2 == 1 then [0] else [])
  }

  predicate AllFit(cs: seq<Chunk>) {
    forall c :: c in cs ==> Fits(c)
  }

  function PrintAll(cs: seq<Chunk>): seq<byte>
    requires AllFit(cs)
  {
    if cs == [] then [] else Print(cs[0]) + PrintAll(cs[1..])
  }

  /** Text read as ASCII: the high bit of every byte is dropped. */
  function Ascii(b: seq<byte>): (text: seq<byte>)
    ensures |text| == |b| && forall i :: 0 <= i < |b| ==> text[i] == b[i] % 128
  {
    seq(|b|, i requires 0 <= i < |b| => b[i] % 128)
  }

  const RIFF: seq<byte> := [82, 73, 70, 70]
  const WAVE: seq<byte> := [87, 65, 86, 69]
  const FMT: seq<byte> := [102, 109, 116, 32]
  const DATA: seq<byte> := [100, 97, 116, 97]

  function Container(cs: seq<Chunk>): seq<byte>
    requires AllFit(cs) && 4 + |PrintAll(cs)| < BYTE32
  {
    RIFF + Le32(4 + |PrintAll(cs)|) + WAVE + PrintAll(cs)
  }
}

module Wav {
  import opened Bytes
  import opened Options
  import opened Riff

  datatype Error =
    | TooLarge | NotWave | TruncatedContainer | TruncatedHeader | TruncatedChunk | DuplicateFormat | DuplicateData
    | Missing | Encoding | RateOrAlignment | Duration | NonFinite

  datatype Result<+T> = Ok(value: T) | Err(error: Error)

  datatype Clip = Clip(samples: seq<real>, rate: nat)

  /** The two chunks a reader looks for. */
  datatype Found = Found(format: Option<seq<byte>>, data: Option<seq<byte>>)

  /** Reading a float32; `None` when it is not finite. */
  type Float = nat -> Option<real>

  const MAX_BYTES: nat := 24 * 1024 * 1024

  function Note(f: Found, c: Chunk): Result<Found> {
    if Ascii(c.name) == FMT then
      (if f.format.Some? then Err(DuplicateFormat) else Ok(f.(format := Some(c.body))))
    else if Ascii(c.name) == DATA then
      (if f.data.Some? then Err(DuplicateData) else Ok(f.(data := Some(c.body))))
    else Ok(f)
  }

  /** Chunks are visited in order until the container ends. */
  function Walk(bytes: seq<byte>, at: nat, f: Found): Result<Found>
    requires at <= |bytes|
    decreases |bytes| - at
  {
    if at == |bytes| then Ok(f)
    else if at + 8 > |bytes| then Err(TruncatedHeader)
    else
      var length := Read32(bytes, at + 4);
      var next := at + 8 + length;
      if next + length % 2 > |bytes| then Err(TruncatedChunk)
      else
        var noted := Note(f, Chunk(bytes[at..at + 4], bytes[at + 8..next]));
        if noted.Err? then noted else Walk(bytes, next + length % 2, noted.value)
  }

  function Signed(n: nat): int {
    if n < 32768 then n else n - 65536
  }

  function Clamp(x: real): real {
    if x < -1.0 then -1.0 else if x > 1.0 then 1.0 else x
  }

  function Reading(data: seq<byte>, encoding: nat, at: nat, float: Float): Option<real>
    requires at + (if encoding == 1 then 2 else 4) <= |data|
  {
    if encoding == 1 then Some(Signed(Read16(data, at)) as real / 32768.0) else float(Read32(data, at))
  }

  function Channel(data: seq<byte>, encoding: nat, at: nat, float: Float): Option<real>
    requires at + (if encoding == 1 then 2 else 4) <= |data|
  {
    var value := Reading(data, encoding, at, float);
    if value.None? then None else Some(Clamp(value.value))
  }

  /** One frame: the mean of its one or two channels. */
  function Frame(data: seq<byte>, encoding: nat, channels: nat, i: nat, float: Float): Option<real>
    requires 1 <= channels <= 2
    requires (i + 1) * (channels * Width(encoding)) <= |data|
  {
    var at := i * (channels * Width(encoding));
    FrameInside(i, channels, encoding, |data|);
    var first := Channel(data, encoding, at, float);
    if channels == 1 then first else
    var second := Channel(data, encoding, at + Width(encoding), float);
    if first.None? || second.None? then None else Some((first.value + second.value) / 2.0)
  }

  function Width(encoding: nat): nat {
    if encoding == 1 then 2 else 4
  }

  lemma FrameInside(i: nat, channels: nat, encoding: nat, size: nat)
    requires 1 <= channels <= 2 && (i + 1) * (channels * Width(encoding)) <= size
    ensures i * (channels * Width(encoding)) + channels * Width(encoding) <= size
  {
  }

  function Frames(data: seq<byte>, encoding: nat, channels: nat, n: nat, float: Float): Option<seq<real>>
    requires 1 <= channels <= 2 && n * (channels * Width(encoding)) <= |data|
  {
    if n == 0 then Some([]) else
    Fewer(n, channels * Width(encoding));
    var before := Frames(data, encoding, channels, n - 1, float);
    var last := Frame(data, encoding, channels, n - 1, float);
    if before.None? || last.None? then None else Some(before.value + [last.value])
  }

  lemma Fewer(n: nat, width: nat)
    requires n > 0
    ensures (n - 1) * width <= n * width
  {
  }

  function Decoded(format: seq<byte>, data: seq<byte>, float: Float): Result<Clip>
    requires |format| >= 16
  {
    var encoding, channels, rate := Read16(format, 0), Read16(format, 2), Read32(format, 4);
    var alignment, bits := Read16(format, 12), Read16(format, 14);
    if !((encoding == 1 && bits == 16) || (encoding == 3 && bits == 32)) || channels < 1 || channels > 2 then
      Err(Encoding)
    else if rate < 8000 || rate > 96000 || alignment * 8 != channels * bits || |data| % alignment != 0 then
      Err(RateOrAlignment)
    else
      var count := |data| / alignment;
      if count * 50 < rate || count > rate * 120 then Err(Duration)
      else
        assert count * alignment == |data|;
        assert alignment == channels * Width(encoding);
        var samples := Frames(data, encoding, channels, count, float);
        if samples.None? then Err(NonFinite) else Ok(Clip(samples.value, rate))
  }

  function Understood(f: Found, float: Float): Result<Clip> {
    if f.format.None? || |f.format.value| < 16 || f.data.None? then Err(Missing)
    else Decoded(f.format.value, f.data.value, float)
  }

  function Decode(bytes: seq<byte>, float: Float): Result<Clip> {
    if |bytes| > MAX_BYTES then Err(TooLarge)
    else if |bytes| < 12 || Ascii(bytes[..4]) != RIFF || Ascii(bytes[8..12]) != WAVE then Err(NotWave)
    else
      var end := Read32(bytes, 4) + 8;
      if end > |bytes| || end < 12 then Err(TruncatedContainer)
      else
        var found := Walk(bytes[..end], 12, Found(None, None));
        if found.Err? then Err(found.error) else Understood(found.value, float)
  }

  /** Rounding halves upwards, then clamping to sixteen bits. */
  function Quantised(x: real): (q: int)
    ensures -32768 <= q <= 32767
  {
    var r := (x * 32768.0 + 0.5).Floor;
    if r < -32768 then -32768 else if r > 32767 then 32767 else r
  }

  function Word(x: real): (b: seq<byte>)
    ensures |b| == 2
  {
    Le16(if Quantised(x) >= 0 then Quantised(x) else Quantised(x) + 65536)
  }

  function Words(samples: seq<real>): (b: seq<byte>)
    ensures |b| == 2 * |samples|
  {
    if samples == [] then [] else Words(samples[..|samples| - 1]) + Word(samples[|samples| - 1])
  }

  function FormatBytes(rate: nat): (b: seq<byte>)
    requires rate < 0x8000_0000
    ensures |b| == 16
  {
    Le16(1) + Le16(1) + Le32(rate) + Le32(rate * 2) + Le16(2) + Le16(16)
  }

  function Encoded(samples: seq<real>, rate: nat): (b: seq<byte>)
    requires rate < 0x8000_0000 && 44 + 2 * |samples| < BYTE32
    ensures |b| == 44 + 2 * |samples|
  {
    RIFF + Le32(36 + 2 * |samples|) + WAVE + FMT + Le32(16) + FormatBytes(rate)
    + DATA + Le32(2 * |samples|) + Words(samples)
  }
}

module WavLaws {
  import opened Bytes
  import opened Options
  import opened Riff
  import opened Wav

  /** What a list of chunks says, without bytes. */
  function Collect(cs: seq<Chunk>, f: Found): Result<Found> {
    if cs == [] then Ok(f) else
    var noted := Note(f, cs[0]);
    if noted.Err? then noted else Collect(cs[1..], noted.value)
  }

  lemma PrintedHead(bytes: seq<byte>, at: nat, c: Chunk, rest: seq<byte>)
    requires Fits(c) && at <= |bytes| && bytes[at..] == Print(c) + rest
    ensures var next := at + 8 + |c.body|;
      && next + |c.body| % 2 <= |bytes|
      && bytes[at..at + 4] == c.name && Read32(bytes, at + 4) == |c.body| && bytes[at + 8..next] == c.body
      && bytes[next + |c.body| % 2..] == rest
  {
    var tail := bytes[at..];
    PrintSplit(c, rest);
    Sliced(bytes, at, 0, 4);
    Sliced(bytes, at, 4, 8);
    Sliced(bytes, at, 8, 8 + |c.body|);
    assert bytes[at..][|Print(c)|..] == bytes[at + |Print(c)|..];
    Read32Back(bytes, at + 4, |c.body|);
  }

  lemma PrintSplit(c: Chunk, rest: seq<byte>)
    requires Fits(c)
    ensures var all := Print(c) + rest;
      && all[0..4] == c.name && all[4..8] == Le32(|c.body|) && all[8..8 + |c.body|] == c.body
      && all[|Print(c)|..] == rest
  {
    hide Le32;
    var length := Le32(|c.body|);
    var pad := if |c.body| % 2 == 1 then [0] else [];
    assert Print(c) + rest == c.name + (length + (c.body + (pad + rest)));
    assert (length + (c.body + (pad + rest)))[4..] == c.body + (pad + rest);
  }

  lemma Sliced(bytes: seq<byte>, at: nat, i: nat, j: nat)
    requires at <= |bytes| && i <= j <= |bytes| - at
    ensures bytes[at..][i..j] == bytes[at + i..at + j]
  {
  }

  /** The parser undoes the printer, chunk by chunk. */
  lemma {:induction false} WalkPrinted(bytes: seq<byte>, at: nat, cs: seq<Chunk>, f: Found)
    requires AllFit(cs) && at <= |bytes| && bytes[at..] == PrintAll(cs)
    ensures Walk(bytes, at, f) == Collect(cs, f)
    decreases |cs|
  {
    hide Read32, Note, Print;
    if cs != [] {
      var c := cs[0];
      PrintedHead(bytes, at, c, PrintAll(cs[1..]));
      var noted := Note(f, c);
      assert Chunk(bytes[at..at + 4], bytes[at + 8..at + 8 + |c.body|]) == c;
      if noted.Ok? {
        WalkPrinted(bytes, at + 8 + |c.body| + |c.body| % 2, cs[1..], noted.value);
      }
    }
  }

  /** The four names are ASCII themselves. */
  lemma Plain()
    ensures Ascii(RIFF) == RIFF && Ascii(WAVE) == WAVE && Ascii(FMT) == FMT && Ascii(DATA) == DATA
  {
  }

  /** Decoding depends only on what the chunks say; bytes after the container are not looked at. */
  lemma DecodeContainer(cs: seq<Chunk>, trailing: seq<byte>, float: Float)
    requires AllFit(cs) && 12 + |PrintAll(cs)| + |trailing| <= MAX_BYTES
    ensures var found := Collect(cs, Found(None, None));
      Decode(Container(cs) + trailing, float) == if found.Err? then Err(found.error) else Understood(found.value, float)
  {
    hide Walk, Understood, Collect;
    var bytes, size := Container(cs) + trailing, 4 + |PrintAll(cs)|;
    ContainerHead(cs, trailing);
    hide PrintAll;
    Plain();
    Read32Back(bytes, 4, size);
    WalkPrinted(Container(cs), 12, cs, Found(None, None));
  }

  lemma ContainerHead(cs: seq<Chunk>, trailing: seq<byte>)
    requires AllFit(cs) && 4 + |PrintAll(cs)| < BYTE32
    ensures var bytes, size := Container(cs) + trailing, 4 + |PrintAll(cs)|;
      && |Container(cs)| == size + 8 && bytes[..size + 8] == Container(cs) && Container(cs)[12..] == PrintAll(cs)
      && bytes[..4] == RIFF && bytes[4..8] == Le32(size) && bytes[8..12] == WAVE
  {
    hide PrintAll, Le32;
    var bytes, size, rest := Container(cs) + trailing, 4 + |PrintAll(cs)|, PrintAll(cs);
    assert bytes == RIFF + (Le32(size) + (WAVE + (rest + trailing)));
    assert (Le32(size) + (WAVE + (rest + trailing)))[..4] == Le32(size);
    assert Container(cs) == RIFF + Le32(size) + WAVE + rest;
  }

  lemma {:induction false} CollectSkips(a: seq<Chunk>, c: Chunk, b: seq<Chunk>, f: Found)
    requires Ascii(c.name) != FMT && Ascii(c.name) != DATA
    ensures Collect(a + [c] + b, f) == Collect(a + b, f)
    decreases |a|
  {
    if a == [] {
      assert a + [c] + b == [c] + b && a + b == b;
    } else {
      assert (a + [c] + b)[1..] == a[1..] + [c] + b && (a + b)[1..] == a[1..] + b;
      if Note(f, a[0]).Ok? {
        CollectSkips(a[1..], c, b, Note(f, a[0]).value);
      }
    }
  }

  /** A chunk of any other name, anywhere, changes nothing. */
  lemma UnknownIgnored(a: seq<Chunk>, c: Chunk, b: seq<Chunk>, float: Float)
    requires AllFit(a + [c] + b) && AllFit(a + b) && Ascii(c.name) != FMT && Ascii(c.name) != DATA
    requires 12 + |PrintAll(a + [c] + b)| <= MAX_BYTES && 12 + |PrintAll(a + b)| <= MAX_BYTES
    ensures Decode(Container(a + [c] + b), float) == Decode(Container(a + b), float)
  {
    DecodeContainer(a + [c] + b, [], float);
    DecodeContainer(a + b, [], float);
    assert Container(a + [c] + b) + [] == Container(a + [c] + b) && Container(a + b) + [] == Container(a + b);
    CollectSkips(a, c, b, Found(None, None));
  }

  function Masked(cs: seq<Chunk>): (ms: seq<Chunk>)
    ensures |ms| == |cs| && forall i :: 0 <= i < |cs| ==> ms[i] == Chunk(Ascii(cs[i].name), cs[i].body)
  {
    seq(|cs|, i requires 0 <= i < |cs| => Chunk(Ascii(cs[i].name), cs[i].body))
  }

  lemma AsciiTwice(b: seq<byte>)
    ensures Ascii(Ascii(b)) == Ascii(b)
  {
  }

  lemma {:induction false} CollectMasked(cs: seq<Chunk>, f: Found)
    ensures Collect(Masked(cs), f) == Collect(cs, f)
    decreases |cs|
  {
    if cs != [] {
      var ms := Masked(cs);
      AsciiTwice(cs[0].name);
      assert ms[1..] == Masked(cs[1..]);
      hide Ascii;
      assert Note(f, ms[0]) == Note(f, cs[0]);
      if Note(f, cs[0]).Ok? {
        CollectMasked(cs[1..], Note(f, cs[0]).value);
      }
    }
  }

  lemma {:induction false} PrintedSize(cs: seq<Chunk>)
    requires AllFit(cs)
    ensures AllFit(Masked(cs)) && |PrintAll(Masked(cs))| == |PrintAll(cs)|
    decreases |cs|
  {
    if cs != [] {
      var ms := Masked(cs);
      assert ms[1..] == Masked(cs[1..]);
      assert forall c :: c in cs[1..] ==> c in cs;
      PrintedSize(cs[1..]);
      assert cs[0] in cs;
      forall m | m in ms
        ensures Fits(m)
      {
        var i :| 0 <= i < |ms| && ms[i] == m;
        assert cs[i] in cs;
      }
      assert PrintAll(ms) == Print(ms[0]) + PrintAll(ms[1..]);
    }
  }

  /** The high bits of chunk names are not looked at. */
  lemma NamesAreMasked(cs: seq<Chunk>, float: Float)
    requires AllFit(cs) && 12 + |PrintAll(cs)| <= MAX_BYTES
    ensures AllFit(Masked(cs)) && |PrintAll(Masked(cs))| == |PrintAll(cs)|
    ensures Decode(Container(Masked(cs)), float) == Decode(Container(cs), float)
  {
    PrintedSize(cs);
    DecodeContainer(cs, [], float);
    DecodeContainer(Masked(cs), [], float);
    assert Container(cs) + [] == Container(cs) && Container(Masked(cs)) + [] == Container(Masked(cs));
    CollectMasked(cs, Found(None, None));
  }

  lemma {:induction false} CollectStops(a: seq<Chunk>, c: Chunk, b: seq<Chunk>, f: Found)
    requires Collect(a, f).Ok? && Note(Collect(a, f).value, c).Err?
    ensures Collect(a + [c] + b, f) == Note(Collect(a, f).value, c)
    decreases |a|
  {
    if a == [] {
      assert a + [c] + b == [c] + b;
    } else {
      assert (a + [c] + b)[1..] == a[1..] + [c] + b;
      CollectStops(a[1..], c, b, Note(f, a[0]).value);
    }
  }

  /** A second format chunk is refused, even one whose name merely reads as `fmt ` once its high bits are dropped. */
  lemma AliasRefused(a: seq<Chunk>, c: Chunk, b: seq<Chunk>, float: Float)
    requires AllFit(a + [c] + b) && 12 + |PrintAll(a + [c] + b)| <= MAX_BYTES
    requires Ascii(c.name) == FMT
    requires var before := Collect(a, Found(None, None)); before.Ok? && before.value.format.Some?
    ensures Decode(Container(a + [c] + b), float) == Err(DuplicateFormat)
  {
    DecodeContainer(a + [c] + b, [], float);
    assert Container(a + [c] + b) + [] == Container(a + [c] + b);
    CollectStops(a, c, b, Found(None, None));
  }

  /** So is a second data chunk. */
  lemma SecondDataRefused(a: seq<Chunk>, c: Chunk, b: seq<Chunk>, float: Float)
    requires AllFit(a + [c] + b) && 12 + |PrintAll(a + [c] + b)| <= MAX_BYTES
    requires Ascii(c.name) == DATA
    requires var before := Collect(a, Found(None, None)); before.Ok? && before.value.data.Some?
    ensures Decode(Container(a + [c] + b), float) == Err(DuplicateData)
  {
    assert FMT[0] != DATA[0];
    DecodeContainer(a + [c] + b, [], float);
    assert Container(a + [c] + b) + [] == Container(a + [c] + b);
    CollectStops(a, c, b, Found(None, None));
  }

  /** Such a name: an `f` with its high bit set. */
  lemma HighBitRefused(format: seq<byte>, data: seq<byte>, more: seq<byte>, float: Float)
    requires |format| + |data| + |more| < MAX_BYTES - 39
    ensures var cs := [Chunk(FMT, format), Chunk(DATA, data), Chunk([0xE6, 0x6D, 0x74, 0x20], more)];
      AllFit(cs) && 4 + |PrintAll(cs)| < BYTE32 && Decode(Container(cs), float) == Err(DuplicateFormat)
  {
    var a, c := [Chunk(FMT, format), Chunk(DATA, data)], Chunk([0xE6, 0x6D, 0x74, 0x20], more);
    assert Ascii(c.name) == FMT;
    hide Decode, Ascii, Print, Collect, PrintAll, Container;
    assert a + [c] + [] == [a[0], a[1], c];
    ThreeSize(a[0], a[1], c);
    BothFound(format, data);
    AliasRefused(a, c, [], float);
  }

  lemma BothFound(format: seq<byte>, data: seq<byte>)
    ensures Collect([Chunk(FMT, format), Chunk(DATA, data)], Found(None, None)) == Ok(Found(Some(format), Some(data)))
  {
    Plain();
    hide Ascii;
    var a := [Chunk(FMT, format), Chunk(DATA, data)];
    assert a[1..] == [a[1]] && [a[1]][1..] == [];
    assert FMT[0] != DATA[0];
    assert Note(Found(None, None), a[0]) == Ok(Found(Some(format), None));
    assert Collect([a[1]], Found(Some(format), None)) == Collect([], Found(Some(format), Some(data)));
  }

  lemma ThreeSize(a: Chunk, b: Chunk, c: Chunk)
    requires Fits(a) && Fits(b) && Fits(c)
    ensures |PrintAll([a, b, c])| == |Print(a)| + |Print(b)| + |Print(c)|
  {
    hide Print;
    assert [a, b, c][1..] == [b, c] && [b, c][1..] == [c] && [c][1..] == [];
    assert PrintAll([c]) == Print(c) + PrintAll([]);
    assert PrintAll([b, c]) == Print(b) + PrintAll([c]);
  }

  function Chunks(samples: seq<real>, rate: nat): seq<Chunk>
    requires rate < 0x8000_0000
  {
    [Chunk(FMT, FormatBytes(rate)), Chunk(DATA, Words(samples))]
  }

  lemma EncodedIsContainer(samples: seq<real>, rate: nat)
    requires rate < 0x8000_0000 && 44 + 2 * |samples| < BYTE32
    ensures AllFit(Chunks(samples, rate)) && |PrintAll(Chunks(samples, rate))| == 32 + 2 * |samples|
    ensures Encoded(samples, rate) == Container(Chunks(samples, rate))
  {
    hide FormatBytes, Words, Le32, Ascii;
    var cs := Chunks(samples, rate);
    assert cs[1..] == [cs[1]] && cs[1..][1..] == [];
    assert PrintAll(cs[1..]) == Print(cs[1]) + PrintAll(cs[1..][1..]);
    assert PrintAll(cs[1..]) == Print(cs[1]) && PrintAll(cs) == Print(cs[0]) + Print(cs[1]);
  }

  lemma FormatFields(rate: nat)
    requires rate < 0x8000_0000
    ensures var f := FormatBytes(rate);
      Read16(f, 0) == 1 && Read16(f, 2) == 1 && Read32(f, 4) == rate && Read16(f, 12) == 2 && Read16(f, 14) == 16
  {
    var f := FormatBytes(rate);
    hide Le16, Le32, Read16, Read32;
    assert f[0..2] == Le16(1) && f[2..4] == Le16(1) && f[4..8] == Le32(rate);
    assert f[12..14] == Le16(2) && f[14..] == Le16(16) && f[14..16] == f[14..];
    Read16Back(f, 0, 1);
    Read16Back(f, 2, 1);
    Read32Back(f, 4, rate);
    Read16Back(f, 12, 2);
    Read16Back(f, 14, 16);
  }

  lemma WordBack(b: seq<byte>, at: nat, x: real, float: Float)
    requires at + 2 <= |b| && b[at..at + 2] == Word(x)
    ensures Channel(b, 1, at, float) == Some(Quantised(x) as real / 32768.0)
  {
    var q := Quantised(x);
    Read16Back(b, at, if q >= 0 then q else q + 65536);
    assert -1.0 <= q as real / 32768.0 <= 1.0;
  }

  ghost predicate Heard(samples: seq<real>, played: seq<real>) {
    |played| == |samples| && forall i :: 0 <= i < |samples| ==> played[i] == Quantised(samples[i]) as real / 32768.0
  }

  lemma {:induction false} FramesOfWords(samples: seq<real>, data: seq<byte>, float: Float)
    requires Words(samples) <= data
    ensures var played := Frames(data, 1, 1, |samples|, float); played.Some? && Heard(samples, played.value)
  {
    if samples != [] {
      var n := |samples| - 1;
      FramesOfWords(samples[..n], data, float);
      assert data[2 * n..2 * n + 2] == Word(samples[n]);
      WordBack(data, 2 * n, samples[n], float);
    }
  }

  /** Every clip a reader accepts survives the trip: same rate, same length, each sample as quantised. */
  lemma RoundTrip(samples: seq<real>, rate: nat, float: Float)
    requires 8000 <= rate <= 96000 && rate <= |samples| * 50 && |samples| <= rate * 120
    ensures var back := Decode(Encoded(samples, rate), float);
      back.Ok? && back.value.rate == rate && Heard(samples, back.value.samples)
  {
    hide Understood, Decode, Encoded, FormatBytes, Words, Heard;
    var cs := Chunks(samples, rate);
    EncodedIsContainer(samples, rate);
    DecodeContainer(cs, [], float);
    assert Container(cs) + [] == Container(cs);
    assert cs[1..] == [cs[1]] && cs[1..][1..] == [];
    var found := Found(Some(FormatBytes(rate)), Some(Words(samples)));
    Plain();
    assert Collect(cs[1..], Found(Some(FormatBytes(rate)), None)) == Ok(found);
    assert Collect(cs, Found(None, None)) == Ok(found);
    UnderstoodBack(samples, rate, float);
  }

  lemma UnderstoodBack(samples: seq<real>, rate: nat, float: Float)
    requires 8000 <= rate <= 96000 && rate <= |samples| * 50 && |samples| <= rate * 120
    ensures var back := Understood(Found(Some(FormatBytes(rate)), Some(Words(samples))), float);
      back.Ok? && back.value.rate == rate && Heard(samples, back.value.samples)
  {
    hide FormatBytes, Words, Frames, Heard, Read16, Read32;
    FormatFields(rate);
    FramesOfWords(samples, Words(samples), float);
    assert |Words(samples)| / 2 == |samples| && |Words(samples)| % 2 == 0;
  }

  // Refusals.

  /** A stream of chunks cut inside its last one is refused, for its header or for its body. */
  lemma {:induction false} CutShort(bytes: seq<byte>, at: nat, cs: seq<Chunk>, c: Chunk, k: nat, f: Found)
    requires AllFit(cs) && Fits(c) && 0 < k < |Print(c)| && at <= |bytes|
    requires bytes[at..] == PrintAll(cs) + Print(c)[..k] && Collect(cs, f).Ok?
    ensures Walk(bytes, at, f) == Err(if k < 8 then TruncatedHeader else TruncatedChunk)
    decreases |cs|
  {
    hide Note, Print, Read32, Walk;
    if cs == [] {
      assert bytes[at..] == Print(c)[..k];
      CutHere(bytes, at, c, k, f);
    } else {
      var more := PrintAll(cs[1..]) + Print(c)[..k];
      assert bytes[at..] == Print(cs[0]) + more;
      OneWalked(bytes, at, cs[0], more, f);
      CutShort(bytes, at + 8 + |cs[0].body| + |cs[0].body| % 2, cs[1..], c, k, Note(f, cs[0]).value);
    }
  }

  /** A printed chunk is taken note of, and what follows it is walked on. */
  lemma OneWalked(bytes: seq<byte>, at: nat, c: Chunk, more: seq<byte>, f: Found)
    requires Fits(c) && at <= |bytes| && bytes[at..] == Print(c) + more && Note(f, c).Ok?
    ensures var next := at + 8 + |c.body| + |c.body| % 2;
      next <= |bytes| && bytes[next..] == more && Walk(bytes, at, f) == Walk(bytes, next, Note(f, c).value)
  {
    hide Note;
    PrintedHead(bytes, at, c, more);
    hide Print, Read32;
    assert Chunk(bytes[at..at + 4], bytes[at + 8..at + 8 + |c.body|]) == c;
  }

  lemma CutHere(bytes: seq<byte>, at: nat, c: Chunk, k: nat, f: Found)
    requires Fits(c) && 0 < k < |Print(c)| && at <= |bytes| && bytes[at..] == Print(c)[..k]
    ensures Walk(bytes, at, f) == Err(if k < 8 then TruncatedHeader else TruncatedChunk)
  {
    assert |bytes| == at + k;
    if k >= 8 {
      assert bytes[at + 4..at + 8] == bytes[at..][4..8] == Print(c)[4..8] == Le32(|c.body|);
      Read32Back(bytes, at + 4, |c.body|);
    }
  }

  /** The errors that the chunks themselves can cause. */
  predicate Inner(e: Error) {
    e !in {TooLarge, NotWave, TruncatedContainer}
  }

  lemma InnerErrors()
    ensures Inner(TruncatedHeader) && Inner(TruncatedChunk) && Inner(DuplicateFormat) && Inner(DuplicateData)
  {
  }

  lemma {:induction false} WalkErrors(bytes: seq<byte>, at: nat, f: Found)
    requires at <= |bytes|
    ensures Walk(bytes, at, f).Err? ==> Inner(Walk(bytes, at, f).error)
    decreases |bytes| - at
  {
    hide Read32, Inner, Ascii;
    InnerErrors();
    if at + 8 <= |bytes| {
      var length := Read32(bytes, at + 4);
      var next := at + 8 + length;
      if next + length % 2 <= |bytes| {
        var noted := Note(f, Chunk(bytes[at..at + 4], bytes[at + 8..next]));
        if noted.Ok? {
          WalkErrors(bytes, next + length % 2, noted.value);
        }
      }
    }
  }

  /** Any bytes at all are refused as too large, as no wave file or as cut short exactly when they are. */
  lemma EnvelopeExactly(bytes: seq<byte>, float: Float)
    ensures var back := Decode(bytes, float);
      var named := |bytes| >= 12 && Ascii(bytes[..4]) == RIFF && Ascii(bytes[8..12]) == WAVE;
      && (back == Err(TooLarge) <==> |bytes| > 24 * 1024 * 1024)
      && (back == Err(NotWave) <==> |bytes| <= 24 * 1024 * 1024 && !named)
      && (back == Err(TruncatedContainer) <==>
           |bytes| <= 24 * 1024 * 1024 && named && !(12 <= Read32(bytes, 4) + 8 <= |bytes|))
  {
    hide Walk, Understood, Read32, Ascii;
    if 12 <= |bytes| && 12 <= Read32(bytes, 4) + 8 <= |bytes| {
      var end := Read32(bytes, 4) + 8;
      WalkErrors(bytes[..end], 12, Found(None, None));
      var found := Walk(bytes[..end], 12, Found(None, None));
      if found.Ok? {
        UnderstoodErrors(found.value, float);
      }
    }
  }

  lemma UnderstoodErrors(f: Found, float: Float)
    ensures Understood(f, float).Err? ==> Inner(Understood(f, float).error)
    ensures Understood(f, float) == Err(Missing) <==> f.format.None? || |f.format.value| < 16 || f.data.None?
  {
    hide Frames;
  }

  // Two channels, and floating point.

  /** A format chunk with any fields. */
  function FormatWith(encoding: nat, channels: nat, rate: nat, speed: nat, alignment: nat, bits: nat): (b: seq<byte>)
    requires encoding < 0x1_0000 && channels < 0x1_0000 && rate < BYTE32 && speed < BYTE32
    requires alignment < 0x1_0000 && bits < 0x1_0000
    ensures |b| == 16
  {
    Le16(encoding) + Le16(channels) + Le32(rate) + Le32(speed) + Le16(alignment) + Le16(bits)
  }

  lemma FormatWithFields(encoding: nat, channels: nat, rate: nat, speed: nat, alignment: nat, bits: nat)
    requires encoding < 0x1_0000 && channels < 0x1_0000 && rate < BYTE32 && speed < BYTE32
    requires alignment < 0x1_0000 && bits < 0x1_0000
    ensures var f := FormatWith(encoding, channels, rate, speed, alignment, bits);
      && Read16(f, 0) == encoding && Read16(f, 2) == channels && Read32(f, 4) == rate
      && Read16(f, 12) == alignment && Read16(f, 14) == bits
  {
    var f := FormatWith(encoding, channels, rate, speed, alignment, bits);
    hide Le16, Le32, Read16, Read32;
    assert f[0..2] == Le16(encoding) && f[2..4] == Le16(channels) && f[4..8] == Le32(rate);
    assert f[12..14] == Le16(alignment) && f[14..] == Le16(bits) && f[14..16] == f[14..];
    Read16Back(f, 0, encoding);
    Read16Back(f, 2, channels);
    Read32Back(f, 4, rate);
    Read16Back(f, 12, alignment);
    Read16Back(f, 14, bits);
  }

  /** The format chunk of `channels` channels of sixteen-bit integers (1) or 32-bit floats (3). */
  function FormatOf(encoding: nat, channels: nat, rate: nat): (b: seq<byte>)
    requires (encoding == 1 || encoding == 3) && 1 <= channels <= 2 && rate <= 96000
    ensures |b| == 16
  {
    var width := channels * Width(encoding);
    FormatWith(encoding, channels, rate, rate * width, width, 8 * Width(encoding))
  }

  /** The channel values in a data chunk, one after another; `None` is a value that is not finite. */
  ghost predicate Carries(data: seq<byte>, encoding: nat, values: seq<Option<real>>, float: Float) {
    |data| == |values| * Width(encoding) &&
    forall j :: 0 <= j < |values| ==> Carried(data, encoding, j, values[j], float)
  }

  ghost predicate Carried(data: seq<byte>, encoding: nat, j: nat, value: Option<real>, float: Float) {
    (j + 1) * Width(encoding) <= |data| && Reading(data, encoding, j * Width(encoding), float) == value
  }

  function Limited(x: real): (y: real)
    ensures -1.0 <= y <= 1.0 && (-1.0 <= x <= 1.0 ==> y == x)
    ensures (x > 1.0 ==> y == 1.0) && (x < -1.0 ==> y == -1.0)
  {
    if x > 1.0 then 1.0 else if x < -1.0 then -1.0 else x
  }

  /** Each sample is the mean of the limited values of its channels. */
  ghost predicate Mixed(values: seq<Option<real>>, channels: nat, samples: seq<real>) {
    |values| == |samples| * channels && forall i :: 0 <= i < |samples| ==> MeanAt(values, channels, samples[i], i)
  }

  ghost predicate MeanAt(values: seq<Option<real>>, channels: nat, sample: real, i: nat) {
    if channels == 1 then i < |values| && values[i].Some? && sample == Limited(values[i].value)
    else 2 * i + 1 < |values| && values[2 * i].Some? && values[2 * i + 1].Some?
         && sample == (Limited(values[2 * i].value) + Limited(values[2 * i + 1].value)) / 2.0
  }

  lemma {:induction false} FramesMix(data: seq<byte>, encoding: nat, channels: nat, values: seq<Option<real>>, n: nat,
                                     float: Float)
    requires 1 <= channels <= 2 && Carries(data, encoding, values, float) && n * channels <= |values|
    requires n * (channels * Width(encoding)) <= |data|
    ensures var played := Frames(data, encoding, channels, n, float);
      && (played.Some? <==> forall v :: v in values[..n * channels] ==> v.Some?)
      && (played.Some? ==> Mixed(values[..n * channels], channels, played.value))
  {
    hide Carried, Frame, Mixed;
    if n == 0 {
      MixedNone(channels);
      assert values[..0] == [];
    } else {
      FramesMix(data, encoding, channels, values, n - 1, float);
      FrameMixes(data, encoding, channels, values, n - 1, float);
      MoreFrames(data, encoding, channels, n, float);
      var before, last := values[..(n - 1) * channels], values[(n - 1) * channels..n * channels];
      assert values[..n * channels] == before + last;
      hide Frames, Carries;
      assert channels == 1 ==> last == [values[n - 1]];
      assert channels == 2 ==> last == [values[2 * (n - 1)], values[2 * (n - 1) + 1]];
      if Frames(data, encoding, channels, n, float).Some? {
        MixedMore(before, last, channels, Frames(data, encoding, channels, n - 1, float).value,
                  Frame(data, encoding, channels, n - 1, float).value);
      }
    }
  }

  lemma MoreFrames(data: seq<byte>, encoding: nat, channels: nat, n: nat, float: Float)
    requires 1 <= channels <= 2 && n > 0 && n * (channels * Width(encoding)) <= |data|
    ensures (n - 1) * (channels * Width(encoding)) <= |data|
    ensures var before := Frames(data, encoding, channels, n - 1, float);
      var last := Frame(data, encoding, channels, n - 1, float);
      Frames(data, encoding, channels, n, float) ==
      if before.None? || last.None? then None else Some(before.value + [last.value])
  {
    hide Frame;
    Fewer(n, channels * Width(encoding));
  }

  lemma MixedNone(channels: nat)
    ensures Mixed([], channels, [])
  {
  }

  lemma MixedMore(before: seq<Option<real>>, last: seq<Option<real>>, channels: nat, samples: seq<real>, y: real)
    requires 1 <= channels <= 2 && |last| == channels && (forall v :: v in before + last ==> v.Some?)
    requires Mixed(before, channels, samples)
    requires y == if channels == 1 then Limited(last[0].value)
                  else (Limited(last[0].value) + Limited(last[1].value)) / 2.0
    ensures Mixed(before + last, channels, samples + [y])
  {
    hide Limited;
    var all, more := before + last, samples + [y];
    assert |all| == |more| * channels;
    forall i | 0 <= i < |more|
      ensures MeanAt(all, channels, more[i], i)
    {
      if i < |samples| {
        assert MeanAt(before, channels, samples[i], i);
      } else if channels == 1 {
        assert all[i] == last[0] && last[0] in all;
      } else {
        assert all[2 * i] == last[0] && all[2 * i + 1] == last[1] && last[0] in all && last[1] in all;
      }
    }
  }

  lemma FrameMixes(data: seq<byte>, encoding: nat, channels: nat, values: seq<Option<real>>, i: nat, float: Float)
    requires 1 <= channels <= 2 && Carries(data, encoding, values, float) && (i + 1) * channels <= |values|
    requires (i + 1) * (channels * Width(encoding)) <= |data|
    ensures var f := Frame(data, encoding, channels, i, float);
      if channels == 1 then
        f == if values[i].None? then None else Some(Limited(values[i].value))
      else
        f == if values[2 * i].None? || values[2 * i + 1].None? then None
             else Some((Limited(values[2 * i].value) + Limited(values[2 * i + 1].value)) / 2.0)
  {
    hide Reading;
    if channels == 1 {
      assert Carried(data, encoding, i, values[i], float);
    } else {
      assert Carried(data, encoding, 2 * i, values[2 * i], float);
      assert Carried(data, encoding, 2 * i + 1, values[2 * i + 1], float);
      assert (2 * i + 1) * Width(encoding) == i * (2 * Width(encoding)) + Width(encoding);
    }
  }

  /** A file of two chunks, the format and the data. */
  function FileWith(format: seq<byte>, data: seq<byte>): seq<byte>
    requires |format| == 16 && |data| < MAX_BYTES
  {
    FileSize(format, data);
    Container([Chunk(FMT, format), Chunk(DATA, data)])
  }

  function FileOf(encoding: nat, channels: nat, rate: nat, data: seq<byte>): seq<byte>
    requires (encoding == 1 || encoding == 3) && 1 <= channels <= 2 && rate <= 96000 && |data| < MAX_BYTES
  {
    FileWith(FormatOf(encoding, channels, rate), data)
  }

  lemma FileSize(format: seq<byte>, data: seq<byte>)
    requires |format| == 16 && |data| < MAX_BYTES
    ensures var cs := [Chunk(FMT, format), Chunk(DATA, data)];
      AllFit(cs) && |PrintAll(cs)| == 32 + |data| + |data| % 2
  {
    hide Print;
    var cs := [Chunk(FMT, format), Chunk(DATA, data)];
    assert cs[1..] == [cs[1]] && [cs[1]][1..] == [];
    assert PrintAll([cs[1]]) == Print(cs[1]) + PrintAll([]);
  }

  /**
   * Whatever a file of the accepted kinds carries, for one channel or two, integers or floats: decoding succeeds
   * exactly when every value is finite, and then each sample is the mean of the limited values of its channels.
   */
  lemma DecodesMixed(encoding: nat, channels: nat, rate: nat, data: seq<byte>, values: seq<Option<real>>, count: nat,
                     float: Float)
    requires (encoding == 1 || encoding == 3) && 1 <= channels <= 2 && 8000 <= rate <= 96000
    requires 44 + |data| <= MAX_BYTES && Carries(data, encoding, values, float)
    requires |values| == count * channels && rate <= count * 50 && count <= rate * 120
    ensures var back := Decode(FileOf(encoding, channels, rate, data), float);
      if forall v :: v in values ==> v.Some? then
        && back.Ok? && back.value.rate == rate && |back.value.samples| == count
        && Mixed(values, channels, back.value.samples)
      else back == Err(NonFinite)
  {
    hide Decode, FormatOf, Frames, Understood, Carried, Mixed, FileWith;
    var format := FormatOf(encoding, channels, rate);
    EvenBytes(data, encoding, values, float);
    FileUnderstood(format, data, float);
    UnderstoodMixed(encoding, channels, rate, data, values, count, float);
  }

  lemma CarriesLength(data: seq<byte>, encoding: nat, values: seq<Option<real>>, float: Float)
    requires (encoding == 1 || encoding == 3) && Carries(data, encoding, values, float)
    ensures |data| == if encoding == 1 then |values| * 2 else |values| * 4
  {
    hide Carried;
  }

  lemma EvenBytes(data: seq<byte>, encoding: nat, values: seq<Option<real>>, float: Float)
    requires (encoding == 1 || encoding == 3) && Carries(data, encoding, values, float)
    ensures |data| % 2 == 0
  {
    CarriesLength(data, encoding, values, float);
    hide Carries;
  }

  lemma FileUnderstood(format: seq<byte>, data: seq<byte>, float: Float)
    requires |format| == 16 && 44 + |data| + |data| % 2 <= MAX_BYTES
    ensures Decode(FileWith(format, data), float) == Understood(Found(Some(format), Some(data)), float)
  {
    hide Decode, Collect, Print, Understood;
    var cs := [Chunk(FMT, format), Chunk(DATA, data)];
    FileSize(format, data);
    DecodeContainer(cs, [], float);
    assert Container(cs) + [] == Container(cs);
    BothFound(format, data);
  }

  /**
   * What a file with a whole format chunk is refused for, in the order of the checks: its kind, its rate or alignment,
   * its duration, and last a value that is not finite.
   */
  lemma RefusedExactly(encoding: nat, channels: nat, rate: nat, speed: nat, alignment: nat, bits: nat, data: seq<byte>,
                       float: Float)
    requires encoding < 0x1_0000 && channels < 0x1_0000 && rate < BYTE32 && speed < BYTE32
    requires alignment < 0x1_0000 && bits < 0x1_0000 && 44 + |data| + |data| % 2 <= MAX_BYTES
    ensures var back := Decode(FileWith(FormatWith(encoding, channels, rate, speed, alignment, bits), data), float);
      var known := ((encoding == 1 && bits == 16) || (encoding == 3 && bits == 32)) && (channels == 1 || channels == 2);
      var aligned :=
        8000 <= rate <= 96000 && 0 < alignment && alignment * 8 == channels * bits && |data| % alignment == 0;
      var timed := aligned && rate <= |data| / alignment * 50 && |data| / alignment <= rate * 120;
      && (back == Err(Encoding) <==> !known)
      && (back == Err(RateOrAlignment) <==> known && !aligned)
      && (back == Err(Duration) <==> known && aligned && !timed)
      && (back.Ok? || back == Err(NonFinite) <==> known && aligned && timed)
  {
    hide FileWith, FormatWith, Frames, Read16, Read32;
    var format := FormatWith(encoding, channels, rate, speed, alignment, bits);
    FileUnderstood(format, data, float);
    FormatWithFields(encoding, channels, rate, speed, alignment, bits);
    hide Decode;
  }

  lemma UnderstoodMixed(encoding: nat, channels: nat, rate: nat, data: seq<byte>, values: seq<Option<real>>, count: nat,
                        float: Float)
    requires (encoding == 1 || encoding == 3) && 1 <= channels <= 2 && 8000 <= rate <= 96000
    requires Carries(data, encoding, values, float)
    requires |values| == count * channels && rate <= count * 50 && count <= rate * 120
    ensures var back := Understood(Found(Some(FormatOf(encoding, channels, rate)), Some(data)), float);
      if forall v :: v in values ==> v.Some? then
        && back.Ok? && back.value.rate == rate && |back.value.samples| == count
        && Mixed(values, channels, back.value.samples)
      else back == Err(NonFinite)
  {
    hide FormatWith, Frames, Carried, Mixed, Read16, Read32;
    var alignment := channels * Width(encoding);
    FormatWithFields(encoding, channels, rate, rate * alignment, alignment, 8 * Width(encoding));
    assert |data| == count * alignment;
    Divides(count, alignment);
    FramesMix(data, encoding, channels, values, count, float);
    assert values[..count * channels] == values;
    var played := Frames(data, encoding, channels, count, float);
    if played.Some? {
      MixedSize(values, channels, count, played.value);
    }
  }

  lemma MixedSize(values: seq<Option<real>>, channels: nat, count: nat, samples: seq<real>)
    requires |values| == count * channels && 1 <= channels <= 2 && (forall v :: v in values ==> v.Some?)
    requires Mixed(values, channels, samples)
    ensures |samples| == count
  {
  }

  lemma Divides(q: nat, d: nat)
    requires d in {2, 4, 8}
    ensures q * d / d == q && q * d % d == 0
  {
  }

  /** Two sequences, one value of each in turn. */
  function Interleaved(l: seq<real>, r: seq<real>): (s: seq<real>)
    requires |l| == |r|
    ensures |s| == 2 * |l|
    ensures forall i :: 0 <= i < |l| ==> s[2 * i] == l[i] && s[2 * i + 1] == r[i]
  {
    if l == [] then []
    else Interleaved(l[..|l| - 1], r[..|r| - 1]) + [l[|l| - 1], r[|r| - 1]]
  }

  function Played(samples: seq<real>): (values: seq<Option<real>>)
    ensures |values| == |samples|
    ensures forall j :: 0 <= j < |values| ==> values[j] == Some(Quantised(samples[j]) as real / 32768.0)
  {
    seq(|samples|, j requires 0 <= j < |samples| => Some(Quantised(samples[j]) as real / 32768.0))
  }

  lemma {:induction false} WordAt(samples: seq<real>, j: nat)
    requires j < |samples|
    ensures Words(samples)[2 * j..2 * j + 2] == Word(samples[j])
  {
    var n := |samples| - 1;
    if j < n {
      WordAt(samples[..n], j);
    }
  }

  lemma WordsCarry(samples: seq<real>, float: Float)
    ensures Carries(Words(samples), 1, Played(samples), float)
  {
    hide Words, Read16;
    forall j | 0 <= j < |samples|
      ensures Carried(Words(samples), 1, j, Played(samples)[j], float)
    {
      WordAt(samples, j);
      WordReads(Words(samples), 2 * j, samples[j], float);
    }
  }

  lemma WordReads(b: seq<byte>, at: nat, x: real, float: Float)
    requires at + 2 <= |b| && b[at..at + 2] == Word(x)
    ensures Reading(b, 1, at, float) == Some(Quantised(x) as real / 32768.0)
  {
    var q := Quantised(x);
    Read16Back(b, at, if q >= 0 then q else q + 65536);
  }

  /** Two channels written in turn come back as their mean. */
  lemma StereoMeans(l: seq<real>, r: seq<real>, rate: nat, float: Float)
    requires 8000 <= rate <= 96000 && |l| == |r| && rate <= |l| * 50 && |l| <= rate * 120
    requires 44 + 4 * |l| <= MAX_BYTES
    ensures var back := Decode(FileOf(1, 2, rate, Words(Interleaved(l, r))), float);
      && back.Ok? && back.value.rate == rate && |back.value.samples| == |l|
      && forall i :: 0 <= i < |l| ==>
           back.value.samples[i] == (Quantised(l[i]) + Quantised(r[i])) as real / 65536.0
  {
    hide Decode, FileOf, Words, Interleaved, Carries;
    var s := Interleaved(l, r);
    var values := Played(s);
    WordsCarry(s, float);
    assert forall v :: v in values ==> v.Some?;
    DecodesMixed(1, 2, rate, Words(s), values, |l|, float);
    var back := Decode(FileOf(1, 2, rate, Words(s)), float);
    forall i | 0 <= i < |l|
      ensures back.value.samples[i] == (Quantised(l[i]) + Quantised(r[i])) as real / 65536.0
    {
      var a, b := Quantised(l[i]) as real / 32768.0, Quantised(r[i]) as real / 32768.0;
      assert s[2 * i] == l[i] && s[2 * i + 1] == r[i];
      assert values[2 * i] == Some(a) && values[2 * i + 1] == Some(b);
      assert -1.0 <= a <= 1.0 && -1.0 <= b <= 1.0;
      assert back.value.samples[i] == (Limited(a) + Limited(b)) / 2.0;
    }
  }

  type Code = c: nat | c < BYTE32

  /** Four bytes for each code. */
  function Quads(codes: seq<Code>): (b: seq<byte>)
    ensures |b| == 4 * |codes|
  {
    if codes == [] then [] else Quads(codes[..|codes| - 1]) + Le32(codes[|codes| - 1])
  }

  lemma {:induction false} QuadAt(codes: seq<Code>, j: nat)
    requires j < |codes|
    ensures Quads(codes)[4 * j..4 * j + 4] == Le32(codes[j])
  {
    hide Le32;
    var n := |codes| - 1;
    if j < n {
      QuadAt(codes[..n], j);
    }
  }

  /** Each sample is the limited value of its code, or the mean of those of its two. */
  ghost predicate Averages(codes: seq<Code>, channels: nat, float: Float, samples: seq<real>) {
    |codes| == |samples| * channels &&
    forall i :: 0 <= i < |samples| ==> AverageAt(codes, channels, float, samples[i], i)
  }

  ghost predicate AverageAt(codes: seq<Code>, channels: nat, float: Float, sample: real, i: nat) {
    if channels == 1 then i < |codes| && float(codes[i]).Some? && sample == Limited(float(codes[i]).value)
    else 2 * i + 1 < |codes| && float(codes[2 * i]).Some? && float(codes[2 * i + 1]).Some? && sample
         == (Limited(float(codes[2 * i]).value) + Limited(float(codes[2 * i + 1]).value)) / 2.0
  }

  /**
   * Floats of one channel or two: refused exactly when one of them is not finite; otherwise each is limited to the
   * range from -1 to 1 and two channels are averaged.
   */
  lemma FloatsMean(codes: seq<Code>, channels: nat, rate: nat, count: nat, float: Float)
    requires 1 <= channels <= 2 && 8000 <= rate <= 96000 && |codes| == count * channels
    requires rate <= count * 50 && count <= rate * 120 && 44 + 4 * |codes| <= MAX_BYTES
    ensures var back := Decode(FileOf(3, channels, rate, Quads(codes)), float);
      if exists c :: c in codes && float(c).None? then back == Err(NonFinite)
      else back.Ok? && back.value.rate == rate && |back.value.samples| == count
           && Averages(codes, channels, float, back.value.samples)
  {
    hide Decode, FileOf, Quads, Carries, Mixed, Averages;
    var values := seq(|codes|, j requires 0 <= j < |codes| => float(codes[j]));
    QuadsCarry(codes, values, float);
    DecodesMixed(3, channels, rate, Quads(codes), values, count, float);
    AllFinite(codes, values, float);
    var back := Decode(FileOf(3, channels, rate, Quads(codes)), float);
    if back.Ok? {
      MixedAverages(codes, values, channels, float, back.value.samples);
    }
  }

  lemma AllFinite(codes: seq<Code>, values: seq<Option<real>>, float: Float)
    requires |values| == |codes| && forall j :: 0 <= j < |codes| ==> values[j] == float(codes[j])
    ensures (forall v :: v in values ==> v.Some?) <==> forall c :: c in codes ==> float(c).Some?
  {
    forall v | v in values
      ensures exists c :: c in codes && float(c) == v
    {
      var j :| 0 <= j < |codes| && values[j] == v;
      assert codes[j] in codes;
    }
    forall c | c in codes
      ensures float(c) in values
    {
      var j :| 0 <= j < |codes| && codes[j] == c;
      assert values[j] in values;
    }
  }

  lemma MixedAverages(codes: seq<Code>, values: seq<Option<real>>, channels: nat, float: Float, samples: seq<real>)
    requires |values| == |codes| && (forall j :: 0 <= j < |codes| ==> values[j] == float(codes[j]))
    requires 1 <= channels <= 2 && (forall v :: v in values ==> v.Some?) && Mixed(values, channels, samples)
    ensures Averages(codes, channels, float, samples)
  {
    hide Limited;
    forall i | 0 <= i < |samples|
      ensures AverageAt(codes, channels, float, samples[i], i)
    {
      assert MeanAt(values, channels, samples[i], i);
    }
  }

  lemma QuadsCarry(codes: seq<Code>, values: seq<Option<real>>, float: Float)
    requires |values| == |codes|
    requires forall j :: 0 <= j < |codes| ==> values[j] == float(codes[j])
    ensures Carries(Quads(codes), 3, values, float)
  {
    hide Quads, Read32;
    forall j | 0 <= j < |codes|
      ensures Carried(Quads(codes), 3, j, values[j], float)
    {
      QuadAt(codes, j);
      Read32Back(Quads(codes), 4 * j, codes[j]);
    }
  }

  /** The loss: none on multiples of 1/32768, half a step inside the range, a whole step at the positive clamp. */
  lemma QuantisedNear(x: real)
    requires -1.0 <= x <= 1.0
    ensures var y := Quantised(x) as real / 32768.0;
      && -1.0 / 32768.0 <= y - x <= 1.0 / 65536.0
      && (x < 1.0 - 1.0 / 65536.0 ==> -1.0 / 65536.0 <= y - x)
  {
    var q := (x * 32768.0 + 0.5).Floor;
    assert q as real <= x * 32768.0 + 0.5 < q as real + 1.0;
  }

  lemma QuantisedExact(k: int)
    requires -32768 <= k <= 32767
    ensures Quantised(k as real / 32768.0) == k
  {
    assert (k as real / 32768.0) * 32768.0 + 0.5 == k as real + 0.5;
  }
}

/** The same two functions as the program writes them: a buffer filled in a loop, a walk over offsets. */
module WavFiles {
  import opened Bytes
  import opened Options
  import opened Riff
  import opened Wav
  import opened WavLaws

  method Write(bytes: array<byte>, at: nat, text: seq<byte>)
    requires at + |text| <= bytes.Length
    modifies bytes
    ensures bytes[..at + |text|] == old(bytes[..at]) + text
  {
    var i := 0;
    while i < |text|
      invariant 0 <= i <= |text| && bytes[..at + i] == old(bytes[..at]) + text[..i]
    {
      bytes[at + i] := text[i];
      i := i + 1;
    }
    assert text[..i] == text;
  }

  method WriteContainer(bytes: array<byte>)
    requires 44 <= bytes.Length < BYTE32
    modifies bytes
    ensures bytes[..20] == RIFF + Le32(bytes.Length - 8) + WAVE + FMT + Le32(16)
  {
    hide Le32;
    Write(bytes, 0, RIFF);
    Write(bytes, 4, Le32(bytes.Length - 8));
    Write(bytes, 8, WAVE + FMT);
    Write(bytes, 16, Le32(16));
  }

  method WriteFormat(bytes: array<byte>, rate: nat)
    requires 44 <= bytes.Length && rate < 0x8000_0000
    modifies bytes
    ensures bytes[..36] == old(bytes[..20]) + FormatBytes(rate)
  {
    hide Le32, Le16;
    Write(bytes, 20, Le16(1));
    Write(bytes, 22, Le16(1));
    Write(bytes, 24, Le32(rate));
    Write(bytes, 28, Le32(rate * 2));
    Write(bytes, 32, Le16(2));
    Write(bytes, 34, Le16(16));
  }

  method EncodeWav(clip: Clip, skip: nat) returns (bytes: array<byte>)
    requires clip.rate < 0x8000_0000 && 44 + 2 * |clip.samples| < BYTE32
    ensures fresh(bytes)
    ensures bytes[..] == Encoded(if skip <= |clip.samples| then clip.samples[skip..] else [], clip.rate)
  {
    hide Le32, FormatBytes, Word;
    var samples := if skip <= |clip.samples| then clip.samples[skip..] else [];
    bytes := new byte[44 + 2 * |samples|](_ => 0);
    WriteContainer(bytes);
    WriteFormat(bytes, clip.rate);
    Write(bytes, 36, DATA);
    Write(bytes, 40, Le32(2 * |samples|));
    ghost var header := bytes[..44];
    WriteSamples(bytes, samples);
    assert header + Words(samples) == Encoded(samples, clip.rate);
  }

  method WriteSamples(bytes: array<byte>, samples: seq<real>)
    requires bytes.Length == 44 + 2 * |samples|
    modifies bytes
    ensures bytes[..] == old(bytes[..44]) + Words(samples)
  {
    hide Word;
    var i := 0;
    while i < |samples|
      invariant 0 <= i <= |samples| && bytes[..44 + 2 * i] == old(bytes[..44]) + Words(samples[..i])
    {
      assert samples[..i + 1][..i] == samples[..i];
      Write(bytes, 44 + 2 * i, Word(samples[i]));
      i := i + 1;
    }
    assert samples[..i] == samples && bytes[..44 + 2 * i] == bytes[..];
  }

  method DecodeWav(bytes: seq<byte>, float: Float) returns (r: Result<Clip>)
    ensures r == Decode(bytes, float)
  {
    if |bytes| > MAX_BYTES {
      return Err(TooLarge);
    }
    if |bytes| < 12 || Ascii(bytes[..4]) != RIFF || Ascii(bytes[8..12]) != WAVE {
      return Err(NotWave);
    }
    var end := Read32(bytes, 4) + 8;
    if end > |bytes| || end < 12 {
      return Err(TruncatedContainer);
    }
    var found := FindChunks(bytes[..end]);
    if found.Err? {
      return Err(found.error);
    }
    if found.value.format.None? || |found.value.format.value| < 16 || found.value.data.None? {
      return Err(Missing);
    }
    r := ReadSamples(found.value.format.value, found.value.data.value, float);
  }

  method FindChunks(body: seq<byte>) returns (found: Result<Found>)
    requires |body| >= 12
    ensures found == Walk(body, 12, Found(None, None))
  {
    hide Read32, Walk, Note;
    var so := Found(None, None);
    var offset := 12;
    while offset < |body|
      invariant 12 <= offset <= |body|
      invariant Walk(body, 12, Found(None, None)) == Walk(body, offset, so)
    {
      WalkStep(body, offset, so);
      if offset + 8 > |body| {
        return Err(TruncatedHeader);
      }
      var name, length := body[offset..offset + 4], Read32(body, offset + 4);
      var next := offset + 8 + length;
      if next + length % 2 > |body| {
        return Err(TruncatedChunk);
      }
      found := Note(so, Chunk(name, body[offset + 8..next]));
      if found.Err? {
        return;
      }
      so := found.value;
      offset := next + length % 2;
    }
    WalkEnds(body, so);
    found := Ok(so);
  }

  lemma WalkEnds(body: seq<byte>, f: Found)
    ensures Walk(body, |body|, f) == Ok(f)
  {
  }

  lemma WalkStep(body: seq<byte>, at: nat, f: Found)
    requires at < |body|
    ensures at + 8 > |body| ==> Walk(body, at, f) == Err(TruncatedHeader)
    ensures at + 8 <= |body| ==>
              var length := Read32(body, at + 4);
              var next := at + 8 + length;
              if next + length % 2 > |body| then Walk(body, at, f) == Err(TruncatedChunk)
              else
                var noted := Note(f, Chunk(body[at..at + 4], body[at + 8..next]));
                Walk(body, at, f) == if noted.Err? then noted else Walk(body, next + length % 2, noted.value)
  {
    hide Read32, Note;
  }

  method ReadSamples(format: seq<byte>, data: seq<byte>, float: Float) returns (r: Result<Clip>)
    requires |format| >= 16
    ensures r == Decoded(format, data, float)
  {
    var encoding, channels, rate := Read16(format, 0), Read16(format, 2), Read32(format, 4);
    var alignment, bits := Read16(format, 12), Read16(format, 14);
    if !((encoding == 1 && bits == 16) || (encoding == 3 && bits == 32)) || channels < 1 || channels > 2 {
      return Err(Encoding);
    }
    if rate < 8000 || rate > 96000 || alignment * 8 != channels * bits || |data| % alignment != 0 {
      return Err(RateOrAlignment);
    }
    var count := |data| / alignment;
    if count * 50 < rate || count > rate * 120 {
      return Err(Duration);
    }
    assert count * alignment == |data|;
    assert alignment == channels * Width(encoding);
    var samples := ReadFrames(data, encoding, channels, count, float);
    r := if samples.None? then Err(NonFinite) else Ok(Clip(samples.value, rate));
  }

  method ReadFrames(data: seq<byte>, encoding: nat, channels: nat, count: nat, float: Float)
    returns (r: Option<seq<real>>)
    requires 1 <= channels <= 2 && count * (channels * Width(encoding)) <= |data|
    ensures r == Frames(data, encoding, channels, count, float)
  {
    hide Frame;
    var samples := new real[count](_ => 0.0);
    var i := 0;
    while i < count
      invariant 0 <= i <= count && i * (channels * Width(encoding)) <= |data|
      invariant Frames(data, encoding, channels, i, float) == Some(samples[..i])
    {
      Scale(i + 1, count, channels * Width(encoding));
      var frame := Frame(data, encoding, channels, i, float);
      if frame.None? {
        Unfinished(data, encoding, channels, i, count, float);
        return None;
      }
      ghost var before := samples[..i];
      samples[i] := frame.value;
      assert samples[..i] == before && samples[..i + 1] == before + [frame.value];
      i := i + 1;
    }
    assert samples[..i] == samples[..];
    r := Some(samples[..]);
  }

  lemma Scale(i: nat, n: nat, width: nat)
    requires i <= n
    ensures i * width <= n * width
  {
  }

  lemma {:induction false} Unfinished(data: seq<byte>, encoding: nat, channels: nat, i: nat, n: nat, float: Float)
    requires 1 <= channels <= 2 && i < n && n * (channels * Width(encoding)) <= |data|
    requires (i + 1) * (channels * Width(encoding)) <= |data| && Frame(data, encoding, channels, i, float).None?
    ensures Frames(data, encoding, channels, n, float).None?
  {
    Fewer(n, channels * Width(encoding));
    if i < n - 1 {
      Unfinished(data, encoding, channels, i, n - 1, float);
    }
  }
}
