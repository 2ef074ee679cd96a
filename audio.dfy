/** `AudioFileProcessor`: picks a loader by file extension, decodes 16-bit
    PCM (little-endian for WAV, big-endian for the compressed path's byte
    buffer), resamples to 16 kHz by nearest index and averages interleaved
    channels down to mono.

    The file system and the platform extractor are inputs: a WAV file is its
    header bytes and the chunks the stream delivers, a compressed file is its
    track list and the chunks the extractor delivers. Samples are exact reals. */
module AudioFileProcessor {
  import opened Wrappers
  import opened Numbers

  type byte = b: int | 0 <= b < 256

  /** Every loader delivers 16 kHz audio. */
  const TargetRate: int := 16000
  /** The WAV header is read as a fixed 44-byte block. */
  const HeaderSize: nat := 44
  /** Both loaders read through an 8 KiB buffer. */
  const ChunkSize: nat := 8192

  // ---------------------------------------------------------------------------
  // Extension dispatch

  /** `File.extension`: what follows the last '.', or "" when there is none. */
  function Extension(name: string): (ext: string)
    ensures '.' !in ext && |ext| <= |name|
    ensures '.' !in name ==> ext == ""
    ensures '.' in name ==> |ext| < |name| && name[|name| - |ext| - 1] == '.' && name[|name| - |ext|..] == ext
  {
    if name == [] || name[|name| - 1] == '.' then ""
    else
      var ext := Extension(name[..|name| - 1]) + [name[|name| - 1]];
      if '.' in name[..|name| - 1] then ext else ""
  }

  /** `lowercase()` on the ASCII letters. */
  function LowerChar(c: char): (l: char)
    ensures 'A' <= c <= 'Z' ==> l as int == c as int + 32
    ensures !('A' <= c <= 'Z') ==> l == c
  {
    if 'A' <= c <= 'Z' then (c as int + 32) as char else c
  }

  function Lower(s: string): (l: string)
    ensures |l| == |s| && forall i :: 0 <= i < |s| ==> l[i] == LowerChar(s[i])
  {
    seq(|s|, i requires 0 <= i < |s| => LowerChar(s[i]))
  }

  datatype Loader = WavLoader | CompressedLoader

  /** The `when` of `loadAudioFileStreaming`. */
  function Dispatch(ext: string): (r: Result<Loader>)
    ensures r.Ok? <==> Lower(ext) in {"wav", "mp3", "m4a", "aac"}
    ensures r.Ok? ==> (r.value == WavLoader <==> Lower(ext) == "wav")
    ensures r.Err? ==> r.error == UnsupportedFormat(ext)
  {
    var l := Lower(ext);
    if l == "wav" then Ok(WavLoader)
    else if l == "mp3" || l == "m4a" || l == "aac" then Ok(CompressedLoader)
    else Err(UnsupportedFormat(ext))
  }

  lemma LowerIdempotent(s: string)
    ensures Lower(Lower(s)) == Lower(s)
  {
  }

  /** Dispatch ignores case: two spellings that lower to the same text pick
      the same loader, and a spelling and its lowercase form agree. */
  lemma DispatchIgnoresCase(a: string, b: string)
    requires Lower(a) == Lower(b)
    ensures Dispatch(a).Ok? <==> Dispatch(b).Ok?
    ensures Dispatch(a).Ok? ==> Dispatch(a).value == Dispatch(b).value
    ensures Dispatch(Lower(a)).Ok? == Dispatch(a).Ok?
  {
    LowerIdempotent(a);
  }

  lemma DispatchExamples()
    ensures Dispatch("WAV") == Ok(WavLoader)
    ensures Dispatch("Mp3") == Ok(CompressedLoader)
    ensures Dispatch("flac") == Err(UnsupportedFormat("flac"))
  {
    assert Lower("WAV") == "wav";
    assert Lower("Mp3") == "mp3";
    assert Lower("flac") == "flac";
  }

  // ---------------------------------------------------------------------------
  // WAV header

  /** A 16-bit two's-complement value from its low and high byte. */
  function Signed16(lo: byte, hi: byte): (v: int)
    ensures -32768 <= v < 32768
    ensures v % 65536 == lo + 256 * hi
  {
    var u := lo + 256 * hi;
    if u >= 32768 then u - 65536 else u
  }

  /** A 32-bit two's-complement value from four bytes, least significant first. */
  function Signed32(b0: byte, b1: byte, b2: byte, b3: byte): (v: int)
    ensures -0x8000_0000 <= v < 0x8000_0000
  {
    var u := b0 + 256 * b1 + 65536 * b2 + 16777216 * b3;
    if u >= 0x8000_0000 then u - 0x1_0000_0000 else u
  }

  /** `ByteArray(44)` after `read`: the bytes read, then zeros. */
  function HeaderBlock(read: seq<byte>): (h: seq<byte>)
    ensures |h| == HeaderSize
    ensures forall i :: 0 <= i < HeaderSize ==> h[i] == if i < |read| then read[i] else 0
  {
    if |read| >= HeaderSize then read[..HeaderSize]
    else read + seq(HeaderSize - |read|, _ => 0)
  }

  datatype WavHeader = WavHeader(channels: int, sampleRate: int, bitsPerSample: int)

  /** Channels at bytes 22–23, sample rate at 24–27, bits per sample at
      34–35, each little-endian. */
  function ParseHeader(h: seq<byte>): (w: WavHeader)
    requires |h| == HeaderSize
    ensures -32768 <= w.channels < 32768 && -32768 <= w.bitsPerSample < 32768
    ensures -0x8000_0000 <= w.sampleRate < 0x8000_0000
  {
    WavHeader(Signed16(h[22], h[23]), Signed32(h[24], h[25], h[26], h[27]), Signed16(h[34], h[35]))
  }

  /** The two bytes of a 16-bit value, low byte first. */
  function Bytes16(v: int): (b: seq<byte>)
    requires -32768 <= v < 32768
    ensures |b| == 2
  {
    var u := v % 65536;
    [u % 256, u / 256]
  }

  /** The four bytes of a 32-bit value, least significant first. */
  function Bytes32(v: int): (b: seq<byte>)
    requires -0x8000_0000 <= v < 0x8000_0000
    ensures |b| == 4
  {
    var u := v % 0x1_0000_0000;
    var q1 := u / 256;
    var q2 := q1 / 256;
    [u % 256, q1 % 256, q2 % 256, q2 / 256]
  }

  /** A 44-byte header carrying the three fields (the rest zero). */
  function EncodeHeader(w: WavHeader): (h: seq<byte>)
    requires -32768 <= w.channels < 32768 && -32768 <= w.bitsPerSample < 32768
    requires -0x8000_0000 <= w.sampleRate < 0x8000_0000
    ensures |h| == HeaderSize
  {
    seq(22, _ => 0) + Bytes16(w.channels) + Bytes32(w.sampleRate) + seq(6, _ => 0) +
    Bytes16(w.bitsPerSample) + seq(8, _ => 0)
  }

  lemma Signed16OfBytes(v: int)
    requires -32768 <= v < 32768
    ensures Signed16(Bytes16(v)[0], Bytes16(v)[1]) == v
  {
  }

  lemma Signed32OfBytes(v: int)
    requires -0x8000_0000 <= v < 0x8000_0000
    ensures var b := Bytes32(v); Signed32(b[0], b[1], b[2], b[3]) == v
  {
    var u := v % 0x1_0000_0000;
    assert u == if v >= 0 then v else v + 0x1_0000_0000;
    var q1 := u / 256;
    var q2 := q1 / 256;
    assert u == u % 256 + 256 * q1;
    assert q1 == q1 % 256 + 256 * q2;
    assert q2 == q2 % 256 + 256 * (q2 / 256);
    assert u == u % 256 + 256 * (q1 % 256) + 65536 * (q2 % 256) + 16777216 * (q2 / 256);
  }

  /** Reading the header back gives the fields that were written. */
  lemma ParseEncodeHeader(w: WavHeader)
    requires -32768 <= w.channels < 32768 && -32768 <= w.bitsPerSample < 32768
    requires -0x8000_0000 <= w.sampleRate < 0x8000_0000
    ensures ParseHeader(EncodeHeader(w)) == w
  {
    var h := EncodeHeader(w);
    assert h[22..24] == Bytes16(w.channels);
    assert h[24..28] == Bytes32(w.sampleRate);
    assert h[34..36] == Bytes16(w.bitsPerSample);
    Signed16OfBytes(w.channels);
    Signed32OfBytes(w.sampleRate);
    Signed16OfBytes(w.bitsPerSample);
  }

  /** Kotlin's `/` on `Long`: truncation toward zero, for either sign of divisor. */
  function Quot(a: int, b: int): int
    requires b != 0
  {
    if b > 0 then TruncDiv(a, b) else -TruncDiv(a, -b)
  }

  /** `samplesCount`, whose value is never used but whose divisions throw
      `ArithmeticException` before any audio is read. */
  function SamplesCount(dataSize: int, w: WavHeader): (r: Result<int>)
    ensures r.Err? <==> -8 < w.bitsPerSample < 8 || w.channels == 0
    ensures r.Err? ==> r.error == DivisionByZero
  {
    var bytesPerSample := Quot(w.bitsPerSample, 8);
    if bytesPerSample == 0 || w.channels == 0 then Err(DivisionByZero)
    else Ok(Quot(Quot(dataSize, bytesPerSample), w.channels))
  }

  // ---------------------------------------------------------------------------
  // PCM decoding

  /** One 16-bit sample scaled by 1/32768. */
  function SampleValue(first: byte, second: byte, littleEndian: bool): (v: real)
    ensures -1.0 <= v < 1.0
  {
    var s := if littleEndian then Signed16(first, second) else Signed16(second, first);
    (s as real) / 32768.0
  }

  /** The samples of one chunk: one per complete byte pair, in order; a
      trailing odd byte is dropped. */
  function ChunkSamples(chunk: seq<byte>, littleEndian: bool): (s: seq<real>)
    ensures |s| == |chunk| / 2
  {
    seq(|chunk| / 2, k requires 0 <= k < |chunk| / 2 => SampleValue(chunk[2 * k], chunk[2 * k + 1], littleEndian))
  }

  /** The inner `for (i in 0 until read step 2)` loop. */
  method DecodeChunk(chunk: seq<byte>, littleEndian: bool) returns (samples: seq<real>)
    ensures samples == ChunkSamples(chunk, littleEndian)
  {
    samples := [];
    var i := 0;
    while i < |chunk|
      invariant 0 <= i <= |chunk| + 1 && i % 2 == 0
      invariant samples == ChunkSamples(chunk, littleEndian)[..if i <= |chunk| then i / 2 else |chunk| / 2]
      decreases |chunk| - i
    {
      if i + 1 < |chunk| {
        samples := samples + [SampleValue(chunk[i], chunk[i + 1], littleEndian)];
      }
      i := i + 2;
    }
  }

  /** A byte dropped at the end of an even chunk changes nothing. */
  lemma OddByteDropped(chunk: seq<byte>, b: byte, littleEndian: bool)
    requires |chunk| % 2 == 0
    ensures ChunkSamples(chunk + [b], littleEndian) == ChunkSamples(chunk, littleEndian)
  {
  }

  /** The samples of every chunk, in order. */
  function StreamSamples(chunks: seq<seq<byte>>, littleEndian: bool): seq<real>
  {
    if chunks == [] then []
    else StreamSamples(chunks[..|chunks| - 1], littleEndian) + ChunkSamples(chunks[|chunks| - 1], littleEndian)
  }

  /** PCM bytes for 16-bit values, in the given byte order. */
  function EncodePcm(vs: seq<int>, littleEndian: bool): (bytes: seq<byte>)
    requires forall i :: 0 <= i < |vs| ==> -32768 <= vs[i] < 32768
    ensures |bytes| == 2 * |vs|
  {
    if vs == [] then []
    else
      var b := Bytes16(vs[|vs| - 1]);
      EncodePcm(vs[..|vs| - 1], littleEndian) + if littleEndian then b else [b[1], b[0]]
  }

  /** Each value scaled by 1/32768. */
  function Scaled(vs: seq<int>): (s: seq<real>)
    ensures |s| == |vs|
  {
    seq(|vs|, i requires 0 <= i < |vs| => (vs[i] as real) / 32768.0)
  }

  lemma {:induction false} EncodePcmPairs(vs: seq<int>, littleEndian: bool, k: nat)
    requires forall i :: 0 <= i < |vs| ==> -32768 <= vs[i] < 32768
    requires k < |vs|
    ensures var bytes := EncodePcm(vs, littleEndian);
            SampleValue(bytes[2 * k], bytes[2 * k + 1], littleEndian) == (vs[k] as real) / 32768.0
    decreases |vs|
  {
    var n := |vs| - 1;
    if k < n {
      EncodePcmPairs(vs[..n], littleEndian, k);
      assert vs[..n][k] == vs[k];
    } else {
      Signed16OfBytes(vs[n]);
    }
  }

  /** Decoding the PCM encoding of 16-bit values gives them back, scaled. */
  lemma DecodeEncodePcm(vs: seq<int>, littleEndian: bool)
    requires forall i :: 0 <= i < |vs| ==> -32768 <= vs[i] < 32768
    ensures ChunkSamples(EncodePcm(vs, littleEndian), littleEndian) == Scaled(vs)
  {
    forall k | 0 <= k < |vs|
      ensures ChunkSamples(EncodePcm(vs, littleEndian), littleEndian)[k] == Scaled(vs)[k]
    {
      EncodePcmPairs(vs, littleEndian, k);
    }
  }

  // ---------------------------------------------------------------------------
  // Integer division facts used by the index arithmetic

  lemma MulMonotone(a: int, b: int, c: int)
    requires a <= b && c >= 0
    ensures a * c <= b * c
  {
    assert b * c - a * c == (b - a) * c;
  }

  /** The quotient is the unique `q` with `q * d <= a < q * d + d`. */
  lemma DivUnique(a: int, d: int, q: int)
    requires d > 0 && q * d <= a < q * d + d
    ensures a / d == q
  {
    var y := a / d;
    assert a == y * d + a % d;
    if y > q {
      MulMonotone(q + 1, y, d);
      assert false;
    }
    if y < q {
      MulMonotone(y + 1, q, d);
      assert false;
    }
  }

  /** For `i` below `size * to / from`, the source index `i * from / to` is
      below `size`. */
  lemma SourceIndexInRange(size: nat, from: nat, to: nat, i: nat)
    requires from > 0 && to > 0 && i < size * to / from
    ensures i * from / to < size
  {
    var n := size * to / from;
    assert n * from <= size * to;
    MulMonotone(i + 1, n, from);
    assert (i + 1) * from == i * from + from;
    var q := i * from / to;
    assert q * to <= i * from;
    if q >= size {
      MulMonotone(size, q, to);
      assert false;
    }
  }

  // ---------------------------------------------------------------------------
  // Resampling

  function Abs(x: int): nat { if x < 0 then -x else x }

  /** `Int.MAX_VALUE`: `toInt()` saturates here, and an array this long
      cannot be allocated. */
  const MaxInt: nat := 0x7fff_ffff

  /** The magnitude of `size / ratio` with `ratio = from / to`, truncated. */
  function NewLength(size: nat, from: int, to: int): nat
    requires from != 0
  {
    size * Abs(to) / Abs(from)
  }

  /** `(i * ratio).toInt()`. */
  function SourceIndex(i: nat, from: int, to: int): nat
    requires to != 0
  {
    i * Abs(from) / Abs(to)
  }

  /** `resample`, over exact rationals. Equal rates return the input. A zero
      source rate divides the size by a zero ratio: no audio gives NaN, that
      is length 0; otherwise the length saturates to `Int.MAX_VALUE` (out of
      memory) for a positive target and to `Int.MIN_VALUE` (negative size)
      for a negative one. A zero target rate gives no samples; rates of
      opposite signs give a negative length, which throws unless it
      truncates to zero. A length of `Int.MAX_VALUE` or more saturates and
      cannot be allocated. Otherwise each output sample is the input sample
      at the scaled index, or 0 past the end. */
  function Resampled(data: seq<real>, from: int, to: int): (r: Result<seq<real>>)
  {
    if from == to then Ok(data)
    else if from == 0 then
      (if |data| == 0 then Ok([]) else if to > 0 then Err(OutOfMemory) else Err(NegativeArraySize))
    else if to == 0 then Ok([])
    else if (from > 0) != (to > 0) then
      (if NewLength(|data|, from, to) == 0 then Ok([]) else Err(NegativeArraySize))
    else if NewLength(|data|, from, to) >= MaxInt then Err(OutOfMemory)
    else
      Ok(seq(NewLength(|data|, from, to), i requires 0 <= i =>
               var src := SourceIndex(i, from, to);
               if src < |data| then data[src] else 0.0))
  }

  /** With two positive rates the resampling succeeds exactly when the new
      length `size * to / from` stays below `Int.MAX_VALUE`; then the output
      has that many samples, and sample `i` is input sample `i * from / to`,
      which always exists: the zero-fill branch is never taken. */
  lemma ResampledShape(data: seq<real>, from: int, to: int)
    requires from > 0 && to > 0 && from != to
    ensures var r := Resampled(data, from, to);
            (r.Ok? <==> |data| * to / from < MaxInt) &&
            (r.Err? ==> r.error == OutOfMemory) &&
            (r.Ok? ==>
               |r.value| == |data| * to / from &&
               forall i :: 0 <= i < |r.value| ==>
                 i * from / to < |data| && r.value[i] == data[i * from / to])
  {
    var r := Resampled(data, from, to);
    assert NewLength(|data|, from, to) == |data| * to / from;
    if r.Ok? {
      NearestIndexing(data, from, to, r.value);
    }
  }

  /** A sequence filled the way the resampling loop fills it never takes the
      zero-fill branch. */
  lemma NearestIndexing(data: seq<real>, from: int, to: int, r: seq<real>)
    requires from > 0 && to > 0 && |r| == |data| * to / from
    requires forall i :: 0 <= i < |r| ==>
               r[i] == if i * from / to < |data| then data[i * from / to] else 0.0
    ensures forall i :: 0 <= i < |r| ==> i * from / to < |data| && r[i] == data[i * from / to]
  {
    forall i | 0 <= i < |r|
      ensures i * from / to < |data| && r[i] == data[i * from / to]
    {
      SourceIndexInRange(|data|, from, to, i);
    }
  }

  /** 134218 samples at 1 Hz would need 2147488000 samples at 16 kHz: the
      length saturates and the allocation fails. */
  lemma ResampleSaturates()
    ensures Resampled(seq(134218, _ => 0.0), 1, TargetRate) == Err(OutOfMemory)
  {
  }

  /** Equal rates leave the audio untouched. */
  lemma ResampledSameRate(data: seq<real>, rate: int)
    ensures Resampled(data, rate, rate) == Ok(data)
  {
  }

  /** `resample`: fills a fresh array index by index. */
  method Resample(data: seq<real>, from: int, to: int) returns (r: Result<seq<real>>)
    ensures r == Resampled(data, from, to)
  {
    if from == to {
      return Ok(data);
    }
    if from == 0 {
      return if |data| == 0 then Ok([]) else if to > 0 then Err(OutOfMemory) else Err(NegativeArraySize);
    }
    if to == 0 {
      return Ok([]);
    }
    var n := NewLength(|data|, from, to);
    if (from > 0) != (to > 0) {
      return if n == 0 then Ok([]) else Err(NegativeArraySize);
    }
    if n >= MaxInt {
      return Err(OutOfMemory);
    }
    var resampled := new real[n];
    for i := 0 to n
      invariant forall j :: 0 <= j < i ==>
                  resampled[j] == Resampled(data, from, to).value[j]
    {
      var src := SourceIndex(i, from, to);
      resampled[i] := if src < |data| then data[src] else 0.0;
    }
    assert resampled[..] == Resampled(data, from, to).value;
    r := Ok(resampled[..]);
  }

  // ---------------------------------------------------------------------------
  // Mono mix-down

  /** Frame `i` of interleaved audio with `c` channels. */
  function Frame(data: seq<real>, c: nat, i: nat): (f: seq<real>)
    requires c > 0 && i < |data| / c
    ensures |f| == c
  {
    FrameInBounds(|data|, c, i);
    data[i * c .. i * c + c]
  }

  lemma FrameInBounds(size: nat, c: nat, i: nat)
    requires c > 0 && i < size / c
    ensures i * c + c <= size
  {
    assert (i + 1) * c <= (size / c) * c;
  }

  /** `convertToMono`: one channel returns the input; zero channels divide
      by zero; a negative count gives a negative length, which throws unless
      it truncates to zero; otherwise output `i` is the mean of frame `i`. */
  function Mixed(data: seq<real>, c: int): (r: Result<seq<real>>)
  {
    if c == 1 then Ok(data)
    else if c == 0 then Err(DivisionByZero)
    else if c < 0 then (if Quot(|data|, c) == 0 then Ok([]) else Err(NegativeArraySize))
    else Ok(seq(|data| / c, i requires 0 <= i < |data| / c => Sum(Frame(data, c, i)) / (c as real)))
  }

  /** `c` channels carrying the same signal. */
  function Interleave(x: seq<real>, c: nat): (d: seq<real>)
    requires c > 0
    ensures |d| == |x| * c
  {
    seq(|x| * c, j requires 0 <= j < |x| * c => x[j / c])
  }

  lemma InterleaveIndex(n: nat, c: nat, j: nat)
    requires c > 0 && j < n * c
    ensures j / c < n
  {
  }

  lemma InterleavedFrame(x: seq<real>, c: nat, i: nat)
    requires c > 0 && i < |x|
    ensures i < |Interleave(x, c)| / c
    ensures Frame(Interleave(x, c), c, i) == seq(c, _ => x[i])
  {
    var d := Interleave(x, c);
    DivUnique(|x| * c, c, |x|);
    var base := i * c;
    MulMonotone(i + 1, |x|, c);
    assert (i + 1) * c == base + c;
    var f := Frame(d, c, i);
    assert f == d[base .. base + c];
    forall ch | 0 <= ch < c
      ensures f[ch] == x[i]
    {
      var j := base + ch;
      DivUnique(j, c, i);
      assert f[ch] == d[j] == x[j / c];
    }
  }

  lemma MeanOfCopies(y: real, c: nat)
    requires c > 0
    ensures Sum(seq(c, _ => y)) / (c as real) == y
  {
    SumOfCopies(y, c);
    var z := ((c as real) * y) / (c as real);
    assert z * (c as real) == (c as real) * y;
  }

  lemma MixedInterleavedAt(x: seq<real>, c: nat, i: nat)
    requires c > 1 && i < |x|
    ensures var m := Mixed(Interleave(x, c), c).value; i < |m| && m[i] == x[i]
  {
    InterleavedFrame(x, c, i);
    MeanOfCopies(x[i], c);
  }

  /** Mixing down channels that all carry the same signal gives the signal
      back. */
  lemma MixedInterleaved(x: seq<real>, c: nat)
    requires c > 0
    ensures Mixed(Interleave(x, c), c) == Ok(x)
  {
    var d := Interleave(x, c);
    if c > 1 {
      DivUnique(|x| * c, c, |x|);
      var m := Mixed(d, c).value;
      assert |m| == |x|;
      forall i | 0 <= i < |x|
        ensures m[i] == x[i]
      {
        MixedInterleavedAt(x, c, i);
      }
      assert m == x;
    } else {
      assert d == x;
    }
  }

  /** `convertToMono`: a running `sum` per frame, divided by the channel count. */
  method ConvertToMono(data: seq<real>, c: int) returns (r: Result<seq<real>>)
    ensures r == Mixed(data, c)
  {
    if c == 1 {
      return Ok(data);
    }
    if c == 0 {
      return Err(DivisionByZero);
    }
    if c < 0 {
      // `FloatArray(size / channels)` with a negative count
      return if Quot(|data|, c) == 0 then Ok([]) else Err(NegativeArraySize);
    }
    var n := |data| / c;
    var mono := new real[n];
    for i := 0 to n
      invariant forall j :: 0 <= j < i ==> mono[j] == Mixed(data, c).value[j]
    {
      FrameInBounds(|data|, c, i);
      var base := i * c;
      var sum := 0.0;
      for ch := 0 to c
        invariant sum == Sum(data[base .. base + ch])
      {
        assert data[base .. base + ch + 1][..ch] == data[base .. base + ch];
        sum := sum + data[base + ch];
      }
      assert data[base .. base + c] == Frame(data, c, i);
      mono[i] := sum / (c as real);
    }
    assert mono[..] == Mixed(data, c).value;
    r := Ok(mono[..]);
  }

  // ---------------------------------------------------------------------------
  // Streams and progress

  /** Bytes delivered by a sequence of reads. */
  function TotalBytes(chunks: seq<seq<byte>>): (n: nat)
    ensures chunks == [] ==> n == 0
  {
    if chunks == [] then 0 else TotalBytes(chunks[..|chunks| - 1]) + |chunks[|chunks| - 1]|
  }

  lemma {:induction false} TotalBytesPrefix(chunks: seq<seq<byte>>, k: nat)
    requires k <= |chunks|
    requires forall i :: 0 <= i < |chunks| ==> |chunks[i]| > 0
    ensures TotalBytes(chunks[..k]) <= TotalBytes(chunks)
    ensures k < |chunks| ==> TotalBytes(chunks[..k]) < TotalBytes(chunks)
    decreases |chunks|
  {
    if k < |chunks| {
      var n := |chunks| - 1;
      assert chunks[..n][..k] == chunks[..k];
      TotalBytesPrefix(chunks[..n], k);
    } else {
      assert chunks[..k] == chunks;
    }
  }

  /** Every read fills between one byte and the whole 8 KiB buffer. */
  predicate ChunksFit(chunks: seq<seq<byte>>)
  {
    forall i :: 0 <= i < |chunks| ==> 0 < |chunks[i]| <= ChunkSize
  }

  /** The value handed to the progress callback after each read: bytes read
      so far over the expected total. */
  function Progress(chunks: seq<seq<byte>>, total: int): (p: seq<real>)
    requires chunks == [] || total != 0
    ensures |p| == |chunks|
  {
    if chunks == [] then []
    else Progress(chunks[..|chunks| - 1], total) + [(TotalBytes(chunks) as real) / (total as real)]
  }

  /** A ratio of byte counts, each at most the total. */
  lemma RatioBounds(x: nat, y: nat, total: int)
    requires 0 < x <= y <= total
    ensures 0.0 < (x as real) / (total as real) <= (y as real) / (total as real) <= 1.0
    ensures x < y ==> (x as real) / (total as real) < (y as real) / (total as real)
  {
  }

  lemma SelfRatio(n: int)
    requires n != 0
    ensures (n as real) / (n as real) == 1.0
  {
  }

  /** After read `i`, between one byte and the whole stream has been read. */
  lemma BytesAfterRead(chunks: seq<seq<byte>>, i: nat)
    requires ChunksFit(chunks) && i < |chunks|
    ensures 0 < TotalBytes(chunks[..i + 1]) <= TotalBytes(chunks)
  {
    TotalBytesPrefix(chunks, i + 1);
    var front := chunks[..i + 1];
    assert ChunksFit(front);
    TotalBytesPrefix(front, 0);
    assert front[..0] == [];
  }

  /** When the expected total covers everything read, every reported
      value lies in (0, 1]. */
  lemma ProgressInRange(chunks: seq<seq<byte>>, total: int)
    requires ChunksFit(chunks) && total >= TotalBytes(chunks) && (chunks == [] || total != 0)
    ensures var p := Progress(chunks, total); forall i :: 0 <= i < |p| ==> 0.0 < p[i] <= 1.0
  {
    var p := Progress(chunks, total);
    forall i | 0 <= i < |p|
      ensures 0.0 < p[i] <= 1.0
    {
      ProgressEntry(chunks, total, i);
      BytesAfterRead(chunks, i);
      RatioBounds(TotalBytes(chunks[..i + 1]), TotalBytes(chunks[..i + 1]), total);
    }
  }

  /** Every read moves the reported progress, an exact quotient, strictly forward. */
  lemma ProgressIncreasing(chunks: seq<seq<byte>>, total: int)
    requires ChunksFit(chunks) && total >= TotalBytes(chunks) && (chunks == [] || total != 0)
    ensures var p := Progress(chunks, total); forall i, j :: 0 <= i < j < |p| ==> p[i] < p[j]
  {
    var p := Progress(chunks, total);
    forall i, j | 0 <= i < j < |p|
      ensures p[i] < p[j]
    {
      ProgressEntry(chunks, total, i);
      ProgressEntry(chunks, total, j);
      BytesAfterRead(chunks, i);
      BytesAfterRead(chunks, j);
      var front := chunks[..j + 1];
      assert ChunksFit(front);
      TotalBytesPrefix(front, i + 1);
      assert front[..i + 1] == chunks[..i + 1];
      RatioBounds(TotalBytes(chunks[..i + 1]), TotalBytes(chunks[..j + 1]), total);
    }
  }

  /** With the exact total, the last report is 1. */
  lemma ProgressEndsAtOne(chunks: seq<seq<byte>>)
    requires ChunksFit(chunks) && chunks != []
    ensures TotalBytes(chunks) > 0
    ensures var p := Progress(chunks, TotalBytes(chunks)); p[|p| - 1] == 1.0
  {
    BytesAfterRead(chunks, |chunks| - 1);
    assert chunks[..|chunks|] == chunks;
    SelfRatio(TotalBytes(chunks));
  }

  /** Entry `i` of the progress report is the byte count after read `i`. */
  lemma {:induction false} ProgressEntry(chunks: seq<seq<byte>>, total: int, i: nat)
    requires total != 0 && i < |chunks|
    ensures Progress(chunks, total)[i] == (TotalBytes(chunks[..i + 1]) as real) / (total as real)
    decreases |chunks|
  {
    var n := |chunks| - 1;
    if i < n {
      ProgressEntry(chunks[..n], total, i);
      assert chunks[..n][..i + 1] == chunks[..i + 1];
    } else {
      assert chunks[..i + 1] == chunks;
    }
  }

  lemma StreamSamplesPrefix(chunks: seq<seq<byte>>, k: nat, littleEndian: bool)
    requires k < |chunks|
    ensures StreamSamples(chunks[..k + 1], littleEndian) ==
            StreamSamples(chunks[..k], littleEndian) + ChunkSamples(chunks[k], littleEndian)
  {
    assert chunks[..k + 1][..k] == chunks[..k];
  }

  // ---------------------------------------------------------------------------
  // Conversion to 16 kHz mono

  /** Shared tail of both loaders: resample when the rate is not 16 kHz, then
      mix down when there is more than one channel. */
  function ToTarget(pcm: seq<real>, rate: int, channels: int): (r: Result<seq<real>>)
  {
    var resampled := if rate != TargetRate then Resampled(pcm, rate, TargetRate) else Ok(pcm);
    if resampled.Err? then resampled
    else if channels > 1 then Mixed(resampled.value, channels)
    else resampled
  }

  /** Audio already at 16 kHz mono passes through unchanged. */
  lemma ToTargetIdentity(pcm: seq<real>, channels: int)
    requires channels <= 1
    ensures ToTarget(pcm, TargetRate, channels) == Ok(pcm)
  {
  }

  /** 16 kHz audio whose channels all carry the same signal comes out as that
      signal. */
  lemma ToTargetInterleaved(x: seq<real>, channels: nat)
    requires channels > 1
    ensures ToTarget(Interleave(x, channels), TargetRate, channels) == Ok(x)
  {
    MixedInterleaved(x, channels);
  }

  /** With a positive rate other than 16 kHz and at most one channel, the
      result is the nearest-index resampling, unless its length reaches
      `Int.MAX_VALUE`. */
  lemma ToTargetResamples(pcm: seq<real>, rate: int, channels: int)
    requires rate > 0 && rate != TargetRate && channels <= 1
    ensures var r := ToTarget(pcm, rate, channels);
            (r.Ok? <==> |pcm| * TargetRate / rate < MaxInt) &&
            (r.Ok? ==>
               |r.value| == |pcm| * TargetRate / rate &&
               forall i :: 0 <= i < |r.value| ==> r.value[i] == pcm[i * rate / TargetRate])
  {
    ResampledShape(pcm, rate, TargetRate);
  }

  method ConvertToTarget(pcm: seq<real>, rate: int, channels: int) returns (r: Result<seq<real>>)
    ensures r == ToTarget(pcm, rate, channels)
  {
    r := Ok(pcm);
    if rate != TargetRate {
      r := Resample(pcm, rate, TargetRate);
      if r.Err? {
        return;
      }
    }
    if channels > 1 {
      r := ConvertToMono(r.value, channels);
    }
  }

  // ---------------------------------------------------------------------------
  // Loaders

  /** What a loader hands back: the samples (or the exception) and every
      value passed to the progress callback. */
  datatype Loaded = Loaded(audio: Result<seq<real>>, progress: seq<real>)

  /** A WAV file as the input stream delivers it: the bytes the header read
      returned, then each later read. */
  datatype WavFile = WavFile(header: seq<byte>, chunks: seq<seq<byte>>)

  /** A stream reads the header block in full unless the file ends first,
      and then delivers the rest in reads of at most 8 KiB. */
  predicate WellFormedWav(f: WavFile)
  {
    |f.header| <= HeaderSize && (|f.header| < HeaderSize ==> f.chunks == []) && ChunksFit(f.chunks)
  }

  function WavLength(f: WavFile): nat
  {
    |f.header| + TotalBytes(f.chunks)
  }

  /** `loadWavFile`. The header fields decide the sample-count divisions,
      which fail before anything is read; then every read reports progress
      as bytes read over `length - 44`, and the little-endian samples are
      converted to 16 kHz mono. */
  function WavLoaded(f: WavFile): (l: Loaded)
    requires WellFormedWav(f)
    ensures var w := ParseHeader(HeaderBlock(f.header));
            if -8 < w.bitsPerSample < 8 || w.channels == 0 then l == Loaded(Err(DivisionByZero), [])
            else |l.progress| == |f.chunks|
  {
    var w := ParseHeader(HeaderBlock(f.header));
    var dataSize := WavLength(f) - HeaderSize;
    var count := SamplesCount(dataSize, w);
    if count.Err? then Loaded(Err(count.error), [])
    else
      Loaded(ToTarget(StreamSamples(f.chunks, true), w.sampleRate, w.channels),
             Progress(f.chunks, dataSize))
  }

  /** The read loop both loaders share: after each read the running byte
      count over the expected total goes to the progress callback, and the
      read's complete byte pairs are decoded in the given byte order. */
  method ReadChunks(chunks: seq<seq<byte>>, total: int, littleEndian: bool)
    returns (audio: seq<real>, progress: seq<real>)
    requires chunks == [] || total != 0
    ensures audio == StreamSamples(chunks, littleEndian)
    ensures progress == Progress(chunks, total)
  {
    audio := [];
    progress := [];
    var bytesRead := 0;
    var k := 0;
    while k < |chunks|
      invariant 0 <= k <= |chunks|
      invariant bytesRead == TotalBytes(chunks[..k])
      invariant audio == StreamSamples(chunks[..k], littleEndian)
      invariant progress == Progress(chunks[..k], total)
    {
      assert chunks[..k + 1][..k] == chunks[..k];
      var chunk := chunks[k];
      bytesRead := bytesRead + |chunk|;
      progress := progress + [(bytesRead as real) / (total as real)];
      var samples := DecodeChunk(chunk, littleEndian);
      audio := audio + samples;
      k := k + 1;
    }
    assert chunks[..k] == chunks;
  }

  method LoadWav(f: WavFile) returns (l: Loaded)
    requires WellFormedWav(f)
    ensures l == WavLoaded(f)
  {
    var header := HeaderBlock(f.header);
    var w := ParseHeader(header);
    var dataSize := WavLength(f) - HeaderSize;
    var count := SamplesCount(dataSize, w);
    if count.Err? {
      return Loaded(Err(count.error), []);
    }
    if f.chunks != [] {
      BytesAfterRead(f.chunks, |f.chunks| - 1);
      assert f.chunks[..|f.chunks|] == f.chunks;
    }
    var audio, progress := ReadChunks(f.chunks, dataSize, true);
    var converted := ConvertToTarget(audio, w.sampleRate, w.channels);
    l := Loaded(converted, progress);
  }

  /** A header-complete WAV stream that reads at least one chunk reports
      progress (as exact quotients) rising strictly to exactly 1. */
  lemma WavProgress(f: WavFile)
    requires WellFormedWav(f) && f.chunks != []
    requires SamplesCount(WavLength(f) - HeaderSize, ParseHeader(HeaderBlock(f.header))).Ok?
    ensures var p := WavLoaded(f).progress;
            |p| == |f.chunks| && p[|p| - 1] == 1.0 &&
            (forall i :: 0 <= i < |p| ==> 0.0 < p[i] <= 1.0) &&
            (forall i, j :: 0 <= i < j < |p| ==> p[i] < p[j])
  {
    var w := ParseHeader(HeaderBlock(f.header));
    WavLoadedDecodes(f, w);
    ProgressEndsAtOne(f.chunks);
    var total := TotalBytes(f.chunks);
    assert WavLength(f) - HeaderSize == total;
    ProgressInRange(f.chunks, total);
    ProgressIncreasing(f.chunks, total);
  }

  /** Proof helper: unfolds WavLoaded's decoding branch for a header that passes the division check. */
  lemma WavLoadedDecodes(f: WavFile, w: WavHeader)
    requires WellFormedWav(f) && ParseHeader(HeaderBlock(f.header)) == w
    requires SamplesCount(WavLength(f) - HeaderSize, w).Ok?
    ensures WavLoaded(f) == Loaded(ToTarget(StreamSamples(f.chunks, true), w.sampleRate, w.channels),
                                   Progress(f.chunks, WavLength(f) - HeaderSize))
  {
  }

  /** A stream of a single read: its bytes, its samples, and progress 1. */
  lemma SingleRead(c: seq<byte>, littleEndian: bool)
    requires 0 < |c|
    ensures TotalBytes([c]) == |c|
    ensures StreamSamples([c], littleEndian) == ChunkSamples(c, littleEndian)
    ensures Progress([c], |c|) == [1.0]
  {
    assert [c][..0] == [];
    SelfRatio(|c|);
  }

  /** A full header block is read as it is. */
  lemma FullHeaderBlock(h: seq<byte>)
    requires |h| == HeaderSize
    ensures HeaderBlock(h) == h
  {
  }

  /** A WAV file whose header is followed by a single read decodes that
      read's samples and reports progress 1. */
  lemma OneReadWav(h: seq<byte>, c: seq<byte>, w: WavHeader)
    requires |h| == HeaderSize && ParseHeader(h) == w
    requires !(-8 < w.bitsPerSample < 8 || w.channels == 0)
    requires 0 < |c| <= ChunkSize
    ensures WellFormedWav(WavFile(h, [c]))
    ensures WavLoaded(WavFile(h, [c])) == Loaded(ToTarget(ChunkSamples(c, true), w.sampleRate, w.channels), [1.0])
  {
    var f := WavFile(h, [c]);
    FullHeaderBlock(h);
    SingleRead(c, true);
    assert WavLength(f) - HeaderSize == |c|;
    WavLoadedDecodes(f, w);
  }

  /** The bytes of every read, in order. */
  function Concat(chunks: seq<seq<byte>>): (bytes: seq<byte>)
    ensures |bytes| == TotalBytes(chunks)
  {
    if chunks == [] then [] else Concat(chunks[..|chunks| - 1]) + chunks[|chunks| - 1]
  }

  /** Decoding splits at any even byte boundary. */
  lemma ChunkSamplesAppend(a: seq<byte>, b: seq<byte>, littleEndian: bool)
    requires |a| % 2 == 0
    ensures ChunkSamples(a + b, littleEndian) == ChunkSamples(a, littleEndian) + ChunkSamples(b, littleEndian)
  {
    var l := ChunkSamples(a + b, littleEndian);
    var r := ChunkSamples(a, littleEndian) + ChunkSamples(b, littleEndian);
    assert |l| == |r|;
    forall k | 0 <= k < |l|
      ensures l[k] == r[k]
    {
      if k >= |a| / 2 {
        var m := k - |a| / 2;
        assert (a + b)[2 * k] == b[2 * m] && (a + b)[2 * k + 1] == b[2 * m + 1];
      }
    }
  }

  /** When every read has an even length, decoding read by read is decoding
      the whole byte stream at once. */
  lemma {:induction false} StreamSamplesConcat(chunks: seq<seq<byte>>, littleEndian: bool)
    requires forall i :: 0 <= i < |chunks| ==> |chunks[i]| % 2 == 0
    ensures StreamSamples(chunks, littleEndian) == ChunkSamples(Concat(chunks), littleEndian)
    decreases |chunks|
  {
    if chunks != [] {
      var n := |chunks| - 1;
      StreamSamplesConcat(chunks[..n], littleEndian);
      ConcatEven(chunks[..n]);
      ChunkSamplesAppend(Concat(chunks[..n]), chunks[n], littleEndian);
    }
  }

  lemma {:induction false} ConcatEven(chunks: seq<seq<byte>>)
    requires forall i :: 0 <= i < |chunks| ==> |chunks[i]| % 2 == 0
    ensures |Concat(chunks)| % 2 == 0
    decreases |chunks|
  {
    if chunks != [] {
      ConcatEven(chunks[..|chunks| - 1]);
    }
  }

  /** A 16 kHz mono 16-bit WAV file decodes to the values written, scaled by
      1/32768, however the stream splits the data into reads of even length;
      the progress, as exact quotients, rises strictly and ends at 1. */
  lemma WavRoundTrip(vs: seq<int>, chunks: seq<seq<byte>>)
    requires forall i :: 0 <= i < |vs| ==> -32768 <= vs[i] < 32768
    requires ChunksFit(chunks) && chunks != []
    requires forall i :: 0 <= i < |chunks| ==> |chunks[i]| % 2 == 0
    requires Concat(chunks) == EncodePcm(vs, true)
    ensures var f := WavFile(EncodeHeader(WavHeader(1, TargetRate, 16)), chunks);
            var l := WavLoaded(f);
            WellFormedWav(f) && l.audio == Ok(Scaled(vs)) &&
            |l.progress| == |chunks| && l.progress[|chunks| - 1] == 1.0 &&
            (forall i, j :: 0 <= i < j < |chunks| ==> l.progress[i] < l.progress[j])
  {
    var w := WavHeader(1, TargetRate, 16);
    var f := WavFile(EncodeHeader(w), chunks);
    ParseEncodeHeader(w);
    FullHeaderBlock(EncodeHeader(w));
    assert WellFormedWav(f);
    WavLoadedDecodes(f, w);
    StreamSamplesConcat(chunks, true);
    DecodeEncodePcm(vs, true);
    ToTargetIdentity(Scaled(vs), 1);
    WavProgress(f);
  }

  /** One track of a compressed container, as the extractor reports it. */
  datatype Track = Track(mime: Option<string>, sampleRate: int, channels: int)

  /** A compressed file as the extractor sees it: its tracks, the sample
      data of the selected track read by read, and the file's length. */
  datatype CompressedFile = CompressedFile(tracks: seq<Track>, chunks: seq<seq<byte>>, fileLength: int)

  /** The extractor reads sample data out of the file, so it never delivers
      more bytes than the file holds. */
  predicate WellFormedCompressed(f: CompressedFile)
  {
    ChunksFit(f.chunks) && f.fileLength >= TotalBytes(f.chunks)
  }

  predicate IsAudioTrack(t: Track)
  {
    t.mime.Some? && "audio/" <= t.mime.value
  }

  /** The first track whose MIME type starts with "audio/". */
  function FirstAudioTrack(tracks: seq<Track>): (r: Option<nat>)
    ensures r.Some? ==> r.value < |tracks| && IsAudioTrack(tracks[r.value]) &&
                        forall j :: 0 <= j < r.value ==> !IsAudioTrack(tracks[j])
    ensures r.None? <==> forall j :: 0 <= j < |tracks| ==> !IsAudioTrack(tracks[j])
  {
    if tracks == [] then None
    else if IsAudioTrack(tracks[0]) then Some(0)
    else match FirstAudioTrack(tracks[1..])
         case None => None
         case Some(i) => Some(i + 1)
  }

  /** The track search loop, `-1` when there is no audio track. */
  method FindAudioTrack(tracks: seq<Track>) returns (index: int)
    ensures index == if FirstAudioTrack(tracks).Some? then FirstAudioTrack(tracks).value as int else -1
  {
    index := -1;
    for i := 0 to |tracks|
      invariant forall j :: 0 <= j < i ==> !IsAudioTrack(tracks[j])
    {
      if IsAudioTrack(tracks[i]) {
        return i;
      }
    }
  }

  /** `loadCompressedAudioFile`: no audio track is an error; otherwise every
      read reports progress as bytes read over the file length, the byte
      buffer's big-endian samples are collected and converted to 16 kHz
      mono at the track's rate and channel count. */
  function CompressedLoaded(f: CompressedFile): (l: Loaded)
    requires WellFormedCompressed(f)
    ensures FirstAudioTrack(f.tracks).None? <==> l.audio == Err(NoAudioTrack)
  {
    match FirstAudioTrack(f.tracks)
    case None => Loaded(Err(NoAudioTrack), [])
    case Some(i) =>
      var t := f.tracks[i];
      Loaded(ToTarget(StreamSamples(f.chunks, false), t.sampleRate, t.channels),
             Progress(f.chunks, f.fileLength))
  }

  method LoadCompressed(f: CompressedFile) returns (l: Loaded)
    requires WellFormedCompressed(f)
    ensures l == CompressedLoaded(f)
  {
    var index := FindAudioTrack(f.tracks);
    if index == -1 {
      return Loaded(Err(NoAudioTrack), []);
    }
    var t := f.tracks[index];
    if f.chunks != [] {
      BytesAfterRead(f.chunks, |f.chunks| - 1);
      assert f.chunks[..|f.chunks|] == f.chunks;
    }
    var audio, progress := ReadChunks(f.chunks, f.fileLength, false);
    var converted := ConvertToTarget(audio, t.sampleRate, t.channels);
    l := Loaded(converted, progress);
  }

  /** Progress on the compressed path stays in (0, 1] and, as exact quotients, rises strictly. */
  lemma CompressedProgress(f: CompressedFile)
    requires WellFormedCompressed(f)
    ensures var p := CompressedLoaded(f).progress;
            (forall i :: 0 <= i < |p| ==> 0.0 < p[i] <= 1.0) &&
            (forall i, j :: 0 <= i < j < |p| ==> p[i] < p[j])
  {
    CompressedProgressOf(f);
    if FirstAudioTrack(f.tracks).Some? {
      StreamProgress(f.chunks, f.fileLength);
    }
  }

  /** Proof helper: the compressed loader reports the stream's byte ratios, or
      nothing when there is no audio track. */
  lemma CompressedProgressOf(f: CompressedFile)
    requires WellFormedCompressed(f)
    ensures CompressedLoaded(f).progress ==
              if FirstAudioTrack(f.tracks).Some? then Progress(f.chunks, f.fileLength) else []
  {
  }

  /** Byte ratios over a total that covers every read lie in (0, 1] and rise
      strictly, as exact quotients. */
  lemma StreamProgress(chunks: seq<seq<byte>>, total: int)
    requires ChunksFit(chunks) && total >= TotalBytes(chunks)
    ensures var p := Progress(chunks, total);
            (forall i :: 0 <= i < |p| ==> 0.0 < p[i] <= 1.0) &&
            (forall i, j :: 0 <= i < j < |p| ==> p[i] < p[j])
  {
    if chunks != [] {
      BytesAfterRead(chunks, |chunks| - 1);
    }
    ProgressInRange(chunks, total);
    ProgressIncreasing(chunks, total);
  }


  /** `loadAudioFileStreaming`: the lowercased extension picks the loader; an
      unknown extension fails before either file is read. */
  function AudioLoaded(name: string, wav: WavFile, compressed: CompressedFile): (l: Loaded)
    requires WellFormedWav(wav) && WellFormedCompressed(compressed)
    ensures Dispatch(Extension(name)).Err? ==>
              l == Loaded(Err(UnsupportedFormat(Extension(name))), [])
  {
    match Dispatch(Extension(name))
    case Err(e) => Loaded(Err(e), [])
    case Ok(WavLoader) => WavLoaded(wav)
    case Ok(CompressedLoader) => CompressedLoaded(compressed)
  }

  method LoadAudioFileStreaming(name: string, wav: WavFile, compressed: CompressedFile) returns (l: Loaded)
    requires WellFormedWav(wav) && WellFormedCompressed(compressed)
    ensures l == AudioLoaded(name, wav, compressed)
  {
    var loader := Dispatch(Extension(name));
    if loader.Err? {
      return Loaded(Err(loader.error), []);
    }
    if loader.value == WavLoader {
      l := LoadWav(wav);
    } else {
      l := LoadCompressed(compressed);
    }
  }

  /** Which loader runs depends only on the lowercased extension. */
  lemma AudioLoadedByExtension(name: string, wav: WavFile, compressed: CompressedFile)
    requires WellFormedWav(wav) && WellFormedCompressed(compressed)
    ensures Lower(Extension(name)) == "wav" ==> AudioLoaded(name, wav, compressed) == WavLoaded(wav)
    ensures Lower(Extension(name)) in {"mp3", "m4a", "aac"} ==>
              AudioLoaded(name, wav, compressed) == CompressedLoaded(compressed)
  {
  }
}
