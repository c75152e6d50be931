/**
 * The 44-byte header of a RIFF WAVE file holding PCM audio (WAVE_FORMAT_PCM),
 * as written by `create_wav_header` at the start of every conversation
 * recording: the `RIFF`/`WAVE` form, a 16-byte `fmt ` chunk and a `data`
 * chunk, every number a little-endian unsigned integer.
 */
module Wav {
  import opened Outcomes

  type Byte = b: int | 0 <= b < 256

  const HeaderSize: nat := 44

  const RiffTag: seq<Byte> := [0x52, 0x49, 0x46, 0x46]  // "RIFF"
  const WaveTag: seq<Byte> := [0x57, 0x41, 0x56, 0x45]  // "WAVE"
  const FmtTag: seq<Byte> := [0x66, 0x6d, 0x74, 0x20]   // "fmt "
  const DataTag: seq<Byte> := [0x64, 0x61, 0x74, 0x61]  // "data"

  /** The RIFF chunk size the encoder writes: always 36, whatever the parameters. */
  const RiffSize: nat := 36
  /** Size of the `fmt ` chunk body for PCM. */
  const FmtSize: nat := 16
  /** WAVE_FORMAT_PCM. */
  const PcmFormat: nat := 1
  /** The `data` chunk size the encoder writes: a zero placeholder. */
  const DataSize: nat := 0

  // The four constants above as `to_bytes` writes them, little-endian.
  const RiffSizeBytes: seq<Byte> := [36, 0, 0, 0]
  const FmtSizeBytes: seq<Byte> := [16, 0, 0, 0]
  const PcmFormatBytes: seq<Byte> := [1, 0]
  const DataSizeBytes: seq<Byte> := [0, 0, 0, 0]

  /** The parameters of `create_wav_header`; Python ints, so any integer. */
  datatype WavParams = WavParams(sampleRate: int, bitsPerSample: int, channels: int)

  /** The defaults of `create_wav_header`: 24 kHz, 16-bit, mono. */
  const DefaultParams := WavParams(24000, 16, 1)

  /** The numeric fields that `int.to_bytes` may reject, in the order they are written. */
  datatype Field = Channels | SampleRate | ByteRate | BlockAlign | BitsPerSample

  /** Python's OverflowError from `int.to_bytes`, naming the field being written. */
  datatype Overflow = Overflow(field: Field)

  function Pow256(n: nat): (r: nat)
    ensures r > 0
  {
    if n == 0 then 1 else 256 * Pow256(n - 1)
  }

  /** The unsigned number a little-endian byte string denotes. */
  function FromLittleEndian(bs: seq<Byte>): (r: nat)
    ensures r < Pow256(|bs|)
  {
    if bs == [] then 0
    else
      var rest := FromLittleEndian(bs[1..]);
      assert rest + 1 <= Pow256(|bs| - 1);
      assert 256 * (rest + 1) <= 256 * Pow256(|bs| - 1);
      bs[0] + 256 * rest
  }

  /** `n.to_bytes(width, 'little')` for an n that fits in width bytes. */
  function LittleEndian(n: nat, width: nat): (r: seq<Byte>)
    requires n < Pow256(width)
    ensures |r| == width && FromLittleEndian(r) == n
  {
    if width == 0 then []
    else
      var r := [n % 256] + LittleEndian(n / 256, width - 1);
      assert r[1..] == LittleEndian(n / 256, width - 1);
      r
  }

  /** Python's `n.to_bytes(width, 'little')`: OverflowError for a negative n or one too wide. */
  function ToBytes(n: int, width: nat, field: Field): (r: Result<seq<Byte>, Overflow>)
    ensures r.Success? <==> 0 <= n < Pow256(width)
    ensures r.Success? ==> |r.value| == width && FromLittleEndian(r.value) == n
    ensures r.Failure? ==> r.error == Overflow(field)
  {
    if 0 <= n < Pow256(width) then Success(LittleEndian(n, width)) else Failure(Overflow(field))
  }

  /** Bytes per sample frame: Python's `channels * (bits_per_sample // 8)`. */
  function BlockAlignOf(p: WavParams): int {
    // Python's `//` floors; Dafny's `/` is Euclidean, which agrees for the divisor 8.
    p.channels * (p.bitsPerSample / 8)
  }

  /** Bytes per second: Python's `sample_rate * channels * (bits_per_sample // 8)`. */
  function ByteRateOf(p: WavParams): int {
    p.sampleRate * p.channels * (p.bitsPerSample / 8)
  }

  /** Every numeric field fits its width unsigned, so no `to_bytes` call raises. */
  predicate Fits(p: WavParams) {
    && 0 <= p.channels < Pow256(2)
    && 0 <= p.sampleRate < Pow256(4)
    && 0 <= ByteRateOf(p) < Pow256(4)
    && 0 <= BlockAlignOf(p) < Pow256(2)
    && 0 <= p.bitsPerSample < Pow256(2)
  }

  /** The first field, in writing order, whose `to_bytes` raises. */
  function FirstOverflow(p: WavParams): Field
    requires !Fits(p)
  {
    if !(0 <= p.channels < Pow256(2)) then Channels
    else if !(0 <= p.sampleRate < Pow256(4)) then SampleRate
    else if !(0 <= ByteRateOf(p) < Pow256(4)) then ByteRate
    else if !(0 <= BlockAlignOf(p) < Pow256(2)) then BlockAlign
    else BitsPerSample
  }

  /**
   * The 44 bytes of the header, each taken from the slice assignment that
   * covers its offset; `ch`, `sr`, `br`, `ba` and `bps` are the encoded
   * channels, sample rate, byte rate, block align and bits per sample.
   */
  function Layout(ch: seq<Byte>, sr: seq<Byte>, br: seq<Byte>, ba: seq<Byte>, bps: seq<Byte>): (h: seq<Byte>)
    requires |ch| == 2 && |sr| == 4 && |br| == 4 && |ba| == 2 && |bps| == 2
    ensures |h| == HeaderSize
  {
    seq(HeaderSize, i requires 0 <= i < HeaderSize =>
      if i < 4 then RiffTag[i]
      else if i < 8 then RiffSizeBytes[i - 4]
      else if i < 12 then WaveTag[i - 8]
      else if i < 16 then FmtTag[i - 12]
      else if i < 20 then FmtSizeBytes[i - 16]
      else if i < 22 then PcmFormatBytes[i - 20]
      else if i < 24 then ch[i - 22]
      else if i < 28 then sr[i - 24]
      else if i < 32 then br[i - 28]
      else if i < 34 then ba[i - 32]
      else if i < 36 then bps[i - 34]
      else if i < 40 then DataTag[i - 36]
      else DataSizeBytes[i - 40])
  }

  /**
   * `create_wav_header(sample_rate, bits_per_sample, channels)`: the header,
   * or the OverflowError of the first field that does not fit.
   */
  function CreateWavHeader(sampleRate: int := 24000, bitsPerSample: int := 16, channels: int := 1)
    : (r: Result<seq<Byte>, Overflow>)
    ensures r.Success? <==> Fits(WavParams(sampleRate, bitsPerSample, channels))
    ensures r.Success? ==> |r.value| == HeaderSize
    ensures r.Failure? ==> r.error == Overflow(FirstOverflow(WavParams(sampleRate, bitsPerSample, channels)))
  {
    var p := WavParams(sampleRate, bitsPerSample, channels);
    var byteRate := ByteRateOf(p);
    var blockAlign := BlockAlignOf(p);
    var ch :- ToBytes(channels, 2, Channels);
    var sr :- ToBytes(sampleRate, 4, SampleRate);
    var br :- ToBytes(byteRate, 4, ByteRate);
    var ba :- ToBytes(blockAlign, 2, BlockAlign);
    var bps :- ToBytes(bitsPerSample, 2, BitsPerSample);
    Success(Layout(ch, sr, br, ba, bps))
  }

  /** The little-endian number stored in `h[offset..offset + width]`. */
  function FieldAt(h: seq<Byte>, offset: nat, width: nat): nat
    requires offset + width <= |h|
  {
    FromLittleEndian(h[offset..offset + width])
  }

  /** The layout every emitted header has, field by field. */
  predicate WellFormed(h: seq<Byte>, p: WavParams) {
    && |h| == HeaderSize
    && h[0..4] == RiffTag
    && FieldAt(h, 4, 4) == RiffSize
    && h[8..12] == WaveTag
    && h[12..16] == FmtTag
    && FieldAt(h, 16, 4) == FmtSize
    && FieldAt(h, 20, 2) == PcmFormat
    && FieldAt(h, 22, 2) == p.channels
    && FieldAt(h, 24, 4) == p.sampleRate
    && FieldAt(h, 28, 4) == ByteRateOf(p)
    && FieldAt(h, 32, 2) == BlockAlignOf(p)
    && FieldAt(h, 34, 2) == p.bitsPerSample
    && h[36..40] == DataTag
    && FieldAt(h, 40, 4) == DataSize
  }

  /** A reader of the header: the parameters it declares, if it has the encoder's layout. */
  function ParseHeader(h: seq<Byte>): (r: Option<WavParams>)
    ensures r.Some? ==> WellFormed(h, r.value)
  {
    if |h| != HeaderSize then None
    else
      var p := WavParams(FieldAt(h, 24, 4), FieldAt(h, 34, 2), FieldAt(h, 22, 2));
      if WellFormed(h, p) then Some(p) else None
  }

  /** Little-endian decoding is injective: a byte string is the encoding of its own value. */
  lemma {:induction false} LittleEndianOfValue(bs: seq<Byte>)
    ensures LittleEndian(FromLittleEndian(bs), |bs|) == bs
  {
    if bs != [] {
      var rest := FromLittleEndian(bs[1..]);
      LittleEndianOfValue(bs[1..]);
      assert (bs[0] + 256 * rest) % 256 == bs[0];
      assert (bs[0] + 256 * rest) / 256 == rest;
    }
  }

  /** The tags and constants of the layout sit at their offsets. */
  lemma LayoutConstants(ch: seq<Byte>, sr: seq<Byte>, br: seq<Byte>, ba: seq<Byte>, bps: seq<Byte>)
    requires |ch| == 2 && |sr| == 4 && |br| == 4 && |ba| == 2 && |bps| == 2
    ensures Layout(ch, sr, br, ba, bps)[0..4] == RiffTag
    ensures Layout(ch, sr, br, ba, bps)[4..8] == RiffSizeBytes
    ensures Layout(ch, sr, br, ba, bps)[8..12] == WaveTag
    ensures Layout(ch, sr, br, ba, bps)[12..16] == FmtTag
    ensures Layout(ch, sr, br, ba, bps)[16..20] == FmtSizeBytes
    ensures Layout(ch, sr, br, ba, bps)[20..22] == PcmFormatBytes
    ensures Layout(ch, sr, br, ba, bps)[36..40] == DataTag
    ensures Layout(ch, sr, br, ba, bps)[40..44] == DataSizeBytes
  {
  }

  /** The encoded parameters sit at their offsets of the layout. */
  lemma LayoutFields(ch: seq<Byte>, sr: seq<Byte>, br: seq<Byte>, ba: seq<Byte>, bps: seq<Byte>)
    requires |ch| == 2 && |sr| == 4 && |br| == 4 && |ba| == 2 && |bps| == 2
    ensures Layout(ch, sr, br, ba, bps)[22..24] == ch
    ensures Layout(ch, sr, br, ba, bps)[24..28] == sr
    ensures Layout(ch, sr, br, ba, bps)[28..32] == br
    ensures Layout(ch, sr, br, ba, bps)[32..34] == ba
    ensures Layout(ch, sr, br, ba, bps)[34..36] == bps
  {
  }

  /** Every header the encoder emits has the documented layout at the documented offsets. */
  lemma HeaderLayout(p: WavParams, h: seq<Byte>)
    requires CreateWavHeader(p.sampleRate, p.bitsPerSample, p.channels) == Success(h)
    ensures WellFormed(h, p)
  {
    var ch, sr, br := LittleEndian(p.channels, 2), LittleEndian(p.sampleRate, 4), LittleEndian(ByteRateOf(p), 4);
    var ba, bps := LittleEndian(BlockAlignOf(p), 2), LittleEndian(p.bitsPerSample, 2);
    assert h == Layout(ch, sr, br, ba, bps);
    LayoutConstants(ch, sr, br, ba, bps);
    LayoutFields(ch, sr, br, ba, bps);
  }

  /** Reading back an emitted header gives back the parameters it was built from. */
  lemma ParseCreated(p: WavParams, h: seq<Byte>)
    requires CreateWavHeader(p.sampleRate, p.bitsPerSample, p.channels) == Success(h)
    ensures ParseHeader(h) == Some(p)
  {
    HeaderLayout(p, h);
  }

  /** A 44-byte string with the tags and constants in place is the layout of its own fields. */
  lemma LayoutOfSlices(h: seq<Byte>)
    requires |h| == HeaderSize
    requires h[0..4] == RiffTag && h[4..8] == RiffSizeBytes && h[8..12] == WaveTag && h[12..16] == FmtTag
    requires h[16..20] == FmtSizeBytes && h[20..22] == PcmFormatBytes
    requires h[36..40] == DataTag && h[40..44] == DataSizeBytes
    ensures h == Layout(h[22..24], h[24..28], h[28..32], h[32..34], h[34..36])
  {
    var l := Layout(h[22..24], h[24..28], h[28..32], h[32..34], h[34..36]);
    forall i | 0 <= i < HeaderSize
      ensures l[i] == h[i]
    {
      if i < 4 { assert h[i] == h[0..4][i]; }
      else if i < 8 { assert h[i] == h[4..8][i - 4]; }
      else if i < 12 { assert h[i] == h[8..12][i - 8]; }
      else if i < 16 { assert h[i] == h[12..16][i - 12]; }
      else if i < 20 { assert h[i] == h[16..20][i - 16]; }
      else if i < 22 { assert h[i] == h[20..22][i - 20]; }
      else if i < 36 { }
      else if i < 40 { assert h[i] == h[36..40][i - 36]; }
      else { assert h[i] == h[40..44][i - 40]; }
    }
  }

  /** Conversely, a byte string the reader accepts is exactly the header the encoder emits. */
  lemma CreateParsed(h: seq<Byte>, p: WavParams)
    requires ParseHeader(h) == Some(p)
    ensures CreateWavHeader(p.sampleRate, p.bitsPerSample, p.channels) == Success(h)
  {
    LittleEndianOfValue(h[22..24]);
    LittleEndianOfValue(h[24..28]);
    LittleEndianOfValue(h[28..32]);
    LittleEndianOfValue(h[32..34]);
    LittleEndianOfValue(h[34..36]);
    LittleEndianOfValue(h[4..8]);
    LittleEndianOfValue(h[16..20]);
    LittleEndianOfValue(h[20..22]);
    LittleEndianOfValue(h[40..44]);
    LayoutOfSlices(h);
  }

  /** The header `create_wav_header()` returns for the defaults: mono 16-bit PCM at 24 kHz. */
  const DefaultHeader: seq<Byte> := [
    0x52, 0x49, 0x46, 0x46, 36, 0, 0, 0, 0x57, 0x41, 0x56, 0x45,
    0x66, 0x6d, 0x74, 0x20, 16, 0, 0, 0, 1, 0, 1, 0,
    0xc0, 0x5d, 0, 0, 0x80, 0xbb, 0, 0, 2, 0, 16, 0,
    0x64, 0x61, 0x74, 0x61, 0, 0, 0, 0]

  /** The five fields for the defaults, little-endian: 1, 24000, 48000, 2 and 16. */
  lemma DefaultFieldBytes()
    ensures LittleEndian(1, 2) == [1, 0]
    ensures LittleEndian(24000, 4) == [0xc0, 0x5d, 0, 0]
    ensures LittleEndian(48000, 4) == [0x80, 0xbb, 0, 0]
    ensures LittleEndian(2, 2) == [2, 0]
    ensures LittleEndian(16, 2) == [16, 0]
  {
  }

  lemma DefaultLayout()
    ensures CreateWavHeader() == Success(Layout([1, 0], [0xc0, 0x5d, 0, 0], [0x80, 0xbb, 0, 0], [2, 0], [16, 0]))
  {
    DefaultFieldBytes();
  }

  lemma DefaultLayoutBytes()
    ensures Layout([1, 0], [0xc0, 0x5d, 0, 0], [0x80, 0xbb, 0, 0], [2, 0], [16, 0]) == DefaultHeader
  {
    var h := Layout([1, 0], [0xc0, 0x5d, 0, 0], [0x80, 0xbb, 0, 0], [2, 0], [16, 0]);
    assert forall i | 0 <= i < HeaderSize :: h[i] == DefaultHeader[i];
  }

  /** Calling `create_wav_header()` with no arguments succeeds with exactly these 44 bytes. */
  lemma DefaultHeaderCreated()
    ensures CreateWavHeader() == Success(DefaultHeader)
  {
    DefaultLayout();
    DefaultLayoutBytes();
  }

  /**
   * With its defaults (24 kHz, 16-bit, mono) the header declares 48000 bytes
   * per second and 2-byte frames.
   */
  lemma DefaultHeaderFields(h: seq<Byte>)
    requires CreateWavHeader() == Success(h)
    ensures FieldAt(h, 28, 4) == 48000
    ensures FieldAt(h, 32, 2) == 2
  {
    HeaderLayout(DefaultParams, h);
  }
}
