/**
 * The WAVE serialiser of the Crunker audio library (export,
 * _writeHeaders, _writeString, _floatTo16BitPCM): a 44-byte RIFF/WAVE
 * header with a `fmt ` chunk for 16-bit PCM, two channels, at the fixed
 * sample rate, followed by the samples clamped to [-1, 1] and stored as
 * little-endian signed 16-bit integers.
 *
 * The ArrayBuffer behind the DataView is an array of bytes; the DataView
 * setters the serialiser calls are methods on that array.
 */
module WaveExport {
  import opened Wrappers
  import opened AudioBuffers

  /** One byte of an ArrayBuffer. */
  type Byte = b: int | 0 <= b < 256

  /** Size of the header that precedes the sample data. */
  const HeaderSize: nat := 44

  const Two16: int := 0x1_0000
  const Two32: int := 0x1_0000_0000

  // ---------------------------------------------------------------------
  // Byte encodings written by the DataView setters (littleEndian = true)

  /** setUint16: the value modulo 2^16, low byte first. */
  function Uint16LE(v: int): (r: seq<Byte>)
    ensures |r| == 2
  {
    var w := v % Two16;
    [w % 256, w / 256]
  }

  /** setUint32: the value modulo 2^32, least significant byte first. */
  function Uint32LE(v: int): (r: seq<Byte>)
    ensures |r| == 4
  {
    var w := v % Two32;
    [w % 256, (w / 0x100) % 256, (w / 0x1_0000) % 256, w / 0x100_0000]
  }

  /** setUint8 of each charCodeAt: one byte per character, modulo 256. */
  function Ascii(s: string): (r: seq<Byte>)
    ensures |r| == |s|
  {
    seq(|s|, i requires 0 <= i < |s| => (s[i] as int) % 256)
  }

  /** The unsigned 16-bit little-endian value at `off`. */
  function ReadUint16LE(s: seq<Byte>, off: nat): int
    requires off + 2 <= |s|
  {
    s[off] as int + 256 * s[off + 1] as int
  }

  /** The signed (two's complement) 16-bit little-endian value at `off`. */
  function ReadInt16LE(s: seq<Byte>, off: nat): int
    requires off + 2 <= |s|
  {
    var u := ReadUint16LE(s, off);
    if u < 0x8000 then u else u - Two16
  }

  /** The unsigned 32-bit little-endian value at `off`. */
  function ReadUint32LE(s: seq<Byte>, off: nat): int
    requires off + 4 <= |s|
  {
    s[off] as int + 0x100 * s[off + 1] as int + 0x1_0000 * s[off + 2] as int + 0x100_0000 * s[off + 3] as int
  }

  /** The characters whose codes are the n bytes at `off`. */
  function ReadAscii(s: seq<Byte>, off: nat, n: nat): (r: string)
    requires off + n <= |s|
  {
    seq(n, i requires 0 <= i < n => s[off + i] as char)
  }

  /** The readers look only at the bytes they read: reading inside an embedded chunk c reads c. */
  lemma ReadWithin(s: seq<Byte>, o: nat, c: seq<Byte>, x: nat, n: nat)
    requires o + |c| <= |s| && s[o..o + |c|] == c && x + n <= |c|
    ensures ReadAscii(s, o + x, n) == ReadAscii(c, x, n)
    ensures n == 2 ==> ReadUint16LE(s, o + x) == ReadUint16LE(c, x)
    ensures n == 4 ==> ReadUint32LE(s, o + x) == ReadUint32LE(c, x)
  {
  }

  lemma Uint16RoundTrip(v: int)
    ensures ReadUint16LE(Uint16LE(v), 0) == v % Two16
  {
  }

  lemma Uint32RoundTrip(v: int)
    ensures ReadUint32LE(Uint32LE(v), 0) == v % Two32
  {
    var w := v % Two32;
    var b := Uint32LE(v);
    assert w == b[0] + 0x100 * (w / 0x100);
    assert w / 0x100 == b[1] + 0x100 * (w / 0x1_0000);
    assert w / 0x1_0000 == b[2] + 0x100 * (w / 0x100_0000);
  }

  /** A signed 16-bit value survives the write and the read back. */
  lemma Int16RoundTrip(q: int)
    requires -0x8000 <= q < 0x8000
    ensures ReadInt16LE(Uint16LE(q), 0) == q
  {
  }

  /** Reading back ASCII text that was written gives the text, for codes below 256. */
  lemma AsciiRoundTrip(s: string)
    requires forall i :: 0 <= i < |s| ==> s[i] as int < 256
    ensures ReadAscii(Ascii(s), 0, |s|) == s
  {
  }

  // ---------------------------------------------------------------------
  // Sample quantisation (_floatTo16BitPCM and DataView.setInt16)

  function Min(a: real, b: real): real { if a <= b then a else b }
  function Max(a: real, b: real): real { if a >= b then a else b }

  /** Math.max(-1, Math.min(1, s)) followed by the asymmetric scaling. */
  function Scale(s: real): (v: real)
    ensures -32768.0 <= v <= 32767.0
    ensures v < 0.0 <==> s < 0.0
  {
    var tmp := Max(-1.0, Min(1.0, s));
    if tmp < 0.0 then tmp * 32768.0 else tmp * 32767.0
  }

  /** ToIntegerOrInfinity: rounds toward zero. */
  function Trunc(x: real): int
  {
    if x < 0.0 then -((-x).Floor) else x.Floor
  }

  /** ToInt16: truncate, then wrap into [-2^15, 2^15). */
  function ToInt16(x: real): (r: int)
    ensures -0x8000 <= r < 0x8000
    ensures Trunc(x) % Two16 == r % Two16
  {
    var t := Trunc(x) % Two16;
    if t < 0x8000 then t else t - Two16
  }

  /** The 16-bit value stored for one sample. */
  function Quantize(s: real): int
  {
    ToInt16(Scale(s))
  }

  /** After clamping no wrap-around happens: the stored value is the truncated scaled sample. */
  lemma QuantizeNoWrap(s: real)
    ensures Quantize(s) == Trunc(Scale(s))
    ensures -32768 <= Quantize(s) <= 32767
  {
  }

  /** Full scale maps to the ends of the 16-bit range and anything beyond is clamped. */
  lemma QuantizeBoundaries(s: real)
    ensures Quantize(1.0) == 32767 && Quantize(-1.0) == -32768 && Quantize(0.0) == 0
    ensures s >= 1.0 ==> Quantize(s) == 32767
    ensures s <= -1.0 ==> Quantize(s) == -32768
    ensures Uint16LE(Quantize(1.0)) == [0xFF, 0x7F] && Uint16LE(Quantize(-1.0)) == [0x00, 0x80]
  {
  }

  /** A louder sample never encodes to a smaller value. */
  lemma QuantizeMonotone(s: real, t: real)
    requires s <= t
    ensures Quantize(s) <= Quantize(t)
  {
  }

  /** The data bytes for a run of samples, two per sample. */
  function PcmData(samples: seq<real>): (r: seq<Byte>)
    ensures |r| == 2 * |samples|
  {
    if samples == [] then []
    else PcmData(samples[..|samples| - 1]) + Uint16LE(Quantize(samples[|samples| - 1]))
  }

  /** Sample i is stored at bytes 2i and 2i+1 of the data, and only there. */
  lemma {:induction false} PcmDataAt(samples: seq<real>, i: nat)
    requires i < |samples|
    ensures PcmData(samples)[2 * i .. 2 * i + 2] == Uint16LE(Quantize(samples[i]))
    ensures ReadInt16LE(PcmData(samples), 2 * i) == Quantize(samples[i])
  {
    var front := samples[..|samples| - 1];
    if i < |samples| - 1 {
      PcmDataAt(front, i);
      assert PcmData(samples)[2 * i .. 2 * i + 2] == PcmData(front)[2 * i .. 2 * i + 2];
    }
    Int16RoundTrip(Quantize(samples[i]));
  }

  // ---------------------------------------------------------------------
  // The file layout

  /** The RIFF chunk descriptor: "RIFF", the RIFF size field, "WAVE". */
  function RiffDescriptor(m: nat): (d: seq<Byte>)
    ensures |d| == 12
  {
    Ascii("RIFF") + Uint32LE(32 + 2 * m) + Ascii("WAVE")
  }

  /** The `fmt ` chunk: size 16, PCM, 2 channels, rate, byte rate, block align, bits. */
  function FmtChunk(): (f: seq<Byte>)
    ensures |f| == 24
  {
    Ascii("fmt ") + Uint32LE(16) + Uint16LE(1) + Uint16LE(2)
    + Uint32LE(SampleRate) + Uint32LE(SampleRate * 4) + Uint16LE(4) + Uint16LE(16)
  }

  /** The `data` chunk header: "data" and the number of data bytes. */
  function DataChunkHeader(m: nat): (d: seq<Byte>)
    ensures |d| == 8
  {
    Ascii("data") + Uint32LE(2 * m)
  }

  /** The 44 header bytes _writeHeaders writes for m interleaved samples. */
  function Header(m: nat): (h: seq<Byte>)
    ensures |h| == HeaderSize
  {
    RiffDescriptor(m) + FmtChunk() + DataChunkHeader(m)
  }

  /** The bytes of the exported file for the given interleaved samples. */
  function WaveBytes(samples: seq<real>): (w: seq<Byte>)
    ensures |w| == HeaderSize + 2 * |samples|
  {
    Header(|samples|) + PcmData(samples)
  }

  /** The header fields as a WAVE reader sees them. */
  datatype WaveHeader = WaveHeader(
    riffSize: int, fmtSize: int, audioFormat: int, channels: int, sampleRate: int,
    byteRate: int, blockAlign: int, bitsPerSample: int, dataSize: int)

  /** Reads a canonical 44-byte WAVE header; None when a chunk tag is wrong or the bytes are too few. */
  function ParseHeader(s: seq<Byte>): Option<WaveHeader>
  {
    if |s| < HeaderSize then None
    else if ReadAscii(s, 0, 4) != "RIFF" || ReadAscii(s, 8, 4) != "WAVE"
         || ReadAscii(s, 12, 4) != "fmt " || ReadAscii(s, 36, 4) != "data" then None
    else Some(WaveHeader(
      ReadUint32LE(s, 4), ReadUint32LE(s, 16), ReadUint16LE(s, 20), ReadUint16LE(s, 22),
      ReadUint32LE(s, 24), ReadUint32LE(s, 28), ReadUint16LE(s, 32), ReadUint16LE(s, 34),
      ReadUint32LE(s, 40)))
  }

  /**
   * The written header parses back to: PCM, 2 channels, 48000 Hz, byte rate
   * 192000, block align 4, 16 bits, data size 2m and RIFF size 32 + 2m
   * (both modulo 2^32); the byte rate is the sample rate times the block
   * align and the block align is the channels times the bytes per sample.
   */
  lemma ParseWrittenHeader(samples: seq<real>)
    ensures ParseHeader(WaveBytes(samples)) == Some(WaveHeader(
      (32 + 2 * |samples|) % Two32, 16, 1, 2, 48000, 192000, 4, 16, (2 * |samples|) % Two32))
    ensures var h := ParseHeader(WaveBytes(samples)).value;
      h.byteRate == h.sampleRate * h.blockAlign && h.blockAlign == h.channels * (h.bitsPerSample / 8)
  {
    ParseHeaderPrefix(|samples|, PcmData(samples));
  }

  /** Whatever follows it, the written header parses to that header's fields. */
  lemma ParseHeaderPrefix(m: nat, rest: seq<Byte>)
    ensures ParseHeader(Header(m) + rest) == Some(WaveHeader(
      (32 + 2 * m) % Two32, 16, 1, 2, 48000, 192000, 4, 16, (2 * m) % Two32))
  {
    var h := Header(m);
    var w := h + rest;
    assert w[0..HeaderSize] == h;
    HeaderFields(m);
    ReadWithin(w, 0, h, 0, 4);
    ReadWithin(w, 0, h, 4, 4);
    ReadWithin(w, 0, h, 8, 4);
    ReadWithin(w, 0, h, 12, 4);
    ReadWithin(w, 0, h, 16, 4);
    ReadWithin(w, 0, h, 20, 2);
    ReadWithin(w, 0, h, 22, 2);
    ReadWithin(w, 0, h, 24, 4);
    ReadWithin(w, 0, h, 28, 4);
    ReadWithin(w, 0, h, 32, 2);
    ReadWithin(w, 0, h, 34, 2);
    ReadWithin(w, 0, h, 36, 4);
    ReadWithin(w, 0, h, 40, 4);
  }

  lemma HeaderFields(m: nat)
    ensures ReadAscii(Header(m), 0, 4) == "RIFF"
    ensures ReadUint32LE(Header(m), 4) == (32 + 2 * m) % Two32
    ensures ReadAscii(Header(m), 8, 4) == "WAVE"
    ensures ReadAscii(Header(m), 12, 4) == "fmt "
    ensures ReadUint32LE(Header(m), 16) == 16
    ensures ReadUint16LE(Header(m), 20) == 1
    ensures ReadUint16LE(Header(m), 22) == 2
    ensures ReadUint32LE(Header(m), 24) == 48000
    ensures ReadUint32LE(Header(m), 28) == 192000
    ensures ReadUint16LE(Header(m), 32) == 4
    ensures ReadUint16LE(Header(m), 34) == 16
    ensures ReadAscii(Header(m), 36, 4) == "data"
    ensures ReadUint32LE(Header(m), 40) == (2 * m) % Two32
  {
    var h, r, f, d := Header(m), RiffDescriptor(m), FmtChunk(), DataChunkHeader(m);
    assert h[0..12] == r && h[12..36] == f && h[36..44] == d;
    RiffDescriptorFields(m);
    FmtChunkFields();
    DataChunkHeaderFields(m);
    ReadWithin(h, 0, r, 0, 4);
    ReadWithin(h, 0, r, 4, 4);
    ReadWithin(h, 0, r, 8, 4);
    ReadWithin(h, 12, f, 0, 4);
    ReadWithin(h, 12, f, 4, 4);
    ReadWithin(h, 12, f, 8, 2);
    ReadWithin(h, 12, f, 10, 2);
    ReadWithin(h, 12, f, 12, 4);
    ReadWithin(h, 12, f, 16, 4);
    ReadWithin(h, 12, f, 20, 2);
    ReadWithin(h, 12, f, 22, 2);
    ReadWithin(h, 36, d, 0, 4);
    ReadWithin(h, 36, d, 4, 4);
  }

  lemma RiffDescriptorFields(m: nat)
    ensures ReadAscii(RiffDescriptor(m), 0, 4) == "RIFF"
    ensures ReadUint32LE(RiffDescriptor(m), 4) == (32 + 2 * m) % Two32
    ensures ReadAscii(RiffDescriptor(m), 8, 4) == "WAVE"
  {
  }

  lemma FmtChunkFields()
    ensures ReadAscii(FmtChunk(), 0, 4) == "fmt "
    ensures ReadUint32LE(FmtChunk(), 4) == 16
    ensures ReadUint16LE(FmtChunk(), 8) == 1
    ensures ReadUint16LE(FmtChunk(), 10) == 2
    ensures ReadUint32LE(FmtChunk(), 12) == 48000
    ensures ReadUint32LE(FmtChunk(), 16) == 192000
    ensures ReadUint16LE(FmtChunk(), 20) == 4
    ensures ReadUint16LE(FmtChunk(), 22) == 16
  {
  }

  lemma DataChunkHeaderFields(m: nat)
    ensures ReadAscii(DataChunkHeader(m), 0, 4) == "data"
    ensures ReadUint32LE(DataChunkHeader(m), 4) == (2 * m) % Two32
  {
    var d := DataChunkHeader(m);
    ReadWithin(d, 0, Ascii("data"), 0, 4);
    ReadWithin(d, 4, Uint32LE(2 * m), 0, 4);
    AsciiRoundTrip("data");
    Uint32RoundTrip(2 * m);
  }

  /**
   * The RIFF size field is 32 + data bytes, four less than the RIFF
   * convention of "file length minus 8" (which would be 36 + data bytes).
   */
  lemma RiffSizeFourShort(samples: seq<real>)
    requires HeaderSize + 2 * |samples| < Two32
    ensures ParseHeader(WaveBytes(samples)).Some?
    ensures ParseHeader(WaveBytes(samples)).value.riffSize == |WaveBytes(samples)| - 8 - 4
  {
    ParseWrittenHeader(samples);
  }

  /** Sample i of the interleaved stream is the signed 16-bit value at byte 44 + 2i. */
  lemma WaveSampleAt(samples: seq<real>, i: nat)
    requires i < |samples|
    ensures ReadInt16LE(WaveBytes(samples), HeaderSize + 2 * i) == Quantize(samples[i])
  {
    PcmDataAt(samples, i);
    assert WaveBytes(samples)[HeaderSize + 2 * i .. HeaderSize + 2 * i + 2]
        == PcmData(samples)[2 * i .. 2 * i + 2];
  }

  /** Silence encodes to a data chunk of zero bytes. */
  lemma SilenceIsZeroBytes(samples: seq<real>)
    requires forall i :: 0 <= i < |samples| ==> samples[i] == 0.0
    ensures forall k :: HeaderSize <= k < |WaveBytes(samples)| ==> WaveBytes(samples)[k] == 0
  {
    forall k | HeaderSize <= k < |WaveBytes(samples)|
      ensures WaveBytes(samples)[k] == 0
    {
      var i := (k - HeaderSize) / 2;
      PcmDataAt(samples, i);
      QuantizeBoundaries(samples[i]);
      assert WaveBytes(samples)[k] == PcmData(samples)[2 * i .. 2 * i + 2][k - HeaderSize - 2 * i];
    }
  }

  // ---------------------------------------------------------------------
  // Writing into the DataView

  /** s with the bytes w written over it from `off` on. */
  function Overwrite(s: seq<Byte>, off: nat, w: seq<Byte>): (r: seq<Byte>)
    requires off + |w| <= |s|
    ensures |r| == |s|
  {
    s[..off] + w + s[off + |w|..]
  }

  lemma OverwriteAt(s: seq<Byte>, off: nat, w: seq<Byte>, k: nat)
    requires off + |w| <= |s| && k < |s|
    ensures Overwrite(s, off, w)[k] == if off <= k < off + |w| then w[k - off] else s[k]
  {
  }

  /** Two writes side by side are one write of both. */
  lemma OverwriteAdjacent(s: seq<Byte>, off: nat, a: seq<Byte>, b: seq<Byte>)
    requires off + |a| + |b| <= |s|
    ensures Overwrite(Overwrite(s, off, a), off + |a|, b) == Overwrite(s, off, a + b)
  {
  }

  /** DataView.setUint8. */
  method SetUint8(view: array<Byte>, off: nat, v: int)
    requires off < view.Length
    modifies view
    ensures view[..] == Overwrite(old(view[..]), off, [v % 256])
  {
    view[off] := v % 256;
  }

  /** DataView.setUint16 with littleEndian = true. */
  method SetUint16(view: array<Byte>, off: nat, v: int)
    requires off + 2 <= view.Length
    modifies view
    ensures view[..] == Overwrite(old(view[..]), off, Uint16LE(v))
  {
    var b := Uint16LE(v);
    view[off], view[off + 1] := b[0], b[1];
  }

  /** DataView.setUint32 with littleEndian = true. */
  method SetUint32(view: array<Byte>, off: nat, v: int)
    requires off + 4 <= view.Length
    modifies view
    ensures view[..] == Overwrite(old(view[..]), off, Uint32LE(v))
  {
    var b := Uint32LE(v);
    view[off], view[off + 1], view[off + 2], view[off + 3] := b[0], b[1], b[2], b[3];
  }

  /** DataView.setInt16 with littleEndian = true: ToInt16, stored in two's complement. */
  method SetInt16(view: array<Byte>, off: nat, x: real)
    requires off + 2 <= view.Length
    modifies view
    ensures view[..] == Overwrite(old(view[..]), off, Uint16LE(ToInt16(x)))
  {
    SetUint16(view, off, ToInt16(x));
  }

  /** _writeString: the character codes of `header` at off .. off + |header| - 1, nothing else. */
  method WriteString(view: array<Byte>, off: nat, header: string)
    requires off + |header| <= view.Length
    modifies view
    ensures view[..] == Overwrite(old(view[..]), off, Ascii(header))
  {
    ghost var before := view[..];
    for i := 0 to |header|
      invariant view[..] == Overwrite(before, off, Ascii(header)[..i])
    {
      SetUint8(view, off + i, header[i] as int);
      OverwriteAdjacent(before, off, Ascii(header)[..i], [(header[i] as int) % 256]);
      assert Ascii(header)[..i] + [(header[i] as int) % 256] == Ascii(header)[..i + 1];
    }
    assert Ascii(header)[..|header|] == Ascii(header);
  }

  /**
   * _floatTo16BitPCM: sample i, clamped and scaled, at bytes off + 2i and
   * off + 2i + 1; every other byte (the header in particular) unchanged.
   */
  method FloatTo16BitPCM(view: array<Byte>, samples: seq<real>, off: nat) returns (dataview: array<Byte>)
    requires off + 2 * |samples| <= view.Length
    modifies view
    ensures dataview == view
    ensures view[..] == Overwrite(old(view[..]), off, PcmData(samples))
  {
    ghost var before := view[..];
    var offset := off;
    for i := 0 to |samples|
      invariant offset == off + 2 * i
      invariant view[..] == Overwrite(before, off, PcmData(samples[..i]))
    {
      var tmp := Max(-1.0, Min(1.0, samples[i]));
      SetInt16(view, offset, if tmp < 0.0 then tmp * 32768.0 else tmp * 32767.0);
      OverwriteAdjacent(before, off, PcmData(samples[..i]), Uint16LE(Quantize(samples[i])));
      assert samples[..i + 1][..i] == samples[..i];
      offset := offset + 2;
    }
    assert samples[..|samples|] == samples;
    dataview := view;
  }

  /** Lines one to three of _writeHeaders: the RIFF chunk descriptor at byte 0. */
  method WriteRiffDescriptor(view: array<Byte>, m: nat)
    requires 12 <= view.Length
    modifies view
    ensures view[..] == Overwrite(old(view[..]), 0, RiffDescriptor(m))
  {
    ghost var before := view[..];
    WriteString(view, 0, "RIFF");
    SetUint32(view, 4, 32 + m * 2);
    OverwriteAdjacent(before, 0, Ascii("RIFF"), Uint32LE(32 + m * 2));
    WriteString(view, 8, "WAVE");
    OverwriteAdjacent(before, 0, Ascii("RIFF") + Uint32LE(32 + m * 2), Ascii("WAVE"));
  }

  /** The `fmt ` chunk of _writeHeaders, at byte 12. */
  method WriteFmtChunk(view: array<Byte>)
    requires 36 <= view.Length
    modifies view
    ensures view[..] == Overwrite(old(view[..]), 12, FmtChunk())
  {
    ghost var before := view[..];
    WriteString(view, 12, "fmt ");
    ghost var done := Ascii("fmt ");
    SetUint32(view, 16, 16);
    OverwriteAdjacent(before, 12, done, Uint32LE(16));
    done := done + Uint32LE(16);
    SetUint16(view, 20, 1);
    OverwriteAdjacent(before, 12, done, Uint16LE(1));
    done := done + Uint16LE(1);
    SetUint16(view, 22, 2);
    OverwriteAdjacent(before, 12, done, Uint16LE(2));
    done := done + Uint16LE(2);
    SetUint32(view, 24, SampleRate);
    OverwriteAdjacent(before, 12, done, Uint32LE(SampleRate));
    done := done + Uint32LE(SampleRate);
    SetUint32(view, 28, SampleRate * 4);
    OverwriteAdjacent(before, 12, done, Uint32LE(SampleRate * 4));
    done := done + Uint32LE(SampleRate * 4);
    SetUint16(view, 32, 4);
    OverwriteAdjacent(before, 12, done, Uint16LE(4));
    done := done + Uint16LE(4);
    SetUint16(view, 34, 16);
    OverwriteAdjacent(before, 12, done, Uint16LE(16));
  }

  /** The `data` chunk header of _writeHeaders, at byte 36. */
  method WriteDataChunkHeader(view: array<Byte>, m: nat)
    requires 44 <= view.Length
    modifies view
    ensures view[..] == Overwrite(old(view[..]), 36, DataChunkHeader(m))
  {
    ghost var before := view[..];
    WriteString(view, 36, "data");
    SetUint32(view, 40, m * 2);
    OverwriteAdjacent(before, 36, Ascii("data"), Uint32LE(m * 2));
  }

  /** _writeHeaders: a zeroed buffer of 44 + 2m bytes, the header fields, then the samples. */
  method WriteHeaders(samples: seq<real>) returns (view: array<Byte>)
    ensures fresh(view)
    ensures view[..] == WaveBytes(samples)
  {
    var m := |samples|;
    view := new Byte[HeaderSize + m * 2](_ => 0);
    ghost var zero := view[..];
    WriteRiffDescriptor(view, m);
    WriteFmtChunk(view);
    OverwriteAdjacent(zero, 0, RiffDescriptor(m), FmtChunk());
    WriteDataChunkHeader(view, m);
    OverwriteAdjacent(zero, 0, RiffDescriptor(m) + FmtChunk(), DataChunkHeader(m));
    view := FloatTo16BitPCM(view, samples, HeaderSize);
    OverwriteAdjacent(zero, 0, Header(m), PcmData(samples));
  }

  /**
   * export, without the Blob, object URL and audio element: interleave the
   * buffer's first channel into a stereo stream and serialise it.
   */
  method Export(buffer: AudioBuffer) returns (bytes: array<Byte>)
    ensures fresh(bytes)
    ensures bytes[..] == WaveBytes(Interleaved(buffer.channelData))
  {
    var recorded := Interleave(buffer);
    bytes := WriteHeaders(recorded[..]);
  }

  /**
   * An exported buffer of n samples is 44 + 4n bytes, declares 4n data
   * bytes, and holds sample j, quantised, as both the left and the right
   * value of frame j.
   */
  lemma ExportLayout(buffer: AudioBuffer, j: nat)
    requires j < buffer.Length()
    ensures var w := WaveBytes(Interleaved(buffer.channelData));
      |w| == HeaderSize + 4 * buffer.Length()
      && ParseHeader(w).Some?
      && ParseHeader(w).value.dataSize == (4 * buffer.Length()) % Two32
      && ReadInt16LE(w, HeaderSize + 4 * j) == Quantize(buffer.channelData[j])
      && ReadInt16LE(w, HeaderSize + 4 * j + 2) == Quantize(buffer.channelData[j])
  {
    var s := Interleaved(buffer.channelData);
    ParseWrittenHeader(s);
    InterleavedAt(buffer.channelData, j);
    WaveSampleAt(s, 2 * j);
    WaveSampleAt(s, 2 * j + 1);
  }
}
