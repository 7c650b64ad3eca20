/**
 * `encodeWAV`: a canonical 44-byte RIFF/WAVE header for 16-bit mono PCM followed by one
 * little-endian int16 per sample, written into a zero-filled byte buffer through a
 * `DataView`. `WavFile` is the byte image the encoder must produce, `EncodeWav` is the
 * encoder with its stores and loops, and `Decode` reads a canonical file back.
 */
module Wav {
  import opened Wrappers
  import opened Bytes

  const HeaderSize: nat := 44

  // ---------------------------------------------------------------------------
  // Sample quantisation (the clamp, the asymmetric scale and DataView's ToInt16)
  // ---------------------------------------------------------------------------

  function Min(a: real, b: real): real { if a <= b then a else b }
  function Max(a: real, b: real): real { if a >= b then a else b }

  /** `Math.max(-1, Math.min(1, s))`. */
  function Clamp(s: real): (c: real)
    ensures -1.0 <= c <= 1.0
    ensures -1.0 <= s <= 1.0 ==> c == s
    ensures s > 1.0 ==> c == 1.0
    ensures s < -1.0 ==> c == -1.0
  {
    Max(-1.0, Min(1.0, s))
  }

  /** Negative samples are scaled by 0x8000, the others by 0x7FFF. */
  function Scale(c: real): (r: real)
    ensures (r < 0.0) == (c < 0.0)
    ensures -1.0 <= c <= 1.0 ==> -32768.0 <= r <= 32767.0
    ensures c == 1.0 ==> r == 32767.0
    ensures c == -1.0 ==> r == -32768.0
  {
    if c < 0.0 then c * 32768.0 else c * 32767.0
  }

  /** ToIntegerOrInfinity on a finite number: drop the fraction, rounding toward zero. */
  function Trunc(x: real): (t: int)
    ensures 0.0 <= x ==> 0 <= t && t as real <= x < (t + 1) as real
    ensures x < 0.0 ==> t <= 0 && (t - 1) as real < x <= t as real
  {
    if x >= 0.0 then x.Floor else -((-x).Floor)
  }

  /** ToInt16 of an integral value: wrap modulo 2^16 into [-2^15, 2^15). */
  function ToInt16(t: int): (r: int)
    ensures -0x8000 <= r < 0x8000
    ensures (r - t) % TwoTo16 == 0
    ensures -0x8000 <= t < 0x8000 ==> r == t
  {
    var m := t % TwoTo16;
    if m < 0x8000 then m else m - TwoTo16
  }

  /** The int16 `setInt16` stores for a sample `s`. */
  function Quantize(s: real): (q: int)
    ensures -0x8000 <= q <= 0x7FFF
  {
    ToInt16(Trunc(Scale(Clamp(s))))
  }

  /** The samples as the decoder will see them. */
  function Quantized(s: seq<real>): seq<int>
  {
    seq(|s|, i requires 0 <= i < |s| => Quantize(s[i]))
  }

  /**
   * The scaled value is never outside the int16 range, so the wrap of ToInt16 never
   * applies, and the stored value is the scaled clamped sample truncated toward zero
   * (not rounded to the nearest integer).
   */
  lemma QuantizeTruncates(s: real)
    ensures Quantize(s) == Trunc(Scale(Clamp(s)))
    ensures 0.0 <= s ==> Quantize(s) as real <= Clamp(s) * 32767.0 < (Quantize(s) + 1) as real
    ensures s < 0.0 ==> (Quantize(s) - 1) as real < Clamp(s) * 32768.0 <= Quantize(s) as real
  {
    var c := Clamp(s);
    var x := Scale(c);
    assert -32768.0 <= x <= 32767.0;
    var t := Trunc(x);
    assert -0x8000 <= t <= 0x7FFF by {
      if x >= 0.0 {
        assert t as real <= 32767.0;
      } else {
        assert (t - 1) as real < x;
        assert -32768.0 <= x;
      }
    }
  }

  /** Full scale, silence and out-of-range inputs. */
  lemma QuantizeBoundaries()
    ensures Quantize(1.0) == 0x7FFF
    ensures Quantize(-1.0) == -0x8000
    ensures Quantize(0.0) == 0
    ensures Quantize(1.5) == 0x7FFF && Quantize(-7.0) == -0x8000
  {
    assert Trunc(32767.0) == 32767;
    assert Trunc(-32768.0) == -32768;
  }

  /** Quantisation preserves the order of samples. */
  lemma QuantizeMonotone(s: real, u: real)
    requires s <= u
    ensures Quantize(s) <= Quantize(u)
  {
    QuantizeTruncates(s);
    QuantizeTruncates(u);
    var a, b := Scale(Clamp(s)), Scale(Clamp(u));
    assert a <= b;
    TruncMonotone(a, b);
  }

  lemma TruncMonotone(x: real, y: real)
    requires x <= y
    ensures Trunc(x) <= Trunc(y)
  {
    if 0.0 <= x {
      assert Trunc(x) as real <= x <= y < (Trunc(y) + 1) as real;
    } else if y < 0.0 {
      assert (Trunc(x) - 1) as real < x <= y <= Trunc(y) as real;
    }
  }

  // ---------------------------------------------------------------------------
  // The byte image
  // ---------------------------------------------------------------------------

  /** The header for `n` samples at `sampleRate`, field by field in file order. */
  function Header(n: nat, sampleRate: int): seq<Byte>
  {
    Ascii("RIFF") + Le32(36 + n * 2) + Ascii("WAVE")
    + Ascii("fmt ") + Le32(16) + Le16(1) + Le16(1)
    + Le32(sampleRate) + Le32(sampleRate * 2) + Le16(2) + Le16(16)
    + Ascii("data") + Le32(n * 2)
  }

  /** The PCM payload: one little-endian int16 per sample, in order. */
  function Payload(s: seq<real>): (r: seq<Byte>)
    ensures |r| == 2 * |s|
  {
    if s == [] then [] else Payload(s[..|s| - 1]) + Le16(Quantize(s[|s| - 1]))
  }

  /** The whole container `encodeWAV(s, sampleRate)` wraps in its Blob. */
  function WavFile(s: seq<real>, sampleRate: int): seq<Byte>
  {
    Header(|s|, sampleRate) + Payload(s)
  }

  lemma {:induction false} PayloadAt(s: seq<real>, i: nat)
    requires i < |s|
    ensures Payload(s)[2 * i..2 * i + 2] == Le16(Quantize(s[i]))
  {
    var init := s[..|s| - 1];
    if i < |s| - 1 {
      PayloadAt(init, i);
      assert init[i] == s[i];
      assert Payload(s)[2 * i..2 * i + 2] == Payload(init)[2 * i..2 * i + 2];
    }
  }

  /** The payload of one more sample is the payload so far and that sample's two bytes. */
  lemma PayloadSnoc(s: seq<real>, i: nat)
    requires i < |s|
    ensures Payload(s[..i + 1]) == Payload(s[..i]) + Le16(Quantize(s[i]))
  {
    assert s[..i + 1][..i] == s[..i];
  }

  /** The file is the header and two bytes per sample. */
  lemma WavFileLength(s: seq<real>, sampleRate: int)
    ensures |Header(|s|, sampleRate)| == HeaderSize
    ensures |WavFile(s, sampleRate)| == HeaderSize + 2 * |s|
  {
  }

  /** What a reader finds in the header fields of a file for `n` samples at `sampleRate`. */
  ghost predicate FieldsHold(w: seq<Byte>, n: nat, sampleRate: int)
    requires |w| >= HeaderSize
  {
    && w[0..4] == Ascii("RIFF") && w[8..12] == Ascii("WAVE")
    && w[12..16] == Ascii("fmt ") && w[36..40] == Ascii("data")
    && ReadU32(w, 4) == (36 + 2 * n) % TwoTo32
    && ReadU32(w, 16) == 16
    && ReadU16(w, 20) == 1
    && ReadU16(w, 22) == 1
    && ReadU32(w, 24) == sampleRate % TwoTo32
    && ReadU32(w, 28) == (2 * sampleRate) % TwoTo32
    && ReadU16(w, 32) == 2
    && ReadU16(w, 34) == 16
    && ReadU32(w, 40) == (2 * n) % TwoTo32
  }

  /**
   * Where each header field lies, and what reading it back gives, in any byte sequence
   * that starts with the header. The 32-bit fields hold their value modulo 2^32, as
   * ToUint32 makes `setUint32` do.
   */
  lemma FieldsOf(w: seq<Byte>, n: nat, sampleRate: int)
    requires |w| >= HeaderSize && w[..HeaderSize] == Header(n, sampleRate)
    ensures FieldsHold(w, n, sampleRate)
  {
    var h := Header(n, sampleRate);
    assert h[0..4] == Ascii("RIFF");
    assert h[4..8] == Le32(36 + n * 2);
    assert h[8..12] == Ascii("WAVE");
    assert h[12..16] == Ascii("fmt ");
    assert h[16..20] == Le32(16);
    assert h[20..22] == Le16(1);
    assert h[22..24] == Le16(1);
    assert h[24..28] == Le32(sampleRate);
    assert h[28..32] == Le32(sampleRate * 2);
    assert h[32..34] == Le16(2);
    assert h[34..36] == Le16(16);
    assert h[36..40] == Ascii("data");
    assert h[40..44] == Le32(n * 2);
    PrefixSlices(w, h);
    ReadU32OfLe32(w, 4, 36 + n * 2);
    ReadU32OfLe32(w, 16, 16);
    ReadU16OfLe16(w, 20, 1);
    ReadU16OfLe16(w, 22, 1);
    ReadU32OfLe32(w, 24, sampleRate);
    ReadU32OfLe32(w, 28, sampleRate * 2);
    ReadU16OfLe16(w, 32, 2);
    ReadU16OfLe16(w, 34, 16);
    ReadU32OfLe32(w, 40, n * 2);
  }

  lemma PrefixSlices(w: seq<Byte>, h: seq<Byte>)
    requires |h| == HeaderSize <= |w| && w[..HeaderSize] == h
    ensures w[0..4] == h[0..4] && w[4..8] == h[4..8] && w[8..12] == h[8..12]
    ensures w[12..16] == h[12..16] && w[16..20] == h[16..20] && w[20..22] == h[20..22]
    ensures w[22..24] == h[22..24] && w[24..28] == h[24..28] && w[28..32] == h[28..32]
    ensures w[32..34] == h[32..34] && w[34..36] == h[34..36] && w[36..40] == h[36..40]
    ensures w[40..44] == h[40..44]
  {
  }

  /**
   * The header fields of an encoded file: the four tags, the sizes modulo 2^32, fmt
   * length 16, format 1, one channel, the rate and byte rate modulo 2^32, block align 2
   * and 16 bits per sample.
   */
  lemma HeaderFields(s: seq<real>, sampleRate: int)
    ensures |WavFile(s, sampleRate)| == HeaderSize + 2 * |s|
    ensures FieldsHold(WavFile(s, sampleRate), |s|, sampleRate)
  {
    var w := WavFile(s, sampleRate);
    assert w[..HeaderSize] == Header(|s|, sampleRate);
    FieldsOf(w, |s|, sampleRate);
  }

  /** Sample `i` is the int16 at offset 44 + 2i. */
  lemma SampleAt(s: seq<real>, sampleRate: int, i: nat)
    requires i < |s|
    ensures ReadI16(WavFile(s, sampleRate), HeaderSize + 2 * i) == Quantize(s[i])
  {
    var w := WavFile(s, sampleRate);
    WavFileLength(s, sampleRate);
    PayloadAt(s, i);
    assert w[HeaderSize..] == Payload(s);
    assert w[HeaderSize + 2 * i..HeaderSize + 2 * i + 2] == w[HeaderSize..][2 * i..2 * i + 2];
    ReadI16OfLe16(w, HeaderSize + 2 * i, Quantize(s[i]));
  }

  // ---------------------------------------------------------------------------
  // Reading a canonical file back
  // ---------------------------------------------------------------------------

  datatype Pcm = Pcm(sampleRate: nat, channels: nat, bitsPerSample: nat, samples: seq<int>)

  /**
   * A reader for canonical 16-bit mono PCM files with a 44-byte header: the four tags,
   * a 16-byte fmt chunk of format 1, one channel, 16 bits, a byte rate and block align
   * consistent with them, and RIFF and data sizes that match the byte count.
   */
  predicate Canonical(w: seq<Byte>)
  {
    && |w| >= HeaderSize && (|w| - HeaderSize) % 2 == 0
    && w[0..4] == Ascii("RIFF") && w[8..12] == Ascii("WAVE")
    && w[12..16] == Ascii("fmt ") && w[36..40] == Ascii("data")
    && ReadU32(w, 4) == |w| - 8 && ReadU32(w, 40) == |w| - HeaderSize
    && ReadU32(w, 16) == 16 && ReadU16(w, 20) == 1 && ReadU16(w, 22) == 1
    && ReadU16(w, 34) == 16 && ReadU16(w, 32) == 2
    && ReadU32(w, 28) == 2 * ReadU32(w, 24)
  }

  function Decode(w: seq<Byte>): Option<Pcm>
  {
    if !Canonical(w) then None
    else
      var n := (|w| - HeaderSize) / 2;
      Some(Pcm(ReadU32(w, 24), ReadU16(w, 22), ReadU16(w, 34),
               seq(n, i requires 0 <= i < n => ReadI16(w, HeaderSize + 2 * i))))
  }

  lemma EvenPayload(k: int, n: nat)
    requires k == 2 * n
    ensures k % 2 == 0 && k / 2 == n
  {
  }

  lemma CanonicalOf(w: seq<Byte>, n: nat, sampleRate: int)
    requires |w| == HeaderSize + 2 * n && FieldsHold(w, n, sampleRate)
    requires 0 <= sampleRate && 2 * sampleRate < TwoTo32
    requires 36 + 2 * n < TwoTo32
    ensures Canonical(w) && ReadU32(w, 24) == sampleRate
  {
    SmallMod(36 + 2 * n);
    SmallMod(2 * n);
    SmallMod(sampleRate);
    SmallMod(2 * sampleRate);
    EvenPayload(|w| - HeaderSize, n);
  }

  lemma SmallMod(x: int)
    requires 0 <= x < TwoTo32
    ensures x % TwoTo32 == x
  {
  }

  /**
   * Decoding an encoded file gives back the sample rate, one channel, 16 bits and the
   * quantised samples, as long as the size and byte-rate fields do not wrap.
   */
  lemma {:induction false} DecodeEncoded(s: seq<real>, sampleRate: int)
    requires 0 <= sampleRate && 2 * sampleRate < TwoTo32
    requires 36 + 2 * |s| < TwoTo32
    ensures Decode(WavFile(s, sampleRate)) == Some(Pcm(sampleRate, 1, 16, Quantized(s)))
  {
    var w := WavFile(s, sampleRate);
    HeaderFields(s, sampleRate);
    CanonicalOf(w, |s|, sampleRate);
    var n := (|w| - HeaderSize) / 2;
    assert n == |s|;
    var samples := seq(n, i requires 0 <= i < n => ReadI16(w, HeaderSize + 2 * i));
    forall i | 0 <= i < n
      ensures samples[i] == Quantized(s)[i]
    {
      SampleAt(s, sampleRate, i);
    }
    assert samples == Quantized(s);
  }

  // ---------------------------------------------------------------------------
  // The encoder: DataView stores into a zero-filled buffer
  // ---------------------------------------------------------------------------

  /** `view.setUint8(off, v)`. */
  method SetUint8(view: array<Byte>, byteOffset: nat, value: int)
    requires byteOffset < view.Length
    modifies view
    ensures view[..byteOffset + 1] == old(view[..byteOffset]) + [(value % 256) as Byte]
    ensures view[byteOffset + 1..] == old(view[byteOffset + 1..])
  {
    view[byteOffset] := (value % 256) as Byte;
  }

  /** The native part of every multi-byte DataView setter: store `bytes` at `byteOffset`. */
  method Store(view: array<Byte>, byteOffset: nat, bytes: seq<Byte>)
    requires byteOffset + |bytes| <= view.Length
    modifies view
    ensures view[..byteOffset + |bytes|] == old(view[..byteOffset]) + bytes
    ensures view[byteOffset + |bytes|..] == old(view[byteOffset + |bytes|..])
  {
    forall k | 0 <= k < |bytes| {
      view[byteOffset + k] := bytes[k];
    }
  }

  /** `view.setUint16(off, v, true)`. */
  method SetUint16(view: array<Byte>, byteOffset: nat, value: int)
    requires byteOffset + 2 <= view.Length
    modifies view
    ensures view[..byteOffset + 2] == old(view[..byteOffset]) + Le16(value)
    ensures view[byteOffset + 2..] == old(view[byteOffset + 2..])
  {
    Store(view, byteOffset, Le16(value));
  }

  /** `view.setUint32(off, v, true)`. */
  method SetUint32(view: array<Byte>, byteOffset: nat, value: int)
    requires byteOffset + 4 <= view.Length
    modifies view
    ensures view[..byteOffset + 4] == old(view[..byteOffset]) + Le32(value)
    ensures view[byteOffset + 4..] == old(view[byteOffset + 4..])
  {
    Store(view, byteOffset, Le32(value));
  }

  /** `view.setInt16(off, v, true)`: ToInt16 of the number, then its two bytes. */
  method SetInt16(view: array<Byte>, byteOffset: nat, value: real)
    requires byteOffset + 2 <= view.Length
    modifies view
    ensures view[..byteOffset + 2] == old(view[..byteOffset]) + Le16(ToInt16(Trunc(value)))
    ensures view[byteOffset + 2..] == old(view[byteOffset + 2..])
  {
    Store(view, byteOffset, Le16(ToInt16(Trunc(value))));
  }

  /** The nested `writeString`: one `setUint8` per character code. */
  method WriteString(view: array<Byte>, offset: nat, s: string)
    requires offset + |s| <= view.Length
    modifies view
    ensures view[..offset + |s|] == old(view[..offset]) + Ascii(s)
    ensures view[offset + |s|..] == old(view[offset + |s|..])
  {
    for i := 0 to |s|
      invariant view[..offset + i] == old(view[..offset]) + Ascii(s)[..i]
      invariant view[offset + i..] == old(view[offset + i..])
    {
      SetUint8(view, offset + i, s[i] as int);
      assert Ascii(s)[..i + 1] == Ascii(s)[..i] + [Ascii(s)[i]];
    }
  }

  /** The RIFF chunk descriptor (lines 26-30): tag, size of the rest of the file, format. */
  function RiffPart(n: nat): seq<Byte>
  {
    Ascii("RIFF") + Le32(36 + n * 2) + Ascii("WAVE")
  }

  /** The fmt subchunk up to the channel count (lines 32-35). */
  function FmtHead(): seq<Byte>
  {
    Ascii("fmt ") + Le32(16) + Le16(1) + Le16(1)
  }

  /** The rest of the fmt subchunk (lines 36-39). */
  function FmtRates(sampleRate: int): seq<Byte>
  {
    Le32(sampleRate) + Le32(sampleRate * 2) + Le16(2) + Le16(16)
  }

  /** The data subchunk header (lines 41-42). */
  function DataPart(n: nat): seq<Byte>
  {
    Ascii("data") + Le32(n * 2)
  }

  /** Two buffers that agree from `i` on agree from any later `j` on. */
  lemma SuffixFrom(a: seq<Byte>, b: seq<Byte>, i: nat, j: nat)
    requires i <= j <= |a| == |b| && a[i..] == b[i..]
    ensures a[j..] == b[j..]
  {
    assert a[j..] == a[i..][j - i..];
    assert b[j..] == b[i..][j - i..];
  }

  /** Lines 26-30: the RIFF stores. */
  method WriteRiff(view: array<Byte>, n: nat)
    requires 12 <= view.Length
    modifies view
    ensures view[..12] == RiffPart(n)
    ensures view[12..] == old(view[12..])
  {
    ghost var v0 := view[..];
    WriteString(view, 0, "RIFF");
    SuffixFrom(view[..], v0, 4, 12);
    ghost var v1 := view[..];
    SetUint32(view, 4, 36 + n * 2);
    SuffixFrom(view[..], v1, 8, 12);
    WriteString(view, 8, "WAVE");
  }

  /** Lines 32-35: the fmt tag, its length, the format and the channel count. */
  method WriteFmtHead(view: array<Byte>)
    requires 24 <= view.Length
    modifies view
    ensures view[..24] == old(view[..12]) + FmtHead()
    ensures view[24..] == old(view[24..])
  {
    ghost var v0 := view[..];
    WriteString(view, 12, "fmt ");
    SuffixFrom(view[..], v0, 16, 24);
    ghost var v1 := view[..];
    SetUint32(view, 16, 16);
    SuffixFrom(view[..], v1, 20, 24);
    ghost var v2 := view[..];
    SetUint16(view, 20, 1);
    SuffixFrom(view[..], v2, 22, 24);
    SetUint16(view, 22, 1);
  }

  /** Lines 36-39: the rate, the byte rate, the block align and the sample width. */
  method WriteFmtRates(view: array<Byte>, sampleRate: int)
    requires 36 <= view.Length
    modifies view
    ensures view[..36] == old(view[..24]) + FmtRates(sampleRate)
    ensures view[36..] == old(view[36..])
  {
    ghost var v0 := view[..];
    SetUint32(view, 24, sampleRate);
    SuffixFrom(view[..], v0, 28, 36);
    ghost var v1 := view[..];
    SetUint32(view, 28, sampleRate * 2);
    SuffixFrom(view[..], v1, 32, 36);
    ghost var v2 := view[..];
    SetUint16(view, 32, 2);
    SuffixFrom(view[..], v2, 34, 36);
    SetUint16(view, 34, 16);
  }

  /** Lines 41-42: the data stores. */
  method WriteData(view: array<Byte>, n: nat)
    requires HeaderSize <= view.Length
    modifies view
    ensures view[..HeaderSize] == old(view[..36]) + DataPart(n)
    ensures view[HeaderSize..] == old(view[HeaderSize..])
  {
    ghost var v0 := view[..];
    WriteString(view, 36, "data");
    SuffixFrom(view[..], v0, 40, HeaderSize);
    SetUint32(view, 40, n * 2);
  }

  /** Lines 26-42 of `encodeWAV`: the header stores, in file order. */
  method WriteHeader(view: array<Byte>, n: nat, sampleRate: int)
    requires view.Length == HeaderSize + n * 2
    modifies view
    ensures view[..HeaderSize] == Header(n, sampleRate)
    ensures view[HeaderSize..] == old(view[HeaderSize..])
  {
    ghost var v0 := view[..];
    WriteRiff(view, n);
    SuffixFrom(view[..], v0, 12, HeaderSize);
    ghost var v1 := view[..];
    WriteFmtHead(view);
    SuffixFrom(view[..], v1, 24, HeaderSize);
    ghost var v2 := view[..];
    ghost var fmt1 := view[..24];
    assert fmt1 == RiffPart(n) + FmtHead();
    WriteFmtRates(view, sampleRate);
    SuffixFrom(view[..], v2, 36, HeaderSize);
    ghost var fmt2 := view[..36];
    assert fmt2 == fmt1 + FmtRates(sampleRate);
    WriteData(view, n);
    assert Header(n, sampleRate) == fmt2 + DataPart(n);
  }

  /** Lines 45-49 of `encodeWAV`: one `setInt16` per sample, after the header. */
  method WriteSamples(view: array<Byte>, samples: seq<real>)
    requires view.Length == HeaderSize + |samples| * 2
    modifies view
    ensures view[..] == old(view[..HeaderSize]) + Payload(samples)
  {
    ghost var header := view[..HeaderSize];
    var offset := HeaderSize;
    for i := 0 to |samples|
      invariant offset == HeaderSize + 2 * i
      invariant view[..offset] == header + Payload(samples[..i])
    {
      var s := Clamp(samples[i]);
      SetInt16(view, offset, Scale(s));
      PayloadSnoc(samples, i);
      offset := offset + 2;
    }
    assert samples[..|samples|] == samples;
    assert view[..] == view[..offset];
  }

  /** `encodeWAV(samples, sampleRate)`: the bytes of the container it returns. */
  method EncodeWav(samples: seq<real>, sampleRate: int) returns (wav: seq<Byte>)
    ensures wav == WavFile(samples, sampleRate)
  {
    var n := |samples|;
    var view := new Byte[HeaderSize + n * 2](_ => 0);
    WriteHeader(view, n, sampleRate);
    WriteSamples(view, samples);
    wav := view[..];
  }
}
