/** Properties of the WAV codec: what decoding rejects and what it reads, the
    byte layout the encoder writes, the round trip between the two, and the
    algebra of appending clips. */
module WavProperties {
  import opened LittleEndian
  import opened Wav

  // ---------------------------------------------------------------------------
  // Decoding

  /** Decoding fails fast, in this order: a missing "RIFF" tag (which includes
      every buffer shorter than 4 bytes), a missing "WAVE" tag, then a format
      tag other than PCM or Extensible, reported with its value (zero when the
      buffer ends before byte 22). */
  lemma FromBytesRejects(s: seq<byte>)
    ensures !(|s| >= 4 && s[..4] == RIFF) ==> FromBytes(s) == Err(NoRiffHeader)
    ensures (|s| >= 4 && s[..4] == RIFF && !(|s| >= 12 && s[8..12] == WAVE))
            ==> FromBytes(s) == Err(NoRiffHeader)
    ensures (|s| >= 12 && s[..4] == RIFF && s[8..12] == WAVE && |s| < 22)
            ==> FromBytes(s) == Err(InvalidFormatTag(0))
    ensures (|s| >= 22 && s[..4] == RIFF && s[8..12] == WAVE)
            ==> var tag := s[20] as int + 0x100 * s[21] as int;
                (tag == 0x1 || tag == 0xFFFE || FromBytes(s) == Err(InvalidFormatTag(tag)))
  {
    if |s| < 4 {
      assert ReadBytes(s, 0, 4)[0] == 0;
    } else if s[..4] == RIFF {
      assert ReadBytes(s, 0, 4) == RIFF;
      if |s| < 12 {
        assert ReadBytes(s, 8, 4)[0] == 0;
      }
    }
  }

  /** On success every header field is the little-endian value at its fixed
      offset, or zero when the buffer ends before that field is complete; the
      declared length sits at 40 (PCM) or 76 (Extensible). */
  lemma FromBytesFields(s: seq<byte>)
    requires FromBytes(s).Ok?
    ensures var c := FromBytes(s).value;
      && c.formatTag == LE16(s[20..22])
      && c.channels == (if |s| >= 24 then LE16(s[22..24]) else 0)
      && c.samplesPerSec == (if |s| >= 28 then LE32(s[24..28]) else 0)
      && c.avgBytesPerSec == (if |s| >= 32 then LE32(s[28..32]) else 0)
      && c.blockAlign == (if |s| >= 34 then LE16(s[32..34]) else 0)
      && c.bitsPerSample == (if |s| >= 36 then LE16(s[34..36]) else 0)
      && var at := PayloadOffset(c.formatTag) - 4;
         c.length == (if |s| >= at + 4 then LE32(s[at..at + 4]) else 0)
  {
  }

  /** On success the payload is a contiguous copy of the buffer from byte 44
      (PCM) or 80 (Extensible): exactly the declared length when the buffer
      holds that much, otherwise everything up to the end of the buffer. */
  lemma FromBytesPayload(s: seq<byte>)
    requires FromBytes(s).Ok?
    ensures var c := FromBytes(s).value;
      var off := PayloadOffset(c.formatTag);
      && (|s| >= off + c.length ==> c.data == s[off..off + c.length])
      && (off <= |s| < off + c.length ==> c.data == s[off..])
      && (|s| < off ==> c.data == [])
  {
  }

  // ---------------------------------------------------------------------------
  // Encoding

  /** Bytes [0..36) of every encoding: "RIFF", the RIFF size, "WAVEfmt ", the
      `fmt ` size, then the six header fields in struct order. */
  lemma CommonHeaderLayout(w: Clip, riffSize: uint32, fmtSize: uint32)
    ensures var h := CommonHeader(w, riffSize, fmtSize);
      && h[0..4] == RIFF
      && h[4..8] == U32LE(riffSize)
      && h[8..16] == WAVE_FMT
      && h[16..20] == U32LE(fmtSize)
      && h[20..22] == U16LE(w.formatTag)
      && h[22..24] == U16LE(w.channels)
      && h[24..28] == U32LE(w.samplesPerSec)
      && h[28..32] == U32LE(w.avgBytesPerSec)
      && h[32..34] == U16LE(w.blockAlign)
      && h[34..36] == U16LE(w.bitsPerSample)
  {
  }

  /** The PCM layout: a 36-byte common header with RIFF size length + 36 (mod
      2^32) and `fmt ` size 16, then "data", the declared length and the
      payload. */
  lemma BytesPcmLayout(w: Clip)
    requires w.formatTag == WAVE_FORMAT_PCM
    ensures Bytes(w).Ok?
    ensures var b := Bytes(w).value;
      && |b| == 44 + |w.data|
      && b[..36] == CommonHeader(w, AddU32(w.length, 36), 16)
      && b[36..40] == DATA
      && b[40..44] == U32LE(w.length)
      && b[44..] == w.data
  {
  }

  /** The `fmt ` extension: size 22, valid bits, channel mask, GUID. */
  lemma FormatExtensionLayout(w: Clip)
    ensures var e := FormatExtension(w);
      && e[0..2] == U16LE(22)
      && e[2..4] == U16LE(w.bitsPerSample)
      && e[4..8] == U32LE(ChannelMask(w.channels))
      && e[8..24] == SUBTYPE_PCM
  {
  }

  /** The `fact` chunk: tag, size 4, and the frame count length / blockAlign. */
  lemma FactChunkLayout(w: Clip)
    requires w.blockAlign != 0
    ensures var f := FactChunk(w);
      && f[0..4] == FACT
      && f[4..8] == U32LE(4)
      && f[8..12] == U32LE(FrameCount(w))
  {
  }

  /** The Extensible layout: a 36-byte common header with RIFF size length + 72
      (mod 2^32) and `fmt ` size 40; then the `fmt ` extension (size 22, valid
      bits per sample, channel mask, PCM sub-format GUID); then a `fact` chunk
      of size 4 holding length / blockAlign; then "data", the declared length
      and the payload. */
  lemma BytesExtensibleLayout(w: Clip)
    requires w.formatTag == WAVE_FORMAT_EXTENSIBLE && w.blockAlign != 0
    ensures Bytes(w).Ok?
    ensures var b := Bytes(w).value;
      && |b| == 80 + |w.data|
      && b[..36] == CommonHeader(w, AddU32(w.length, 72), 40)
      && b[36..60] == FormatExtension(w)
      && b[60..72] == FactChunk(w)
      && b[72..76] == DATA
      && b[76..80] == U32LE(w.length)
      && b[80..] == w.data
  {
  }

  /** The `fmt ` extension at its absolute offsets [36..60). */
  lemma BytesFormatExtension(w: Clip)
    requires w.formatTag == WAVE_FORMAT_EXTENSIBLE && w.blockAlign != 0
    ensures Bytes(w).Ok?
    ensures var b := Bytes(w).value;
      && b[36..38] == U16LE(22)
      && b[38..40] == U16LE(w.bitsPerSample)
      && b[40..44] == U32LE(ChannelMask(w.channels))
      && b[44..60] == SUBTYPE_PCM
  {
  }

  /** The `fact` chunk at its absolute offsets [60..72). */
  lemma BytesFactChunk(w: Clip)
    requires w.formatTag == WAVE_FORMAT_EXTENSIBLE && w.blockAlign != 0
    ensures Bytes(w).Ok?
    ensures var b := Bytes(w).value;
      && b[60..64] == FACT
      && b[64..68] == U32LE(4)
      && b[68..72] == U32LE(FrameCount(w))
  {
  }

  /** The channel mask field of an Extensible encoding holds the standard
      speaker layout: `03 00 00 00` (front left and right) for stereo and
      `3f 00 00 00` (5.1) for six channels. */
  lemma BytesChannelMaskExample(w: Clip)
    requires w.formatTag == WAVE_FORMAT_EXTENSIBLE && w.blockAlign != 0
    ensures Bytes(w).Ok?
    ensures w.channels == 1 ==> Bytes(w).value[40..44] == [0x04, 0, 0, 0]
    ensures w.channels == 2 ==> Bytes(w).value[40..44] == [0x03, 0, 0, 0]
    ensures w.channels == 4 ==> Bytes(w).value[40..44] == [0x33, 0, 0, 0]
    ensures w.channels == 6 ==> Bytes(w).value[40..44] == [0x3f, 0, 0, 0]
    ensures w.channels == 8 ==> Bytes(w).value[40..44] == [0x3f, 0x06, 0, 0]
    ensures w.channels !in {1, 2, 4, 6, 8} ==> Bytes(w).value[40..44] == [0, 0, 0, 0]
  {
    BytesFormatExtension(w);
  }

  // ---------------------------------------------------------------------------
  // Round trip

  /** A clip the encoder accepts without failing or dividing by zero. */
  predicate Encodable(w: Clip) {
    && IsSupportedTag(w.formatTag)
    && (w.formatTag == WAVE_FORMAT_EXTENSIBLE ==> w.blockAlign != 0)
  }

  /** Reading a buffer that starts with a common header gives back the header's
      fields. */
  lemma CommonHeaderReadBack(b: seq<byte>, w: Clip, riffSize: uint32, fmtSize: uint32)
    requires |b| >= 36 && b[..36] == CommonHeader(w, riffSize, fmtSize)
    ensures b[..4] == RIFF && b[8..12] == WAVE && b[20..22] == U16LE(w.formatTag)
    ensures ReadU16(b, 20) == w.formatTag
    ensures ReadU16(b, 22) == w.channels
    ensures ReadU32(b, 24) == w.samplesPerSec
    ensures ReadU32(b, 28) == w.avgBytesPerSec
    ensures ReadU16(b, 32) == w.blockAlign
    ensures ReadU16(b, 34) == w.bitsPerSample
  {
    var h := CommonHeader(w, riffSize, fmtSize);
    CommonHeaderLayout(w, riffSize, fmtSize);
    assert b[..4] == h[0..4];
    assert b[8..12] == h[8..12];
    assert h[8..12] == WAVE_FMT[..4];
    assert b[20..22] == h[20..22];
    assert b[22..24] == h[22..24];
    assert b[24..28] == h[24..28];
    assert b[28..32] == h[28..32];
    assert b[32..34] == h[32..34];
    assert b[34..36] == h[34..36];
    LE16OfU16LE(w.formatTag);
    LE16OfU16LE(w.channels);
    LE32OfU32LE(w.samplesPerSec);
    LE32OfU32LE(w.avgBytesPerSec);
    LE16OfU16LE(w.blockAlign);
    LE16OfU16LE(w.bitsPerSample);
  }

  /** Reading a buffer that ends with a declared length at off - 4 and a payload
      from off gives back the length and the payload clipped to it. */
  lemma DataChunkReadBack(b: seq<byte>, off: nat, w: Clip)
    requires off >= 4 && |b| == off + |w.data|
    requires b[off - 4..off] == U32LE(w.length) && b[off..] == w.data
    ensures ReadU32(b, off - 4) == w.length
    ensures CopySection(b, off, w.length) == w.data[..Min(w.length, |w.data|)]
  {
  }

  /** The reader reads back every field the writer writes, at the same
      offsets; the payload comes back clipped to the declared length. */
  lemma FromBytesOfBytes(w: Clip)
    requires Encodable(w)
    ensures Bytes(w).Ok?
    ensures FromBytes(Bytes(w).value) == Ok(w.(data := w.data[..Min(w.length, |w.data|)]))
  {
    var b := Bytes(w).value;
    var off := PayloadOffset(w.formatTag);
    if w.formatTag == WAVE_FORMAT_PCM {
      BytesPcmLayout(w);
      CommonHeaderReadBack(b, w, AddU32(w.length, 36), 16);
    } else {
      BytesExtensibleLayout(w);
      CommonHeaderReadBack(b, w, AddU32(w.length, 72), 40);
    }
    DataChunkReadBack(b, off, w);
    assert Recognised(b);
    assert ReadBytes(b, 0, 4) == RIFF && ReadBytes(b, 8, 4) == WAVE;
  }

  /** Decoding the encoding of a clip whose declared length is its payload size
      gives back that very clip. */
  lemma RoundTrip(w: Clip)
    requires Encodable(w) && w.length == |w.data|
    ensures Bytes(w).Ok? && FromBytes(Bytes(w).value) == Ok(w)
  {
    FromBytesOfBytes(w);
    assert w.data[..|w.data|] == w.data;
  }

  /** Consistent clips with the same encoding are the same clip. */
  lemma BytesInjective(v: Clip, w: Clip)
    requires Encodable(v) && v.length == |v.data|
    requires Encodable(w) && w.length == |w.data|
    requires Bytes(v) == Bytes(w)
    ensures v == w
  {
    RoundTrip(v);
    RoundTrip(w);
  }

  // ---------------------------------------------------------------------------
  // Appending

  /** A successful append puts the other payload after the receiver's, adds the
      declared lengths modulo 2^32, and keeps every other receiver field,
      including the format tag, block alignment and byte rate. */
  lemma AppendedContents(a: Clip, b: Clip)
    requires Compatible(a, b)
    ensures var c := Appended(a, b).value;
      && |c.data| == |a.data| + |b.data|
      && c.data[..|a.data|] == a.data
      && c.data[|a.data|..] == b.data
      && c.length == (a.length + b.length) % UINT32_MODULUS
      && c.(data := a.data, length := a.length) == a
  {
  }

  /** Appending keeps the declared length equal to the payload size exactly
      when the combined payload still fits in 32 bits. */
  lemma AppendedConsistent(a: Clip, b: Clip)
    requires Compatible(a, b)
    requires a.length == |a.data| && b.length == |b.data|
    ensures var c := Appended(a, b).value;
      c.length == |c.data| <==> |a.data| + |b.data| < UINT32_MODULUS
  {
  }

  /** An append leaves the receiver compatible with exactly the clips it was
      compatible with before, so a run of appends can keep going. */
  lemma AppendedStaysCompatible(a: Clip, b: Clip, x: Clip)
    requires Compatible(a, b)
    ensures Compatible(Appended(a, b).value, x) <==> Compatible(a, x)
  {
  }

  /** Appending is associative: payloads concatenate in order and the declared
      lengths sum modulo 2^32, however the appends are grouped. */
  lemma AppendedAssociative(a: Clip, b: Clip, c: Clip)
    requires Compatible(a, b) && Compatible(b, c)
    ensures Appended(Appended(a, b).value, c).Ok?
    ensures Appended(a, Appended(b, c).value).Ok?
    ensures Appended(Appended(a, b).value, c) == Appended(a, Appended(b, c).value)
  {
    AddU32Associative(a.length, b.length, c.length);
    assert (a.data + b.data) + c.data == a.data + (b.data + c.data);
  }

  /** Appending the encoding of a consistent clip appends that clip. */
  lemma AppendBytesOfBytes(a: Clip, b: Clip)
    requires Encodable(b) && b.length == |b.data|
    ensures Bytes(b).Ok? && FromBytes(Bytes(b).value) == Ok(b)
    ensures Appended(a, FromBytes(Bytes(b).value).value) == Appended(a, b)
  {
    RoundTrip(b);
  }

  /** A clip appended to itself three times holds four copies of its payload
      and four times its length, and the result still survives an encode and a
      decode, as long as the total fits in 32 bits. */
  lemma AppendThreeCopies(w: Clip)
    requires Encodable(w) && w.length == |w.data| && 4 * |w.data| < UINT32_MODULUS
    ensures var r := Appended(Appended(Appended(w, w).value, w).value, w).value;
      && r.data == w.data + w.data + w.data + w.data
      && r.length == 4 * w.length
      && r.(data := w.data, length := w.length) == w
      && Bytes(r).Ok? && FromBytes(Bytes(r).value) == Ok(r)
  {
    var r := Appended(Appended(Appended(w, w).value, w).value, w).value;
    RoundTrip(r);
  }
}
