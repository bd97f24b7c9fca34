/** The WAV codec of package `wav`: a reader and a writer for the canonical
    RIFF/WAVE layout (a plain PCM `fmt ` chunk, or a WAVEFORMATEXTENSIBLE `fmt `
    chunk followed by a `fact` chunk), and the in-place concatenation of
    compatible clips. Every header field sits at a fixed absolute offset; the
    declared chunk sizes are written but never read. */
module Wav {
  import opened LittleEndian

  const WAVE_FORMAT_PCM: uint16 := 0x1
  const WAVE_FORMAT_EXTENSIBLE: uint16 := 0xFFFE

  /** The value of a `WAV` struct: the `fmt ` header fields, the byte count the
      `data` chunk declares, and the raw sample payload. */
  datatype Clip = Clip(
    formatTag: uint16,
    channels: uint16,
    samplesPerSec: uint32,
    avgBytesPerSec: uint32,
    blockAlign: uint16,
    bitsPerSample: uint16,
    length: uint32,
    data: seq<byte>)

  /** Error kinds; the messages themselves are not modelled. */
  datatype Error =
    | NoRiffHeader                   // the "RIFF" or the "WAVE" tag is missing
    | InvalidFormatTag(tag: uint16)  // neither PCM nor Extensible
    | NotCompatible                  // clips with different sample layouts

  datatype Result<T> = Ok(value: T) | Err(error: Error)

  /** The outcome of an operation that returns only an error (nil on success). */
  datatype Outcome = Pass | Fail(error: Error)

  // ASCII chunk tags, written in their natural order (never byte-swapped)
  const RIFF: seq<byte> := [0x52, 0x49, 0x46, 0x46]                          // "RIFF"
  const WAVE: seq<byte> := [0x57, 0x41, 0x56, 0x45]                          // "WAVE"
  const WAVE_FMT: seq<byte> := [0x57, 0x41, 0x56, 0x45, 0x66, 0x6d, 0x74, 0x20]  // "WAVEfmt "
  const FACT: seq<byte> := [0x66, 0x61, 0x63, 0x74]                          // "fact"
  const DATA: seq<byte> := [0x64, 0x61, 0x74, 0x61]                          // "data"

  /** KSDATAFORMAT_SUBTYPE_PCM, the sub-format GUID of PCM samples inside an
      Extensible `fmt ` chunk, as the 16 bytes the writer emits. */
  const SUBTYPE_PCM: seq<byte> :=
    [0x01, 0x00, 0x00, 0x00, 0x00, 0x00, 0x10, 0x00, 0x80, 0x00, 0x00, 0xaa, 0x00, 0x38, 0x9b, 0x71]

  predicate IsSupportedTag(tag: uint16) {
    tag == WAVE_FORMAT_PCM || tag == WAVE_FORMAT_EXTENSIBLE
  }

  /** Where the payload starts: after the 44-byte PCM header or the 80-byte
      Extensible header (which adds the `fmt ` extension and a `fact` chunk). */
  function PayloadOffset(tag: uint16): (off: nat) {
    if tag == WAVE_FORMAT_PCM then 44 else 80
  }

  // ---------------------------------------------------------------------------
  // Decoding

  /** What a buffer must hold for decoding to succeed, stated on its raw
      bytes: "RIFF" at 0, "WAVE" at 8, and the format tag 0x0001 or 0xFFFE,
      least significant byte first, at 20. */
  predicate Recognised(s: seq<byte>) {
    && |s| >= 22
    && s[..4] == RIFF
    && s[8..12] == WAVE
    && (s[20..22] == [0x01, 0x00] || s[20..22] == [0xFE, 0xFF])
  }

  /** Decodes a buffer. The checks run in order: "RIFF" tag, "WAVE" tag, format
      tag. A buffer too short for a field reads that field as zero, and the
      payload is whatever part of the declared `data` section the buffer holds. */
  function FromBytes(stream: seq<byte>): (r: Result<Clip>)
    ensures r.Ok? <==> Recognised(stream)
    ensures r.Ok? ==> IsSupportedTag(r.value.formatTag)
    ensures r.Ok? ==> |r.value.data| <= r.value.length
  {
    if ReadBytes(stream, 0, 4) != RIFF then
      assert ReadBytes(stream, 0, 4)[0] != RIFF[0] || |stream| >= 4;
      Err(NoRiffHeader)
    else if ReadBytes(stream, 8, 4) != WAVE then
      assert ReadBytes(stream, 8, 4)[0] != WAVE[0] || |stream| >= 12;
      Err(NoRiffHeader)
    else
      var tag := ReadU16(stream, 20);
      if !IsSupportedTag(tag) then
        Err(InvalidFormatTag(tag))
      else
        var length := if tag == WAVE_FORMAT_PCM then ReadU32(stream, 40) else ReadU32(stream, 76);
        Ok(Clip(
          formatTag := tag,
          channels := ReadU16(stream, 22),
          samplesPerSec := ReadU32(stream, 24),
          avgBytesPerSec := ReadU32(stream, 28),
          blockAlign := ReadU16(stream, 32),
          bitsPerSample := ReadU16(stream, 34),
          length := length,
          data := CopySection(stream, PayloadOffset(tag), length)))
  }

  // ---------------------------------------------------------------------------
  // Channel mask

  /** The number of set bits of x: for a channel mask, the number of speaker
      positions it names. */
  function SpeakerCount(x: nat): (n: nat) {
    if x == 0 then 0 else x % 2 + SpeakerCount(x / 2)
  }

  /** The standard speaker layout for a channel count (mono: front centre;
      stereo: front left and right; quad; 5.1; 7.1); counts without a standard
      layout get no mask at all, which is not an error. */
  function ChannelMask(c: uint16): (mask: uint32)
    ensures mask != 0 <==> c in {1, 2, 4, 6, 8}
    ensures mask != 0 ==> SpeakerCount(mask) == c
  {
    if c == 1 then 0x4
    else if c == 2 then 0x3
    else if c == 4 then 0x33
    else if c == 6 then
      assert SpeakerCount(0x7) == 3;
      0x3f
    else if c == 8 then
      assert SpeakerCount(0x18) == 2;
      assert SpeakerCount(0x63) == 4;
      assert SpeakerCount(0x18f) == 6;
      0x63f
    else 0
  }

  // ---------------------------------------------------------------------------
  // Encoding

  /** Bytes [0..36), shared by both layouts: the RIFF preamble and the plain
      `fmt ` fields in struct order. */
  function CommonHeader(w: Clip, riffSize: uint32, fmtSize: uint32): (h: seq<byte>)
    ensures |h| == 36
  {
    RIFF + U32LE(riffSize) + WAVE_FMT + U32LE(fmtSize)
    + U16LE(w.formatTag) + U16LE(w.channels) + U32LE(w.samplesPerSec)
    + U32LE(w.avgBytesPerSec) + U16LE(w.blockAlign) + U16LE(w.bitsPerSample)
  }

  /** Bytes [36..60) of the Extensible layout, the extension of the `fmt `
      chunk: extension size 22, valid bits per sample, channel mask and
      sub-format GUID. */
  function FormatExtension(w: Clip): (e: seq<byte>)
    ensures |e| == 24
  {
    U16LE(22) + U16LE(w.bitsPerSample) + U32LE(ChannelMask(w.channels)) + SUBTYPE_PCM
  }

  /** Bytes [60..72) of the Extensible layout: a `fact` chunk of size 4 holding
      the number of sample frames. */
  function FactChunk(w: Clip): (f: seq<byte>)
    requires w.blockAlign != 0
    ensures |f| == 12
  {
    FACT + U32LE(4) + U32LE(FrameCount(w))
  }

  /** The number of whole sample frames in the payload (unsigned division). */
  function FrameCount(w: Clip): (frames: uint32)
    requires w.blockAlign != 0
  {
    w.length / w.blockAlign
  }

  /** The `data` chunk: tag, declared length, payload verbatim. */
  function DataChunk(w: Clip): (d: seq<byte>)
    ensures |d| == 8 + |w.data|
  {
    DATA + U32LE(w.length) + w.data
  }

  /** Encodes a clip. The RIFF size is the declared length plus the rest of the
      header (36 or 72), wrapping around at 2^32. An Extensible clip must have a
      non-zero block alignment, since its frame count divides by it. */
  function Bytes(w: Clip): (r: Result<seq<byte>>)
    requires w.formatTag == WAVE_FORMAT_EXTENSIBLE ==> w.blockAlign != 0
    ensures r.Ok? <==> IsSupportedTag(w.formatTag)
    ensures r.Err? ==> r.error == InvalidFormatTag(w.formatTag)
    ensures r.Ok? ==> |r.value| == PayloadOffset(w.formatTag) + |w.data|
    ensures r.Ok? ==> r.value[PayloadOffset(w.formatTag)..] == w.data
  {
    if w.formatTag == WAVE_FORMAT_PCM then
      Ok(CommonHeader(w, AddU32(w.length, 36), 16) + DataChunk(w))
    else if w.formatTag == WAVE_FORMAT_EXTENSIBLE then
      Ok(CommonHeader(w, AddU32(w.length, 72), 40) + FormatExtension(w) + FactChunk(w) + DataChunk(w))
    else
      Err(InvalidFormatTag(w.formatTag))
  }

  // ---------------------------------------------------------------------------
  // Appending

  /** Clips can be concatenated when channel count, sample depth and sample rate
      agree; the format tag and the other fields are not compared, so two clips
      are compatible exactly when taking every other field from b turns a
      into b. */
  predicate Compatible(a: Clip, b: Clip): (ok: bool)
    ensures ok <==> a.(formatTag := b.formatTag, avgBytesPerSec := b.avgBytesPerSec,
                       blockAlign := b.blockAlign, length := b.length, data := b.data) == b
  {
    && a.channels == b.channels
    && a.bitsPerSample == b.bitsPerSample
    && a.samplesPerSec == b.samplesPerSec
  }

  /** The clip an append leaves in the receiver `a`, or the error it reports. */
  function Appended(a: Clip, b: Clip): (r: Result<Clip>)
    ensures r.Ok? <==> Compatible(a, b)
    ensures r.Err? ==> r.error == NotCompatible
  {
    if !Compatible(a, b) then Err(NotCompatible)
    else Ok(a.(data := a.data + b.data, length := AddU32(a.length, b.length)))
  }

  /** A `*WAV` receiver: the struct whose `data` and `length` an append updates
      in place. */
  class WavFile {
    var formatTag: uint16
    var channels: uint16
    var samplesPerSec: uint32
    var avgBytesPerSec: uint32
    var blockAlign: uint16
    var bitsPerSample: uint16
    var length: uint32
    var data: seq<byte>

    /** The struct's current value. */
    function Value(): (c: Clip)
      reads this
    {
      Clip(formatTag, channels, samplesPerSec, avgBytesPerSec, blockAlign, bitsPerSample, length, data)
    }

    constructor (w: Clip)
      ensures Value() == w
    {
      formatTag, channels, samplesPerSec, avgBytesPerSec := w.formatTag, w.channels, w.samplesPerSec, w.avgBytesPerSec;
      blockAlign, bitsPerSample, length, data := w.blockAlign, w.bitsPerSample, w.length, w.data;
    }

    /** Appends another clip's payload to this one. On a mismatch it reports
        NotCompatible and changes nothing. The argument is only read, even when
        it is this very clip. */
    method Append(wavFile: WavFile) returns (err: Outcome)
      modifies this
      ensures match Appended(old(Value()), old(wavFile.Value()))
              case Ok(v) => err == Pass && Value() == v
              case Err(e) => err == Fail(e) && Value() == old(Value())
      ensures wavFile != this ==> wavFile.Value() == old(wavFile.Value())
    {
      if channels != wavFile.channels
        || bitsPerSample != wavFile.bitsPerSample
        || samplesPerSec != wavFile.samplesPerSec
      {
        return Fail(NotCompatible);
      }
      data := data + wavFile.data;
      length := AddU32(length, wavFile.length);
      return Pass;
    }

    /** Decodes a buffer and appends the result; a decoding error is reported
        as it is, and leaves this clip unchanged. */
    method AppendBytes(fileBytes: seq<byte>) returns (err: Outcome)
      modifies this
      ensures match FromBytes(fileBytes)
              case Err(e) => err == Fail(e) && Value() == old(Value())
              case Ok(other) =>
                match Appended(old(Value()), other)
                case Ok(v) => err == Pass && Value() == v
                case Err(e) => err == Fail(e) && Value() == old(Value())
    {
      var decoded := FromBytes(fileBytes);
      if decoded.Err? {
        return Fail(decoded.error);
      }
      var wavFile := decoded.value;
      if channels != wavFile.channels
        || bitsPerSample != wavFile.bitsPerSample
        || samplesPerSec != wavFile.samplesPerSec
      {
        return Fail(NotCompatible);
      }
      data := data + wavFile.data;
      length := AddU32(length, wavFile.length);
      return Pass;
    }
  }
}
