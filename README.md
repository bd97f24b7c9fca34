# WAV codec — a verified Dafny model

This project models package `wav`, a byte-exact reader and writer for the
canonical RIFF/WAVE layout. It handles two layouts:

- a plain PCM `fmt ` chunk, with the payload at byte 44;
- a WAVEFORMATEXTENSIBLE `fmt ` chunk followed by a `fact` chunk, with the payload at byte 80.

It also models in-place concatenation of compatible clips.

Files:

- `little_endian.dfy` (module `LittleEndian`): the `uint16`/`uint32` types, wrap-around
  addition, little-endian encode/decode and their inverse lemmas. It also holds the
  observable effect of reading a section of an in-memory buffer:
  - a whole-value read of a section the buffer does not fully hold stores nothing, so the field keeps its zero value;
  - a copy of a section stops at the end of the buffer.
- `wav.dfy` (module `Wav`):
  - the `Clip` datatype (the value of the `WAV` struct);
  - `FromBytes` (decoder) and `Bytes` (encoder), as pure functions over byte sequences;
  - `ChannelMask` (`getChannelMask`);
  - `Appended`, the value an append leaves behind;
  - the class `WavFile`, a `*WAV` receiver whose `Append` and `AppendBytes` update `data` and `length` in place.
- `wav_properties.dfy` (module `WavProperties`): decoder rejections, field offsets, payload
  clipping, the encoder's byte layout, the round trip `FromBytes(Bytes(w)) == Ok(w)`, and the
  algebra of appends.

Both the decoder and the encoder read or write every field at a fixed absolute offset.
Neither one looks at the declared chunk sizes.

`wav/wav.go` has no error for a short buffer, and the model follows it: a field the buffer does
not fully hold decodes as zero, and the payload is clipped to the bytes present. So `|data| <= length`
holds, with equality when the buffer holds the whole declared payload.

Decoding is a function, so decoding the same buffer twice gives the same clip by construction.

## Model

| member | source | states |
|---|---|---|
| `LittleEndian.AddU32` | wav/wav.go:29 | uint32 addition: the plain sum below 2^32, the sum minus 2^32 otherwise |
| `LittleEndian.AddU32Associative` | wav/wav.go:29 | wrap-around addition of lengths is associative |
| `LittleEndian.LE16OfU16LE` | wav/wav.go:147-152 | decoding the little-endian bytes of a uint16 gives it back |
| `LittleEndian.U16LEOfLE16` | wav/wav.go:86-90 | encoding a decoded 2-byte field gives back the same bytes |
| `LittleEndian.LE32OfU32LE` | wav/wav.go:147-152 | decoding the little-endian bytes of a uint32 gives it back |
| `LittleEndian.U32LEOfLE32` | wav/wav.go:86-96 | encoding a decoded 4-byte field gives back the same bytes |
| `LittleEndian.ReadBytes` | wav/wav.go:63-73 | a 4-byte tag read yields exactly the section `s[off..off+n]` when the buffer holds it, and n zero bytes otherwise |
| `LittleEndian.ReadU16` | wav/wav.go:79-90 | a uint16 field read is `s[off] + 256*s[off+1]` when the buffer holds both bytes, and 0 otherwise |
| `LittleEndian.ReadU32` | wav/wav.go:86-95 | a uint32 field read is the LE value of `s[off..off+4]` when the buffer holds it, and 0 otherwise |
| `LittleEndian.CopySection` | wav/wav.go:98-104 | the payload copy is at most the requested length; exactly `s[off..off+n]` when the buffer holds it, `s[off..]` when it ends inside, empty when it ends before `off` |
| `Wav.FromBytes` | wav/wav.go:59-107 | succeeds iff the raw bytes hold "RIFF" at 0, "WAVE" at 8 and tag `01 00` or `FE FF` at 20; on success the tag is PCM or Extensible and `|data| <= length` |
| `WavProperties.FromBytesRejects` | wav/wav.go:63-84 | order of the checks: no "RIFF" (including every buffer under 4 bytes) or no "WAVE" gives NoRiffHeader; otherwise an unsupported tag is reported with its LE value, 0 for a buffer under 22 bytes |
| `WavProperties.FromBytesFields` | wav/wav.go:86-96 | on success each field is the LE value at 20, 22, 24, 28, 32, 34, and the length the LE value at 40 (PCM) or 76 (Extensible); each is 0 when the buffer ends inside it |
| `WavProperties.FromBytesPayload` | wav/wav.go:98-104 | on success the payload is `s[44 or 80 ..]` cut to the declared length when the buffer holds it, the rest of the buffer when it does not, empty when the buffer ends before the payload offset |
| `Wav.ChannelMask` | wav/wav.go:109-122 | total; non-zero exactly for 1, 2, 4, 6, 8 channels, and then the mask names exactly as many speaker positions as there are channels |
| `Wav.Bytes` | wav/wav.go:125-174 | fails iff the tag is neither PCM nor Extensible; otherwise the output is 44 (PCM) or 80 (Extensible) bytes plus the payload, which ends the output verbatim |
| `WavProperties.CommonHeaderLayout` | wav/wav.go:127-152 | bytes [0..36): "RIFF", RIFF size, "WAVEfmt ", fmt size, then the six header fields LE in struct order |
| `WavProperties.BytesPcmLayout` | wav/wav.go:128-171 | PCM output: common header with RIFF size `(length+36) mod 2^32` and fmt size 16, then "data", LE length, payload |
| `WavProperties.BytesExtensibleLayout` | wav/wav.go:128-171 | Extensible output: common header with RIFF size `(length+72) mod 2^32` and fmt size 40, fmt extension at [36..60), fact chunk at [60..72), "data" at 72, LE length at 76, payload from 80 |
| `WavProperties.FormatExtensionLayout` | wav/wav.go:155-162 | the fmt extension is cbSize 22, valid bits = bitsPerSample, channel mask, the PCM sub-format GUID |
| `WavProperties.FactChunkLayout` | wav/wav.go:163-165 | the fact chunk is "fact", size 4, frame count `length / blockAlign` |
| `WavProperties.BytesFormatExtension` | wav/wav.go:154-162 | Extensible output bytes [36..60) hold LE 22, LE bitsPerSample, LE `ChannelMask(channels)` and the 16 GUID bytes |
| `WavProperties.BytesChannelMaskExample` | wav/wav.go:109-122 | the channel mask written at [40..44) is `04`, `03`, `33`, `3f`, `3f 06` (LE) for 1, 2, 4, 6, 8 channels and zero for any other count |
| `WavProperties.BytesFactChunk` | wav/wav.go:163-166 | Extensible output bytes [60..72) hold "fact", LE 4 and LE `length / blockAlign` |
| `WavProperties.CommonHeaderReadBack` | wav/wav.go:86-90 | the reader's offsets 20..36 read back exactly the fields the writer put in the common header |
| `WavProperties.DataChunkReadBack` | wav/wav.go:92-104 | the reader reads back the written length and the payload clipped to that length |
| `WavProperties.FromBytesOfBytes` | wav/wav.go:86-104 | for any clip with a supported tag (and non-zero blockAlign if Extensible), decoding its encoding gives the clip back with the payload cut to the declared length |
| `WavProperties.RoundTrip` | wav/wav.go:141-171 | `FromBytes(Bytes(w)) == Ok(w)` whenever the tag is supported, `length == |data|` and an Extensible clip has non-zero blockAlign |
| `WavProperties.BytesInjective` | wav/wav.go:141-171 | two such clips with the same encoding are equal |
| `Wav.Compatible` | wav/wav.go:22-24 | two clips are compatible exactly when they differ at most in format tag, byte rate, block align, length and payload |
| `Wav.Appended` | wav/wav.go:21-31 | an append succeeds iff channels, bitsPerSample and samplesPerSec agree; otherwise the error is NotCompatible |
| `Wav.WavFile.Append` | wav/wav.go:21-31 | on a mismatch: returns NotCompatible and the receiver is unchanged; else receiver becomes `Appended(old receiver, old argument)`; the argument is never changed, and aliasing the receiver is handled |
| `Wav.WavFile.AppendBytes` | wav/wav.go:33-47 | a decode error is returned as it is and leaves the receiver unchanged; otherwise the method behaves as `Append` on the decoded clip |
| `WavProperties.AppendedContents` | wav/wav.go:28-29 | after a successful append the payload is the receiver's followed by the argument's, the length is the sum mod 2^32, and every other field (format tag included) is the receiver's |
| `WavProperties.AppendedConsistent` | wav/wav.go:28-29 | for consistent clips, `length == |data|` survives an append iff the combined payload is under 2^32 bytes |
| `WavProperties.AppendedStaysCompatible` | wav/wav.go:22-24 | after an append the receiver is compatible with exactly the clips it was compatible with before |
| `WavProperties.AppendedAssociative` | wav/wav.go:28-29 | `(a+b)+c == a+(b+c)` for pairwise-compatible clips: payload order and the lengths mod 2^32 agree |
| `WavProperties.AppendBytesOfBytes` | wav/wav.go:33-46 | appending the encoding of a consistent clip is the same as appending that clip |
| `WavProperties.AppendThreeCopies` | wav/wav_test.go:31-45 | a clip appended to itself three times holds four copies of its payload and four times its length, and survives encode then decode, when the total fits in 32 bits |

## Left out

- `formatBytes` (wav/wav.go:54-57) is an unused wrapper and is not modelled.
- The tests in wav/wav_test.go read and write sample files on disk, which the model does not do.
  Their expected length for one sample file (1695744) depends on that file's content.
  `AppendThreeCopies` states the general fact behind the append test.
- Exact error messages are not modelled, only the error kinds. The encoder's error carries the offending tag, although its message does not show it.
- When `FromBytes` fails, it also returns a partly filled struct. Callers ignore that struct, and the model returns only the error.
- Go slice aliasing is not modelled: neither the capacity sharing of `append` nor whether `buf.Bytes()` copies. Payloads are values here.
- Wav.Bytes: an Extensible clip with `BlockAlign == 0` is excluded by a precondition. The source panics there, dividing by zero to compute the frame count.
- Errors from the byte reads and writes are ignored by the source. The model keeps only their effect: a zero field on a short read, and a clipped payload copy.
