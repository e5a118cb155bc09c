# Crunker buffer arithmetic, WAVE export and the registration wizard, in Dafny

This project models two parts of the Traxometro repository.

**The Crunker audio library** (`functions/dist/extras/crunker/crunker.js`). It works on decoded audio buffers, which the model assumes are all at the library's rate of 48000 Hz.
- `mergeAudio` mixes buffers by adding them into a zeroed single-channel buffer. That buffer's length is sampleRate × the longest duration, computed in doubles and truncated. This is the longest input's length, or one less when the product rounds just below it. In the second case the longest input's last sample is dropped (`AudioBuffers.ShortOutputDropsSamples`, `AudioBuffers.MixedSingle`).
- `concatAudio` copies the buffers one after another, using a running offset.
- `export` turns a buffer into a WAVE file. `_interleave` doubles each mono sample into a left/right pair. `_writeHeaders` and `_writeString` write a 44-byte RIFF/WAVE header into a `DataView`. `_floatTo16BitPCM` then writes every sample, clamped to [-1, 1] and scaled, as a signed 16-bit little-endian integer.

Module `AudioBuffers` (`audio_buffers.dfy`) holds the buffer operations. A buffer is the samples of its first channel, as `real`s. The operations are methods over `array<real>` that run the source's loops. Each is proved against a specification function (`Mixed`, `Concatenated`, `Interleaved`), and the lemmas beside each function state what the source promises.

Module `WaveExport` (`wave_export.dfy`) holds the serialiser. The `ArrayBuffer` is an `array<Byte>`, and the `DataView` setters are methods on it. The writers are proved to produce `WaveBytes(samples)`, the header followed by the PCM data. A reader, `ParseHeader`, recovers every header field.

Module `Wrappers` (`wrappers.dfy`) holds the `Option` type that the other modules share.

**The registration wizard** (`src/cenas/Login/componentes/Cadastro/Cadastro.js`). It has two scenes, "detalhes" and "vincular". Module `CadastroWizard` (`cadastro.dfy`) models the component as the class `Cadastro`:
- its fields are the fields of `this.state`, and `setState` is plain assignment;
- `voltar` returns the scene it asks the parent for, instead of calling the parent;
- the imported `validateEmail` is passed in as a function parameter, because its definition is not part of this model.

Two properties of the source as written are stated as lemmas:
- The RIFF size field holds 32 + data bytes. The RIFF convention is file length minus 8, which is 36 + data bytes. So the field is 4 short (`WaveExport.RiffSizeFourShort`).
- The linking scene's guard `hotel !== null || hotel !== "🇩🇫"` holds for every value of `hotel` (`CadastroWizard.HotelNaoSelecionado`). So in that scene "next" always takes its first branch, and the verification test and the sign-in branch after it are never reached (`CadastroWizard.SignInUnreachable`). All three branches are empty in the source, so "next" changes nothing in that scene whatever the guard says (`CadastroWizard.Cadastro.Proximo`, `CadastroWizard.VincularNeverAdvances`).

Merging or concatenating an empty list, or only empty buffers, is an error in the model:
- for merge, `Math.max()` of nothing is -Infinity, which WebIDL's `unsigned long` conversion turns into 0;
- for concat, `_totalLength` is 0;
- `createBuffer` refuses length 0 with a `NotSupportedError`.

So both operations return `Err(NotSupportedError)` there. This follows the code, where a looser description would call the result undefined.

## Model

| member | source | states |
|---|---|---|
| `AudioBuffers.MaxDuration` | functions/dist/extras/crunker/crunker.js:113-115 | no value exactly when there are no inputs; otherwise a duration no input exceeds and some input attains |
| `AudioBuffers.MergeLength` | functions/dist/extras/crunker/crunker.js:44 | sampleRate × maximum duration is 0 for no inputs, and otherwise is the length of the longest input: no input is longer and one is exactly that long |
| `AudioBuffers.TotalLength` | functions/dist/extras/crunker/crunker.js:117-119 | the sum of the lengths is 0 for no inputs and is at least every input's length |
| `AudioBuffers.MixedInto` | functions/dist/extras/crunker/crunker.js:44-51 | an output of n samples holds, at each position i < n, the sum of `buffer[i]` over the inputs longer than i; additions at n or beyond are dropped |
| `AudioBuffers.Mixed` | functions/dist/extras/crunker/crunker.js:44-51 | with an output of exactly MergeLength samples, the mixed channel has MergeLength samples |
| `AudioBuffers.ShortOutputDropsSamples` | functions/dist/extras/crunker/crunker.js:44-51 | when the output is shorter than MergeLength, it is the exact mix cut short, and some input has a sample past the output's end |
| `AudioBuffers.MergeAudio` | functions/dist/extras/crunker/crunker.js:43-53 | given createBuffer's length (MergeLength or one less), fails exactly when it is 0; otherwise returns a new buffer whose samples are `MixedInto(buffers, length)`, which is `Mixed(buffers)` when no rounding happened |
| `AudioBuffers.SumAtSplit` | functions/dist/extras/crunker/crunker.js:47-51 | mixing a list of inputs followed by another list gives the sum of the two mixes |
| `AudioBuffers.MixedSwap` | functions/dist/extras/crunker/crunker.js:47-51 | the mix does not depend on which of two groups of inputs comes first |
| `AudioBuffers.MixedSingle` | functions/dist/extras/crunker/crunker.js:43-53 | merging one buffer gives back its samples; into an output of n samples, its first n, so an output one short loses its last sample |
| `AudioBuffers.MixedAddsNotAverages` | functions/dist/extras/crunker/crunker.js:47-51 | two equal-length inputs of constant 0.5 mix to 1.0 everywhere: samples add, they are not averaged |
| `AudioBuffers.Concatenated` | functions/dist/extras/crunker/crunker.js:56 | the concatenated channel is exactly TotalLength samples long |
| `AudioBuffers.ConcatAudio` | functions/dist/extras/crunker/crunker.js:55-65 | fails exactly when the total length is 0; otherwise returns a new buffer whose samples are `Concatenated(buffers)` |
| `AudioBuffers.OffsetStep` | functions/dist/extras/crunker/crunker.js:62 | the offset of input k+1 is the offset of input k plus its length |
| `AudioBuffers.OffsetMonotone` | functions/dist/extras/crunker/crunker.js:60-63 | input k's region ends at or before the offset of every later input |
| `AudioBuffers.ConcatenatedPlacement` | functions/dist/extras/crunker/crunker.js:60-63 | input k's samples appear unchanged at [offset_k, offset_k + len_k), which lies inside the output |
| `AudioBuffers.Locate` | functions/dist/extras/crunker/crunker.js:60-63 | every output position lies in some input's region: the regions cover the output |
| `AudioBuffers.RegionsDisjoint` | functions/dist/extras/crunker/crunker.js:60-63 | no output position lies in two inputs' regions |
| `AudioBuffers.ConcatenatedTenTwenty` | functions/dist/extras/crunker/crunker.js:55-65 | a 10-sample and a 20-sample input give 30 samples: the first 10 are the first input, the rest the second |
| `AudioBuffers.Interleave` | functions/dist/extras/crunker/crunker.js:166-180 | returns 2n samples with `result[2j] == result[2j+1] == input[j]` for every j < n |
| `AudioBuffers.InterleavedAt` | functions/dist/extras/crunker/crunker.js:173-177 | frame j of the interleaved stream holds sample j on both sides |
| `AudioBuffers.DeinterleaveRoundTrip` | functions/dist/extras/crunker/crunker.js:166-180 | taking either the left or the right side of the interleaved stream gives back the input |
| `WaveExport.Uint32RoundTrip` | functions/dist/extras/crunker/crunker.js:131 | a value written little-endian as 32 bits reads back as itself modulo 2^32 |
| `WaveExport.Int16RoundTrip` | functions/dist/extras/crunker/crunker.js:154 | a signed 16-bit value written little-endian reads back unchanged |
| `WaveExport.ToInt16` | functions/dist/extras/crunker/crunker.js:154 | the value setInt16 stores is in [-32768, 32767] and agrees with the truncated input modulo 2^16 |
| `WaveExport.Scale` | functions/dist/extras/crunker/crunker.js:153-154 | the clamped and scaled sample lies in [-32768, 32767] and is negative exactly when the sample is |
| `WaveExport.QuantizeNoWrap` | functions/dist/extras/crunker/crunker.js:153-154 | after clamping nothing wraps: the stored value is the scaled sample truncated toward zero |
| `WaveExport.QuantizeBoundaries` | functions/dist/extras/crunker/crunker.js:153-154 | 1.0 stores 32767 (bytes FF 7F), -1.0 stores -32768 (bytes 00 80), 0 stores 0, and samples beyond ±1 store the same as ±1 |
| `WaveExport.QuantizeMonotone` | functions/dist/extras/crunker/crunker.js:153-154 | a larger sample never stores a smaller value |
| `WaveExport.PcmDataAt` | functions/dist/extras/crunker/crunker.js:152-155 | sample i is at data bytes 2i and 2i+1 and reads back as its quantised value |
| `WaveExport.Header` | functions/dist/extras/crunker/crunker.js:125-147 | the header is exactly 44 bytes |
| `WaveExport.WaveBytes` | functions/dist/extras/crunker/crunker.js:126 | a file of m interleaved samples is exactly 44 + 2m bytes |
| `WaveExport.HeaderFields` | functions/dist/extras/crunker/crunker.js:129-147 | "RIFF" at 0-3, 32 + 2m at 4-7, "WAVE" at 8-11, "fmt " at 12-15, then 16, PCM 1, 2 channels, 48000, 192000, 4, 16, "data" at 36-39 and 2m at 40-43 |
| `WaveExport.ParseHeaderPrefix` | functions/dist/extras/crunker/crunker.js:129-147 | any bytes that start with the written header parse back to those fields |
| `WaveExport.ParseWrittenHeader` | functions/dist/extras/crunker/crunker.js:125-149 | the written file parses to that header; byte rate = sample rate × block align and block align = channels × bytes per sample |
| `WaveExport.RiffSizeFourShort` | functions/dist/extras/crunker/crunker.js:131 | the RIFF size field equals file length − 12, four less than the RIFF convention of file length − 8 |
| `WaveExport.WaveSampleAt` | functions/dist/extras/crunker/crunker.js:148-158 | interleaved sample i reads back, quantised, as the signed 16-bit value at byte 44 + 2i |
| `WaveExport.SilenceIsZeroBytes` | functions/dist/extras/crunker/crunker.js:151-158 | all-zero samples give a data chunk of zero bytes |
| `WaveExport.WriteString` | functions/dist/extras/crunker/crunker.js:160-164 | sets bytes offset .. offset+len−1 to the character codes and leaves every other byte unchanged |
| `WaveExport.FloatTo16BitPCM` | functions/dist/extras/crunker/crunker.js:151-158 | writes sample i only at bytes offset+2i and offset+2i+1, so bytes before the offset, the header included, are unchanged; returns the same view |
| `WaveExport.WriteRiffDescriptor` | functions/dist/extras/crunker/crunker.js:129-133 | bytes 0-11 become the RIFF descriptor, nothing else changes |
| `WaveExport.WriteFmtChunk` | functions/dist/extras/crunker/crunker.js:135-143 | bytes 12-35 become the fmt chunk, nothing else changes |
| `WaveExport.WriteDataChunkHeader` | functions/dist/extras/crunker/crunker.js:145-147 | bytes 36-43 become "data" and the data size, nothing else changes |
| `WaveExport.WriteHeaders` | functions/dist/extras/crunker/crunker.js:125-149 | returns a new byte buffer equal to `WaveBytes(samples)`: header, then the PCM data |
| `WaveExport.Export` | functions/dist/extras/crunker/crunker.js:76-82 | the exported bytes are `WaveBytes` of the interleaved first channel |
| `WaveExport.ExportLayout` | functions/dist/extras/crunker/crunker.js:76-82 | n input samples give 44 + 4n bytes, declare 4n data bytes, and store sample j as both values of frame j |
| `CadastroWizard.InClass` | src/cenas/Login/componentes/Cadastro/Cadastro.js:47 | a character matches a class exactly when it lies in one of its ranges |
| `CadastroWizard.AllInClass` | src/cenas/Login/componentes/Cadastro/Cadastro.js:47 | a string matches `[class]*` exactly when every character is in the class |
| `CadastroWizard.NomeValidoIff` | src/cenas/Login/componentes/Cadastro/Cadastro.js:47 | a user name passes iff it has 2 to 64 characters, each an ASCII letter, a digit, '-', '.' or '_' |
| `CadastroWizard.HotelNaoSelecionado` | src/cenas/Login/componentes/Cadastro/Cadastro.js:65 | the "hotel not selected" test as written is true for every value of `hotel` |
| `CadastroWizard.SignInUnreachable` | src/cenas/Login/componentes/Cadastro/Cadastro.js:64-71 | in "vincular", next always takes the "hotel not selected" branch; the "not verified" and sign-in branches are never taken |
| `CadastroWizard.Cadastro.constructor` | src/cenas/Login/componentes/Cadastro/Cadastro.js:11-27 | starts in "detalhes" with empty name, e-mail and passwords, terms unticked, no hotel, unverified |
| `CadastroWizard.Cadastro.MudarCena` | src/cenas/Login/componentes/Cadastro/Cadastro.js:29-33 | changes only the scene |
| `CadastroWizard.Cadastro.Voltar` | src/cenas/Login/componentes/Cadastro/Cadastro.js:35-41 | in "detalhes" asks the parent for "entrar" and changes nothing; in "vincular" goes back to "detalhes"; keeps the scene one of the two |
| `CadastroWizard.Cadastro.Proximo` | src/cenas/Login/componentes/Cadastro/Cadastro.js:43-73 | in "detalhes" moves to "vincular" iff every check passes, else changes nothing; in "vincular" never changes anything; keeps the scene one of the two |
| `CadastroWizard.Cadastro.HandleInputNome` | src/cenas/Login/componentes/Cadastro/Cadastro.js:92 | changes only the user name |
| `CadastroWizard.Cadastro.HandleInputEmail` | src/cenas/Login/componentes/Cadastro/Cadastro.js:93 | changes only the e-mail |
| `CadastroWizard.Cadastro.HandleInputSenha` | src/cenas/Login/componentes/Cadastro/Cadastro.js:94 | changes only the password |
| `CadastroWizard.Cadastro.HandleInputReSenha` | src/cenas/Login/componentes/Cadastro/Cadastro.js:95 | changes only the repeated password |
| `CadastroWizard.Cadastro.HandleInputTermos` | src/cenas/Login/componentes/Cadastro/Cadastro.js:96 | changes only the terms checkbox |
| `CadastroWizard.Cadastro.HandleSelectHotel` | src/cenas/Login/componentes/Cadastro/Cadastro.js:97 | changes only the hotel |
| `CadastroWizard.VincularNeverAdvances` | src/cenas/Login/componentes/Cadastro/Cadastro.js:64-72 | in "vincular", choosing any hotel and then pressing next leaves every field except the hotel as it was |

## Left out

- `fetchAudio` (crunker.js:23-41) is left out. It does a network fetch, calls the browser's `decodeAudioData` and joins the results with `Promise.all`, which is I/O and concurrency.
- `play`, `_createContext`, `close`, `notSupported` and `_isSupported` are left out. They only touch the browser's `AudioContext` and `window`.
- `export` is modelled without its `Blob`, object URL and `<audio>` element. `_renderAudioElement`, `_renderURL` and `download` are left out, because they are DOM calls. The MIME label is metadata that is never checked against the bytes.
- Samples are exact reals, not Float32 numbers. Rounding of the sums in merge, NaN and negative zero are not modelled.
- Only the first channel of a buffer is modelled. Every modelled operation reads only `getChannelData(0)`.
- A Web Audio buffer's `length` is its channel arrays' length. So the model has one length per buffer, and a buffer whose `length` differs from its data cannot be built. For the same reason the `set` in concat can never overrun.
- `AudioBuffers.MergeLength`, `AudioBuffers.Mixed`, `AudioBuffers.MergeAudio`, `AudioBuffers.MixedSingle`: MergeLength is the exact length of the longest input. The source computes sampleRate × (length / sampleRate) in doubles and truncates it. For some lengths (27, 49, 54, 61, …) that gives one less, and the longest input's last sample is then dropped. `MergeAudio` takes the truncated length as a parameter, and `MixedInto`, `ShortOutputDropsSamples` and `MixedSingle` state what that shorter output holds. Which lengths round down is not modelled, because the model has no doubles.
- Every input buffer is assumed to be at 48000 Hz. In the source, `duration` divides by the buffer's own rate, which is the rate of the browser's `AudioContext`. If that rate is not 48000 Hz, the merged length differs from the longest input's length.
- `AudioBuffers.MergeLength` and `AudioBuffers.TotalLength`: lengths are unbounded. WebIDL's `unsigned long` conversion wraps at 2^32, and that wrap is not modelled, because no browser allocates a buffer that large.
- The `DataView` setters require the offset to be in range, where the browser would throw a `RangeError`. Every call in the serialiser is in range.
- `_writeString` stores `charCodeAt` modulo 256. A Dafny `char` is a Unicode scalar value, not a UTF-16 code unit. The two agree on the ASCII tags the serialiser writes.
- `render`, `verificarMissao` (timer-driven image swaps), `submitPrevent`, the `verificando` element and the CSS and image imports are left out. They are UI only.
- `validateEmail` is a parameter of `Proximo`, because its definition is not part of this model.
- React may batch `setState`. The model applies each update at once.
- The user-name pattern counts Dafny characters, and JavaScript counts UTF-16 code units. Only ASCII characters can match, and for ASCII the two counts agree.
