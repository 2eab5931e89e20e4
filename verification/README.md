# NSF-HiFiGAN vocoder adapter — Dafny model

This project models the adapter that lets the singing-synthesis pipeline use a
pretrained NSF-HiFiGAN neural vocoder (`NsfHifiGAN` in
`modules/vocoders/nsf_hifigan.py`). Its two synthesis calls, `spec2wav_torch`
(framework tensors, inside the pipeline) and `spec2wav` (plain arrays), do
the same five things:

1. compare seven audio settings of the vocoder checkpoint (`h`) with the
   active hyper-parameters (`hparams`) and report each mismatch without
   correcting or aborting;
2. bring the mel spectrogram into the (batch, bins, frames) layout;
3. decide from `mel_base` (default `10`) whether the base-10 log features
   are multiplied by 2.30259 to reach the network's natural-log convention,
   failing the assertion for any value other than `'e'`, `10` or `'10'`;
4. give a pitch contour `f0` a batch axis (in `spec2wav` always; in
   `spec2wav_torch` only a numpy `f0`, any other being passed on unchanged)
   and call the network with `(c, f0)` when a pitch is given, `(c)` otherwise;
5. flatten the network's output with `view(-1)`.

Modules, one per concern:

- `Wrappers` (`wrappers.dfy`): `Option` and `Result`.
- `Tensors` (`tensors.dfy`): tensors as nested sequences of reals, with
  `unsqueeze(0)`, `transpose(2, 1)`, element-wise scaling and `view(-1)`,
  and their index laws (transpose is an involution, scaling commutes with
  it, flattening is the row-major layout of length d0·d1·d2).
- `MelBaseChoice` (`mel_base.dfy`): the `mel_base` value
  (`Text | Number | Other`) and the decision `ChooseScaling`.
- `ConfigCheck` (`config_check.dfy`): the two configurations, the seven
  fields and the structured mismatch reports `Report(field, active, vocoder)`.
- `NsfHifiGan` (`nsf_hifigan.dfy`): the two calls, `Spec2WavTorch` and
  `Spec2Wav`, each returning a `Trace`: the reports emitted, the network
  invocation made (none when the assertion fails first) and the waveform or
  the assertion failure.

The vocoder network is a parameter of type `Invocation -> Tensor3`: the
adapter only consumes it, and the model says nothing about what it computes
beyond treating it as a function of its arguments (see "## Left out").
The `try`/`except` around `mel.transpose(2, 1)` is modelled as a two-case
input, `MelTensor` (a (B, frames, bins) tensor, where the transpose succeeds)
or `MelBuffer` (a (frames, bins) array, where it fails and the buffer path is
taken). Dimensions travel with the inputs so that zero frames are still
representable.

In `spec2wav` the input tensor is built (line 96) before the `mel_base`
assertion (lines 98-99). The model cannot observe that order: a failing call makes no network invocation and returns only the
failure, and its reports are still emitted because the seven checks run
first.

## Model

| member | source | states |
|---|---|---|
| ConfigCheck.Mismatches | modules/vocoders/nsf_hifigan.py:39-56 | every report names a field on which the two configurations really differ and carries the active value and the vocoder's value; reports appear in the fixed order sampling rate, mel bins, n_fft, win_size, hop_size, fmin, fmax, hence at most once per field |
| ConfigCheck.ReportedIffDiffers | modules/vocoders/nsf_hifigan.py:77-94 | for each of the seven fields a report is emitted exactly when the vocoder value differs from the active value; there are no reports exactly when all seven agree |
| MelBaseChoice.ChooseScaling | modules/vocoders/nsf_hifigan.py:62-66 | `'e'` selects no rescaling, `10` or `'10'` selects the ln 10 rescaling, and every other value (including an explicit non-scalar) is the assertion failure with the fixed message "mel_base must be 'e', '10' or 10." |
| MelBaseChoice.AbsentMelBaseMeansTen | modules/vocoders/nsf_hifigan.py:97-101 | with no `mel_base` configured the call behaves as with `10` and as with `'10'`: the features are rescaled |
| MelBaseChoice.AcceptedSettings | modules/vocoders/nsf_hifigan.py:98-99 | the settings that pass are exactly `'e'`, `10` and `'10'` |
| Tensors.Transpose21 | modules/vocoders/nsf_hifigan.py:59 | `transpose(2, 1)` turns shape (d0, d1, d2) into (d0, d2, d1) with element (b, i, j) of the result equal to element (b, j, i) of the input |
| Tensors.TransposeInvolutive | modules/vocoders/nsf_hifigan.py:61 | swapping the last two axes twice restores the tensor, so the layout change is lossless |
| Tensors.Scale | modules/vocoders/nsf_hifigan.py:101 | `2.30259 * c` keeps the shape and multiplies every element |
| Tensors.ScaleCommutesWithTranspose | modules/vocoders/nsf_hifigan.py:66 | rescaling after the layout change (as the code does) equals rescaling before it |
| Tensors.UnitScaleIsIdentity | modules/vocoders/nsf_hifigan.py:63 | leaving the features unscaled for `'e'` is the same as scaling by one |
| Tensors.Flatten3Layout | modules/vocoders/nsf_hifigan.py:73 | `view(-1)` of a (d0, d1, d2) tensor has d0·d1·d2 elements and holds element (b, i, j) at row-major position b·d1·d2 + i·d2 + j |
| NsfHifiGan.BufferFeatures | modules/vocoders/nsf_hifigan.py:96 | a (T, bins) buffer becomes a (1, bins, T) tensor with `c[0][b][t] == mel[t][b]` |
| NsfHifiGan.Features | modules/vocoders/nsf_hifigan.py:58-61 | a (B, T, bins) tensor becomes (B, bins, T) with `c[b][i][t] == mel[b][t][i]`; a raw buffer takes the buffer path of `spec2wav` |
| NsfHifiGan.Rescale | modules/vocoders/nsf_hifigan.py:62-66 | the chosen scaling multiplies every element by its factor (1 or 2.30259) and keeps either layout |
| NsfHifiGan.BatchPitch | modules/vocoders/nsf_hifigan.py:104 | `f0[None, :]` turns a contour of length T into a (1, T) tensor holding the same values |
| NsfHifiGan.Dispatch | modules/vocoders/nsf_hifigan.py:102-107 | the network receives `(c, f0)` exactly when a pitch is present and `(c)` alone otherwise, with the features unchanged |
| NsfHifiGan.Spec2Wav | modules/vocoders/nsf_hifigan.py:76-109 | reports are the seven-field check; the call succeeds exactly for an accepted `mel_base`, otherwise fails with the `mel_base` assertion error and never calls the network; on success the network gets (1, bins, T) features equal to mel transposed, times 2.30259 unless `'e'`, a (1, T) pitch exactly when one is given, and the waveform is the flattened output |
| NsfHifiGan.Spec2WavTorch | modules/vocoders/nsf_hifigan.py:38-74 | as `Spec2Wav`, with (B, bins, T) features for a (B, T, bins) tensor, the buffer layout for a raw buffer, a numpy pitch given a batch axis and any other pitch passed on unchanged |
| NsfHifiGan.BufferFallbackIsSpec2Wav | modules/vocoders/nsf_hifigan.py:60-61 | when the transpose is not applicable, `spec2wav_torch` behaves exactly as `spec2wav` on the same buffer and pitch |
| NsfHifiGan.MismatchesNeverAbort | modules/vocoders/nsf_hifigan.py:39-57 | the seven checked fields never influence synthesis: calls that agree on `mel_base` make the same network call and return the same waveform |
| NsfHifiGan.WaveformLength | modules/vocoders/nsf_hifigan.py:71-73 | the returned waveform is rank one and its length is the product of the network output's dimensions |
| NsfHifiGan.WaveformSample | modules/vocoders/nsf_hifigan.py:71-73 | the waveform lists the network output's elements in row-major order: sample b·d1·d2 + i·d2 + j is output element (b, i, j) |
| NsfHifiGan.TensorFeaturesRecoverMel | modules/vocoders/nsf_hifigan.py:59 | transposing the network features back yields the caller's mel tensor |

## Left out

- The constructor (lines 19-26): the checkpoint existence check, its error message and `load_model` are file-system I/O and checkpoint loading; the model starts from an already loaded configuration and network.
- Device handling (`device`, `to_device`, `get_device`, `.to(self.device)`, `.cpu().numpy()`): placement on an accelerator does not change values, so tensors are plain values and `spec2wav`'s numpy conversion is the identity.
- `torch.no_grad()` and graph attachment of the result: autograd state has no counterpart in the model.
- Floating point: features, pitch and configuration values are Dafny `real`; `2.30259 * c` is exact and float32 rounding is not modelled.
- The text of the mismatch messages: a report is the structured triple (field, active value, vocoder value).
- A missing configuration key for the seven fields raises `KeyError` in the source; the model takes the seven values as always present.
- The network itself: it is a function parameter, its errors (shape, dtype, a pitch whose length differs from the frame count) are not modelled, and its output is taken to be rank 3, the rank NSF-HiFiGAN returns; `view(-1)` on other ranks is not modelled.
- A 3-D numpy array given to `spec2wav_torch` fails the transpose and would reach the buffer path as a rank-4 tensor; only 2-D buffers are modelled on that path, and only 1-D pitch arrays in `spec2wav`.
- NsfHifiGan.Spec2WavTorch: a numpy `f0` is modelled as 1-D only and any other `f0` as rank 2 only. Lines 69-70 apply `f0[None, :]` to a numpy array of any rank, so a 2-D (B, T) array reaches the network as (1, B, T), and they pass a non-numpy `f0` of any rank (a 1-D tensor, say) on unchanged. Neither case can be written here, because pitch tensors are fixed at rank 2, like the features at rank 3.
- MelBaseChoice.ChooseScaling: assumes assertions are enabled. Under `python -O` the asserts at lines 64 and 99 are removed, and every value other than `'e'` is then rescaled without complaint. The failure is the `AssertionError` with its fixed message, which does not name the offending value.
- Randomness inside the network: an NSF generator may draw random phase and noise, so two identical calls need not return the same samples. The model treats the network as a deterministic function of its arguments, so equal invocations give equal waveforms. The waveform equalities stated by `NsfHifiGan.MismatchesNeverAbort` and `NsfHifiGan.BufferFallbackIsSpec2Wav` rest on that assumption. Their invocation equalities do not.
- Ragged (non-rectangular) arrays, which `torch.FloatTensor` rejects: every input carries its shape as a precondition.
