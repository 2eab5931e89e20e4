/** The NSF-HiFiGAN vocoder adapter: the two synthesis calls `spec2wav_torch`
    and `spec2wav`. Each checks the configuration, brings the mel features
    into the (batch, bins, frames) layout and natural-log scale the network
    expects, adds a batch axis to the pitch contour, calls the network with or
    without the pitch, and flattens what it returns. The network is a
    parameter: the adapter only consumes it. */
module NsfHifiGan {
  import opened Wrappers
  import opened Tensors
  import opened MelBaseChoice
  import opened ConfigCheck

  /** The mel argument of `spec2wav_torch`: a framework tensor of shape
      (B, frames, bins), on which `transpose(2, 1)` succeeds, or a plain
      (frames, bins) buffer, on which it fails so the buffer path is taken. */
  datatype MelInput =
    | MelTensor(t: Tensor3, frames: nat, bins: nat)
    | MelBuffer(m: Tensor2, bins: nat)

  /** The mel argument has the shape its variant declares. */
  predicate WellShaped(x: MelInput)
  {
    match x
    case MelTensor(t, frames, bins) => IsCube(t, |t|, frames, bins)
    case MelBuffer(m, bins) => IsMatrix(m, |m|, bins)
  }

  /** The `f0` argument of `spec2wav_torch`: a numpy array of per-frame
      pitch, or anything else (a tensor already batched), passed on as is. */
  datatype PitchArg = PitchArray(f: seq<real>) | PitchTensor(p: Tensor2)

  /** The arguments the network is called with. */
  datatype Invocation = MelOnly(c: Tensor3) | MelAndPitch(c: Tensor3, f0: Tensor2)

  /** The neural network: features (and pitch) in, a rank-3 waveform tensor out. */
  type Vocoder = Invocation -> Tensor3

  /** What one synthesis call does: the mismatch reports it emits, the network
      invocation it makes (none when the `mel_base` assertion fails first), and
      the flat waveform or the assertion failure. */
  datatype Trace = Trace(reports: seq<Report>, invoked: Option<Invocation>, wav: Result<seq<real>, ConfigError>)

  /** `c` holds the (frames, bins) buffer `m` times `k` in (1, bins, frames) layout. */
  predicate BufferLayout(c: Tensor3, m: Tensor2, bins: nat, k: real)
  {
    && IsCube(c, 1, bins, |m|)
    && IsMatrix(m, |m|, bins)
    && forall i, t :: 0 <= i < bins && 0 <= t < |m| ==> c[0][i][t] == k * m[t][i]
  }

  /** `c` holds the (B, frames, bins) tensor `t` times `k` in (B, bins, frames) layout. */
  predicate TensorLayout(c: Tensor3, t: Tensor3, frames: nat, bins: nat, k: real)
  {
    && IsCube(c, |t|, bins, frames)
    && IsCube(t, |t|, frames, bins)
    && forall b, i, j :: 0 <= b < |t| && 0 <= i < bins && 0 <= j < frames ==> c[b][i][j] == k * t[b][j][i]
  }

  /** `torch.FloatTensor(mel).unsqueeze(0).transpose(2, 1)`. */
  function BufferFeatures(m: Tensor2, bins: nat): (c: Tensor3)
    requires IsMatrix(m, |m|, bins)
    ensures BufferLayout(c, m, bins, 1.0)
  {
    var u := Unsqueeze0(m);
    assert IsCube(u, 1, |m|, bins);
    Transpose21(u, |m|, bins)
  }

  /** The features of `spec2wav_torch` before scaling: `mel.transpose(2, 1)`
      for a tensor, the buffer path otherwise. */
  function Features(x: MelInput): (c: Tensor3)
    requires WellShaped(x)
    ensures x.MelTensor? ==> TensorLayout(c, x.t, x.frames, x.bins, 1.0)
    ensures x.MelBuffer? ==> BufferLayout(c, x.m, x.bins, 1.0)
  {
    match x
    case MelTensor(t, frames, bins) => Transpose21(t, frames, bins)
    case MelBuffer(m, bins) => BufferFeatures(m, bins)
  }

  /** The `mel_base` rescaling: every element multiplied by the scaling's
      factor, the shape unchanged. */
  function Rescale(s: Scaling, c: Tensor3): (r: Tensor3)
    ensures forall m, bins, k :: BufferLayout(c, m, bins, k) ==> BufferLayout(r, m, bins, Factor(s) * k)
    ensures forall t, frames, bins, k :: TensorLayout(c, t, frames, bins, k) ==>
      TensorLayout(r, t, frames, bins, Factor(s) * k)
  {
    match s
    case Unscaled => c
    case Log10ToLn => Scale(LnTen, c)
  }

  /** `f0[None, :]`: a per-frame contour of length T becomes a (1, T) tensor. */
  function BatchPitch(f: seq<real>): (p: Tensor2)
    ensures IsMatrix(p, 1, |f|) && p[0] == f
  {
    [f]
  }

  /** The pitch handling of `spec2wav_torch`: numpy arrays get a batch axis,
      anything else is passed on unchanged. */
  function TorchPitch(a: PitchArg): Tensor2
  {
    match a
    case PitchArray(f) => BatchPitch(f)
    case PitchTensor(p) => p
  }

  /** The network call: `model(c, f0)` when a pitch is given, `model(c)` otherwise. */
  function Dispatch(c: Tensor3, f0: Option<Tensor2>): (inv: Invocation)
    ensures inv.c == c
    ensures inv.MelAndPitch? <==> f0.Some?
    ensures inv.MelAndPitch? ==> inv.f0 == f0.value
  {
    match f0
    case Some(p) => MelAndPitch(c, p)
    case None => MelOnly(c)
  }

  /** The part both calls share once the features are laid out: the
      `mel_base` decision, rescaling, the network call and `view(-1)`. */
  function Synthesize(reports: seq<Report>, hp: Hparams, c: Tensor3, f0: Option<Tensor2>, net: Vocoder): Trace
  {
    match ChooseScaling(hp.melBase)
    case Failure(e) => Trace(reports, None, Failure(e))
    case Success(s) =>
      var inv := Dispatch(Rescale(s, c), f0);
      Trace(reports, Some(inv), Success(Flatten3(net(inv))))
  }

  /** `spec2wav`: a (frames, bins) buffer and an optional per-frame pitch. */
  function Spec2Wav(h: VocoderConfig, hp: Hparams, mel: Tensor2, bins: nat,
                    f0: Option<seq<real>>, net: Vocoder): (tr: Trace)
    requires IsMatrix(mel, |mel|, bins)
    ensures tr.reports == Mismatches(h, hp)
    ensures tr.invoked.Some? <==> tr.wav.Success?
    ensures tr.wav.Success? <==> IsNatural(Resolve(hp.melBase)) || IsBaseTen(Resolve(hp.melBase))
    ensures tr.wav.Failure? ==> tr.wav.error == AssertionError(MelBaseMessage)
    ensures tr.invoked.Some? ==>
      var inv := tr.invoked.value;
      && (IsNatural(Resolve(hp.melBase)) ==> BufferLayout(inv.c, mel, bins, 1.0))
      && (IsBaseTen(Resolve(hp.melBase)) ==> BufferLayout(inv.c, mel, bins, LnTen))
      && (inv.MelAndPitch? <==> f0.Some?)
      && (inv.MelAndPitch? ==> IsMatrix(inv.f0, 1, |f0.value|) && inv.f0[0] == f0.value)
      && tr.wav.value == Flatten3(net(inv))
  {
    var c := BufferFeatures(mel, bins);
    var pitch := match f0 case Some(f) => Some(BatchPitch(f)) case None => None;
    Synthesize(Mismatches(h, hp), hp, c, pitch, net)
  }

  /** `spec2wav_torch`: a mel tensor (or buffer) and an optional pitch. */
  function Spec2WavTorch(h: VocoderConfig, hp: Hparams, mel: MelInput,
                         f0: Option<PitchArg>, net: Vocoder): (tr: Trace)
    requires WellShaped(mel)
    ensures tr.reports == Mismatches(h, hp)
    ensures tr.invoked.Some? <==> tr.wav.Success?
    ensures tr.wav.Success? <==> IsNatural(Resolve(hp.melBase)) || IsBaseTen(Resolve(hp.melBase))
    ensures tr.wav.Failure? ==> tr.wav.error == AssertionError(MelBaseMessage)
    ensures tr.invoked.Some? && mel.MelTensor? ==>
      var inv := tr.invoked.value;
      && (IsNatural(Resolve(hp.melBase)) ==> TensorLayout(inv.c, mel.t, mel.frames, mel.bins, 1.0))
      && (IsBaseTen(Resolve(hp.melBase)) ==> TensorLayout(inv.c, mel.t, mel.frames, mel.bins, LnTen))
    ensures tr.invoked.Some? && mel.MelBuffer? ==>
      var inv := tr.invoked.value;
      && (IsNatural(Resolve(hp.melBase)) ==> BufferLayout(inv.c, mel.m, mel.bins, 1.0))
      && (IsBaseTen(Resolve(hp.melBase)) ==> BufferLayout(inv.c, mel.m, mel.bins, LnTen))
    ensures tr.invoked.Some? ==>
      var inv := tr.invoked.value;
      && (inv.MelAndPitch? <==> f0.Some?)
      && (inv.MelAndPitch? && f0.value.PitchArray? ==>
            IsMatrix(inv.f0, 1, |f0.value.f|) && inv.f0[0] == f0.value.f)
      && (inv.MelAndPitch? && f0.value.PitchTensor? ==> inv.f0 == f0.value.p)
      && tr.wav.value == Flatten3(net(inv))
  {
    var c := Features(mel);
    var pitch := match f0 case Some(a) => Some(TorchPitch(a)) case None => None;
    Synthesize(Mismatches(h, hp), hp, c, pitch, net)
  }

  /** The buffer fallback of `spec2wav_torch` is `spec2wav`: given a plain
      (frames, bins) buffer and a numpy pitch (or none), both calls emit the
      same reports, make the same network call and return the same waveform. */
  lemma BufferFallbackIsSpec2Wav(h: VocoderConfig, hp: Hparams, mel: Tensor2, bins: nat,
                                 f0: Option<seq<real>>, net: Vocoder)
    requires IsMatrix(mel, |mel|, bins)
    ensures
      var arg := match f0 case Some(f) => Some(PitchArray(f)) case None => None;
      Spec2WavTorch(h, hp, MelBuffer(mel, bins), arg, net) == Spec2Wav(h, hp, mel, bins, f0, net)
  {
  }

  /** Mismatch reports never abort or alter synthesis: two calls whose
      configurations agree on `mel_base` make the same network call and return
      the same waveform, whatever the seven checked fields hold. */
  lemma MismatchesNeverAbort(h1: VocoderConfig, hp1: Hparams, h2: VocoderConfig, hp2: Hparams,
                             mel: MelInput, f0: Option<PitchArg>, net: Vocoder)
    requires WellShaped(mel)
    requires hp1.melBase == hp2.melBase
    ensures Spec2WavTorch(h1, hp1, mel, f0, net).invoked == Spec2WavTorch(h2, hp2, mel, f0, net).invoked
    ensures Spec2WavTorch(h1, hp1, mel, f0, net).wav == Spec2WavTorch(h2, hp2, mel, f0, net).wav
  {
  }

  /** The waveform is rank one and, whenever the network returns a
      (d0, d1, d2) tensor, has d0 * d1 * d2 samples. */
  lemma WaveformLength(h: VocoderConfig, hp: Hparams, mel: MelInput, f0: Option<PitchArg>,
                       net: Vocoder, d0: nat, d1: nat, d2: nat)
    requires WellShaped(mel)
    ensures
      var tr := Spec2WavTorch(h, hp, mel, f0, net);
      tr.invoked.Some? && IsCube(net(tr.invoked.value), d0, d1, d2) ==>
        |tr.wav.value| == Volume(d0, d1, d2)
  {
    var tr := Spec2WavTorch(h, hp, mel, f0, net);
    if tr.invoked.Some? && IsCube(net(tr.invoked.value), d0, d1, d2) {
      Flatten3Length(net(tr.invoked.value), d0, d1, d2);
    }
  }

  /** The waveform is the network's output read in row-major order: when the
      network returns a (d0, d1, d2) tensor, sample b * (d1 * d2) + i * d2 + j
      is its element (b, i, j). */
  lemma WaveformSample(h: VocoderConfig, hp: Hparams, mel: MelInput, f0: Option<PitchArg>,
                       net: Vocoder, d0: nat, d1: nat, d2: nat, b: nat, i: nat, j: nat)
    requires WellShaped(mel)
    requires b < d0 && i < d1 && j < d2
    ensures
      var tr := Spec2WavTorch(h, hp, mel, f0, net);
      tr.invoked.Some? && IsCube(net(tr.invoked.value), d0, d1, d2) ==>
        && Offset3(b, i, j, d1, d2) < |tr.wav.value|
        && tr.wav.value[Offset3(b, i, j, d1, d2)] == net(tr.invoked.value)[b][i][j]
  {
    var tr := Spec2WavTorch(h, hp, mel, f0, net);
    if tr.invoked.Some? && IsCube(net(tr.invoked.value), d0, d1, d2) {
      Flatten3At(net(tr.invoked.value), d0, d1, d2, b, i, j);
    }
  }

  /** The layout change loses nothing: transposing the features of a mel
      tensor back gives the input tensor. */
  lemma TensorFeaturesRecoverMel(t: Tensor3, frames: nat, bins: nat)
    requires IsCube(t, |t|, frames, bins)
    ensures Transpose21(Features(MelTensor(t, frames, bins)), bins, frames) == t
  {
    TransposeInvolutive(t, frames, bins);
  }
}
