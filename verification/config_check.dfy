/** The consistency check between the vocoder checkpoint's audio settings and
    the active pipeline settings. It only reports: nothing is corrected and
    nothing aborts. */
module ConfigCheck {
  import opened Wrappers
  import opened MelBaseChoice

  /** The seven compared settings, in the order the adapter checks them. */
  datatype Field = SamplingRate | NumMels | FftSize | WinSize | HopSize | FMin | FMax

  /** Position of a field in the checking order: sampling rate, mel bins,
      FFT size, window size, hop size, fmin, fmax. */
  function Rank(f: Field): nat
  {
    match f
    case SamplingRate => 0
    case NumMels => 1
    case FftSize => 2
    case WinSize => 3
    case HopSize => 4
    case FMin => 5
    case FMax => 6
  }

  /** The audio settings stored in the vocoder checkpoint (`self.h`). */
  datatype VocoderConfig = VocoderConfig(
    samplingRate: real, numMels: real, nFft: real, winSize: real,
    hopSize: real, fMin: real, fMax: real)
  {
    function Get(f: Field): real
    {
      match f
      case SamplingRate => samplingRate
      case NumMels => numMels
      case FftSize => nFft
      case WinSize => winSize
      case HopSize => hopSize
      case FMin => fMin
      case FMax => fMax
    }
  }

  /** The active pipeline settings the adapter reads (`hparams`). */
  datatype Hparams = Hparams(
    audioSampleRate: real, audioNumMelBins: real, fftSize: real, winSize: real,
    hopSize: real, fMin: real, fMax: real, melBase: Option<MelBase>)
  {
    function Get(f: Field): real
    {
      match f
      case SamplingRate => audioSampleRate
      case NumMels => audioNumMelBins
      case FftSize => fftSize
      case WinSize => winSize
      case HopSize => hopSize
      case FMin => fMin
      case FMax => fMax
    }
  }

  /** One mismatch report: the field, the active value and the vocoder's value. */
  datatype Report = Report(field: Field, active: real, vocoder: real)

  /** The two configurations disagree on `f`. */
  predicate Differs(f: Field, h: VocoderConfig, hp: Hparams)
  {
    h.Get(f) != hp.Get(f)
  }

  /** `r` reports a real disagreement with the values each side holds. */
  predicate Accurate(r: Report, h: VocoderConfig, hp: Hparams)
  {
    r.active == hp.Get(r.field) && r.vocoder == h.Get(r.field) && r.active != r.vocoder
  }

  /** The check of one field: a report when the values differ, none otherwise. */
  function CheckField(f: Field, h: VocoderConfig, hp: Hparams): seq<Report>
  {
    if h.Get(f) != hp.Get(f) then [Report(f, hp.Get(f), h.Get(f))] else []
  }

  /** The seven checks in source order. Every report carries the true values
      of a field the two sides disagree on, and reports come in field order,
      so there is at most one per field. */
  function Mismatches(h: VocoderConfig, hp: Hparams): (rs: seq<Report>)
    ensures forall i :: 0 <= i < |rs| ==> Accurate(rs[i], h, hp)
    ensures forall i, j :: 0 <= i < j < |rs| ==> Rank(rs[i].field) < Rank(rs[j].field)
  {
    CheckField(SamplingRate, h, hp) + CheckField(NumMels, h, hp) + CheckField(FftSize, h, hp)
      + CheckField(WinSize, h, hp) + CheckField(HopSize, h, hp) + CheckField(FMin, h, hp)
      + CheckField(FMax, h, hp)
  }

  /** Some report in `rs` concerns field `f`. */
  predicate Reported(rs: seq<Report>, f: Field)
  {
    exists i :: 0 <= i < |rs| && rs[i].field == f
  }

  /** A field is reported in a concatenation exactly when it is reported in
      one of the parts. */
  lemma ReportedAppend(a: seq<Report>, b: seq<Report>)
    ensures forall f :: Reported(a + b, f) <==> Reported(a, f) || Reported(b, f)
  {
    forall f ensures Reported(a + b, f) <==> Reported(a, f) || Reported(b, f) {
      if Reported(b, f) {
        var i :| 0 <= i < |b| && b[i].field == f;
        assert (a + b)[|a| + i] == b[i];
      }
      if Reported(a, f) {
        var i :| 0 <= i < |a| && a[i].field == f;
        assert (a + b)[i] == a[i];
      }
      if Reported(a + b, f) {
        var i :| 0 <= i < |a + b| && (a + b)[i].field == f;
        if i >= |a| {
          assert b[i - |a|] == (a + b)[i];
        }
      }
    }
  }

  /** The check of one field reports that field, and only when the sides differ. */
  lemma CheckFieldReports(f: Field, h: VocoderConfig, hp: Hparams)
    ensures forall g :: Reported(CheckField(f, h, hp), g) <==> g == f && Differs(f, h, hp)
  {
    if Differs(f, h, hp) {
      assert CheckField(f, h, hp)[0].field == f;
    }
  }

  /** For each of the seven fields a report is produced exactly when the two
      configurations differ on it, and there are no reports at all exactly when
      they agree on every field. */
  lemma ReportedIffDiffers(h: VocoderConfig, hp: Hparams)
    ensures forall f :: Reported(Mismatches(h, hp), f) <==> Differs(f, h, hp)
    ensures |Mismatches(h, hp)| == 0 <==> forall f :: !Differs(f, h, hp)
  {
    var a, b, c, d := CheckField(SamplingRate, h, hp), CheckField(NumMels, h, hp), CheckField(FftSize, h, hp), CheckField(WinSize, h, hp);
    var e, f, g := CheckField(HopSize, h, hp), CheckField(FMin, h, hp), CheckField(FMax, h, hp);
    ReportedAppend(a, b);
    ReportedAppend(a + b, c);
    ReportedAppend(a + b + c, d);
    ReportedAppend(a + b + c + d, e);
    ReportedAppend(a + b + c + d + e, f);
    ReportedAppend(a + b + c + d + e + f, g);
    CheckFieldReports(SamplingRate, h, hp);
    CheckFieldReports(NumMels, h, hp);
    CheckFieldReports(FftSize, h, hp);
    CheckFieldReports(WinSize, h, hp);
    CheckFieldReports(HopSize, h, hp);
    CheckFieldReports(FMin, h, hp);
    CheckFieldReports(FMax, h, hp);
    var rs := Mismatches(h, hp);
    assert rs == a + b + c + d + e + f + g;
    if |rs| > 0 {
      assert Differs(rs[0].field, h, hp);
    } else {
      forall x ensures !Differs(x, h, hp) {
        assert !Reported(rs, x);
      }
    }
  }
}
