/** The `mel_base` setting: which logarithm base the incoming mel features use,
    and therefore whether they must be rescaled to the natural-log convention
    the vocoder network expects. */
module MelBaseChoice {
  import opened Wrappers

  /** A configured `mel_base` value. Python compares numbers by value, so an
      int and a float holding ten are both `Number(10.0)`; `Other` stands for
      any value that is neither text nor a number (`None`, a list, ...). */
  datatype MelBase = Text(s: string) | Number(x: real) | Other

  /** Whether the features are used as given or multiplied by ln 10. */
  datatype Scaling = Unscaled | Log10ToLn

  /** The `AssertionError` raised for an unrecognised `mel_base`; its text is
      fixed and does not name the offending value. */
  datatype ConfigError = AssertionError(message: string)

  /** The message of the `mel_base` assertion. */
  const MelBaseMessage: string := "mel_base must be 'e', '10' or 10."

  /** The value used when the configuration has no `mel_base` key. */
  const DefaultMelBase: MelBase := Number(10.0)

  /** The factor converting base-10 log magnitudes to natural-log ones. */
  const LnTen: real := 2.30259

  /** `hparams.get('mel_base', 10)`. */
  function Resolve(configured: Option<MelBase>): MelBase
  {
    configured.GetOr(DefaultMelBase)
  }

  /** The natural-log marker `'e'`. */
  predicate IsNatural(v: MelBase)
  {
    v == Text("e")
  }

  /** The two accepted spellings of base ten, `10` and `'10'`. */
  predicate IsBaseTen(v: MelBase)
  {
    v == Number(10.0) || v == Text("10")
  }

  /** The decision the adapter takes on `mel_base`: anything other than `'e'`
      must be one of the base-ten spellings (or the assertion fails), and then
      the features are rescaled. */
  function ChooseScaling(configured: Option<MelBase>): (r: Result<Scaling, ConfigError>)
    ensures r == Success(Unscaled) <==> IsNatural(Resolve(configured))
    ensures r == Success(Log10ToLn) <==> IsBaseTen(Resolve(configured))
    ensures r.Failure? <==> !IsNatural(Resolve(configured)) && !IsBaseTen(Resolve(configured))
    ensures r.Failure? ==> r.error == AssertionError(MelBaseMessage)
  {
    var v := Resolve(configured);
    if v != Text("e") then
      if v in [Number(10.0), Text("10")] then Success(Log10ToLn)
      else Failure(AssertionError(MelBaseMessage))
    else
      Success(Unscaled)
  }

  /** The multiplier a scaling applies to every feature value. */
  function Factor(s: Scaling): real
  {
    match s
    case Unscaled => 1.0
    case Log10ToLn => LnTen
  }

  /** With no `mel_base` configured the features are taken as base-ten and
      rescaled, exactly as if `10` had been configured. */
  lemma AbsentMelBaseMeansTen()
    ensures ChooseScaling(None) == ChooseScaling(Some(Number(10.0))) == Success(Log10ToLn)
    ensures ChooseScaling(None) == ChooseScaling(Some(Text("10")))
  {
  }

  /** The accepted settings are exactly `'e'`, `10` and `'10'`; every other
      value, including other strings, other numbers and non-scalars, fails. */
  lemma AcceptedSettings(v: MelBase)
    ensures ChooseScaling(Some(v)).Success? <==> v in {Text("e"), Number(10.0), Text("10")}
  {
  }
}
