/** The records the fooof utilities read: the user settings of a fit
    (FOOOFSettings), the names under which those settings are looked up,
    and the results of one model fit (FOOOFResults). */
module FooofData {

  datatype Option<T> = None | Some(value: T)

  /** FOOOFSettings: the user-defined settings of a FOOOF or FOOOFGroup object. */
  datatype Settings = Settings(
    peakWidthLimits: (real, real),
    maxNPeaks: int,
    minPeakHeight: real,
    peakThreshold: real,
    aperiodicMode: string)

  /** The attribute names of the settings, one per field of `Settings`. */
  datatype SettingName = PeakWidthLimits | MaxNPeaks | MinPeakHeight | PeakThreshold | AperiodicMode

  /** The value of one setting attribute, tagged by the kind of value it holds. */
  datatype SettingValue =
    | Limits(lower: real, upper: real)
    | Count(n: int)
    | Number(x: real)
    | Text(s: string)

  /** The setting names of an object description, in the order of FOOOFSettings. */
  const SettingNames: seq<SettingName> :=
    [PeakWidthLimits, MaxNPeaks, MinPeakHeight, PeakThreshold, AperiodicMode]

  /** `getattr(obj, name)` for a setting name. */
  function Attr(s: Settings, name: SettingName): SettingValue
  {
    match name
    case PeakWidthLimits => Limits(s.peakWidthLimits.0, s.peakWidthLimits.1)
    case MaxNPeaks => Count(s.maxNPeaks)
    case MinPeakHeight => Number(s.minPeakHeight)
    case PeakThreshold => Number(s.peakThreshold)
    case AperiodicMode => Text(s.aperiodicMode)
  }

  /** The name list covers every setting attribute, each exactly once. */
  lemma SettingNamesComplete(name: SettingName)
    ensures name in SettingNames
    ensures forall i, j :: 0 <= i < j < |SettingNames| ==> SettingNames[i] != SettingNames[j]
  {
    match name
    case PeakWidthLimits => assert SettingNames[0] == name;
    case MaxNPeaks => assert SettingNames[1] == name;
    case MinPeakHeight => assert SettingNames[2] == name;
    case PeakThreshold => assert SettingNames[3] == name;
    case AperiodicMode => assert SettingNames[4] == name;
  }

  /** Two settings records that agree on every attribute are the same record. */
  lemma SettingsDeterminedByAttrs(a: Settings, b: Settings)
    requires forall name: SettingName :: Attr(a, name) == Attr(b, name)
    ensures a == b
  {
    assert Attr(a, PeakWidthLimits) == Attr(b, PeakWidthLimits);
    assert Attr(a, MaxNPeaks) == Attr(b, MaxNPeaks);
    assert Attr(a, MinPeakHeight) == Attr(b, MinPeakHeight);
    assert Attr(a, PeakThreshold) == Attr(b, PeakThreshold);
    assert Attr(a, AperiodicMode) == Attr(b, AperiodicMode);
  }

  /** FOOOFResults: the results of one model fit. */
  datatype FitResults = FitResults(
    aperiodicParams: seq<real>,
    peakParams: seq<seq<real>>,
    rSquared: real,
    error: real,
    gaussianParams: seq<seq<real>>)
}
