/** Utility functions for FOOOF: restricting spectra to a frequency range,
    reading and comparing the settings of fit objects, and combining fits
    into a new group. */
module Utils {
  import opened FooofData

  // ---------------------------------------------------------------------
  // trim_spectrum
  // ---------------------------------------------------------------------

  /** A power array: one spectrum (1-D) or one spectrum per row (2-D). */
  datatype PowerSpectra =
    | Spectrum(power: seq<real>)
    | Spectra(rows: seq<seq<real>>)

  /** The power array is indexed by the frequency vector: one value per
      frequency, on every row in the 2-D case. */
  predicate Aligned(freqs: seq<real>, spectra: PowerSpectra)
  {
    match spectra
    case Spectrum(power) => |power| == |freqs|
    case Spectra(rows) => forall j :: 0 <= j < |rows| ==> |rows[j]| == |freqs|
  }

  /** Membership of the closed range `[fRange.0, fRange.1]`, with no rounding. */
  predicate InRange(f: real, fRange: (real, real))
  {
    fRange.0 <= f && f <= fRange.1
  }

  /** The boolean mask of the requested frequencies. */
  function FreqMask(freqs: seq<real>, fRange: (real, real)): seq<bool>
  {
    seq(|freqs|, i requires 0 <= i < |freqs| => InRange(freqs[i], fRange))
  }

  /** The positions at which a mask is true, in ascending order. */
  function TruePositions(mask: seq<bool>): (pos: seq<nat>)
    ensures forall k :: 0 <= k < |pos| ==> pos[k] < |mask| && mask[pos[k]]
    ensures forall k, l :: 0 <= k < l < |pos| ==> pos[k] < pos[l]
    ensures forall i :: 0 <= i < |mask| && mask[i] ==> i in pos
  {
    if mask == [] then []
    else
      var n := |mask| - 1;
      TruePositions(mask[..n]) + (if mask[n] then [n] else [])
  }

  /** `xs[mask]`: the elements of `xs` where the mask is true. */
  function Select<T>(xs: seq<T>, mask: seq<bool>): (r: seq<T>)
    requires |xs| == |mask|
    ensures |r| == |TruePositions(mask)|
    ensures forall k :: 0 <= k < |r| ==> r[k] == xs[TruePositions(mask)[k]]
  {
    if xs == [] then []
    else
      var n := |xs| - 1;
      Select(xs[..n], mask[..n]) + (if mask[n] then [xs[n]] else [])
  }

  /** trim_spectrum: the frequencies within `fRange` and the power values
      at those frequencies, selected from a 1-D spectrum or from each row
      of a 2-D array. */
  function TrimSpectrum(freqs: seq<real>, spectra: PowerSpectra, fRange: (real, real))
    : (r: (seq<real>, PowerSpectra))
    requires Aligned(freqs, spectra)
    ensures Aligned(r.0, r.1)
    ensures r.1.Spectrum? <==> spectra.Spectrum?
    ensures spectra.Spectra? ==> |r.1.rows| == |spectra.rows|
  {
    var mask := FreqMask(freqs, fRange);
    var powerExt :=
      match spectra
      case Spectrum(power) => Spectrum(Select(power, mask))
      case Spectra(rows) =>
        Spectra(seq(|rows|, j requires 0 <= j < |rows| => Select(rows[j], mask)));
    (Select(freqs, mask), powerExt)
  }

  /** The in-range frequencies of `freqs`, in order: a reference definition
      written as a plain left-to-right filter. */
  function InRangeFreqs(freqs: seq<real>, fRange: (real, real)): seq<real>
  {
    if freqs == [] then []
    else (if InRange(freqs[0], fRange) then [freqs[0]] else []) + InRangeFreqs(freqs[1..], fRange)
  }

  /** `pos` lists, in ascending order, exactly the indices of the in-range frequencies. */
  ghost predicate InRangeIndices(pos: seq<nat>, freqs: seq<real>, fRange: (real, real))
  {
    && (forall k :: 0 <= k < |pos| ==> pos[k] < |freqs|)
    && (forall k, l :: 0 <= k < l < |pos| ==> pos[k] < pos[l])
    && (forall i :: 0 <= i < |freqs| ==> (i in pos <==> InRange(freqs[i], fRange)))
  }

  /** Every returned frequency lies in the closed range. */
  lemma TrimmedFreqsInRange(freqs: seq<real>, spectra: PowerSpectra, fRange: (real, real))
    requires Aligned(freqs, spectra)
    ensures forall f :: f in TrimSpectrum(freqs, spectra, fRange).0 ==> fRange.0 <= f <= fRange.1
  {
    var freqsExt := TrimSpectrum(freqs, spectra, fRange).0;
    var pos := TruePositions(FreqMask(freqs, fRange));
    forall f | f in freqsExt ensures fRange.0 <= f <= fRange.1 {
      var k :| 0 <= k < |freqsExt| && freqsExt[k] == f;
      assert f == freqs[pos[k]];
    }
  }

  lemma {:induction false} InRangeFreqsAppend(a: seq<real>, b: seq<real>, fRange: (real, real))
    ensures InRangeFreqs(a + b, fRange) == InRangeFreqs(a, fRange) + InRangeFreqs(b, fRange)
  {
    if a == [] {
      assert a + b == b;
    } else {
      assert (a + b)[1..] == a[1..] + b;
      InRangeFreqsAppend(a[1..], b, fRange);
    }
  }

  lemma {:induction false} SelectMaskIsFilter(freqs: seq<real>, fRange: (real, real))
    ensures Select(freqs, FreqMask(freqs, fRange)) == InRangeFreqs(freqs, fRange)
  {
    if freqs != [] {
      var n := |freqs| - 1;
      assert FreqMask(freqs, fRange)[..n] == FreqMask(freqs[..n], fRange);
      SelectMaskIsFilter(freqs[..n], fRange);
      assert freqs == freqs[..n] + [freqs[n]];
      InRangeFreqsAppend(freqs[..n], [freqs[n]], fRange);
      assert [freqs[n]][1..] == [];
    }
  }

  /** The returned frequencies are exactly the in-range input frequencies,
      in their original order. */
  lemma TrimmedFreqsAreFiltered(freqs: seq<real>, spectra: PowerSpectra, fRange: (real, real))
    requires Aligned(freqs, spectra)
    ensures TrimSpectrum(freqs, spectra, fRange).0 == InRangeFreqs(freqs, fRange)
  {
    SelectMaskIsFilter(freqs, fRange);
  }

  /** One mask selects both outputs: there is a single ascending list of
      indices, exactly those of the in-range frequencies, that picks the
      returned frequencies from `freqs` and the returned power values from
      the spectrum or from every row. */
  lemma TrimSelectsByOneMask(freqs: seq<real>, spectra: PowerSpectra, fRange: (real, real))
    requires Aligned(freqs, spectra)
    ensures var r := TrimSpectrum(freqs, spectra, fRange);
      exists pos :: InRangeIndices(pos, freqs, fRange)
        && |r.0| == |pos|
        && (forall k :: 0 <= k < |pos| ==> r.0[k] == freqs[pos[k]])
        && (spectra.Spectrum? ==>
              |r.1.power| == |pos| &&
              forall k :: 0 <= k < |pos| ==> r.1.power[k] == spectra.power[pos[k]])
        && (spectra.Spectra? ==>
              |r.1.rows| == |spectra.rows| &&
              forall j, k :: 0 <= j < |spectra.rows| && 0 <= k < |pos| ==>
                |r.1.rows[j]| == |pos| && r.1.rows[j][k] == spectra.rows[j][pos[k]])
  {
    var mask := FreqMask(freqs, fRange);
    var pos := TruePositions(mask);
    assert InRangeIndices(pos, freqs, fRange);
  }

  lemma {:induction false} SelectAllTrue<T>(xs: seq<T>, mask: seq<bool>)
    requires |xs| == |mask|
    requires forall i :: 0 <= i < |mask| ==> mask[i]
    ensures Select(xs, mask) == xs
  {
    if xs != [] {
      var n := |xs| - 1;
      assert xs == xs[..n] + [xs[n]];
      SelectAllTrue(xs[..n], mask[..n]);
    }
  }

  lemma SelectRowsAllTrue(rows: seq<seq<real>>, mask: seq<bool>)
    requires forall j :: 0 <= j < |rows| ==> |rows[j]| == |mask|
    requires forall i :: 0 <= i < |mask| ==> mask[i]
    ensures seq(|rows|, j requires 0 <= j < |rows| => Select(rows[j], mask)) == rows
  {
    forall j | 0 <= j < |rows| ensures Select(rows[j], mask) == rows[j] {
      SelectAllTrue(rows[j], mask);
    }
  }

  /** The mask of the trimmed frequencies keeps all of them. */
  lemma TrimmedMaskAllTrue(freqs: seq<real>, spectra: PowerSpectra, fRange: (real, real))
    requires Aligned(freqs, spectra)
    ensures var mask := FreqMask(TrimSpectrum(freqs, spectra, fRange).0, fRange);
      forall i :: 0 <= i < |mask| ==> mask[i]
  {
    var freqsExt := TrimSpectrum(freqs, spectra, fRange).0;
    TrimmedFreqsInRange(freqs, spectra, fRange);
    forall i | 0 <= i < |freqsExt| ensures InRange(freqsExt[i], fRange) {
      assert freqsExt[i] in freqsExt;
    }
  }

  /** Trimming an already trimmed spectrum to the same range changes nothing. */
  lemma TrimIdempotent(freqs: seq<real>, spectra: PowerSpectra, fRange: (real, real))
    requires Aligned(freqs, spectra)
    ensures var r := TrimSpectrum(freqs, spectra, fRange);
      TrimSpectrum(r.0, r.1, fRange) == r
  {
    var r := TrimSpectrum(freqs, spectra, fRange);
    TrimmedMaskAllTrue(freqs, spectra, fRange);
    var mask := FreqMask(r.0, fRange);
    SelectAllTrue(r.0, mask);
    match r.1
    case Spectrum(power) => SelectAllTrue(power, mask);
    case Spectra(rows) => SelectRowsAllTrue(rows, mask);
  }

  // ---------------------------------------------------------------------
  // get_settings
  // ---------------------------------------------------------------------

  /** `kw` is the settings dictionary of `s`: keyed by exactly the setting
      names, each mapped to that attribute of `s`. */
  ghost predicate IsSettingsDict(kw: map<SettingName, SettingValue>, s: Settings)
  {
    && kw.Keys == set name | name in SettingNames
    && forall name :: name in kw ==> kw[name] == Attr(s, name)
  }

  /** get_settings: a dictionary of the current settings of a fit object. */
  method GetSettings(s: Settings) returns (settings: map<SettingName, SettingValue>)
    ensures IsSettingsDict(settings, s)
  {
    settings := map[];
    var i := 0;
    while i < |SettingNames|
      invariant 0 <= i <= |SettingNames|
      invariant settings.Keys == set name | name in SettingNames[..i]
      invariant forall name :: name in settings ==> settings[name] == Attr(s, name)
    {
      var setting := SettingNames[i];
      settings := settings[setting := Attr(s, setting)];
      assert SettingNames[..i + 1] == SettingNames[..i] + [setting];
      i := i + 1;
    }
    assert SettingNames[..i] == SettingNames;
  }

  /** Unpacking a settings dictionary as keyword arguments, `**settings`:
      each setting parameter takes the value bound to its name, and the
      call fails when a name is unbound or bound to the wrong kind of value. */
  function SettingsFromKeywords(kw: map<SettingName, SettingValue>): Option<Settings>
  {
    if PeakWidthLimits in kw && kw[PeakWidthLimits].Limits?
      && MaxNPeaks in kw && kw[MaxNPeaks].Count?
      && MinPeakHeight in kw && kw[MinPeakHeight].Number?
      && PeakThreshold in kw && kw[PeakThreshold].Number?
      && AperiodicMode in kw && kw[AperiodicMode].Text?
    then
      Some(Settings(
        (kw[PeakWidthLimits].lower, kw[PeakWidthLimits].upper),
        kw[MaxNPeaks].n,
        kw[MinPeakHeight].x,
        kw[PeakThreshold].x,
        kw[AperiodicMode].s))
    else None
  }

  /** A settings dictionary, passed back as keyword arguments, rebuilds the
      settings it was read from. */
  lemma KeywordsRoundTrip(kw: map<SettingName, SettingValue>, s: Settings)
    requires IsSettingsDict(kw, s)
    ensures SettingsFromKeywords(kw) == Some(s)
  {
    SettingNamesComplete(PeakWidthLimits);
    assert forall name :: name in kw by {
      forall name ensures name in kw { SettingNamesComplete(name); }
    }
  }

  // ---------------------------------------------------------------------
  // compare_settings
  // ---------------------------------------------------------------------

  /** Every setting is equal between each pair of neighbouring objects. */
  ghost predicate NeighboursAgree(lst: seq<Settings>)
  {
    forall name, i :: name in SettingNames && 0 <= i < |lst| - 1 ==>
      Attr(lst[i], name) == Attr(lst[i + 1], name)
  }

  /** Every object has the settings of the first. */
  ghost predicate AllMatchFirst(lst: seq<Settings>)
  {
    forall i :: 0 <= i < |lst| ==> lst[i] == lst[0]
  }

  /** compare_settings: whether the settings are consistent across the
      objects, scanning setting by setting and stopping at the first pair
      of neighbours that differ. */
  method CompareSettings(lst: seq<Settings>) returns (consistent: bool)
    ensures consistent <==> NeighboursAgree(lst)
    ensures |lst| <= 1 ==> consistent
  {
    var k := 0;
    while k < |SettingNames|
      invariant 0 <= k <= |SettingNames|
      invariant forall name, i :: name in SettingNames[..k] && 0 <= i < |lst| - 1 ==>
        Attr(lst[i], name) == Attr(lst[i + 1], name)
    {
      var setting := SettingNames[k];
      var ind := 0;
      while ind < |lst| - 1
        invariant 0 <= ind
        invariant |lst| > 0 ==> ind <= |lst| - 1
        invariant forall i :: 0 <= i < ind && i < |lst| - 1 ==>
          Attr(lst[i], setting) == Attr(lst[i + 1], setting)
      {
        if Attr(lst[ind], setting) != Attr(lst[ind + 1], setting) {
          assert setting in SettingNames;
          return false;
        }
        ind := ind + 1;
      }
      assert SettingNames[..k + 1] == SettingNames[..k] + [setting];
      k := k + 1;
    }
    assert SettingNames[..k] == SettingNames;
    return true;
  }

  /** Agreement of neighbours is agreement with the first object: the
      pairwise scan of compare_settings accepts exactly the lists whose
      objects all carry the same settings. */
  lemma NeighboursAgreeIffAllMatchFirst(lst: seq<Settings>)
    ensures NeighboursAgree(lst) <==> AllMatchFirst(lst)
  {
    if NeighboursAgree(lst) {
      forall i | 0 <= i < |lst| ensures lst[i] == lst[0] {
        NeighbourChain(lst, i);
      }
    }
    if AllMatchFirst(lst) {
      forall name, i | name in SettingNames && 0 <= i < |lst| - 1
        ensures Attr(lst[i], name) == Attr(lst[i + 1], name)
      {
        assert lst[i] == lst[0] == lst[i + 1];
      }
    }
  }

  lemma {:induction false} NeighbourChain(lst: seq<Settings>, i: nat)
    requires NeighboursAgree(lst)
    requires i < |lst|
    ensures lst[i] == lst[0]
  {
    if i > 0 {
      NeighbourChain(lst, i - 1);
      forall name: SettingName ensures Attr(lst[i], name) == Attr(lst[i - 1], name) {
        SettingNamesComplete(name);
      }
      SettingsDeterminedByAttrs(lst[i], lst[i - 1]);
    }
  }

  // ---------------------------------------------------------------------
  // combine_fooofs, combine_fooof_groups
  // ---------------------------------------------------------------------

  /** A FOOOF object as the combining functions see it: its settings and
      the results it reports through get_results(). */
  datatype FitModel = FitModel(settings: Settings, results: FitResults)

  /** A FOOOFGroup object: the settings it was built with and the list of
      per-spectrum results, which the combining functions extend in place. */
  class FitGroup {
    const settings: Settings
    var groupResults: seq<FitResults>

    constructor (settings: Settings)
      ensures this.settings == settings && groupResults == []
    {
      this.settings := settings;
      groupResults := [];
    }
  }

  /** Why objects cannot be combined: a ValueError for incompatible
      settings, or an IndexError when there is no first object to take
      the settings from. */
  datatype CombineError = IncompatibleSettings | NoObjects

  datatype CombineResult = Combined(group: FitGroup) | Failed(error: CombineError)

  function ModelSettings(fooofs: seq<FitModel>): seq<Settings>
  {
    seq(|fooofs|, i requires 0 <= i < |fooofs| => fooofs[i].settings)
  }

  function GroupSettings(groups: seq<FitGroup>): seq<Settings>
  {
    seq(|groups|, i requires 0 <= i < |groups| => groups[i].settings)
  }

  /** The result lists of the groups, in order. */
  function ResultLists(groups: seq<FitGroup>): seq<seq<FitResults>>
    reads groups
  {
    seq(|groups|, i reads groups requires 0 <= i < |groups| => groups[i].groupResults)
  }

  /** The lists joined end to end, in order. */
  function Flatten<T>(lists: seq<seq<T>>): seq<T>
  {
    if lists == [] then [] else Flatten(lists[..|lists| - 1]) + lists[|lists| - 1]
  }

  /** The sum of the lengths of the lists. */
  function TotalLength<T>(lists: seq<seq<T>>): nat
  {
    if lists == [] then 0 else TotalLength(lists[..|lists| - 1]) + |lists[|lists| - 1]|
  }

  /** The joined list is as long as all the lists together. */
  lemma {:induction false} FlattenLength<T>(lists: seq<seq<T>>)
    ensures |Flatten(lists)| == TotalLength(lists)
  {
    if lists != [] {
      FlattenLength(lists[..|lists| - 1]);
    }
  }

  /** Each list sits unchanged in the joined list, right after all the
      lists before it. */
  lemma {:induction false} FlattenSlice<T>(lists: seq<seq<T>>, j: nat)
    requires j < |lists|
    ensures TotalLength(lists[..j + 1]) == TotalLength(lists[..j]) + |lists[j]|
    ensures TotalLength(lists[..j + 1]) <= |Flatten(lists)|
    ensures Flatten(lists)[TotalLength(lists[..j]) .. TotalLength(lists[..j + 1])] == lists[j]
  {
    var n := |lists| - 1;
    assert lists[..j + 1][..j] == lists[..j];
    FlattenLength(lists[..j]);
    if j == n {
      assert lists[..j + 1] == lists;
    } else {
      assert lists[..n][..j] == lists[..j] && lists[..n][..j + 1] == lists[..j + 1];
      FlattenSlice(lists[..n], j);
    }
  }

  /** combine_fooofs: a new group holding the results of the models, in
      order, with the settings of the first model; refused when the
      models' settings disagree or there is no model. */
  method CombineFits(fooofs: seq<FitModel>) returns (r: CombineResult)
    ensures !NeighboursAgree(ModelSettings(fooofs)) ==> r == Failed(IncompatibleSettings)
    ensures NeighboursAgree(ModelSettings(fooofs)) && |fooofs| == 0 ==> r == Failed(NoObjects)
    ensures NeighboursAgree(ModelSettings(fooofs)) && |fooofs| > 0 ==> r.Combined?
    ensures r.Combined? ==>
      && fresh(r.group)
      && r.group.settings == fooofs[0].settings
      && (forall i :: 0 <= i < |fooofs| ==> fooofs[i].settings == r.group.settings)
      && |r.group.groupResults| == |fooofs|
      && (forall i :: 0 <= i < |fooofs| ==> r.group.groupResults[i] == fooofs[i].results)
  {
    var consistent := CompareSettings(ModelSettings(fooofs));
    if !consistent {
      return Failed(IncompatibleSettings);
    }
    if |fooofs| == 0 {
      return Failed(NoObjects);
    }
    var kw := GetSettings(fooofs[0].settings);
    KeywordsRoundTrip(kw, fooofs[0].settings);
    var fg := new FitGroup(SettingsFromKeywords(kw).value);

    for i := 0 to |fooofs|
      invariant |fg.groupResults| == i
      invariant forall k :: 0 <= k < i ==> fg.groupResults[k] == fooofs[k].results
    {
      fg.groupResults := fg.groupResults + [fooofs[i].results];
    }

    NeighboursAgreeIffAllMatchFirst(ModelSettings(fooofs));
    assert forall i :: 0 <= i < |fooofs| ==> ModelSettings(fooofs)[i] == fooofs[i].settings;
    return Combined(fg);
  }

  /** combine_fooof_groups: a new group whose results are those of the
      input groups joined in order, with the settings of the first group;
      the input groups are left as they were. */
  method CombineGroups(groups: seq<FitGroup>) returns (r: CombineResult)
    ensures !NeighboursAgree(GroupSettings(groups)) ==> r == Failed(IncompatibleSettings)
    ensures NeighboursAgree(GroupSettings(groups)) && |groups| == 0 ==> r == Failed(NoObjects)
    ensures NeighboursAgree(GroupSettings(groups)) && |groups| > 0 ==> r.Combined?
    ensures r.Combined? ==>
      && fresh(r.group)
      && r.group.settings == groups[0].settings
      && (forall i :: 0 <= i < |groups| ==> groups[i].settings == r.group.settings)
      && r.group.groupResults == Flatten(ResultLists(groups))
      && |r.group.groupResults| == TotalLength(ResultLists(groups))
    ensures forall i :: 0 <= i < |groups| ==> groups[i].groupResults == old(groups[i].groupResults)
  {
    var consistent := CompareSettings(GroupSettings(groups));
    if !consistent {
      return Failed(IncompatibleSettings);
    }
    if |groups| == 0 {
      return Failed(NoObjects);
    }
    var kw := GetSettings(groups[0].settings);
    KeywordsRoundTrip(kw, groups[0].settings);
    var fg := new FitGroup(SettingsFromKeywords(kw).value);

    ghost var lists := ResultLists(groups);
    for i := 0 to |groups|
      invariant fg.groupResults == Flatten(lists[..i])
    {
      assert lists[..i + 1][..i] == lists[..i];
      fg.groupResults := fg.groupResults + groups[i].groupResults;
    }
    assert lists[..|groups|] == lists;
    FlattenLength(lists);

    NeighboursAgreeIffAllMatchFirst(GroupSettings(groups));
    assert forall i :: 0 <= i < |groups| ==> GroupSettings(groups)[i] == groups[i].settings;
    return Combined(fg);
  }
}
