# FOOOF utilities, modelled in Dafny

This project models the utility functions of FOOOF (`fooof/utils.py`), the
toolbox that fits power spectra as an aperiodic component plus peaks:

- `trim_spectrum` restricts a frequency vector, and the matching 1-D
  spectrum or 2-D array of spectra, to a closed frequency range;
- `get_settings` reads the settings of a FOOOF or FOOOFGroup object into a
  dictionary keyed by setting name;
- `compare_settings` decides whether a list of such objects share their
  settings, comparing neighbours setting by setting and stopping at the
  first difference;
- `combine_fooofs` and `combine_fooof_groups` build a new FOOOFGroup with
  the first object's settings and fill its result list, in input order,
  with each model's results or each group's result list.

Files:

- `data.dfy`, module `FooofData`: the records of `fooof/data/data.py` that
  the utilities read (`Settings` for FOOOFSettings, `FitResults` for
  FOOOFResults), the setting names, and `Attr`, which plays `getattr` for a
  setting name.
- `utils.dfy`, module `Utils`: the five utilities.
  - `TrimSpectrum` is a function. Boolean-mask indexing is `Select`, checked
    against `TruePositions`, the ascending list of kept indices.
  - `GetSettings` and `CompareSettings` are methods with the source's loops.
    Each is proved against a specification predicate (`IsSettingsDict`,
    `NeighboursAgree`).
  - A FOOOFGroup is the class `FitGroup`, whose `groupResults` field the
    methods `CombineFits` and `CombineGroups` extend in place.
  - The ValueError and the IndexError of the combining functions are the
    `Failed` outcomes of `CombineResult`.

`FOOOFGroup(**get_settings(obj))` is modelled as `GetSettings` followed by
`SettingsFromKeywords`, the unpacking of the dictionary into keyword
arguments. `KeywordsRoundTrip` shows that this rebuilds exactly the
settings that were read.

The docstring of `trim_spectrum` swaps the descriptions of its two return
values. The model follows the code: the frequencies come first, the power
values second.

## Model

| member | source | states |
|---|---|---|
| `Utils.TruePositions` | fooof/utils.py:37-40 | the indices a boolean mask keeps are in bounds, point at true entries, are strictly ascending, and include every true entry |
| `Utils.Select` | fooof/utils.py:40-43 | boolean-mask indexing returns one element per kept index, the k-th being the input element at the k-th kept index |
| `Utils.TrimSpectrum` | fooof/utils.py:11-45 | the trimmed power array is again indexed by the trimmed frequencies, stays 1-D or 2-D as given, and a 2-D array keeps its number of rows |
| `Utils.TrimmedFreqsInRange` | fooof/utils.py:32-40 | every returned frequency f satisfies f_range[0] <= f <= f_range[1], both bounds inclusive, with no rounding to neighbouring bins |
| `Utils.TrimmedFreqsAreFiltered` | fooof/utils.py:37-40 | the returned frequencies equal the left-to-right filter of the input for in-range values: exactly the in-range frequencies, in their original order |
| `Utils.TrimSelectsByOneMask` | fooof/utils.py:37-43 | one ascending index list, exactly the in-range positions, picks the frequencies, the 1-D power values, and every row of a 2-D array; a 2-D array keeps its row count and each row has one value per returned frequency |
| `Utils.TrimIdempotent` | fooof/utils.py:37-43 | trimming the output again with the same range returns it unchanged |
| `Utils.GetSettings` | fooof/utils.py:62-66 | the dictionary's keys are exactly the setting names, and each maps to that attribute of the object |
| `Utils.KeywordsRoundTrip` | fooof/utils.py:114 | unpacking a settings dictionary as keyword arguments rebuilds the settings it was read from |
| `Utils.CompareSettings` | fooof/utils.py:84-92 | returns True iff, for every setting, every pair of neighbouring objects has equal values; empty and one-element lists give True |
| `Utils.NeighboursAgreeIffAllMatchFirst` | fooof/utils.py:84-92 | neighbours agreeing on every setting is equivalent to every object having the first object's settings |
| `Utils.CombineFits` | fooof/utils.py:109-120 | ValueError exactly when the settings disagree; IndexError for an empty list; otherwise a fresh group with the first model's settings (shared by all inputs), holding one result per model in input order |
| `Utils.CombineGroups` | fooof/utils.py:137-148 | ValueError exactly when the settings disagree; IndexError for an empty list; otherwise a fresh group with the first group's settings, whose results are the inputs' result lists joined in order, as long as their lengths summed; the input groups are unchanged |
| `Utils.FlattenLength` | fooof/utils.py:145-146 | extending with each group's list in turn gives a list as long as the sum of the lists' lengths |
| `Utils.FlattenSlice` | fooof/utils.py:145-146 | each group's list appears unchanged in the joined list, right after the lists of the groups before it |
| `FooofData.SettingNamesComplete` | fooof/data/data.py:8-10 | the setting-name list names every settings field, each exactly once |
| `FooofData.SettingsDeterminedByAttrs` | fooof/data/data.py:8-10 | two settings records equal on every setting attribute are equal |

## Left out

- The demonstration script `motivations/plot_IfYouFilterTheyWillCome.py` is not part of this model. It only calls a signal simulator, a band-pass filter and a plotting library, with a global random seed.
- `fooof/data/data.py` holds only record declarations. `FOOOFMetaData` and `SimParams` are not used by the utilities and are not modelled.
- Frequencies, power values and real-valued settings are modelled as `real`. IEEE floating point, and NaN in particular, is not modelled. With NaN, `>=` and `<=` are false and `!=` is true, so a NaN frequency is always dropped and a NaN setting never compares equal.
- `TrimSpectrum`: numpy picks the 1-D or 2-D case from the array's dimension at run time. Here the two cases are the constructors of `PowerSpectra`, and arrays of three or more dimensions are not modelled.
- `TrimSpectrum`: a power array whose length, or row length, differs from the frequency vector makes numpy raise an IndexError. The model requires the shapes to agree instead (`Aligned`).
- The internals of FOOOF, FOOOFGroup, `get_results()` and `get_obj_desc()` are not part of this model.
  - A FOOOF object is the value `FitModel` (settings and results): the utilities only read it.
  - A FOOOFGroup is `FitGroup`. It has the settings it was built with and a result list that starts empty.
  - `get_obj_desc()['settings']` is the fixed list `SettingNames`, in the field order of FOOOFSettings.
- `FitGroup.settings` is a constant because the utilities never change a group's settings after construction. Reassigning the settings attributes is not modelled.
- The constructor's default values for omitted keyword arguments are not modelled. `SettingsFromKeywords` fails unless every setting is given a value of the right kind.
- The `verbose` flag passed to the new group only affects printing, so it is not modelled.
- `max_n_peaks` is an integer, as FOOOFSettings documents it.
