/**
 * The customization panel: replacing one setting of the response settings,
 * and the choices its controls offer.
 */
module Customization {
  import opened EgoTypes

  /** One control's new value: the key of the settings it replaces and the value. */
  datatype Setting =
    | ToneSetting(tone: Tone)
    | VerbositySetting(verbosity: int)
    | ThinkingModeSetting(thinkingMode: bool)
    | WebSearchSetting(webSearch: bool)
    | TemperatureSetting(temperature: real)

  /** The settings field `setting` is about holds its value. */
  predicate Holds(settings: CustomizationSettings, setting: Setting) {
    match setting
    case ToneSetting(t) => settings.tone == t
    case VerbositySetting(v) => settings.verbosity == v
    case ThinkingModeSetting(b) => settings.thinkingMode == b
    case WebSearchSetting(b) => settings.webSearch == b
    case TemperatureSetting(t) => settings.temperature == t
  }

  /** Every field other than the one `setting` is about is the same in `a` and `b`. */
  predicate SameElsewhere(a: CustomizationSettings, b: CustomizationSettings, setting: Setting) {
    (!setting.ToneSetting? ==> a.tone == b.tone) &&
    (!setting.VerbositySetting? ==> a.verbosity == b.verbosity) &&
    (!setting.ThinkingModeSetting? ==> a.thinkingMode == b.thinkingMode) &&
    (!setting.WebSearchSetting? ==> a.webSearch == b.webSearch) &&
    (!setting.TemperatureSetting? ==> a.temperature == b.temperature)
  }

  /** `updateSetting(key, value)`: a copy of the settings with that one key replaced. */
  function UpdateSetting(settings: CustomizationSettings, setting: Setting): (updated: CustomizationSettings)
    ensures Holds(updated, setting)
    ensures SameElsewhere(settings, updated, setting)
  {
    match setting
    case ToneSetting(t) => settings.(tone := t)
    case VerbositySetting(v) => settings.(verbosity := v)
    case ThinkingModeSetting(b) => settings.(thinkingMode := b)
    case WebSearchSetting(b) => settings.(webSearch := b)
    case TemperatureSetting(t) => settings.(temperature := t)
  }

  /** The two contract clauses pin the result down: any settings meeting them is the update. */
  lemma UpdateSettingUnique(settings: CustomizationSettings, setting: Setting, other: CustomizationSettings)
    requires Holds(other, setting) && SameElsewhere(settings, other, setting)
    ensures other == UpdateSetting(settings, setting)
  {
  }

  /** Applying the same update twice is applying it once. */
  lemma UpdateSettingIdempotent(settings: CustomizationSettings, setting: Setting)
    ensures UpdateSetting(UpdateSetting(settings, setting), setting) == UpdateSetting(settings, setting)
  {
  }

  /** Setting a field to the value it already holds changes nothing. */
  lemma UpdateSettingNoChange(settings: CustomizationSettings, setting: Setting)
    requires Holds(settings, setting)
    ensures UpdateSetting(settings, setting) == settings
  {
  }

  /** Updates of two different fields can be made in either order. */
  lemma UpdatesCommute(settings: CustomizationSettings, a: Setting, b: Setting)
    requires a.ToneSetting? != b.ToneSetting? || a.VerbositySetting? != b.VerbositySetting? ||
             a.ThinkingModeSetting? != b.ThinkingModeSetting? || a.WebSearchSetting? != b.WebSearchSetting?
    ensures UpdateSetting(UpdateSetting(settings, a), b) == UpdateSetting(UpdateSetting(settings, b), a)
  {
  }

  /** The tone selector's items, in their order. */
  const ToneOptions: seq<Tone> := [Professional, Casual, Creative, Technical, Friendly]

  /** The tone selector offers every tone exactly once. */
  lemma ToneOptionsComplete(t: Tone)
    ensures t in ToneOptions
    ensures |ToneOptions| == 5
    ensures forall i, j :: 0 <= i < j < |ToneOptions| ==> ToneOptions[i] != ToneOptions[j]
  {
  }

  /** The stops of the verbosity slider: 10 to 100 in steps of 10. */
  function VerbosityOptions(): (values: seq<int>)
    ensures |values| == 10
    ensures forall i :: 0 <= i < |values| ==> 10 <= values[i] <= 100
    ensures forall i :: 0 <= i < |values| - 1 ==> values[i + 1] == values[i] + 10
  {
    seq(10, i requires 0 <= i < 10 => 10 + 10 * i)
  }

  /** The verbosity slider offers exactly the multiples of 10 from 10 to 100. */
  lemma VerbosityOptionsExact(v: int)
    ensures v in VerbosityOptions() <==> 10 <= v <= 100 && v % 10 == 0
  {
    var values := VerbosityOptions();
    if 10 <= v <= 100 && v % 10 == 0 {
      var i := (v - 10) / 10;
      assert values[i] == v;
    }
    if v in values {
      var i :| 0 <= i < |values| && values[i] == v;
      assert v == 10 + i * 10;
    }
  }
}
