/** The Sensory Shield settings store of the Android app: seven settings held
    in memory and mirrored into a key/value preference store, three named
    presets that overwrite the four numeric parameters, and custom updates
    that clamp each value into its range. */
module SensoryShield {
  import opened Wrappers

  const PRESET_TRANSIT := "transit"
  const PRESET_SHOPPING := "shopping"
  const PRESET_OFFICE := "office"
  const PRESET_CUSTOM := "custom"

  const DEFAULT_HIGH_FREQ_DAMPING: real := 0.3
  const DEFAULT_MID_FREQ_BOOST: real := 1.2
  const DEFAULT_LOW_FREQ_DAMPING: real := 0.7
  const DEFAULT_VOICE_AMPLIFICATION: real := 1.0

  /** The preference keys. */
  const KEY_ENABLED := "enabled"
  const KEY_PRESET := "preset"
  const KEY_HIGH := "high_freq_damping"
  const KEY_MID := "mid_freq_boost"
  const KEY_LOW := "low_freq_damping"
  const KEY_VOICE := "voice_amplification"
  const KEY_PRESERVE := "preserve_emergency"

  /** A stored preference value: the three types the store is used with. */
  datatype Pref = BoolPref(b: bool) | FloatPref(x: real) | StringPref(s: string)

  type Store = map<string, Pref>

  /** A snapshot of the seven settings. */
  datatype Settings = Settings(
    enabled: bool, preset: string,
    high: real, mid: real, low: real, voice: real,
    preserveEmergency: bool)

  /** The four numeric parameters in (high, mid, low, voice) order. */
  datatype Tuning = Tuning(high: real, mid: real, low: real, voice: real)

  /** `getBoolean(key, default)`. */
  function GetBoolean(store: Store, key: string, default: bool): (b: bool)
    ensures key in store && store[key].BoolPref? ==> b == store[key].b
    ensures key !in store ==> b == default
  {
    if key in store && store[key].BoolPref? then store[key].b else default
  }

  /** `getFloat(key, default)`. */
  function GetFloat(store: Store, key: string, default: real): (x: real)
    ensures key in store && store[key].FloatPref? ==> x == store[key].x
    ensures key !in store ==> x == default
  {
    if key in store && store[key].FloatPref? then store[key].x else default
  }

  /** `getString(key, default) ?: default`. */
  function GetString(store: Store, key: string, default: string): (s: string)
    ensures key in store && store[key].StringPref? ==> s == store[key].s
    ensures key !in store ==> s == default
  {
    if key in store && store[key].StringPref? then store[key].s else default
  }

  /** The settings a manager created over `store` starts with: each stored
      value of the right type, and the default for each absent key. */
  function Load(store: Store): (r: Settings)
    ensures KEY_ENABLED in store && store[KEY_ENABLED].BoolPref? ==> r.enabled == store[KEY_ENABLED].b
    ensures KEY_PRESET in store && store[KEY_PRESET].StringPref? ==> r.preset == store[KEY_PRESET].s
    ensures KEY_HIGH in store && store[KEY_HIGH].FloatPref? ==> r.high == store[KEY_HIGH].x
    ensures KEY_MID in store && store[KEY_MID].FloatPref? ==> r.mid == store[KEY_MID].x
    ensures KEY_LOW in store && store[KEY_LOW].FloatPref? ==> r.low == store[KEY_LOW].x
    ensures KEY_VOICE in store && store[KEY_VOICE].FloatPref? ==> r.voice == store[KEY_VOICE].x
    ensures KEY_PRESERVE in store && store[KEY_PRESERVE].BoolPref? ==> r.preserveEmergency == store[KEY_PRESERVE].b
    ensures KEY_ENABLED !in store ==> !r.enabled
    ensures KEY_PRESET !in store ==> r.preset == PRESET_TRANSIT
    ensures KEY_HIGH !in store ==> r.high == DEFAULT_HIGH_FREQ_DAMPING
    ensures KEY_MID !in store ==> r.mid == DEFAULT_MID_FREQ_BOOST
    ensures KEY_LOW !in store ==> r.low == DEFAULT_LOW_FREQ_DAMPING
    ensures KEY_VOICE !in store ==> r.voice == DEFAULT_VOICE_AMPLIFICATION
    ensures KEY_PRESERVE !in store ==> r.preserveEmergency
  {
    Settings(
      GetBoolean(store, KEY_ENABLED, false),
      GetString(store, KEY_PRESET, PRESET_TRANSIT),
      GetFloat(store, KEY_HIGH, DEFAULT_HIGH_FREQ_DAMPING),
      GetFloat(store, KEY_MID, DEFAULT_MID_FREQ_BOOST),
      GetFloat(store, KEY_LOW, DEFAULT_LOW_FREQ_DAMPING),
      GetFloat(store, KEY_VOICE, DEFAULT_VOICE_AMPLIFICATION),
      GetBoolean(store, KEY_PRESERVE, true))
  }

  /** With nothing stored, every setting takes its default. */
  lemma LoadEmpty()
    ensures Load(map[]) == Settings(false, "transit", 0.3, 1.2, 0.7, 1.0, true)
  {
  }

  /** Writing the preset key changes only the preset that a reload reads. */
  lemma LoadSetPreset(store: Store, name: string)
    ensures Load(store[KEY_PRESET := StringPref(name)]) == Load(store).(preset := name)
  {
    assert KEY_PRESET != KEY_ENABLED && KEY_PRESET != KEY_PRESERVE;
    assert KEY_PRESET != KEY_HIGH && KEY_PRESET != KEY_MID && KEY_PRESET != KEY_LOW && KEY_PRESET != KEY_VOICE;
  }

  /** The fixed tuning of a named preset; None for "custom" and for any
      unrecognised name. */
  function PresetTuning(name: string): (t: Option<Tuning>)
    ensures t.Some? <==> name in {PRESET_TRANSIT, PRESET_SHOPPING, PRESET_OFFICE}
    ensures name == PRESET_TRANSIT ==> t == Some(Tuning(0.2, 1.3, 0.5, 1.2))
    ensures name == PRESET_SHOPPING ==> t == Some(Tuning(0.4, 1.1, 0.6, 1.1))
    ensures name == PRESET_OFFICE ==> t == Some(Tuning(0.5, 1.0, 0.4, 1.0))
  {
    if name == PRESET_TRANSIT then Some(Tuning(0.2, 1.3, 0.5, 1.2))
    else if name == PRESET_SHOPPING then Some(Tuning(0.4, 1.1, 0.6, 1.1))
    else if name == PRESET_OFFICE then Some(Tuning(0.5, 1.0, 0.4, 1.0))
    else None
  }

  /** The declared ranges: damping in [0, 1], boost and amplification in [0.5, 2]. */
  predicate InRange(t: Tuning) {
    0.0 <= t.high <= 1.0 && 0.5 <= t.mid <= 2.0 && 0.0 <= t.low <= 1.0 && 0.5 <= t.voice <= 2.0
  }

  /** Every preset tuning lies in the declared ranges. */
  lemma PresetsInRange(name: string)
    ensures PresetTuning(name).Some? ==> InRange(PresetTuning(name).value)
  {
  }

  /** The distance between two reals. */
  function Dist(a: real, b: real): real {
    if a < b then b - a else a - b
  }

  /** Kotlin's `x.coerceIn(lo, hi)`: the point of [lo, hi] nearest to x. */
  function Clamp(x: real, lo: real, hi: real): (r: real)
    requires lo <= hi
    ensures lo <= r <= hi
    ensures lo <= x <= hi ==> r == x
    ensures forall y :: lo <= y <= hi ==> Dist(r, x) <= Dist(y, x)
  {
    if x < lo then lo else if x > hi then hi else x
  }

  /** The numerics after a custom update: each supplied value clamped into
      its range, each absent one kept. */
  function CustomTuning(t: Tuning, high: Option<real>, mid: Option<real>, low: Option<real>, voice: Option<real>): (r: Tuning)
    ensures r.high == (if high.Some? then Clamp(high.value, 0.0, 1.0) else t.high)
    ensures r.mid == (if mid.Some? then Clamp(mid.value, 0.5, 2.0) else t.mid)
    ensures r.low == (if low.Some? then Clamp(low.value, 0.0, 1.0) else t.low)
    ensures r.voice == (if voice.Some? then Clamp(voice.value, 0.5, 2.0) else t.voice)
    ensures InRange(t) ==> InRange(r)
    ensures high.Some? && mid.Some? && low.Some? && voice.Some? ==> InRange(r)
  {
    Tuning(
      if high.Some? then Clamp(high.value, 0.0, 1.0) else t.high,
      if mid.Some? then Clamp(mid.value, 0.5, 2.0) else t.mid,
      if low.Some? then Clamp(low.value, 0.0, 1.0) else t.low,
      if voice.Some? then Clamp(voice.value, 0.5, 2.0) else t.voice)
  }

  /** The preset descriptions. */
  const TRANSIT_DESCRIPTION := "Optimized for subway and train environments. Reduces screeching brakes and metal sounds while keeping announcements clear."
  const SHOPPING_DESCRIPTION := "Designed for malls and crowded spaces. Reduces general noise while preserving conversations."
  const OFFICE_DESCRIPTION := "Tuned for open offices. Reduces keyboard sounds and HVAC noise while maintaining speech clarity."
  const CUSTOM_DESCRIPTION := "Your personalized settings for frequency filtering."
  const FALLBACK_DESCRIPTION := "Select a preset for your environment."

  class SensoryShieldManager {
    var enabled: bool
    var preset: string
    var high: real
    var mid: real
    var low: real
    var voice: real
    var preserveEmergency: bool
    /** The preference store the settings are mirrored into. */
    var prefs: Store

    /** The in-memory settings. */
    function Current(): Settings
      reads this
    {
      Settings(enabled, preset, high, mid, low, voice, preserveEmergency)
    }

    function Numerics(): Tuning
      reads this
    {
      Tuning(high, mid, low, voice)
    }

    /** Reloading the store reproduces every in-memory setting except,
        possibly, the preset. */
    ghost predicate Mirrored()
      reads this
    {
      Load(prefs) == Current().(preset := Load(prefs).preset)
    }

    /** The manager created over a store reads every setting from it. */
    constructor (store: Store)
      ensures prefs == store && Current() == Load(store)
      ensures Mirrored()
    {
      enabled := GetBoolean(store, KEY_ENABLED, false);
      preset := GetString(store, KEY_PRESET, PRESET_TRANSIT);
      high := GetFloat(store, KEY_HIGH, DEFAULT_HIGH_FREQ_DAMPING);
      mid := GetFloat(store, KEY_MID, DEFAULT_MID_FREQ_BOOST);
      low := GetFloat(store, KEY_LOW, DEFAULT_LOW_FREQ_DAMPING);
      voice := GetFloat(store, KEY_VOICE, DEFAULT_VOICE_AMPLIFICATION);
      preserveEmergency := GetBoolean(store, KEY_PRESERVE, true);
      prefs := store;
    }

    /** `setEnabled(flag)`: only `enabled` and its key change. */
    method SetEnabled(flag: bool)
      modifies this
      ensures Current() == old(Current()).(enabled := flag)
      ensures prefs == old(prefs)[KEY_ENABLED := BoolPref(flag)]
      ensures old(Mirrored()) ==> Mirrored()
      ensures Load(prefs).preset == old(Load(prefs).preset)
    {
      enabled := flag;
      prefs := prefs[KEY_ENABLED := BoolPref(flag)];
    }

    /** `saveSettings()`: writes the four numeric keys, never the preset. */
    method SaveSettings()
      modifies this`prefs
      ensures prefs == old(prefs)[KEY_HIGH := FloatPref(high)][KEY_MID := FloatPref(mid)]
                                 [KEY_LOW := FloatPref(low)][KEY_VOICE := FloatPref(voice)]
      ensures Load(prefs) == Load(old(prefs)).(high := high, mid := mid, low := low, voice := voice)
      ensures KEY_PRESET in old(prefs) ==> KEY_PRESET in prefs && prefs[KEY_PRESET] == old(prefs)[KEY_PRESET]
    {
      prefs := prefs[KEY_HIGH := FloatPref(high)];
      prefs := prefs[KEY_MID := FloatPref(mid)];
      prefs := prefs[KEY_LOW := FloatPref(low)];
      prefs := prefs[KEY_VOICE := FloatPref(voice)];
    }

    /** Overwrites the four numerics with `t` and saves them. */
    method ApplyTuning(t: Tuning)
      modifies this
      ensures Current() == old(Current()).(high := t.high, mid := t.mid, low := t.low, voice := t.voice)
      ensures Load(prefs) == Load(old(prefs)).(high := t.high, mid := t.mid, low := t.low, voice := t.voice)
      ensures prefs.Keys == old(prefs).Keys + {KEY_HIGH, KEY_MID, KEY_LOW, KEY_VOICE}
      ensures forall k :: k in old(prefs) && k !in {KEY_HIGH, KEY_MID, KEY_LOW, KEY_VOICE} ==> prefs[k] == old(prefs)[k]
    {
      high, mid, low, voice := t.high, t.mid, t.low, t.voice;
      SaveSettings();
    }

    /** `applyTransitPreset()`. */
    method ApplyTransitPreset()
      modifies this
      ensures Numerics() == Tuning(0.2, 1.3, 0.5, 1.2)
      ensures Current() == old(Current()).(high := 0.2, mid := 1.3, low := 0.5, voice := 1.2)
      ensures Load(prefs) == Load(old(prefs)).(high := 0.2, mid := 1.3, low := 0.5, voice := 1.2)
    {
      ApplyTuning(Tuning(0.2, 1.3, 0.5, 1.2));
    }

    /** `applyShoppingPreset()`. */
    method ApplyShoppingPreset()
      modifies this
      ensures Numerics() == Tuning(0.4, 1.1, 0.6, 1.1)
      ensures Current() == old(Current()).(high := 0.4, mid := 1.1, low := 0.6, voice := 1.1)
      ensures Load(prefs) == Load(old(prefs)).(high := 0.4, mid := 1.1, low := 0.6, voice := 1.1)
    {
      ApplyTuning(Tuning(0.4, 1.1, 0.6, 1.1));
    }

    /** `applyOfficePreset()`. */
    method ApplyOfficePreset()
      modifies this
      ensures Numerics() == Tuning(0.5, 1.0, 0.4, 1.0)
      ensures Current() == old(Current()).(high := 0.5, mid := 1.0, low := 0.4, voice := 1.0)
      ensures Load(prefs) == Load(old(prefs)).(high := 0.5, mid := 1.0, low := 0.4, voice := 1.0)
    {
      ApplyTuning(Tuning(0.5, 1.0, 0.4, 1.0));
    }

    /** `setPreset(name)`: records and stores the name; a named preset also
        overwrites and stores the four numerics, any other name leaves them
        (and their keys) as they were. */
    method SetPreset(name: string)
      modifies this
      ensures preset == name
      ensures enabled == old(enabled) && preserveEmergency == old(preserveEmergency)
      ensures PresetTuning(name).Some? ==> Numerics() == PresetTuning(name).value
      ensures PresetTuning(name).None? ==> Numerics() == old(Numerics()) && prefs == old(prefs)[KEY_PRESET := StringPref(name)]
      ensures PresetTuning(name).Some? ==>
        Load(prefs) == Load(old(prefs)).(preset := name, high := high, mid := mid, low := low, voice := voice)
      ensures PresetTuning(name).None? ==> Load(prefs) == Load(old(prefs)).(preset := name)
      ensures old(Mirrored()) ==> Mirrored() && Load(prefs) == Current()
      ensures old(InRange(Numerics())) ==> InRange(Numerics())
    {
      preset := name;
      LoadSetPreset(prefs, name);
      prefs := prefs[KEY_PRESET := StringPref(name)];
      if name == PRESET_TRANSIT {
        ApplyTransitPreset();
      } else if name == PRESET_SHOPPING {
        ApplyShoppingPreset();
      } else if name == PRESET_OFFICE {
        ApplyOfficePreset();
      }
    }

    /** `setCustomSettings(...)`: clamps each supplied value into its range,
        leaves the others, sets the preset to "custom" and saves the four
        numerics; the stored preset key is not written. */
    method SetCustomSettings(highFreqDamping: Option<real>, midFreqBoost: Option<real>,
                             lowFreqDamping: Option<real>, voiceAmplification: Option<real>)
      modifies this
      ensures Numerics() == CustomTuning(old(Numerics()), highFreqDamping, midFreqBoost, lowFreqDamping, voiceAmplification)
      ensures preset == PRESET_CUSTOM
      ensures enabled == old(enabled) && preserveEmergency == old(preserveEmergency)
      ensures KEY_PRESET in old(prefs) ==> KEY_PRESET in prefs && prefs[KEY_PRESET] == old(prefs)[KEY_PRESET]
      ensures Load(prefs) == Load(old(prefs)).(high := high, mid := mid, low := low, voice := voice)
      ensures old(Mirrored()) ==> Mirrored() && Load(prefs).preset == old(Load(prefs).preset)
    {
      var t := CustomTuning(Numerics(), highFreqDamping, midFreqBoost, lowFreqDamping, voiceAmplification);
      high, mid, low, voice := t.high, t.mid, t.low, t.voice;
      preset := PRESET_CUSTOM;
      SaveSettings();
    }

    /** `getPresetDescription(name)`: one fixed text per preset name and a
        fallback for any other string; it reads no state. */
    function GetPresetDescription(name: string): (d: string)
      ensures d != ""
      ensures d == FALLBACK_DESCRIPTION <==> name !in {PRESET_TRANSIT, PRESET_SHOPPING, PRESET_OFFICE, PRESET_CUSTOM}
      ensures name == PRESET_TRANSIT ==> d == TRANSIT_DESCRIPTION
      ensures name == PRESET_SHOPPING ==> d == SHOPPING_DESCRIPTION
      ensures name == PRESET_OFFICE ==> d == OFFICE_DESCRIPTION
      ensures name == PRESET_CUSTOM ==> d == CUSTOM_DESCRIPTION
    {
      if name == PRESET_TRANSIT then TRANSIT_DESCRIPTION
      else if name == PRESET_SHOPPING then SHOPPING_DESCRIPTION
      else if name == PRESET_OFFICE then OFFICE_DESCRIPTION
      else if name == PRESET_CUSTOM then CUSTOM_DESCRIPTION
      else FALLBACK_DESCRIPTION
    }
  }

  /** The five descriptions are pairwise different, so a description tells
      which preset (or none) it describes. */
  lemma DescriptionsDistinct(m: SensoryShieldManager, a: string, b: string)
    requires a in {PRESET_TRANSIT, PRESET_SHOPPING, PRESET_OFFICE, PRESET_CUSTOM}
    ensures m.GetPresetDescription(a) == m.GetPresetDescription(b) <==> a == b
  {
  }

  /** A fresh manager over an empty store holds the defaults; choosing
      "shopping" and then a too large high-frequency damping gives the clamped
      value; after a restart the numerics come back but the preset reads as
      "shopping", because the custom update never stores the preset. */
  method CustomPresetIsNotPersisted()
  {
    var m := new SensoryShieldManager(map[]);
    LoadEmpty();
    assert m.Current() == Settings(false, "transit", 0.3, 1.2, 0.7, 1.0, true);
    m.SetPreset(PRESET_SHOPPING);
    assert m.Numerics() == Tuning(0.4, 1.1, 0.6, 1.1) && m.preset == "shopping";
    m.SetCustomSettings(Some(1.5), None, None, None);
    assert m.Numerics() == Tuning(1.0, 1.1, 0.6, 1.1) && m.preset == "custom";
    var restarted := new SensoryShieldManager(m.prefs);
    assert restarted.Numerics() == m.Numerics() && restarted.enabled == m.enabled;
    assert restarted.preset == "shopping";
  }
}
