/** The logic of the AirPods screen of the Android app: the maps between the
    slider positions in [0, 1] and the manager's parameters, the preset
    buttons' selection test, the percentage shown beside each slider, and
    the slider callbacks, which all go through `setCustomSettings`. */
module AirPodsScreen {
  import opened Wrappers
  import opened SensoryShield

  /** The damping sliders' map, used in both directions: a damping is shown
      at `1f - damping`, and a position `it` sends the damping `1f - it`. */
  function DampingSlider(x: real): (y: real)
    ensures 0.0 <= x <= 1.0 <==> 0.0 <= y <= 1.0
  {
    1.0 - x
  }

  /** The position the voice slider shows: `(voice - 0.5f) / 1.5f`. */
  function VoiceSlider(voice: real): (v: real)
    ensures 0.5 <= voice <= 2.0 <==> 0.0 <= v <= 1.0
  {
    (voice - 0.5) / 1.5
  }

  /** The amplification a voice slider position sends: `0.5f + (it * 1.5f)`. */
  function VoiceFromSlider(v: real): (voice: real)
    ensures 0.0 <= v <= 1.0 <==> 0.5 <= voice <= 2.0
  {
    0.5 + v * 1.5
  }

  /** The damping map is its own inverse: the shown position and the sent
      damping undo each other. */
  lemma DampingRoundTrip(x: real)
    ensures DampingSlider(DampingSlider(x)) == x
  {
  }

  /** The shown position and the sent amplification are mutual inverses. */
  lemma VoiceRoundTrip(voice: real, v: real)
    ensures VoiceFromSlider(VoiceSlider(voice)) == voice
    ensures VoiceSlider(VoiceFromSlider(v)) == v
  {
  }

  /** Every value a slider in [0, 1] sends is already in the manager's clamp
      range, so the clamp leaves it as it is. */
  lemma SentValuesUnclamped(v: real)
    requires 0.0 <= v <= 1.0
    ensures Clamp(DampingSlider(v), 0.0, 1.0) == DampingSlider(v)
    ensures Clamp(VoiceFromSlider(v), 0.5, 2.0) == VoiceFromSlider(v)
  {
  }

  /** The three preset buttons, top to bottom. */
  const BUTTONS: seq<string> := [PRESET_TRANSIT, PRESET_SHOPPING, PRESET_OFFICE]

  /** `isSelected = currentPreset == <button's preset>`. */
  predicate IsSelected(currentPreset: string, button: string) {
    currentPreset == button
  }

  /** The buttons selected for a given current preset. */
  function SelectedButtons(currentPreset: string): (r: set<nat>)
    ensures forall i: nat :: i in r <==> i < |BUTTONS| && IsSelected(currentPreset, BUTTONS[i])
    ensures |r| <= 1
    ensures r == {} <==> currentPreset !in BUTTONS
  {
    if currentPreset == PRESET_TRANSIT then {0}
    else if currentPreset == PRESET_SHOPPING then {1}
    else if currentPreset == PRESET_OFFICE then {2}
    else {}
  }

  /** No button is selected while the preset is "custom". */
  lemma CustomSelectsNone()
    ensures SelectedButtons(PRESET_CUSTOM) == {}
  {
    assert PRESET_CUSTOM != PRESET_TRANSIT && PRESET_CUSTOM != PRESET_SHOPPING && PRESET_CUSTOM != PRESET_OFFICE;
  }

  /** The range of a Kotlin `Int`. */
  const INT_MIN: int := -0x8000_0000
  const INT_MAX: int := 0x7fff_ffff

  /** Kotlin's `Float.toInt()`: rounds toward zero and saturates at the
      bounds of `Int`. */
  function ToInt(x: real): (n: int)
    ensures INT_MIN <= n <= INT_MAX
    ensures x > INT_MAX as real ==> n == INT_MAX
    ensures x < INT_MIN as real ==> n == INT_MIN
    ensures INT_MIN as real <= x <= INT_MAX as real ==>
      (0.0 <= x ==> n as real <= x < n as real + 1.0) && (x < 0.0 ==> n as real - 1.0 < x <= n as real)
  {
    var t := if x >= 0.0 then x.Floor else -((-x).Floor);
    if t < INT_MIN then INT_MIN else if t > INT_MAX then INT_MAX else t
  }

  /** The number shown before the `%` beside a slider: `(value * 100).toInt()`. */
  function Percent(value: real): (p: int)
    ensures 0.0 <= value <= 1.0 ==> 0 <= p <= 100
    ensures 0.0 <= value <= 1.0 ==> p as real <= value * 100.0 < p as real + 1.0
    ensures value == 1.0 ==> p == 100
  {
    ToInt(value * 100.0)
  }

  /** The high-frequency slider moved to `v`. */
  method OnHighSliderChange(m: SensoryShieldManager, v: real)
    modifies m
    ensures m.high == Clamp(DampingSlider(v), 0.0, 1.0)
    ensures m.preset == PRESET_CUSTOM
    ensures m.mid == old(m.mid) && m.low == old(m.low) && m.voice == old(m.voice)
    ensures m.enabled == old(m.enabled) && m.preserveEmergency == old(m.preserveEmergency)
    ensures 0.0 <= v <= 1.0 ==> DampingSlider(m.high) == v
    ensures Load(m.prefs) == Load(old(m.prefs)).(high := m.high, mid := m.mid, low := m.low, voice := m.voice)
    ensures KEY_PRESET in old(m.prefs) ==> KEY_PRESET in m.prefs && m.prefs[KEY_PRESET] == old(m.prefs)[KEY_PRESET]
    ensures old(m.Mirrored()) ==> m.Mirrored() && Load(m.prefs) == Load(old(m.prefs)).(high := m.high)
  {
    m.SetCustomSettings(Some(DampingSlider(v)), None, None, None);
    if 0.0 <= v <= 1.0 {
      SentValuesUnclamped(v);
      DampingRoundTrip(v);
    }
  }

  /** The voice slider moved to `v`. */
  method OnVoiceSliderChange(m: SensoryShieldManager, v: real)
    modifies m
    ensures m.voice == Clamp(VoiceFromSlider(v), 0.5, 2.0)
    ensures m.preset == PRESET_CUSTOM
    ensures m.high == old(m.high) && m.mid == old(m.mid) && m.low == old(m.low)
    ensures m.enabled == old(m.enabled) && m.preserveEmergency == old(m.preserveEmergency)
    ensures 0.0 <= v <= 1.0 ==> VoiceSlider(m.voice) == v
    ensures Load(m.prefs) == Load(old(m.prefs)).(high := m.high, mid := m.mid, low := m.low, voice := m.voice)
    ensures KEY_PRESET in old(m.prefs) ==> KEY_PRESET in m.prefs && m.prefs[KEY_PRESET] == old(m.prefs)[KEY_PRESET]
    ensures old(m.Mirrored()) ==> m.Mirrored() && Load(m.prefs) == Load(old(m.prefs)).(voice := m.voice)
  {
    m.SetCustomSettings(None, None, None, Some(VoiceFromSlider(v)));
    if 0.0 <= v <= 1.0 {
      SentValuesUnclamped(v);
      VoiceRoundTrip(m.voice, v);
    }
  }

  /** The low-frequency slider moved to `v`. */
  method OnLowSliderChange(m: SensoryShieldManager, v: real)
    modifies m
    ensures m.low == Clamp(DampingSlider(v), 0.0, 1.0)
    ensures m.preset == PRESET_CUSTOM
    ensures m.high == old(m.high) && m.mid == old(m.mid) && m.voice == old(m.voice)
    ensures m.enabled == old(m.enabled) && m.preserveEmergency == old(m.preserveEmergency)
    ensures 0.0 <= v <= 1.0 ==> DampingSlider(m.low) == v
    ensures Load(m.prefs) == Load(old(m.prefs)).(high := m.high, mid := m.mid, low := m.low, voice := m.voice)
    ensures KEY_PRESET in old(m.prefs) ==> KEY_PRESET in m.prefs && m.prefs[KEY_PRESET] == old(m.prefs)[KEY_PRESET]
    ensures old(m.Mirrored()) ==> m.Mirrored() && Load(m.prefs) == Load(old(m.prefs)).(low := m.low)
  {
    m.SetCustomSettings(None, None, Some(DampingSlider(v)), None);
    if 0.0 <= v <= 1.0 {
      SentValuesUnclamped(v);
      DampingRoundTrip(v);
    }
  }
}
