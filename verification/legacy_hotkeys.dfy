/** Hotkey detection of the original single-package build: "c" is the
    trigger key and counts as pressed for 800 ms after its last key-down,
    while every other key of the combo must be held. Key normalisation and
    the default hotkey are the same as in `Hotkeys`. */
module LegacyHotkeys {
  import opened Hotkeys

  /** The fixed recency window for the trigger key, in milliseconds. */
  const TriggerWindowMs: int := 800

  /** The trigger key of the legacy combo test. */
  const Trigger: string := "c"

  /** `lastKeyDownTimestamps.get("c") ?? 0`. */
  function LastTriggerDown(lastDown: map<string, int>): int {
    if Trigger in lastDown then lastDown[Trigger] else 0
  }

  /** "c" was pressed strictly within the window before `now`. */
  predicate TriggerRecent(lastDown: map<string, int>, now: int) {
    LastTriggerDown(lastDown) > now - TriggerWindowMs
  }

  function Modifiers(keys: seq<string>): (r: seq<string>)
    ensures forall k :: k in r <==> k in keys && k != Trigger
  {
    if keys == [] then []
    else if keys[0] == Trigger then Modifiers(keys[1..])
    else [keys[0]] + Modifiers(keys[1..])
  }

  /** The legacy combo test at time `now`. */
  function IsComboPressed(spec: HotkeySpec, st: KeyState, now: int): (active: bool)
    ensures Trigger in NormalizedKeys(spec) ==>
      (active <==>
        (forall k :: k in NormalizedKeys(spec) && k != Trigger ==> k in st.pressed)
        && (Trigger in st.pressed || TriggerRecent(st.lastDown, now)))
    ensures Trigger !in NormalizedKeys(spec) ==>
      (active <==> forall k :: k in NormalizedKeys(spec) ==> k in st.pressed)
  {
    var keys := NormalizedKeys(spec);
    var hasC := Trigger in keys;
    var modifiers := Modifiers(keys);
    AllHeldMeaning(modifiers, st.pressed);
    AllHeldMeaning(keys, st.pressed);
    var modifiersHeld := AllHeld(modifiers, st.pressed);
    if hasC then
      var cHeld := Trigger in st.pressed;
      var cRecent := TriggerRecent(st.lastDown, now);
      modifiersHeld && (cHeld || cRecent)
    else
      AllHeld(keys, st.pressed)
  }

  /** Upper- and lower-case entries behave identically. */
  lemma CaseInsensitive(mods: seq<string>, st: KeyState, now: int)
    ensures IsComboPressed(Keys(mods + ["C"]), st, now) == IsComboPressed(Keys(mods + ["c"]), st, now)
  {
    NormalizeKeyProperties("C");
    var a, b := NormalizedKeys(Keys(mods + ["C"])), NormalizedKeys(Keys(mods + ["c"]));
    assert |a| == |b|;
    forall i | 0 <= i < |a|
      ensures a[i] == b[i]
    {
      if i < |mods| {
        assert (mods + ["C"])[i] == (mods + ["c"])[i];
      }
    }
    assert a == b;
  }

  /** Releasing any non-trigger key of a combo deactivates it, however
      recently "c" was pressed. */
  lemma ReleasedModifierDeactivates(spec: HotkeySpec, st: KeyState, m: string, now: int)
    requires m in NormalizedKeys(spec) && m != Trigger && m !in st.pressed
    ensures !IsComboPressed(spec, st, now)
  {
  }

  /** Without "c" in the combo, timestamps and the clock play no part. */
  lemma NoTriggerIgnoresTime(spec: HotkeySpec, st: KeyState, lastDown2: map<string, int>, now: int, now2: int)
    requires Trigger !in NormalizedKeys(spec)
    ensures IsComboPressed(spec, st, now) == IsComboPressed(spec, KeyState(st.pressed, lastDown2), now2)
  {
  }

  /** Recency is strict: a key-down exactly 800 ms ago no longer counts, and
      a trigger that was never pressed stops counting once `now` reaches 800. */
  lemma RecencyBoundary(lastDown: map<string, int>, now: int)
    ensures Trigger in lastDown && lastDown[Trigger] == now - 800 ==> !TriggerRecent(lastDown, now)
    ensures Trigger in lastDown && lastDown[Trigger] == now - 799 ==> TriggerRecent(lastDown, now)
    ensures Trigger !in lastDown ==> (TriggerRecent(lastDown, now) <==> now < 800)
  {
  }

  /** A tap of "c": after key-down at `t` and key-up, the default combo with
      its modifier still held stays active for just under 800 ms. */
  lemma TapWindow(st: KeyState, modifier: string, t: int, now: int)
    requires |modifier| > 1 && modifier in st.pressed
    ensures var s := KeyUp(KeyDown(st, "c", t), "c");
      IsComboPressed(Keys([modifier, "c"]), s, now) <==> t > now - 800
  {
    NormalizeKeyProperties("c");
    NormalizeKeyProperties(modifier);
    var s := KeyUp(KeyDown(st, "c", t), "c");
    assert NormalizedKeys(Keys([modifier, "c"])) == [modifier, "c"];
    assert modifier in s.pressed;
  }

  /** Holding more keys, or a later "c" key-down, never deactivates. */
  lemma ComboMonotone(spec: HotkeySpec, st: KeyState, st2: KeyState, now: int)
    requires st.pressed <= st2.pressed
    requires LastTriggerDown(st.lastDown) <= LastTriggerDown(st2.lastDown)
    requires IsComboPressed(spec, st, now)
    ensures IsComboPressed(spec, st2, now)
  {
  }
}
