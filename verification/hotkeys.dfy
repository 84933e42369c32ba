/** Hotkey detection of the current package: key normalisation, the
    platform default hotkey, and the OR/AND combo test over the set of held
    keys. */
module Hotkeys {
  import opened Wrappers
  import opened Text

  /** A configured hotkey: a single key or a list of keys. */
  datatype HotkeySpec = Key(key: string) | Keys(keys: seq<string>)

  /** The window the source declares for recent presses, in milliseconds. */
  const ComboWindowMs: int := 800

  /** One-character keys are lower-cased; named keys pass through. */
  function NormalizeKey(k: string): (r: string)
    ensures |r| == |k|
  {
    if |k| == 1 then Lower(k) else k
  }

  /** Normalisation lower-cases exactly the one-character keys, leaves named
      keys unchanged, makes a letter's two cases the same key, and is
      idempotent. */
  lemma NormalizeKeyProperties(k: string)
    ensures |k| == 1 ==> NormalizeKey(k) == [LowerChar(k[0])]
    ensures |k| != 1 ==> NormalizeKey(k) == k
    ensures NormalizeKey(NormalizeKey(k)) == NormalizeKey(k)
    ensures NormalizeKey("C") == NormalizeKey("c") == "c"
  {
    if |k| == 1 {
      LowerIdempotent(k);
    }
  }

  /** The default hotkey; `platform` is `None` when there is no navigator. */
  function DefaultHotkey(platform: Option<string>): (r: seq<string>)
    ensures |r| == 2 && |r[0]| > 1 && NormalizeKey(r[1]) == "c"
  {
    match platform
    case None => ["Meta", "C"]
    case Some(p) => if Contains(Lower(p), "mac") then ["Meta", "c"] else ["Control", "c"]
  }

  /** The three outcomes of the platform test. */
  lemma DefaultHotkeyCases(platform: Option<string>)
    ensures platform.None? ==> DefaultHotkey(platform) == ["Meta", "C"]
    ensures platform.Some? && Contains(Lower(platform.value), "mac") ==>
      DefaultHotkey(platform) == ["Meta", "c"]
    ensures platform.Some? && !Contains(Lower(platform.value), "mac") ==>
      DefaultHotkey(platform) == ["Control", "c"]
  {
  }

  /** The spec as a list of normalised keys. */
  function NormalizedKeys(spec: HotkeySpec): (r: seq<string>)
    ensures |r| == (if spec.Key? then 1 else |spec.keys|)
    ensures spec.Key? ==> r == [NormalizeKey(spec.key)]
    ensures spec.Keys? ==> forall i :: 0 <= i < |r| ==> r[i] == NormalizeKey(spec.keys[i])
  {
    match spec
    case Key(k) => [NormalizeKey(k)]
    case Keys(ks) => seq(|ks|, i requires 0 <= i < |ks| => NormalizeKey(ks[i]))
  }

  function AnyHeld(keys: seq<string>, pressed: set<string>): bool {
    if keys == [] then false else keys[0] in pressed || AnyHeld(keys[1..], pressed)
  }

  function AllHeld(keys: seq<string>, pressed: set<string>): bool {
    if keys == [] then true else keys[0] in pressed && AllHeld(keys[1..], pressed)
  }

  function AllSingleChar(keys: seq<string>): bool {
    if keys == [] then true else |keys[0]| == 1 && AllSingleChar(keys[1..])
  }

  lemma {:induction false} AnyHeldMeaning(keys: seq<string>, pressed: set<string>)
    ensures AnyHeld(keys, pressed) <==> exists i :: 0 <= i < |keys| && keys[i] in pressed
  {
    if keys != [] {
      AnyHeldMeaning(keys[1..], pressed);
      if AnyHeld(keys, pressed) && keys[0] !in pressed {
        var i :| 0 <= i < |keys[1..]| && keys[1..][i] in pressed;
        assert keys[i + 1] in pressed;
      }
      if exists i :: 0 <= i < |keys| && keys[i] in pressed {
        var i :| 0 <= i < |keys| && keys[i] in pressed;
        if i > 0 {
          assert keys[1..][i - 1] in pressed;
        }
      }
    }
  }

  lemma {:induction false} AllHeldMeaning(keys: seq<string>, pressed: set<string>)
    ensures AllHeld(keys, pressed) <==> forall i :: 0 <= i < |keys| ==> keys[i] in pressed
  {
    if keys != [] {
      AllHeldMeaning(keys[1..], pressed);
      if forall i :: 0 <= i < |keys| ==> keys[i] in pressed {
        assert forall i :: 0 <= i < |keys[1..]| ==> keys[1..][i] in pressed by {
          forall i | 0 <= i < |keys[1..]| ensures keys[1..][i] in pressed {
            assert keys[1..][i] == keys[i + 1];
          }
        }
      }
      if AllHeld(keys, pressed) {
        forall i | 0 <= i < |keys| ensures keys[i] in pressed {
          if i > 0 { assert keys[i] == keys[1..][i - 1]; }
        }
      }
    }
  }

  lemma {:induction false} AllSingleCharMeaning(keys: seq<string>)
    ensures AllSingleChar(keys) <==> forall i :: 0 <= i < |keys| ==> |keys[i]| == 1
  {
    if keys != [] {
      AllSingleCharMeaning(keys[1..]);
      if AllSingleChar(keys) {
        forall i | 0 <= i < |keys| ensures |keys[i]| == 1 {
          if i > 0 { assert keys[i] == keys[1..][i - 1]; }
        }
      }
      if forall i :: 0 <= i < |keys| ==> |keys[i]| == 1 {
        forall i | 0 <= i < |keys[1..]| ensures |keys[1..][i]| == 1 {
          assert keys[1..][i] == keys[i + 1];
        }
      }
    }
  }

  /** True when a list of one-character keys takes the OR reading. */
  predicate OrSemantics(spec: HotkeySpec) {
    spec.Keys? && AllSingleChar(NormalizedKeys(spec))
  }

  /** Whether the hotkey counts as pressed. `holdMs` is accepted, and its
      default of 800 ms computed, but neither takes part in the decision. */
  function IsComboPressed(spec: HotkeySpec, pressed: set<string>, holdMs: Option<int>): (active: bool)
    ensures OrSemantics(spec) ==>
      (active <==> exists i :: 0 <= i < |NormalizedKeys(spec)| && NormalizedKeys(spec)[i] in pressed)
    ensures !OrSemantics(spec) ==>
      (active <==> forall i :: 0 <= i < |NormalizedKeys(spec)| ==> NormalizedKeys(spec)[i] in pressed)
  {
    var windowMs := holdMs.GetOr(ComboWindowMs);
    var keys := NormalizedKeys(spec);
    AnyHeldMeaning(keys, pressed);
    AllHeldMeaning(keys, pressed);
    if OrSemantics(spec) then AnyHeld(keys, pressed) else AllHeld(keys, pressed)
  }

  /** A list of one-character keys is active iff one of them is held; any
      other hotkey is active iff all of its keys are held. */
  lemma OrAndSemantics(spec: HotkeySpec, pressed: set<string>, holdMs: Option<int>)
    ensures spec.Keys? && (forall i :: 0 <= i < |spec.keys| ==> |spec.keys[i]| == 1) ==>
      (IsComboPressed(spec, pressed, holdMs) <==>
        exists i :: 0 <= i < |spec.keys| && NormalizeKey(spec.keys[i]) in pressed)
    ensures (spec.Key? || exists i :: 0 <= i < |spec.keys| && |spec.keys[i]| != 1) ==>
      (IsComboPressed(spec, pressed, holdMs) <==>
        forall i :: 0 <= i < |NormalizedKeys(spec)| ==> NormalizedKeys(spec)[i] in pressed)
  {
    var keys := NormalizedKeys(spec);
    AllSingleCharMeaning(keys);
    if spec.Keys? && (forall i :: 0 <= i < |spec.keys| ==> |spec.keys[i]| == 1) {
      if IsComboPressed(spec, pressed, holdMs) {
        var i :| 0 <= i < |keys| && keys[i] in pressed;
        assert NormalizeKey(spec.keys[i]) in pressed;
      }
    }
    if spec.Keys? && exists i :: 0 <= i < |spec.keys| && |spec.keys[i]| != 1 {
      var i :| 0 <= i < |spec.keys| && |spec.keys[i]| != 1;
      assert |keys[i]| != 1;
    }
  }

  /** An empty list of keys is never active. */
  lemma EmptyListNeverActive(pressed: set<string>, holdMs: Option<int>)
    ensures !IsComboPressed(Keys([]), pressed, holdMs)
  {
    AllSingleCharMeaning([]);
  }

  /** The decision depends on the held keys only. */
  lemma HoldMsIgnored(spec: HotkeySpec, pressed: set<string>, h1: Option<int>, h2: Option<int>)
    ensures IsComboPressed(spec, pressed, h1) == IsComboPressed(spec, pressed, h2)
  {
  }

  /** Holding more keys never deactivates an active hotkey. */
  lemma ComboMonotone(spec: HotkeySpec, p1: set<string>, p2: set<string>, holdMs: Option<int>)
    requires p1 <= p2
    requires IsComboPressed(spec, p1, holdMs)
    ensures IsComboPressed(spec, p2, holdMs)
  {
    var keys := NormalizedKeys(spec);
    if OrSemantics(spec) {
      var i :| 0 <= i < |keys| && keys[i] in p1;
      assert keys[i] in p2;
    }
  }

  /** The default hotkey needs both its modifier and "c" held. */
  lemma DefaultHotkeyIsAndCombo(platform: Option<string>, pressed: set<string>, holdMs: Option<int>)
    ensures var d := DefaultHotkey(platform);
      IsComboPressed(Keys(d), pressed, holdMs) <==> d[0] in pressed && "c" in pressed
  {
    var d := DefaultHotkey(platform);
    var keys := NormalizedKeys(Keys(d));
    assert |keys[0]| != 1;
    AllSingleCharMeaning(keys);
    assert keys[0] == d[0];
    if d[0] in pressed && "c" in pressed {
      assert forall i :: 0 <= i < |keys| ==> keys[i] in pressed by {
        assert keys == [d[0], "c"];
      }
    }
  }

  // ---------------------------------------------------------------------------
  // Held-key bookkeeping: the `pressedKeys` set and the key-down timestamps.

  datatype KeyState = KeyState(pressed: set<string>, lastDown: map<string, int>)

  const NoKeys := KeyState({}, map[])

  /** keydown: records the normalised key as held and stamps it with `now`. */
  function KeyDown(st: KeyState, key: string, now: int): (r: KeyState)
    ensures NormalizeKey(key) in r.pressed && r.pressed - {NormalizeKey(key)} == st.pressed - {NormalizeKey(key)}
    ensures NormalizeKey(key) in r.lastDown && r.lastDown[NormalizeKey(key)] == now
    ensures forall k :: k in st.lastDown && k != NormalizeKey(key) ==> k in r.lastDown && r.lastDown[k] == st.lastDown[k]
  {
    var k := NormalizeKey(key);
    KeyState(st.pressed + {k}, st.lastDown[k := now])
  }

  /** keyup: releases the normalised key; timestamps are kept. */
  function KeyUp(st: KeyState, key: string): (r: KeyState)
    ensures NormalizeKey(key) !in r.pressed
    ensures r.pressed + {NormalizeKey(key)} >= st.pressed && r.pressed <= st.pressed
    ensures r.lastDown == st.lastDown
  {
    KeyState(st.pressed - {NormalizeKey(key)}, st.lastDown)
  }

  /** Pressing a letter and releasing it in either case leaves it released. */
  lemma KeyDownUpReleases(st: KeyState, down: string, up: string, now: int)
    requires |down| == 1 && |up| == 1 && LowerChar(down[0]) == LowerChar(up[0])
    ensures NormalizeKey(down) !in KeyUp(KeyDown(st, down, now), up).pressed
  {
    NormalizeKeyProperties(down);
    NormalizeKeyProperties(up);
  }
}
