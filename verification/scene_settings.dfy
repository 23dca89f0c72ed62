/**
 * The scene-settings menu of src/components/SolarSystem/SceneSettingsMenu.tsx:
 * nine live settings (eight switches and a time scale), the time-warp tag the
 * time scale is saved as, the restore step that reads a saved record back at
 * mount, and the save step that writes the record on every change.
 */
module SceneSettings {
  import opened Wrappers

  // ----- time warp -----

  datatype TimeWarp = Slow | Normal | Fast

  /** The string a warp is saved as. */
  function WarpTag(w: TimeWarp): string
  {
    match w
    case Slow => "slow"
    case Normal => "normal"
    case Fast => "fast"
  }

  /** The time scale the Slow/Normal/Fast buttons set, and restore applies for a saved tag. */
  function WarpScale(w: TimeWarp): real
  {
    match w
    case Slow => 0.09
    case Normal => 0.18
    case Fast => 0.42
  }

  /** The tag the save step derives from the current time scale. */
  function ClassifyWarp(timeScale: real): TimeWarp
  {
    if timeScale <= 0.1 then Slow else if timeScale >= 0.3 then Fast else Normal
  }

  /** The highlight test of the Slow button. */
  predicate SlowHighlighted(timeScale: real)
  {
    timeScale <= 0.1
  }

  /** The highlight test of the Normal button. */
  predicate NormalHighlighted(timeScale: real)
  {
    timeScale > 0.1 && timeScale < 0.3
  }

  /** The highlight test of the Fast button. */
  predicate FastHighlighted(timeScale: real)
  {
    timeScale >= 0.3
  }

  /** The time scale a warp sets is classified back as that warp. */
  lemma WarpRoundTrip(w: TimeWarp)
    ensures ClassifyWarp(WarpScale(w)) == w
    ensures WarpScale(ClassifyWarp(WarpScale(w))) == WarpScale(w)
  {
  }

  /** The tags are distinct, so a saved tag names one warp. */
  lemma WarpTagsDistinct(v: TimeWarp, w: TimeWarp)
    ensures WarpTag(v) == WarpTag(w) <==> v == w
  {
    if v != w {
      assert |WarpTag(v)| != |WarpTag(w)| || WarpTag(v)[0] != WarpTag(w)[0];
    }
  }

  /** Classification is total and exclusive: at most 0.1 is slow, at least 0.3 is fast, the rest normal. */
  lemma ClassifyPartition(timeScale: real)
    ensures ClassifyWarp(timeScale) == Slow <==> timeScale <= 0.1
    ensures ClassifyWarp(timeScale) == Fast <==> timeScale >= 0.3
    ensures ClassifyWarp(timeScale) == Normal <==> 0.1 < timeScale < 0.3
  {
  }

  /** For every time scale exactly one button is highlighted, the one of the warp the save step records. */
  lemma ExactlyOneHighlighted(timeScale: real)
    ensures SlowHighlighted(timeScale) <==> ClassifyWarp(timeScale) == Slow
    ensures NormalHighlighted(timeScale) <==> ClassifyWarp(timeScale) == Normal
    ensures FastHighlighted(timeScale) <==> ClassifyWarp(timeScale) == Fast
    ensures (if SlowHighlighted(timeScale) then 1 else 0) + (if NormalHighlighted(timeScale) then 1 else 0)
            + (if FastHighlighted(timeScale) then 1 else 0) == 1
  {
  }

  // ----- the live state -----

  /** The eight switches of the menu. */
  datatype Toggle = Bloom | OrbitRings | OrbitLines | PlanetLabels | HabitableZone | Sfx | AsteroidBelt | Atmospheres

  /** The key a switch is saved under. */
  function ToggleKey(t: Toggle): string
  {
    match t
    case Bloom => "bloomEnabled"
    case OrbitRings => "orbitRingsEnabled"
    case OrbitLines => "orbitLinesEnabled"
    case PlanetLabels => "planetLabelsEnabled"
    case HabitableZone => "habitableZoneEnabled"
    case Sfx => "sfxEnabled"
    case AsteroidBelt => "asteroidBeltEnabled"
    case Atmospheres => "atmospheresEnabled"
  }

  const TIME_WARP_KEY: string := "timeWarp"

  /** The nine state cells the menu reads and sets. */
  datatype SceneState = SceneState(
    bloomEnabled: bool,
    orbitRingsEnabled: bool,
    orbitLinesEnabled: bool,
    planetLabelsEnabled: bool,
    habitableZoneEnabled: bool,
    timeScale: real,
    sfxEnabled: bool,
    asteroidBeltEnabled: bool,
    atmospheresEnabled: bool)

  function Flag(st: SceneState, t: Toggle): bool
  {
    match t
    case Bloom => st.bloomEnabled
    case OrbitRings => st.orbitRingsEnabled
    case OrbitLines => st.orbitLinesEnabled
    case PlanetLabels => st.planetLabelsEnabled
    case HabitableZone => st.habitableZoneEnabled
    case Sfx => st.sfxEnabled
    case AsteroidBelt => st.asteroidBeltEnabled
    case Atmospheres => st.atmospheresEnabled
  }

  /** A switch's `onChange`: that one cell takes the new value. */
  function WithFlag(st: SceneState, t: Toggle, v: bool): SceneState
  {
    SceneState(
      if t == Bloom then v else st.bloomEnabled,
      if t == OrbitRings then v else st.orbitRingsEnabled,
      if t == OrbitLines then v else st.orbitLinesEnabled,
      if t == PlanetLabels then v else st.planetLabelsEnabled,
      if t == HabitableZone then v else st.habitableZoneEnabled,
      st.timeScale,
      if t == Sfx then v else st.sfxEnabled,
      if t == AsteroidBelt then v else st.asteroidBeltEnabled,
      if t == Atmospheres then v else st.atmospheresEnabled)
  }

  /** A switch's `onChange` sets that switch and leaves every other cell as it was. */
  lemma FlagUpdate(st: SceneState, t: Toggle, v: bool)
    ensures Flag(WithFlag(st, t, v), t) == v
    ensures forall u :: u != t ==> Flag(WithFlag(st, t, v), u) == Flag(st, u)
    ensures WithFlag(st, t, v).timeScale == st.timeScale
  {
  }

  // ----- storage -----

  /** The JSON values a parsed storage item can hold. */
  datatype Json = JNull | JBool(b: bool) | JNum(n: real) | JStr(s: string) | JArray(items: seq<Json>) | JObject(fields: map<string, Json>)

  /**
   * The storage item under the settings key, as `JSON.parse` sees it: missing, the
   * empty string, text that does not parse, or the value the text parses to.
   */
  datatype StoredItem = Missing | EmptyText | Unparsable | Parsed(value: Json)

  /**
   * `safeReadSettings`: the saved record, or nothing when the item is
   * missing, empty, unparsable, or parses to a non-object. An array passes
   * the `typeof === 'object'` test; it has none of the nine keys.
   */
  function SafeReadSettings(item: StoredItem): (r: Option<map<string, Json>>)
    ensures r.Some? <==> item.Parsed? && (item.value.JObject? || item.value.JArray?)
    ensures item.Parsed? && item.value.JObject? ==> r == Some(item.value.fields)
    ensures item.Parsed? && item.value.JArray? ==> r == Some(map[])
  {
    match item
    case Parsed(JObject(fields)) => Some(fields)
    case Parsed(JArray(_)) => Some(map[])
    case _ => None
  }

  /** The saved record holds a boolean under `key` (absent keys and other kinds do not count). */
  predicate IsBool(saved: map<string, Json>, key: string)
  {
    key in saved && saved[key].JBool?
  }

  /** The saved record's `timeWarp` field is exactly the string `tag`. */
  predicate IsTag(saved: map<string, Json>, tag: string)
  {
    TIME_WARP_KEY in saved && saved[TIME_WARP_KEY] == JStr(tag)
  }

  /** The warp whose tag `saved.timeWarp` equals, if any. */
  function SavedWarp(saved: map<string, Json>): (r: Option<TimeWarp>)
    ensures r.Some? <==> IsTag(saved, "slow") || IsTag(saved, "normal") || IsTag(saved, "fast")
    ensures r.Some? ==> IsTag(saved, WarpTag(r.value))
  {
    if IsTag(saved, "slow") then Some(Slow)
    else if IsTag(saved, "normal") then Some(Normal)
    else if IsTag(saved, "fast") then Some(Fast)
    else None
  }

  /** A guarded switch setter: the saved value when it is a boolean, else the current one. */
  function BoolOr(saved: map<string, Json>, key: string, current: bool): bool
  {
    if IsBool(saved, key) then saved[key].b else current
  }

  /**
   * The three guarded time-scale setters run in turn (slow, normal, fast):
   * the last one whose tag matches wins, else the current scale stays.
   */
  function WarpOr(saved: map<string, Json>, current: real): real
  {
    if IsTag(saved, "fast") then 0.42
    else if IsTag(saved, "normal") then 0.18
    else if IsTag(saved, "slow") then 0.09
    else current
  }

  /** The state after the restore step has applied a saved record (or nothing). */
  function Restored(st: SceneState, saved: Option<map<string, Json>>): SceneState
  {
    match saved
    case None => st
    case Some(f) =>
      SceneState(
        BoolOr(f, ToggleKey(Bloom), st.bloomEnabled),
        BoolOr(f, ToggleKey(OrbitRings), st.orbitRingsEnabled),
        BoolOr(f, ToggleKey(OrbitLines), st.orbitLinesEnabled),
        BoolOr(f, ToggleKey(PlanetLabels), st.planetLabelsEnabled),
        BoolOr(f, ToggleKey(HabitableZone), st.habitableZoneEnabled),
        WarpOr(f, st.timeScale),
        BoolOr(f, ToggleKey(Sfx), st.sfxEnabled),
        BoolOr(f, ToggleKey(AsteroidBelt), st.asteroidBeltEnabled),
        BoolOr(f, ToggleKey(Atmospheres), st.atmospheresEnabled))
  }

  /** The record the save step writes: all nine fields, the time scale as its warp tag. */
  datatype Settings = Settings(
    bloomEnabled: bool,
    orbitRingsEnabled: bool,
    orbitLinesEnabled: bool,
    planetLabelsEnabled: bool,
    habitableZoneEnabled: bool,
    timeWarp: TimeWarp,
    sfxEnabled: bool,
    asteroidBeltEnabled: bool,
    atmospheresEnabled: bool)

  function ToSettings(st: SceneState): Settings
  {
    Settings(st.bloomEnabled, st.orbitRingsEnabled, st.orbitLinesEnabled, st.planetLabelsEnabled,
             st.habitableZoneEnabled, ClassifyWarp(st.timeScale), st.sfxEnabled, st.asteroidBeltEnabled,
             st.atmospheresEnabled)
  }

  /** The JSON object a record is stored as. */
  function SettingsJson(s: Settings): map<string, Json>
  {
    map[
      ToggleKey(Bloom) := JBool(s.bloomEnabled),
      ToggleKey(OrbitRings) := JBool(s.orbitRingsEnabled),
      ToggleKey(OrbitLines) := JBool(s.orbitLinesEnabled),
      ToggleKey(PlanetLabels) := JBool(s.planetLabelsEnabled),
      ToggleKey(HabitableZone) := JBool(s.habitableZoneEnabled),
      TIME_WARP_KEY := JStr(WarpTag(s.timeWarp)),
      ToggleKey(Sfx) := JBool(s.sfxEnabled),
      ToggleKey(AsteroidBelt) := JBool(s.asteroidBeltEnabled),
      ToggleKey(Atmospheres) := JBool(s.atmospheresEnabled)]
  }

  // ----- properties of restore and save -----

  /** Restore copies a saved switch only when it is a boolean; otherwise the switch keeps its value. */
  lemma RestoreFlag(st: SceneState, saved: map<string, Json>, t: Toggle)
    ensures Flag(Restored(st, Some(saved)), t) ==
      if ToggleKey(t) in saved && saved[ToggleKey(t)].JBool? then saved[ToggleKey(t)].b else Flag(st, t)
  {
  }

  /** A missing or unrecognised `timeWarp` leaves the time scale alone; a known tag sets its scale. */
  lemma RestoreTimeScale(st: SceneState, saved: map<string, Json>)
    ensures (TIME_WARP_KEY !in saved || saved[TIME_WARP_KEY] !in {JStr("slow"), JStr("normal"), JStr("fast")})
            ==> Restored(st, Some(saved)).timeScale == st.timeScale
    ensures forall w :: (TIME_WARP_KEY in saved && saved[TIME_WARP_KEY] == JStr(WarpTag(w))
                         ==> Restored(st, Some(saved)).timeScale == WarpScale(w))
  {
    forall w | TIME_WARP_KEY in saved && saved[TIME_WARP_KEY] == JStr(WarpTag(w))
      ensures Restored(st, Some(saved)).timeScale == WarpScale(w)
    {
      assert WarpTag(w) in {"slow", "normal", "fast"};
      var r := SavedWarp(saved);
      WarpTagsDistinct(r.value, w);
    }
  }

  /** A record with none of the nine keys, or nothing read at all, restores nothing. */
  lemma RestoreNothing(st: SceneState, item: StoredItem)
    ensures SafeReadSettings(item) == None ==> Restored(st, SafeReadSettings(item)) == st
    ensures item.Missing? || item.EmptyText? || item.Unparsable? ==> Restored(st, SafeReadSettings(item)) == st
    ensures item.Parsed? && !item.value.JObject? ==> Restored(st, SafeReadSettings(item)) == st
  {
    if item.Parsed? && item.value.JArray? {
      RestoreEmptyRecord(st);
    }
  }

  /** An object without any of the nine keys (such as a parsed array) changes nothing. */
  lemma RestoreEmptyRecord(st: SceneState)
    ensures Restored(st, Some(map[])) == st
  {
  }

  /** The nine keys of a saved record. */
  const SAVED_KEYS: set<string> := {
    "bloomEnabled", "orbitRingsEnabled", "orbitLinesEnabled", "planetLabelsEnabled", "habitableZoneEnabled",
    "timeWarp", "sfxEnabled", "asteroidBeltEnabled", "atmospheresEnabled"}

  /** Length and sixth letter tell the nine keys apart. */
  function KeySignature(k: string): (int, char)
  {
    (|k|, if |k| > 5 then k[5] else ' ')
  }

  lemma KeysDistinct()
    ensures forall t, u :: ToggleKey(t) == ToggleKey(u) ==> t == u
    ensures forall t :: ToggleKey(t) != TIME_WARP_KEY && ToggleKey(t) in SAVED_KEYS
  {
    forall t, u | t != u ensures ToggleKey(t) != ToggleKey(u) {
      assert KeySignature(ToggleKey(t)) != KeySignature(ToggleKey(u));
    }
    forall t ensures ToggleKey(t) != TIME_WARP_KEY {
      assert KeySignature(ToggleKey(t)) != KeySignature(TIME_WARP_KEY);
    }
  }

  function SettingsFlag(s: Settings, t: Toggle): bool
  {
    match t
    case Bloom => s.bloomEnabled
    case OrbitRings => s.orbitRingsEnabled
    case OrbitLines => s.orbitLinesEnabled
    case PlanetLabels => s.planetLabelsEnabled
    case HabitableZone => s.habitableZoneEnabled
    case Sfx => s.sfxEnabled
    case AsteroidBelt => s.asteroidBeltEnabled
    case Atmospheres => s.atmospheresEnabled
  }

  lemma SavedKeys(s: Settings)
    ensures SettingsJson(s).Keys == SAVED_KEYS
  {
  }

  lemma SavedFlag(s: Settings, t: Toggle)
    ensures SettingsJson(s)[ToggleKey(t)] == JBool(SettingsFlag(s, t))
  {
    match t
    case Bloom =>
    case OrbitRings =>
    case OrbitLines =>
    case PlanetLabels =>
    case HabitableZone =>
    case Sfx =>
    case AsteroidBelt =>
    case Atmospheres =>
  }

  lemma SavedTag(s: Settings)
    ensures SettingsJson(s)[TIME_WARP_KEY] == JStr(WarpTag(s.timeWarp))
  {
    KeysDistinct();
  }

  /** The save step writes all nine keys, each switch as its boolean and the warp as its tag. */
  lemma SaveWritesAllNine(s: Settings)
    ensures SettingsJson(s).Keys == SAVED_KEYS
    ensures forall t :: SettingsJson(s)[ToggleKey(t)] == JBool(SettingsFlag(s, t))
    ensures SettingsJson(s)[TIME_WARP_KEY] == JStr(WarpTag(s.timeWarp))
  {
    SavedKeys(s);
    SavedTag(s);
    forall t ensures SettingsJson(s)[ToggleKey(t)] == JBool(SettingsFlag(s, t)) {
      SavedFlag(s, t);
    }
  }

  /** Restoring a record that holds a boolean for every switch and a known tag sets exactly those. */
  lemma RestoreFullRecord(before: SceneState, f: map<string, Json>, s: Settings)
    requires forall t :: ToggleKey(t) in f && f[ToggleKey(t)] == JBool(SettingsFlag(s, t))
    requires TIME_WARP_KEY in f && f[TIME_WARP_KEY] == JStr(WarpTag(s.timeWarp))
    ensures forall t :: Flag(Restored(before, Some(f)), t) == SettingsFlag(s, t)
    ensures Restored(before, Some(f)).timeScale == WarpScale(s.timeWarp)
  {
    RestoreTimeScale(before, f);
    forall t ensures Flag(Restored(before, Some(f)), t) == SettingsFlag(s, t) {
      RestoreFlag(before, f, t);
    }
  }

  /** Restoring a saved record brings back its switches and the time scale of its warp. */
  lemma RestoreSavedRecord(before: SceneState, s: Settings)
    ensures forall t :: Flag(Restored(before, Some(SettingsJson(s))), t) == SettingsFlag(s, t)
    ensures Restored(before, Some(SettingsJson(s))).timeScale == WarpScale(s.timeWarp)
  {
    SaveWritesAllNine(s);
    RestoreFullRecord(before, SettingsJson(s), s);
  }

  /**
   * Restoring a just-saved record brings back every switch and the warp
   * class of the time scale, whatever the state before; saving again then
   * writes the identical record.
   */
  lemma SaveRestoreIdempotent(before: SceneState, st: SceneState)
    ensures var r := Restored(before, SafeReadSettings(Parsed(JObject(SettingsJson(ToSettings(st))))));
            (forall t :: Flag(r, t) == Flag(st, t))
            && r.timeScale == WarpScale(ClassifyWarp(st.timeScale))
            && ToSettings(r) == ToSettings(st)
  {
    var s := ToSettings(st);
    var r := Restored(before, Some(SettingsJson(s)));
    RestoreSavedRecord(before, s);
    assert forall t :: SettingsFlag(s, t) == Flag(st, t);
    WarpRoundTrip(s.timeWarp);
    SameFlagsSameSettings(r, st);
  }

  /** The saved record depends only on the switches and the warp class of the time scale. */
  lemma SameFlagsSameSettings(a: SceneState, b: SceneState)
    requires forall t :: Flag(a, t) == Flag(b, t)
    requires ClassifyWarp(a.timeScale) == ClassifyWarp(b.timeScale)
    ensures ToSettings(a) == ToSettings(b)
  {
    assert Flag(a, Bloom) == Flag(b, Bloom) && Flag(a, OrbitRings) == Flag(b, OrbitRings);
    assert Flag(a, OrbitLines) == Flag(b, OrbitLines) && Flag(a, PlanetLabels) == Flag(b, PlanetLabels);
    assert Flag(a, HabitableZone) == Flag(b, HabitableZone) && Flag(a, Sfx) == Flag(b, Sfx);
    assert Flag(a, AsteroidBelt) == Flag(b, AsteroidBelt) && Flag(a, Atmospheres) == Flag(b, Atmospheres);
  }

  // ----- the imperative side: browser storage and the component's state cells -----

  /** The browser's key-value storage, reduced to the one item under `ov_scene_settings_v4`. */
  class SettingsStorage {
    var item: StoredItem
    /** False when `setItem` throws (storage disabled or full). */
    var writable: bool

    constructor (item: StoredItem, writable: bool)
      ensures this.item == item && this.writable == writable
    {
      this.item := item;
      this.writable := writable;
    }

    /** `safeWriteSettings`: store the record; a failing write is swallowed and changes nothing. */
    method SafeWriteSettings(s: Settings)
      modifies this`item
      ensures writable ==> item == Parsed(JObject(SettingsJson(s)))
      ensures !writable ==> item == old(item)
    {
      if writable {
        item := Parsed(JObject(SettingsJson(s)));
      }
    }
  }

  /**
   * The component's state: the menu's open flag and its nine settings
   * cells, held together as one `SceneState` value that each setter
   * replaces.
   */
  class SceneSettingsState {
    var isOpen: bool
    var cells: SceneState

    constructor (isOpen: bool, initial: SceneState)
      ensures this.isOpen == isOpen && cells == initial
    {
      this.isOpen := isOpen;
      cells := initial;
    }

    /** `toggleOpen`: flips the panel; toggling twice restores it. */
    method ToggleOpen()
      modifies this`isOpen
      ensures isOpen == !old(isOpen)
    {
      isOpen := !isOpen;
    }

    /** `close`, also bound to the Close button and the Escape key. */
    method Close()
      modifies this`isOpen
      ensures !isOpen
    {
      isOpen := false;
    }

    /** A Slow/Normal/Fast button: sets its time scale, which then highlights that button alone. */
    method SelectWarp(w: TimeWarp)
      modifies this`cells
      ensures cells == old(cells).(timeScale := WarpScale(w))
      ensures ClassifyWarp(cells.timeScale) == w
      ensures SlowHighlighted(cells.timeScale) <==> w == Slow
      ensures NormalHighlighted(cells.timeScale) <==> w == Normal
      ensures FastHighlighted(cells.timeScale) <==> w == Fast
    {
      cells := cells.(timeScale := WarpScale(w));
    }

    /** A switch row's `onChange`: that switch takes the new value, every other cell keeps its own. */
    method SetToggle(t: Toggle, v: bool)
      modifies this`cells
      ensures cells == WithFlag(old(cells), t, v)
      ensures Flag(cells, t) == v && cells.timeScale == old(cells).timeScale
      ensures forall u :: u != t ==> Flag(cells, u) == Flag(old(cells), u)
    {
      FlagUpdate(cells, t, v);
      cells := WithFlag(cells, t, v);
    }

    /**
     * The mount-time restore effect: read the saved record and, if there is
     * one, run the guarded setters `Restored` describes.
     */
    method Restore(storage: SettingsStorage)
      modifies this`cells
      ensures cells == Restored(old(cells), SafeReadSettings(storage.item))
    {
      var saved := SafeReadSettings(storage.item);
      if saved.Some? {
        cells := Restored(cells, saved);
      }
    }

    /** The save effect: classify the time scale and write all nine fields. */
    method Save(storage: SettingsStorage)
      modifies storage`item
      ensures storage.writable ==> storage.item == Parsed(JObject(SettingsJson(ToSettings(cells))))
      ensures !storage.writable ==> storage.item == old(storage.item)
    {
      var timeWarp := if cells.timeScale <= 0.1 then Slow else if cells.timeScale >= 0.3 then Fast else Normal;
      storage.SafeWriteSettings(Settings(
        cells.bloomEnabled, cells.orbitRingsEnabled, cells.orbitLinesEnabled, cells.planetLabelsEnabled,
        cells.habitableZoneEnabled, timeWarp, cells.sfxEnabled, cells.asteroidBeltEnabled,
        cells.atmospheresEnabled));
    }
  }

  /**
   * Saving, restoring what was saved into any state, and saving again
   * leaves the stored item as the first save wrote it.
   */
  method SaveRestoreSave(scene: SceneSettingsState, other: SceneSettingsState, storage: SettingsStorage)
    requires storage.writable
    modifies scene, other, storage
    ensures storage.item == Parsed(JObject(SettingsJson(ToSettings(old(scene.cells)))))
    ensures ToSettings(other.cells) == ToSettings(old(scene.cells))
  {
    scene.Save(storage);
    var written := storage.item;
    ghost var st := scene.cells;
    ghost var before := other.cells;
    other.Restore(storage);
    SaveRestoreIdempotent(before, st);
    other.Save(storage);
    assert storage.item == written;
  }
}
