# Orbit view: planet catalogue, particle colours and the two scene menus

A Dafny model of the logic behind the orbit-view scene of this solar-system
site. It has four parts:

- **Catalogue** (`catalogue.dfy`): the `PLANETS` table of nine bodies with the
  fields the scene and the menu read. There is a lookup by name with the
  semantics of `Array.prototype.find`. Lemmas cover the table's shape: names
  are unique, distances increase outwards, orbital speeds decrease, and only
  Saturn has rings.
- **Gradient** (`gradient.dfy`): the particle-cloud colouring.
  - `getGradientStop` clamps the ratio, parses the two hex colours octet by
    octet and blends each channel with `Math.round` and `Math.min`. It packs
    the channels with 32-bit `<< 8`, prints them with `toString(16)` and pads
    them with `padStart`.
  - `calculateColor` maps an x coordinate to a ratio.
  - `pointsInner` / `pointsOuter` number the points `1..n`.
  - The main result is a round trip: every stop is `#` plus six lower-case
    hex digits that decode back to the blended channels. Each channel lies
    between the two endpoint colours' channels. The endpoints and the centre
    are computed exactly (`#0078d7`, `#3fb950`, `#209994`).
- **SceneSettings** (`scene_settings.dfy`): the scene-settings menu. It has
  eight switches, a time scale, the warp tag the scale is saved as and the
  storage record under `ov_scene_settings_v4`.
  - The restore step reads the record and applies only well-typed fields.
  - The save step writes all nine fields; a failing write is swallowed.
  - The warp buttons highlight exactly one choice.
  - Saving and then restoring gives back the same settings.
- **PlanetMenu** (`planet_menu.dfy`): the planet menu's state. It has three
  cells: menu open, selected planet and focus target. The model covers the
  three handlers and the views derived from the cells: the details panel,
  which item is highlighted and the rounded corners.

The handlers that update state in place are classes whose methods are tied to
pure transition functions, and the lemmas are about those functions:
- `SceneSettings.SceneSettingsState` and `SceneSettings.SettingsStorage`;
- `PlanetMenu.PlanetMenuState`.

Number conventions:
- JavaScript numbers are modelled as `real`.
- `Math.round(v)` is `Floor(v + 0.5)`.
- `<<` is written out as a 32-bit signed wrap.

## Model

| member | source | states |
|---|---|---|
| Catalogue.Find | src/components/SolarSystem/PlanetMenu.tsx:56 | `find` by name: a result exactly when some entry has the name, and then it is the first such entry |
| Catalogue.FindOwnName | src/components/SolarSystem/PlanetMenu.tsx:56 | with unique names, looking up an entry's own name returns that entry |
| Catalogue.TableNames | src/constants/solarSystem.constants.ts:1-128 | the table has nine entries, Mercury to Pluto in order |
| Catalogue.PlanetNamesUnique | src/constants/solarSystem.constants.ts:3-115 | no two entries share a name (the menu keys items by name) |
| Catalogue.AdjacentToPairwise | src/constants/solarSystem.constants.ts:6-118 | a sequence increasing at each step is strictly increasing between any two positions |
| Catalogue.DistanceIncreasing | src/constants/solarSystem.constants.ts:6-118 | scene distances strictly increase from Mercury outwards |
| Catalogue.AvgDistanceIncreasing | src/constants/solarSystem.constants.ts:7-119 | real mean distances strictly increase, and they order the planets as the scene distances do |
| Catalogue.SpeedDecreasing | src/constants/solarSystem.constants.ts:8-120 | orbital speeds strictly decrease outwards |
| Catalogue.RadiiConsistent | src/constants/solarSystem.constants.ts:4-117 | all radii are positive, and a smaller real radius never has a larger scene radius |
| Catalogue.OnlySaturnHasRings | src/constants/solarSystem.constants.ts:82 | an entry has rings exactly when it is Saturn |
| Gradient.DigitValue | src/lib/particals.utils.ts:13-18 | a hex digit (either case) is worth less than 16 |
| Gradient.LowerDigit | src/lib/particals.utils.ts:20-23 | the digit `toString(16)` prints is a lower-case hex digit that reads back as the same value |
| Gradient.Pow16 | src/lib/particals.utils.ts:13-18 | powers of sixteen are positive |
| Gradient.HexValue | src/lib/particals.utils.ts:13-18 | `parseInt(s, 16)` of a k-digit string is below 16^k |
| Gradient.HexValueConcat | src/lib/particals.utils.ts:13-18 | the value of a concatenation is the first part shifted by the second part's digits plus the second |
| Gradient.Octets | src/lib/particals.utils.ts:13-18 | `match(/.{1,2}/g)` then `parseInt` gives ceil(n/2) values, each below 256 |
| Gradient.EndpointOctets | src/lib/particals.utils.ts:4-5 | the two configured colours parse to [0,120,215] and [63,185,80] |
| Gradient.LeftOctets | src/lib/particals.utils.ts:4 | `0078D7` parses to [0,120,215] |
| Gradient.RightOctets | src/lib/particals.utils.ts:5 | `3FB950` parses to [63,185,80] |
| Gradient.Clamp | src/lib/particals.utils.ts:11 | the ratio lands in [0,1]: unchanged inside, 0 below, 1 above |
| Gradient.Round | src/lib/particals.utils.ts:19 | `Math.round`: the nearest integer, halves rounding up; its bound is stated by `RoundBetween` |
| Gradient.Min | src/lib/particals.utils.ts:19 | the smaller of two integers, capping a channel at 255; the cap is part of `ChannelsBetweenEndpoints` |
| Gradient.Channel | src/lib/particals.utils.ts:13-19 | one blended channel: left octet times 1 - ratio plus right octet times ratio, rounded and capped at 255; bounded by `EndpointChannelBounds` |
| Gradient.Channels | src/lib/particals.utils.ts:19 | the blend has three channels |
| Gradient.RoundBetween | src/lib/particals.utils.ts:19 | `Math.round` of a value between two integers stays between them |
| Gradient.EndpointChannelBounds | src/lib/particals.utils.ts:13-19 | for a ratio in [0,1] each blended channel lies between the two colours' channels |
| Gradient.ChannelsOfRatio | src/lib/particals.utils.ts:13-19 | the blend is channel-wise over the parsed octets of the two colours |
| Gradient.ChannelsInRange | src/lib/particals.utils.ts:19 | for a ratio in [0,1] every channel is in 0..255 |
| Gradient.ToInt32 | src/lib/particals.utils.ts:21 | the 32-bit signed wrap of `<<`: the result is in Int32 range, congruent to the input and equal to it when it fits |
| Gradient.ShiftLeft8 | src/lib/particals.utils.ts:21 | JavaScript `<< 8`: multiply by 256, then the 32-bit signed wrap; `PackThree` shows it never wraps on octets |
| Gradient.Pack | src/lib/particals.utils.ts:20-21 | the left fold shifting by 8 bits and adding each channel; `PackThree` gives its value r·65536 + g·256 + b |
| Gradient.PackThree | src/lib/particals.utils.ts:20-21 | the `reduce` with `(a << 8) + v` over three octets is the 24-bit value r·65536 + g·256 + b, no wrap occurring |
| Gradient.HexNat | src/lib/particals.utils.ts:22 | `toString(16)` prints a non-empty lower-case hex string that reads back as the number |
| Gradient.ToHexString | src/lib/particals.utils.ts:22 | `toString(16)` of any integer, a minus sign before negative numbers; on packed channels it is `HexNat`, whose contract states the read-back |
| Gradient.HexNatLength | src/lib/particals.utils.ts:22 | a number below 16^k prints in at most k digits |
| Gradient.ZerosValue | src/lib/particals.utils.ts:23 | the zero padding is hex and worth 0 |
| Gradient.PadStart | src/lib/particals.utils.ts:23 | `padStart` with zeros: a shorter string gets leading zeros up to the width, a longer one is kept; `PaddedHex` and `LeftPadding` state its results |
| Gradient.ZerosPrefix | src/lib/particals.utils.ts:23 | left-padding with zeros keeps a hex string lower-case and keeps its value |
| Gradient.PaddedValue | src/lib/particals.utils.ts:23 | `padStart(w, '0')` of a lower-case hex string no longer than w has length w, stays lower-case hex and keeps its value |
| Gradient.PaddedHex | src/lib/particals.utils.ts:22-23 | `toString(16).padStart(6,'0')` of a 24-bit value is six lower-case hex digits worth that value |
| Gradient.EncodeChannels | src/lib/particals.utils.ts:20-25 | packs the channels, prints them in base 16, pads to six and prefixes `#`; `EncodeDecode` proves it decodes back to the channels |
| Gradient.GradientStop | src/lib/particals.utils.ts:8-26 | `getGradientStop`: clamp, blend, encode; its contract is `GradientStopRoundTrip`, `ChannelsBetweenEndpoints`, `ClampedStops` and `EndpointStops` |
| Gradient.SixDigitOctets | src/lib/particals.utils.ts:13-18 | splitting six digits into pairs gives the three base-256 digits of their value |
| Gradient.SixDigitChunks | src/lib/particals.utils.ts:13-18 | pairing six digits gives the values of the three two-digit slices |
| Gradient.SixDigitValue | src/lib/particals.utils.ts:13-18 | six digits are worth their three pairs in base 256 |
| Gradient.EncodeDecode | src/lib/particals.utils.ts:20-25 | three octets print as a well-formed `#rrggbb` stop that parses back to the same octets |
| Gradient.GradientStopRoundTrip | src/lib/particals.utils.ts:8-26 | every gradient stop, for any ratio, is well formed and parses back to the blend at the clamped ratio |
| Gradient.ChannelsBetweenEndpoints | src/lib/particals.utils.ts:8-26 | each channel of every stop lies between the matching channels of the two configured colours |
| Gradient.ClampedStops | src/lib/particals.utils.ts:9-11 | ratios below 0 give the ratio-0 stop, above 1 the ratio-1 stop |
| Gradient.EndpointChannels | src/lib/particals.utils.ts:13-19 | ratio 0 blends to the left colour, ratio 1 to the right colour |
| Gradient.LeftDigits | src/lib/particals.utils.ts:22 | 0x78d7 prints as `78d7` |
| Gradient.RightDigits | src/lib/particals.utils.ts:22 | 0x3fb950 prints as `3fb950` |
| Gradient.EndpointStops | src/lib/particals.utils.ts:8-26 | the stops at ratios 0 and 1 are `#0078d7` and `#3fb950` |
| Gradient.LeftStop | src/lib/particals.utils.ts:20-25 | [0,120,215] prints as `#0078d7` (leading zeros restored by the padding) |
| Gradient.EncodeDigits | src/lib/particals.utils.ts:20-25 | three octets whose packed value prints as h give `#` plus h padded to six |
| Gradient.LeftPadding | src/lib/particals.utils.ts:23 | `"78d7".padStart(6,'0')` is `0078d7` |
| Gradient.RightStop | src/lib/particals.utils.ts:20-25 | [63,185,80] prints as `#3fb950` |
| Gradient.ColorRatio | src/lib/particals.utils.ts:29-32 | the x coordinate shifted by 90 and divided by 180; `CalculateColorEnds` states where it leaves [0, 1] |
| Gradient.CalculateColor | src/lib/particals.utils.ts:28-36 | `calculateColor`: the gradient stop at the ratio of x; `CalculateColorEnds` and `MidpointStop` give its ends and centre |
| Gradient.CalculateColorEnds | src/lib/particals.utils.ts:28-36 | x at or left of -90 gives the left colour, x at or right of 90 the right colour, x = 0 gives ratio 1/2 |
| Gradient.MidpointChannels | src/lib/particals.utils.ts:13-19 | ratio 1/2 blends to [32,153,148] |
| Gradient.MidpointDigits | src/lib/particals.utils.ts:22 | 0x209994 prints as `209994` |
| Gradient.MidpointStop | src/lib/particals.utils.ts:28-36 | the point at x = 0 is coloured `#209994` |
| Gradient.MakePoints | src/lib/particals.utils.ts:48-65 | n points numbered 1..n, each at its sampled position and coloured by that position's x |
| Gradient.PointsInner | src/lib/particals.utils.ts:48-65 | the 1500 inner points over a sample of positions; `PointNumbering` states their count, numbering and colours |
| Gradient.PointsOuter | src/lib/particals.utils.ts:67-84 | the 375 outer points over a sample of positions; `PointNumbering` states their count, numbering and colours |
| Gradient.PointNumbering | src/lib/particals.utils.ts:48-84 | the inner cloud has 1500 points, the outer 375, numbered from 1, each coloured with a well-formed stop |
| SceneSettings.WarpTag | src/components/SolarSystem/SceneSettingsMenu.tsx:45 | the string a warp is saved as; `WarpTagsDistinct` shows the three are distinct |
| SceneSettings.WarpScale | src/components/SolarSystem/SceneSettingsMenu.tsx:155-157 | the preset scale of each warp (0.09, 0.18, 0.42); `WarpRoundTrip` shows each classifies back to its warp |
| SceneSettings.ClassifyWarp | src/components/SolarSystem/SceneSettingsMenu.tsx:167 | the warp a time scale is saved as; `ClassifyPartition` states the three ranges |
| SceneSettings.SlowHighlighted | src/components/SolarSystem/SceneSettingsMenu.tsx:240 | the Slow button is lit at scales up to 0.1; `ExactlyOneHighlighted` relates it to the classification |
| SceneSettings.NormalHighlighted | src/components/SolarSystem/SceneSettingsMenu.tsx:249 | the Normal button is lit strictly between 0.1 and 0.3; `ExactlyOneHighlighted` relates it to the classification |
| SceneSettings.FastHighlighted | src/components/SolarSystem/SceneSettingsMenu.tsx:257 | the Fast button is lit from 0.3 up; `ExactlyOneHighlighted` relates it to the classification |
| SceneSettings.WarpRoundTrip | src/components/SolarSystem/SceneSettingsMenu.tsx:155-157 | each warp's scale classifies back to that warp (saving a preset keeps it) |
| SceneSettings.WarpTagsDistinct | src/components/SolarSystem/SceneSettingsMenu.tsx:45 | the three warp tags are distinct |
| SceneSettings.ClassifyPartition | src/components/SolarSystem/SceneSettingsMenu.tsx:167 | slow iff scale ≤ 0.1, fast iff ≥ 0.3, normal iff strictly between |
| SceneSettings.ExactlyOneHighlighted | src/components/SolarSystem/SceneSettingsMenu.tsx:240-257 | each warp button is highlighted iff the scale classifies as its warp, and exactly one is |
| SceneSettings.WithFlag | src/components/SolarSystem/SceneSettingsMenu.tsx:96 | one switch set to a new value; `FlagUpdate` shows that switch alone changes |
| SceneSettings.FlagUpdate | src/components/SolarSystem/SceneSettingsMenu.tsx:96 | a switch's setter sets that switch, keeps the other seven and the time scale |
| SceneSettings.SafeReadSettings | src/components/SolarSystem/SceneSettingsMenu.tsx:53-62 | a record exactly for a parsed object or array (an array has no fields); none for a missing, empty, unparsable or primitive item |
| SceneSettings.SavedWarp | src/components/SolarSystem/SceneSettingsMenu.tsx:155-157 | a warp exactly when the saved tag is one of the three, and then it is the warp with that tag |
| SceneSettings.IsBool | src/components/SolarSystem/SceneSettingsMenu.tsx:149-153 | the record holds a JSON boolean under a key; used by `RestoreFlag` |
| SceneSettings.IsTag | src/components/SolarSystem/SceneSettingsMenu.tsx:155-157 | the record's `timeWarp` is a given string; used by `SavedWarp` and `RestoreTimeScale` |
| SceneSettings.BoolOr | src/components/SolarSystem/SceneSettingsMenu.tsx:149-161 | one guarded switch setter: the saved boolean, else the current value; stated by `RestoreFlag` |
| SceneSettings.WarpOr | src/components/SolarSystem/SceneSettingsMenu.tsx:155-157 | the three guarded scale setters in turn; stated by `RestoreTimeScale` |
| SceneSettings.Restored | src/components/SolarSystem/SceneSettingsMenu.tsx:145-164 | the state after the restore step applies a record; `RestoreFlag`, `RestoreTimeScale`, `RestoreNothing` and `RestoreSavedRecord` state it |
| SceneSettings.RestoreFlag | src/components/SolarSystem/SceneSettingsMenu.tsx:149-161 | each switch takes the saved value when it is a boolean, else keeps its value |
| SceneSettings.RestoreTimeScale | src/components/SolarSystem/SceneSettingsMenu.tsx:155-157 | an unknown or missing tag keeps the scale; a known tag sets its preset |
| SceneSettings.RestoreNothing | src/components/SolarSystem/SceneSettingsMenu.tsx:145-147 | with no usable record (missing, empty, unparsable, not an object) nothing changes |
| SceneSettings.RestoreEmptyRecord | src/components/SolarSystem/SceneSettingsMenu.tsx:149-161 | an empty record changes nothing |
| SceneSettings.ToSettings | src/components/SolarSystem/SceneSettingsMenu.tsx:166-179 | the record the save step builds from the cells, the scale as its warp; `SameFlagsSameSettings` and `SaveRestoreIdempotent` state it |
| SceneSettings.SettingsJson | src/components/SolarSystem/SceneSettingsMenu.tsx:169-179 | the record as a JSON object of nine fields; `SaveWritesAllNine` states its keys and values |
| SceneSettings.KeysDistinct | src/components/SolarSystem/SceneSettingsMenu.tsx:38-49 | the eight switch keys are distinct, none is `timeWarp`, all are saved keys |
| SceneSettings.SavedKeys | src/components/SolarSystem/SceneSettingsMenu.tsx:169-179 | the written record has exactly the nine keys |
| SceneSettings.SavedFlag | src/components/SolarSystem/SceneSettingsMenu.tsx:169-179 | each switch is written as a boolean under its key |
| SceneSettings.SavedTag | src/components/SolarSystem/SceneSettingsMenu.tsx:175 | the warp is written as its tag under `timeWarp` |
| SceneSettings.SaveWritesAllNine | src/components/SolarSystem/SceneSettingsMenu.tsx:169-179 | the record has the nine keys, the switches as booleans and the warp as its tag |
| SceneSettings.RestoreFullRecord | src/components/SolarSystem/SceneSettingsMenu.tsx:149-161 | a record holding every key with the right type overrides every cell |
| SceneSettings.RestoreSavedRecord | src/components/SolarSystem/SceneSettingsMenu.tsx:145-179 | restoring a written record sets each switch to its saved value and the scale to the saved warp's preset |
| SceneSettings.SaveRestoreIdempotent | src/components/SolarSystem/SceneSettingsMenu.tsx:145-190 | from any state, restoring what a state saved yields a state that saves the same record |
| SceneSettings.SameFlagsSameSettings | src/components/SolarSystem/SceneSettingsMenu.tsx:166-179 | equal switches and equally classified scales write the same record |
| SceneSettings.SettingsStorage.constructor | src/components/SolarSystem/SceneSettingsMenu.tsx:51 | storage starts with the given item and writability |
| SceneSettings.SettingsStorage.SafeWriteSettings | src/components/SolarSystem/SceneSettingsMenu.tsx:64-68 | a writable store holds the record afterwards; a failing write leaves the item as it was |
| SceneSettings.SceneSettingsState.constructor | src/components/SolarSystem/SceneSettingsMenu.tsx:104-125 | the menu starts with the given open flag and cells |
| SceneSettings.SceneSettingsState.ToggleOpen | src/components/SolarSystem/SceneSettingsMenu.tsx:142 | the open flag flips |
| SceneSettings.SceneSettingsState.Close | src/components/SolarSystem/SceneSettingsMenu.tsx:143 | the menu is closed afterwards |
| SceneSettings.SceneSettingsState.SelectWarp | src/components/SolarSystem/SceneSettingsMenu.tsx:237-260 | a warp button sets only the scale, to its preset, which classifies as that warp and lights that button alone |
| SceneSettings.SceneSettingsState.SetToggle | src/components/SolarSystem/SceneSettingsMenu.tsx:96 | a switch row sets its own switch and nothing else |
| SceneSettings.SceneSettingsState.Restore | src/components/SolarSystem/SceneSettingsMenu.tsx:145-164 | the cells become the restore of the stored item applied to the old cells |
| SceneSettings.SceneSettingsState.Save | src/components/SolarSystem/SceneSettingsMenu.tsx:166-190 | a writable store then holds the record of the current cells; otherwise it is unchanged |
| SceneSettings.SaveRestoreSave | src/components/SolarSystem/SceneSettingsMenu.tsx:145-190 | saving, restoring into another menu and saving again writes the same record |
| PlanetMenu.AfterToggleMenu | src/components/SolarSystem/PlanetMenu.tsx:44 | `handleToggleMenu` on the three cells; `TransitionEffects` and `ToggleTwice` state it |
| PlanetMenu.AfterFocusSun | src/components/SolarSystem/PlanetMenu.tsx:46-49 | `focusSun` on the three cells; `TransitionEffects`, `TransitionsKeepAgreement` and `TransitionsIdempotent` state it |
| PlanetMenu.AfterPlanetSelect | src/components/SolarSystem/PlanetMenu.tsx:51-54 | `handlePlanetSelect` on the three cells; `TransitionEffects`, `TransitionsKeepAgreement` and `TransitionsIdempotent` state it |
| PlanetMenu.TransitionEffects | src/components/SolarSystem/PlanetMenu.tsx:44-54 | what each handler sets, and that it leaves the other cells alone |
| PlanetMenu.TransitionsKeepAgreement | src/components/SolarSystem/PlanetMenu.tsx:46-54 | after either focus handler the selection names the followed planet, or is empty when the Sun is followed |
| PlanetMenu.TransitionsIdempotent | src/components/SolarSystem/PlanetMenu.tsx:46-54 | pressing a focus item twice is the same as once |
| PlanetMenu.ToggleTwice | src/components/SolarSystem/PlanetMenu.tsx:44 | toggling the menu twice restores it |
| PlanetMenu.SelectedPlanetDetails | src/components/SolarSystem/PlanetMenu.tsx:56 | the catalogue entry named by the selection, none for a null selection; `DetailsShownIffKnown` states it |
| PlanetMenu.ShowsDetails | src/components/SolarSystem/PlanetMenu.tsx:62 | the details panel's guard: a non-empty selection that the catalogue knows; `DetailsShownIffKnown` states it |
| PlanetMenu.IsFollowingSun | src/components/SolarSystem/PlanetMenu.tsx:58 | the Sun item is lit when the Sun is followed; `OneHighlightedItem` and `SelectionViews` state it |
| PlanetMenu.IsFocused | src/components/SolarSystem/PlanetMenu.tsx:150-151 | a planet item is lit when that planet is followed; `FocusedAtMostOne` and `SelectionViews` state it |
| PlanetMenu.DetailsShownIffKnown | src/components/SolarSystem/PlanetMenu.tsx:56-62 | the details panel shows exactly when the selected name is in the table, and then shows that entry |
| PlanetMenu.FocusedAtMostOne | src/components/SolarSystem/PlanetMenu.tsx:150-151 | with unique names at most one planet item is highlighted, exactly one iff a listed planet is followed |
| PlanetMenu.OneHighlightedItem | src/components/SolarSystem/PlanetMenu.tsx:136-168 | the Sun item and the planet items together have at most one highlight, and exactly one when the Sun or a listed planet is followed |
| PlanetMenu.NoneFocused | src/components/SolarSystem/PlanetMenu.tsx:150-151 | when no planet is followed no planet item is highlighted |
| PlanetMenu.SelectionViews | src/components/SolarSystem/PlanetMenu.tsx:46-168 | picking a planet shows its details and highlights it alone; picking the Sun shows no details and highlights the Sun alone |
| PlanetMenu.RealIndex | src/components/SolarSystem/PlanetMenu.tsx:153-154 | a planet item's position after the Sun item; `CornerClasses` states its consequence |
| PlanetMenu.TotalItems | src/components/SolarSystem/PlanetMenu.tsx:155 | the Sun item plus the planets; `CornerClasses` states its consequence |
| PlanetMenu.LeftRounded | src/components/SolarSystem/PlanetMenu.tsx:164 | the left-corner class test; `CornerClasses` shows it never holds for a planet item |
| PlanetMenu.RightRounded | src/components/SolarSystem/PlanetMenu.tsx:165 | the right-corner class test; `CornerClasses` shows it holds for the last item only |
| PlanetMenu.CornerClasses | src/components/SolarSystem/PlanetMenu.tsx:153-165 | no planet item is rounded on the left; exactly the last one is rounded on the right |
| PlanetMenu.PlanetMenuState.constructor | src/components/SolarSystem/PlanetMenu.tsx:31-40 | the cells start as given |
| PlanetMenu.PlanetMenuState.HandleToggleMenu | src/components/SolarSystem/PlanetMenu.tsx:44 | the cells become the toggle transition of the old cells |
| PlanetMenu.PlanetMenuState.FocusSun | src/components/SolarSystem/PlanetMenu.tsx:46-49 | the cells become the focus-Sun transition of the old cells, and selection and focus agree |
| PlanetMenu.PlanetMenuState.HandlePlanetSelect | src/components/SolarSystem/PlanetMenu.tsx:51-54 | the cells become the select transition of the old cells, and selection and focus agree |

## Left out

- The per-frame scene is not modelled: the orbital-position function, the camera-follow controller and its distance clamp, the scale mapping, rendering and trigonometry. The model keeps the menus, the catalogue and the particle colours.
- Randomness: `randomFromInterval` and `Math.random` are not modelled. The point positions are a parameter (`sample`) of `Gradient.MakePoints`, `PointsInner` and `PointsOuter`.
- Storage and the JSON text layer: `localStorage` is abstracted. `StoredItem` is the value `JSON.parse` would give, and `JSON.stringify`'s text is not modelled. A failing write is a `writable` flag.
- `JSON.parse` yields only the value kinds of `Json`. Fields carrying `undefined` or other JavaScript values are not modelled.
- The Escape-key listener is not modelled; its effect is `SceneSettingsState.Close`.
- Effect scheduling is not modelled. That includes the order in which React runs the restore and save effects on mount: the first save runs with the initial values before the restored values land. Restore and save are separate methods, and any order of calls can be composed from them.
- The nine settings cells are held as one `SceneState` value in `SceneSettingsState.cells`. The nine guarded setters of the restore effect are expressed per field in `Restored` (`BoolOr`, `WarpOr`), not as nine separate heap updates. The order of the three time-scale setters is captured: the last matching tag wins, which cannot differ since the tags are distinct.
- Gradient.Octets: requires a non-empty string of hex digits. `parseInt`'s NaN and prefix behaviour on other input is not modelled, because only the two configured colours are parsed.
- Gradient.EndpointChannelBounds: states the channel bound only for the two configured colours, not for arbitrary colour pairs.
- Gradient.Round: models `Math.round` as `Floor(v + 0.5)`. That agrees with JavaScript for every value, the negative halves included, but floating-point rounding of the blend is not modelled (reals are exact).
- `PlanetInfo` leaves out `realMass`, `color`, `details` and `icon`, which serve rendering and display only.
- The router's back-home button, the camera-rotation toggle and its button state are not modelled.
- The Sun item's own class list is not modelled; it never receives rounded-corner classes.
