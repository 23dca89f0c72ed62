/**
 * The planet menu of src/components/SolarSystem/PlanetMenu.tsx: which body the
 * camera follows, which planet is selected, whether the menu is open, and the
 * views derived from them (highlighted item, details panel, rounded corners).
 */
module PlanetMenu {
  import opened Wrappers
  import opened Catalogue

  /** `{ type: 'sun' } | { type: 'planet'; name } | null` */
  datatype FocusTarget = NoTarget | Sun | Planet(name: string)

  /** The three state cells the menu reads and sets (owned by its parent). */
  datatype MenuState = MenuState(isPlanetMenuOpen: bool, selectedPlanet: Option<string>, focusedTarget: FocusTarget)

  // ----- transitions -----

  /** `handleToggleMenu` */
  function AfterToggleMenu(s: MenuState): MenuState
  {
    s.(isPlanetMenuOpen := !s.isPlanetMenuOpen)
  }

  /** `focusSun`: clear the selection, follow the Sun. */
  function AfterFocusSun(s: MenuState): MenuState
  {
    s.(selectedPlanet := None, focusedTarget := Sun)
  }

  /** `handlePlanetSelect(name)`: select the planet and follow it. */
  function AfterPlanetSelect(s: MenuState, name: string): MenuState
  {
    s.(selectedPlanet := Some(name), focusedTarget := Planet(name))
  }

  /** A planet is selected exactly when a planet is followed, and it is the same planet. */
  predicate SelectionAgrees(s: MenuState)
  {
    match s.focusedTarget
    case Planet(n) => s.selectedPlanet == Some(n)
    case _ => s.selectedPlanet == None
  }

  /** What each transition sets, and that each leaves the other cells alone. */
  lemma TransitionEffects(s: MenuState, name: string)
    ensures AfterFocusSun(s).selectedPlanet == None && AfterFocusSun(s).focusedTarget == Sun
    ensures AfterFocusSun(s).isPlanetMenuOpen == s.isPlanetMenuOpen
    ensures AfterPlanetSelect(s, name).selectedPlanet == Some(name)
    ensures AfterPlanetSelect(s, name).focusedTarget == Planet(name)
    ensures AfterPlanetSelect(s, name).isPlanetMenuOpen == s.isPlanetMenuOpen
    ensures AfterToggleMenu(s).isPlanetMenuOpen != s.isPlanetMenuOpen
    ensures AfterToggleMenu(s).selectedPlanet == s.selectedPlanet
    ensures AfterToggleMenu(s).focusedTarget == s.focusedTarget
  {
  }

  /** Both focus transitions establish the agreement from any state; the menu toggle keeps it. */
  lemma TransitionsKeepAgreement(s: MenuState, name: string)
    ensures SelectionAgrees(AfterFocusSun(s))
    ensures SelectionAgrees(AfterPlanetSelect(s, name))
    ensures SelectionAgrees(AfterToggleMenu(s)) <==> SelectionAgrees(s)
  {
  }

  /** Applying a focus transition twice is the same as applying it once. */
  lemma TransitionsIdempotent(s: MenuState, name: string)
    ensures AfterFocusSun(AfterFocusSun(s)) == AfterFocusSun(s)
    ensures AfterPlanetSelect(AfterPlanetSelect(s, name), name) == AfterPlanetSelect(s, name)
  {
  }

  /** Toggling the menu twice restores it. */
  lemma ToggleTwice(s: MenuState)
    ensures AfterToggleMenu(AfterToggleMenu(s)) == s
  {
  }

  // ----- derived views -----

  /** The catalogue entry named by the selection; a null selection matches no entry. */
  function SelectedPlanetDetails(planets: seq<PlanetInfo>, selected: Option<string>): Option<PlanetInfo>
  {
    match selected
    case None => None
    case Some(n) => Find(planets, n)
  }

  /** `selectedPlanet && selectedPlanetDetails`: a non-empty name that the table knows. */
  predicate ShowsDetails(planets: seq<PlanetInfo>, selected: Option<string>)
  {
    selected.Some? && selected.value != "" && SelectedPlanetDetails(planets, selected).Some?
  }

  /** The Sun item is highlighted when the followed target is the Sun. */
  predicate IsFollowingSun(target: FocusTarget)
  {
    target == Sun
  }

  /** A planet item is highlighted when the followed target is that planet. */
  predicate IsFocused(target: FocusTarget, planetName: string)
  {
    target.Planet? && target.name == planetName
  }

  /**
   * The details panel shows exactly when the selected name is in the table,
   * and then it shows that planet's entry; an unknown name shows nothing.
   */
  lemma DetailsShownIffKnown(selected: Option<string>)
    ensures ShowsDetails(PLANETS, selected) <==> selected.Some? && selected.value in Names(PLANETS)
    ensures ShowsDetails(PLANETS, selected) ==>
              exists i :: 0 <= i < |PLANETS| && SelectedPlanetDetails(PLANETS, selected) == Some(PLANETS[i])
                          && PLANETS[i].name == selected.value
  {
    TableNames();
    if selected.Some? && selected.value in Names(PLANETS) {
      var i :| 0 <= i < |PLANETS| && Names(PLANETS)[i] == selected.value;
      PlanetNamesUnique();
      FindOwnName(PLANETS, i);
      assert PLANETS[i].name != "";
    }
  }

  /** How many entries of `planets` are highlighted for `target`. */
  function FocusedCount(planets: seq<PlanetInfo>, target: FocusTarget): nat
  {
    if planets == [] then 0
    else FocusedCount(planets[..|planets| - 1], target) + (if IsFocused(target, planets[|planets| - 1].name) then 1 else 0)
  }

  /**
   * With unique names at most one planet item is highlighted: exactly one
   * when a listed planet is followed, none otherwise.
   */
  lemma {:induction false} FocusedAtMostOne(planets: seq<PlanetInfo>, target: FocusTarget)
    requires UniqueNames(planets)
    ensures FocusedCount(planets, target) <= 1
    ensures FocusedCount(planets, target) == 1 <==> target.Planet? && target.name in Names(planets)
  {
    if planets != [] {
      var init := planets[..|planets| - 1];
      var last := planets[|planets| - 1];
      assert UniqueNames(init);
      FocusedAtMostOne(init, target);
      if IsFocused(target, last.name) {
        forall i | 0 <= i < |init| ensures init[i].name != target.name {
          assert init[i] == planets[i];
        }
        assert target.name !in Names(init);
      }
      if target.Planet? {
        assert Names(planets) == Names(init) + [last.name];
      }
    }
  }

  /**
   * Of the Sun item and the nine planet items at most one is highlighted,
   * and exactly one is when the Sun or a listed planet is followed.
   */
  lemma OneHighlightedItem(target: FocusTarget)
    ensures (if IsFollowingSun(target) then 1 else 0) + FocusedCount(PLANETS, target) <= 1
    ensures (if IsFollowingSun(target) then 1 else 0) + FocusedCount(PLANETS, target) == 1 <==>
              target == Sun || (target.Planet? && target.name in Names(PLANETS))
  {
    PlanetNamesUnique();
    FocusedAtMostOne(PLANETS, target);
    if IsFollowingSun(target) {
      NoneFocused(PLANETS, target);
    }
  }

  /** When no planet is followed, no planet item is highlighted. */
  lemma {:induction false} NoneFocused(planets: seq<PlanetInfo>, target: FocusTarget)
    requires !target.Planet?
    ensures FocusedCount(planets, target) == 0
  {
    if planets != [] {
      NoneFocused(planets[..|planets| - 1], target);
    }
  }

  /**
   * Selecting a listed planet shows its details and highlights its item
   * alone; following the Sun shows no details and highlights the Sun alone.
   */
  lemma SelectionViews(s: MenuState, i: nat)
    requires i < |PLANETS|
    ensures var r := AfterPlanetSelect(s, PLANETS[i].name);
            ShowsDetails(PLANETS, r.selectedPlanet) && SelectedPlanetDetails(PLANETS, r.selectedPlanet) == Some(PLANETS[i])
            && !IsFollowingSun(r.focusedTarget)
            && forall j :: 0 <= j < |PLANETS| ==> (IsFocused(r.focusedTarget, PLANETS[j].name) <==> j == i)
    ensures var r := AfterFocusSun(s);
            !ShowsDetails(PLANETS, r.selectedPlanet) && IsFollowingSun(r.focusedTarget)
            && FocusedCount(PLANETS, r.focusedTarget) == 0
  {
    PlanetNamesUnique();
    FindOwnName(PLANETS, i);
    TableNames();
    assert PLANETS[i].name != "";
    NoneFocused(PLANETS, Sun);
  }

  // ----- rounded corners -----

  /** `index + 1`: the Sun item comes first. */
  function RealIndex(index: nat): nat
  {
    index + 1
  }

  /** `planets.length + 1` */
  function TotalItems(planets: seq<PlanetInfo>): nat
  {
    |planets| + 1
  }

  /** `realIndex === 0` gives a planet item `rounded-bl rounded-tl`. */
  predicate LeftRounded(index: nat)
  {
    RealIndex(index) == 0
  }

  /** `realIndex === totalItems - 1` gives a planet item `rounded-br rounded-tr`. */
  predicate RightRounded(planets: seq<PlanetInfo>, index: nat)
  {
    RealIndex(index) == TotalItems(planets) - 1
  }

  /** No planet item is rounded on the left; exactly the last one is rounded on the right. */
  lemma CornerClasses(planets: seq<PlanetInfo>, index: nat)
    requires index < |planets|
    ensures !LeftRounded(index)
    ensures RightRounded(planets, index) <==> index == |planets| - 1
  {
  }

  // ----- the state cells -----

  /** The parent's three state cells, set by the menu's handlers. */
  class PlanetMenuState {
    var isPlanetMenuOpen: bool
    var selectedPlanet: Option<string>
    var focusedTarget: FocusTarget

    function State(): MenuState
      reads this
    {
      MenuState(isPlanetMenuOpen, selectedPlanet, focusedTarget)
    }

    constructor (initial: MenuState)
      ensures State() == initial
    {
      isPlanetMenuOpen := initial.isPlanetMenuOpen;
      selectedPlanet := initial.selectedPlanet;
      focusedTarget := initial.focusedTarget;
    }

    /** `handleToggleMenu`: the open flag is set to the negation of its previous value. */
    method HandleToggleMenu()
      modifies this`isPlanetMenuOpen
      ensures State() == AfterToggleMenu(old(State()))
    {
      isPlanetMenuOpen := !isPlanetMenuOpen;
    }

    /** `focusSun`: two setter calls, selection first. */
    method FocusSun()
      modifies this`selectedPlanet, this`focusedTarget
      ensures State() == AfterFocusSun(old(State()))
      ensures SelectionAgrees(State())
    {
      selectedPlanet := None;
      focusedTarget := Sun;
    }

    /** `handlePlanetSelect(planetName)`: two setter calls, selection first. */
    method HandlePlanetSelect(planetName: string)
      modifies this`selectedPlanet, this`focusedTarget
      ensures State() == AfterPlanetSelect(old(State()), planetName)
      ensures SelectionAgrees(State())
    {
      selectedPlanet := Some(planetName);
      focusedTarget := Planet(planetName);
    }
  }
}
