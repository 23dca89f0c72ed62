/**
 * The constant planet table of the scene (src/constants/solarSystem.constants.ts)
 * and the lookup by name that the planet menu performs on it.
 */
module Catalogue {
  import opened Wrappers

  /** One entry of the table; display-only text (details, icon, colour, mass) is not kept. */
  datatype PlanetInfo = PlanetInfo(
    name: string,
    radius: real,             // visualisation radius (scene units)
    realRadius: real,         // km
    distance: real,           // scene orbit distance
    avgDistanceFromSun: real, // million km
    speed: real,              // angular speed multiplier
    velocity: real,           // km/s
    angle: real,              // degrees
    hasRings: bool)           // an absent `hasRings` reads as false

  const PLANETS: seq<PlanetInfo> := [
    PlanetInfo("Mercury", 0.5, 2439.7, 60.0, 57.9, 1.0, 47.87, 7.0, false),
    PlanetInfo("Venus", 0.9, 6051.8, 80.0, 108.2, 0.5, 35.02, 3.39, false),
    PlanetInfo("Earth", 1.0, 6371.0, 100.0, 149.6, 0.3, 29.78, 0.0, false),
    PlanetInfo("Mars", 0.8, 3389.5, 130.0, 227.9, 0.25, 24.07, 1.85, false),
    PlanetInfo("Jupiter", 4.0, 69911.0, 150.0, 778.5, 0.1, 13.07, 1.31, false),
    PlanetInfo("Saturn", 3.5, 58232.0, 200.0, 1434.0, 0.09, 9.69, 2.49, true),
    PlanetInfo("Uranus", 3.0, 25362.0, 250.0, 2871.0, 0.08, 6.81, 0.77, false),
    PlanetInfo("Neptune", 3.0, 24622.0, 300.0, 4497.0, 0.07, 5.43, 1.77, false),
    PlanetInfo("Pluto", 0.4, 1188.3, 350.0, 5906.0, 0.05, 4.74, 17.16, false)
  ]

  function Names(planets: seq<PlanetInfo>): seq<string>
  {
    seq(|planets|, i requires 0 <= i < |planets| => planets[i].name)
  }

  /** No two entries share a name. */
  ghost predicate UniqueNames(planets: seq<PlanetInfo>)
  {
    forall i, j :: 0 <= i < |planets| && 0 <= j < |planets| && i != j ==> planets[i].name != planets[j].name
  }

  /**
   * `Array.prototype.find` with a name test: the first entry with that name,
   * or nothing (JavaScript `undefined`) when no entry has it.
   */
  function Find(planets: seq<PlanetInfo>, name: string): (r: Option<PlanetInfo>)
    ensures r.Some? <==> exists i :: 0 <= i < |planets| && planets[i].name == name
    ensures r.Some? ==> exists i :: (0 <= i < |planets| && planets[i] == r.value && r.value.name == name
                                     && forall j :: 0 <= j < i ==> planets[j].name != name)
  {
    if planets == [] then None
    else if planets[0].name == name then Some(planets[0])
    else
      var r := Find(planets[1..], name);
      assert forall i :: 0 < i < |planets| ==> planets[i] == planets[1..][i - 1];
      r
  }

  /** With unique names, looking up an entry's own name gives back that entry. */
  lemma FindOwnName(planets: seq<PlanetInfo>, i: nat)
    requires UniqueNames(planets)
    requires i < |planets|
    ensures Find(planets, planets[i].name) == Some(planets[i])
  {
  }

  /** The table lists exactly the nine bodies, Mercury through Pluto, in this order. */
  lemma TableNames()
    ensures |PLANETS| == 9
    ensures Names(PLANETS) == ["Mercury", "Venus", "Earth", "Mars", "Jupiter", "Saturn", "Uranus", "Neptune", "Pluto"]
  {
  }

  lemma PlanetNamesUnique()
    ensures UniqueNames(PLANETS)
  {
    // the length and first letter already tell the nine names apart
    var keys := seq(|PLANETS|, i requires 0 <= i < |PLANETS| => (|PLANETS[i].name|, PLANETS[i].name[0]));
    assert keys == [(7, 'M'), (5, 'V'), (5, 'E'), (4, 'M'), (7, 'J'), (6, 'S'), (6, 'U'), (7, 'N'), (5, 'P')];
    forall i, j | 0 <= i < |PLANETS| && 0 <= j < |PLANETS| && i != j
      ensures PLANETS[i].name != PLANETS[j].name
    {
      assert keys[i] != keys[j];
    }
  }

  // ----- orderings of the table's columns -----

  ghost predicate AdjacentIncreasing(xs: seq<real>)
  {
    forall i :: 0 <= i < |xs| - 1 ==> xs[i] < xs[i + 1]
  }

  ghost predicate StrictlyIncreasing(xs: seq<real>)
  {
    forall i, j :: 0 <= i < j < |xs| ==> xs[i] < xs[j]
  }

  /** A strict order between neighbours extends to every pair, by induction on the length. */
  lemma {:induction false} AdjacentToPairwise(xs: seq<real>)
    requires AdjacentIncreasing(xs)
    ensures StrictlyIncreasing(xs)
  {
    if |xs| > 1 {
      var init := xs[..|xs| - 1];
      assert AdjacentIncreasing(init);
      AdjacentToPairwise(init);
      forall i, j | 0 <= i < j < |xs|
        ensures xs[i] < xs[j]
      {
        if j < |xs| - 1 {
          assert xs[i] == init[i] && xs[j] == init[j];
        } else if i < j - 1 {
          assert xs[i] == init[i] && xs[j - 1] == init[j - 1];
        }
      }
    }
  }

  function Distances(planets: seq<PlanetInfo>): seq<real>
  {
    seq(|planets|, i requires 0 <= i < |planets| => planets[i].distance)
  }

  function AvgDistances(planets: seq<PlanetInfo>): seq<real>
  {
    seq(|planets|, i requires 0 <= i < |planets| => planets[i].avgDistanceFromSun)
  }

  /** Speeds, negated, so that "slower further out" reads as an increasing sequence. */
  function NegatedSpeeds(planets: seq<PlanetInfo>): seq<real>
  {
    seq(|planets|, i requires 0 <= i < |planets| => -planets[i].speed)
  }

  /** Scene orbit distance grows strictly in table order. */
  lemma DistanceIncreasing()
    ensures forall i, j :: 0 <= i < j < |PLANETS| ==> PLANETS[i].distance < PLANETS[j].distance
  {
    var xs := Distances(PLANETS);
    assert AdjacentIncreasing(xs);
    AdjacentToPairwise(xs);
  }

  /** The real mean distance from the Sun grows strictly in table order, so scene order is real order. */
  lemma AvgDistanceIncreasing()
    ensures forall i, j :: 0 <= i < j < |PLANETS| ==> PLANETS[i].avgDistanceFromSun < PLANETS[j].avgDistanceFromSun
    ensures forall i, j :: 0 <= i < |PLANETS| && 0 <= j < |PLANETS| ==>
      (PLANETS[i].distance < PLANETS[j].distance <==> PLANETS[i].avgDistanceFromSun < PLANETS[j].avgDistanceFromSun)
  {
    var xs := AvgDistances(PLANETS);
    assert AdjacentIncreasing(xs);
    AdjacentToPairwise(xs);
    DistanceIncreasing();
    forall i, j | 0 <= i < |PLANETS| && 0 <= j < |PLANETS|
      ensures PLANETS[i].distance < PLANETS[j].distance <==> PLANETS[i].avgDistanceFromSun < PLANETS[j].avgDistanceFromSun
    {
      if i < j {
      } else if j < i {
        assert xs[j] < xs[i];
      }
    }
  }

  /** Outer bodies orbit more slowly: speed falls strictly in table order. */
  lemma SpeedDecreasing()
    ensures forall i, j :: 0 <= i < j < |PLANETS| ==> PLANETS[i].speed > PLANETS[j].speed
  {
    var xs := NegatedSpeeds(PLANETS);
    assert AdjacentIncreasing(xs);
    AdjacentToPairwise(xs);
    forall i, j | 0 <= i < j < |PLANETS|
      ensures PLANETS[i].speed > PLANETS[j].speed
    {
      assert xs[i] < xs[j];
    }
  }

  /** Every radius is positive, and a larger real radius never gets a smaller visual radius. */
  lemma RadiiConsistent()
    ensures forall i :: 0 <= i < |PLANETS| ==> PLANETS[i].radius > 0.0 && PLANETS[i].realRadius > 0.0
    ensures forall i, j :: 0 <= i < |PLANETS| && 0 <= j < |PLANETS| && PLANETS[i].realRadius < PLANETS[j].realRadius ==>
      PLANETS[i].radius <= PLANETS[j].radius
  {
  }

  /** Saturn is the only ringed body. */
  lemma OnlySaturnHasRings()
    ensures forall i :: 0 <= i < |PLANETS| ==> (PLANETS[i].hasRings <==> PLANETS[i].name == "Saturn")
  {
  }
}
