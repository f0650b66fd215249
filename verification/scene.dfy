/**
 * The scene's planets (components/space-explorer.tsx, `SpaceScene` and
 * `Planet`): a fixed registry of five planet descriptors, and per planet the
 * hover highlight and the distance-based name label.
 */
module Scene {
  /** A point of the scene; every planet position in the registry is integral. */
  datatype Vec3 = Vec3(x: real, y: real, z: real)

  /** `PlanetType` */
  datatype Planet = Planet(
    id: string,
    name: string,
    position: Vec3,
    radius: real,
    rotationSpeed: real,
    color: string,
    description: string,
    facts: seq<string>)

  /** The planet registry of `SpaceScene`, in rendering order. */
  const Planets: seq<Planet> := [
    Planet("earth", "Earth", Vec3(0.0, 0.0, 0.0), 1.0, 0.001, "#1d7dff",
      "Our home planet, the only known world with abundant liquid water and life. Earth has a diverse ecosystem and a protective atmosphere that shields us from harmful radiation.",
      ["Earth is the third planet from the Sun and the only astronomical object known to harbor life.",
       "About 71% of Earth's surface is covered with water.",
       "Earth's atmosphere is composed of 78% nitrogen, 21% oxygen, and 1% other gases."]),
    Planet("mars", "Mars", Vec3(5.0, 1.0, -3.0), 0.5, 0.0008, "#c1440e",
      "The Red Planet, named for its rusty iron-rich soil. Mars has polar ice caps, extinct volcanoes, and evidence of ancient flowing water.",
      ["Mars is the fourth planet from the Sun and the second-smallest planet in the Solar System.",
       "Mars has the largest dust storms in the solar system, which can last for months and cover the entire planet.",
       "Mars has two small moons, Phobos and Deimos, which may be captured asteroids."]),
    Planet("jupiter", "Jupiter", Vec3(-8.0, 2.0, -10.0), 2.5, 0.002, "#e0a568",
      "The largest planet in our solar system, a gas giant with a distinctive system of bands and a Great Red Spot - a storm larger than Earth that has raged for centuries.",
      ["Jupiter is the fifth planet from the Sun and the largest in the Solar System.",
       "Jupiter has at least 79 moons, including the four large Galilean moons discovered by Galileo Galilei in 1610.",
       "Jupiter's Great Red Spot is a giant storm that has been raging for at least 400 years."]),
    Planet("saturn", "Saturn", Vec3(12.0, -3.0, -15.0), 2.0, 0.0015, "#f4d4a9",
      "Famous for its spectacular ring system, Saturn is a gas giant composed mainly of hydrogen and helium with a small rocky core.",
      ["Saturn is the sixth planet from the Sun and the second-largest in the Solar System.",
       "Saturn's rings are made mostly of ice particles, with a smaller amount of rocky debris and dust.",
       "Saturn has at least 82 moons, with Titan being the largest and the only moon in the solar system with a substantial atmosphere."]),
    Planet("neptune", "Neptune", Vec3(-15.0, 0.0, -20.0), 1.2, 0.001, "#3454eb",
      "The windiest planet in our solar system, with supersonic winds reaching up to 1,200 mph. Neptune is an ice giant with a mysterious dark storm similar to Jupiter's Great Red Spot.",
      ["Neptune is the eighth and farthest known planet from the Sun in the Solar System.",
       "Neptune was the first planet located through mathematical calculations rather than through observation.",
       "Neptune has 14 known moons, with Triton being the largest and the only large moon in the solar system that orbits in the opposite direction to its planet's rotation."])
  ]

  /** A planet's name label is drawn while the camera is closer than this. */
  const LabelDistance: real := 30.0

  /** The registry's shape: five planets, distinct ids, positive radii, three facts each. */
  lemma RegistryShape()
    ensures |Planets| == 5
    ensures Planets[0].name == "Earth" && Planets[1].name == "Mars" && Planets[2].name == "Jupiter"
    ensures Planets[3].name == "Saturn" && Planets[4].name == "Neptune"
    ensures forall j, k :: 0 <= j < k < |Planets| ==> Planets[j].id != Planets[k].id
    ensures forall k :: 0 <= k < |Planets| ==> Planets[k].radius > 0.0 && |Planets[k].facts| == 3
  {
  }

  /** The squared Euclidean distance between two points. */
  function DistSq(a: Vec3, b: Vec3): (r: real)
    ensures r >= 0.0
    ensures a == b ==> r == 0.0
  {
    (a.x - b.x) * (a.x - b.x) + (a.y - b.y) * (a.y - b.y) + (a.z - b.z) * (a.z - b.z)
  }

  /**
   * The position the frame callback measures from: the clickable mesh's own
   * `position`, which is local to the planet's group and never set, hence
   * the origin whatever the planet.
   */
  const MeshPosition := Vec3(0.0, 0.0, 0.0)

  /**
   * `showLabel`: for a measured distance (never negative), the label is
   * visible exactly when the squared distance is below the squared threshold.
   */
  function LabelVisible(distance: real): (r: bool)
    ensures distance >= 0.0 ==> (r <==> distance * distance < LabelDistance * LabelDistance)
  {
    SquareBelow(distance, LabelDistance);
    distance < LabelDistance
  }

  /** Comparing two non-negative reals is comparing their squares. */
  lemma SquareBelow(d: real, t: real)
    requires t > 0.0
    ensures d >= 0.0 ==> (d < t <==> d * d < t * t)
  {
    if 0.0 <= d < t {
      assert d * (t - d) >= 0.0;
      assert t * (t - d) > 0.0;
    } else if d >= t {
      assert d * (d - t) >= 0.0;
      assert t * (d - t) >= 0.0;
    }
  }

  /** Just inside the threshold the label shows; at it and beyond, it does not. */
  lemma LabelThreshold(eps: real)
    requires eps > 0.0
    ensures LabelVisible(LabelDistance - eps)
    ensures !LabelVisible(LabelDistance) && !LabelVisible(LabelDistance + eps)
  {
  }

  /**
   * Every planet measures the camera's distance from the world origin, so
   * a camera at (30, 0, 0) is within 30 of Saturn yet Saturn's label, like
   * every other, is hidden.
   */
  lemma SaturnLabelHiddenWithinRange()
    ensures Planets[3].name == "Saturn"
    ensures DistSq(Planets[3].position, Vec3(30.0, 0.0, 0.0)) < LabelDistance * LabelDistance
    ensures !(DistSq(MeshPosition, Vec3(30.0, 0.0, 0.0)) < LabelDistance * LabelDistance)
  {
  }

  /**
   * The state of one `Planet` component: its hover flag and the camera
   * distance last measured by the frame callback.
   */
  class PlanetView {
    const planet: Planet
    var isHovered: bool
    var distance: real

    /** The distance starts at 0, so the label shows until the first frame measures it. */
    constructor (p: Planet)
      ensures planet == p && !isHovered && distance == 0.0
      ensures ShowLabel()
    {
      planet := p;
      isHovered := false;
      distance := 0.0;
    }

    /** Whether the name label is drawn. */
    predicate ShowLabel()
      reads this
    {
      LabelVisible(distance)
    }

    /** `onPointerOver` */
    method PointerOver()
      modifies this
      ensures isHovered && distance == old(distance)
    {
      isHovered := true;
    }

    /** `onPointerOut` */
    method PointerOut()
      modifies this
      ensures !isHovered && distance == old(distance)
    {
      isHovered := false;
    }

    /**
     * The frame callback's `setDistance`: `measured` is what `distanceTo`
     * returns for the mesh position and the camera position `camera`. The
     * label then depends on the camera alone, not on the planet.
     */
    method Frame(camera: Vec3, measured: real)
      requires measured >= 0.0 && measured * measured == DistSq(MeshPosition, camera)
      modifies this
      ensures distance == measured && isHovered == old(isHovered)
      ensures ShowLabel() <==> DistSq(MeshPosition, camera) < LabelDistance * LabelDistance
    {
      distance := measured;
    }
  }
}
