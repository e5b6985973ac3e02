/** The grid coordinate system of src/map/mod.rs: integer cells on the
    ground plane, compass directions for walls, and the bundles that place a
    tile or a wall at a cell. */
module Grid {
  import opened Base
  import opened Spatial

  /** Side length of a square tile, in world units. */
  const TileSize: real := 0.2

  /** A grid cell. */
  datatype Location = Location(x: I32, y: I32)

  /** World translation of a cell: the cell's corner on the ground plane
      (`From<Location> for Vec3`). */
  function Translation(l: Location): (v: Vec3)
    ensures v.y == 0.0
    ensures v.x / TileSize == l.x as real && v.z / TileSize == l.y as real
  {
    Vec3(l.x as real * TileSize, 0.0, l.y as real * TileSize)
  }

  /** The inverse scale: the cell whose translation is `v`. */
  function CellAt(v: Vec3): (int, int) {
    ((v.x / TileSize).Floor, (v.z / TileSize).Floor)
  }

  lemma TranslationRoundTrip(l: Location)
    ensures CellAt(Translation(l)) == (l.x, l.y)
  {
  }

  lemma TranslationInjective(a: Location, b: Location)
    requires Translation(a) == Translation(b)
    ensures a == b
  {
    TranslationRoundTrip(a);
    TranslationRoundTrip(b);
  }

  /** `From<(i32, i32)> for Location`. */
  function LocationFrom(p: (I32, I32)): (l: Location)
    ensures (l.x, l.y) == p
  {
    Location(p.0, p.1)
  }

  /** A compass direction on the ground plane, in declaration order. */
  datatype Direction = PositiveX | NegativeY | NegativeX | PositiveY

  /** The yaw, in degrees, of a wall facing `d` (the angle matched in
      `From<Direction> for Quat`). */
  function Angle(d: Direction): (deg: int)
    ensures 0 <= deg < 360 && deg % 90 == 0
    ensures d == PositiveX <==> deg == 0
  {
    match d
    case PositiveX => 0
    case NegativeY => 90
    case NegativeX => 180
    case PositiveY => 270
  }

  /** `From<Direction> for Quat`: a turn about the vertical axis. */
  function DirectionRotation(d: Direction): (r: Rotation)
    ensures r.degrees == Angle(d)
  {
    Yaw(Angle(d))
  }

  /** The next direction in declaration order, wrapping around. */
  function Next(d: Direction): Direction {
    match d
    case PositiveX => NegativeY
    case NegativeY => NegativeX
    case NegativeX => PositiveY
    case PositiveY => PositiveX
  }

  lemma AngleInjective(a: Direction, b: Direction)
    requires Angle(a) == Angle(b)
    ensures a == b
  {
  }

  /** Consecutive directions in declaration order are a quarter turn apart. */
  lemma QuarterTurn(d: Direction)
    ensures DirectionRotation(Next(d)) == Compose(DirectionRotation(d), Yaw(90))
  {
    match d
    case PositiveX =>
    case NegativeY =>
    case NegativeX =>
    case PositiveY =>
      assert (270 + 90) % 360 == 0;
  }

  /** Four quarter turns from any direction come back to it. */
  lemma {:induction false} FourQuarterTurns(d: Direction)
    ensures Next(Next(Next(Next(d)))) == d
    ensures Compose(Compose(Compose(Compose(DirectionRotation(d), Yaw(90)), Yaw(90)), Yaw(90)), Yaw(90))
            == DirectionRotation(d)
  {
    var d1 := Next(d);
    var d2 := Next(d1);
    var d3 := Next(d2);
    assert Next(d3) == d by { match d case PositiveX => case NegativeY => case NegativeX => case PositiveY => }
    QuarterTurn(d);
    QuarterTurn(d1);
    QuarterTurn(d2);
    QuarterTurn(d3);
    var r1 := Compose(DirectionRotation(d), Yaw(90));
    assert r1 == DirectionRotation(d1);
    var r2 := Compose(r1, Yaw(90));
    assert r2 == DirectionRotation(d2);
    var r3 := Compose(r2, Yaw(90));
    assert r3 == DirectionRotation(d3);
  }

  /** The serde name of each direction. */
  function Token(d: Direction): string {
    match d
    case PositiveX => "+x"
    case NegativeY => "-y"
    case NegativeX => "-x"
    case PositiveY => "+y"
  }

  /** Deserialising a direction: only the four names are accepted. */
  function ParseDirection(s: string): (r: Option<Direction>)
    ensures r.Some? ==> Token(r.value) == s
    ensures r.None? <==> s !in {"+x", "-y", "-x", "+y"}
  {
    if s == "+x" then Some(PositiveX)
    else if s == "-y" then Some(NegativeY)
    else if s == "-x" then Some(NegativeX)
    else if s == "+y" then Some(PositiveY)
    else None
  }

  lemma TokenRoundTrip(d: Direction)
    ensures ParseDirection(Token(d)) == Some(d)
  {
  }

  /** The two shared mesh handles. */
  datatype Mesh = TileQuad | WallQuad

  /** A floor tile entity: its cell and its render components. */
  datatype TileBundle = TileBundle(gridPos: Location, material: MaterialHandle,
                                   transform: Transform, globalTransform: Transform, mesh: Mesh)

  /** A wall entity: its cell, its facing and its render components. */
  datatype WallBundle = WallBundle(location: Location, direction: Direction, material: MaterialHandle,
                                   transform: Transform, globalTransform: Transform, mesh: Mesh)

  /** `TileBundle::new`. */
  function NewTile(gridPos: Location, material: MaterialHandle): (b: TileBundle)
    ensures b.gridPos == gridPos && b.material == material && b.mesh == TileQuad
    ensures b.transform == b.globalTransform == FromTranslation(Translation(gridPos))
  {
    TileBundle(gridPos, material, FromTranslation(Translation(gridPos)),
               FromTranslation(Translation(gridPos)), TileQuad)
  }

  /** `WallBundle::new`: placed at its cell, but not yet turned to face its
      direction (that is left to `DirectionController`). */
  function NewWall(location: Location, direction: Direction, material: MaterialHandle): (b: WallBundle)
    ensures b.location == location && b.direction == direction && b.material == material
    ensures b.mesh == WallQuad
    ensures b.transform == b.globalTransform == FromTranslation(Translation(location))
    ensures b.transform.rotation == Identity
  {
    WallBundle(location, direction, material, FromTranslation(Translation(location)),
               FromTranslation(Translation(location)), WallQuad)
  }

  /** `location_controller`: every matched entity's translation is set from
      its cell; nothing else in its transform changes. */
  method LocationController(locations: seq<Location>, transforms: array<Transform>)
    requires |locations| == transforms.Length
    modifies transforms
    ensures forall k :: 0 <= k < transforms.Length ==>
              transforms[k] == old(transforms[k]).(translation := Translation(locations[k]))
  {
    for i := 0 to transforms.Length
      invariant forall k :: 0 <= k < i ==>
                  transforms[k] == old(transforms[k]).(translation := Translation(locations[k]))
      invariant forall k :: i <= k < transforms.Length ==> transforms[k] == old(transforms[k])
    {
      transforms[i] := transforms[i].(translation := Translation(locations[i]));
    }
  }

  /** `direction_controller`: every matched entity's rotation is set from
      its direction; nothing else in its transform changes. */
  method DirectionController(directions: seq<Direction>, transforms: array<Transform>)
    requires |directions| == transforms.Length
    modifies transforms
    ensures forall k :: 0 <= k < transforms.Length ==>
              transforms[k] == old(transforms[k]).(rotation := DirectionRotation(directions[k]))
  {
    for i := 0 to transforms.Length
      invariant forall k :: 0 <= k < i ==>
                  transforms[k] == old(transforms[k]).(rotation := DirectionRotation(directions[k]))
      invariant forall k :: i <= k < transforms.Length ==> transforms[k] == old(transforms[k])
    {
      transforms[i] := transforms[i].(rotation := DirectionRotation(directions[i]));
    }
  }
}
