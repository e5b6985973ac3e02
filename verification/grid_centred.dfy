/** The earlier grid convention of src/map.rs: a cell's translation is the
    centre of the cell, half a tile in from its corner on both axes. */
module GridCentred {
  import opened Base
  import opened Spatial
  import Grid

  /** Side length of a square tile, in world units. */
  const TileSize: real := 0.2

  /** A grid cell (a type of its own in this version of the module). */
  datatype Location = Location(x: I32, y: I32)

  /** World translation of a cell: the centre of the cell on the ground plane. */
  function Translation(l: Location): (v: Vec3)
    ensures v.y == 0.0
    ensures v.x / TileSize == l.x as real + 0.5 && v.z / TileSize == l.y as real + 0.5
  {
    var offset := TileSize * 0.5;
    Vec3(l.x as real * TileSize + offset, 0.0, l.y as real * TileSize + offset)
  }

  /** The cell whose area contains the point `v`. */
  function CellAt(v: Vec3): (int, int) {
    ((v.x / TileSize).Floor, (v.z / TileSize).Floor)
  }

  lemma TranslationRoundTrip(l: Location)
    ensures CellAt(Translation(l)) == (l.x, l.y)
  {
  }

  lemma TranslationInjective(a: Location, b: Location)
    requires Translation(a) == Translation(b)
    ensures a == b
  {
    TranslationRoundTrip(a);
    TranslationRoundTrip(b);
  }

  /** The two conventions place the same cell exactly half a tile apart on
      x and z, and at the same height. */
  lemma HalfTileFromCorner(l: Location)
    ensures Translation(l).x == Grid.Translation(Grid.Location(l.x, l.y)).x + TileSize / 2.0
    ensures Translation(l).z == Grid.Translation(Grid.Location(l.x, l.y)).z + TileSize / 2.0
    ensures Translation(l).y == Grid.Translation(Grid.Location(l.x, l.y)).y
  {
  }

  /** A floor tile entity (no tag component in this version). */
  datatype TileBundle = TileBundle(gridPos: Location, material: MaterialHandle,
                                   transform: Transform, globalTransform: Transform, mesh: Grid.Mesh)

  /** `TileBundle::new`: both transforms sit at the cell centre. */
  function NewTile(gridPos: Location, material: MaterialHandle): (b: TileBundle)
    ensures b.gridPos == gridPos && b.material == material && b.mesh == Grid.TileQuad
    ensures b.transform == b.globalTransform == FromTranslation(Translation(gridPos))
  {
    TileBundle(gridPos, material, FromTranslation(Translation(gridPos)),
               FromTranslation(Translation(gridPos)), Grid.TileQuad)
  }

  /** `location_controller`: every matched entity's translation is set to
      its cell centre; nothing else in its transform changes. */
  method LocationController(locations: seq<Location>, transforms: array<Transform>)
    requires |locations| == transforms.Length
    modifies transforms
    ensures forall k :: 0 <= k < transforms.Length ==>
              transforms[k] == old(transforms[k]).(translation := Translation(locations[k]))
  {
    for i := 0 to transforms.Length
      invariant forall k :: 0 <= k < i ==>
                  transforms[k] == old(transforms[k]).(translation := Translation(locations[k]))
      invariant forall k :: i <= k < transforms.Length ==> transforms[k] == old(transforms[k])
    {
      transforms[i] := transforms[i].(translation := Translation(locations[i]));
    }
  }
}
