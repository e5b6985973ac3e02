/** `update_map` of src/map/loading.rs: each rebuild request tears down the
    children of the map's root entity and spawns one tile per tile row and
    one wall per wall row, with materials from two fresh allocators.
    Spawning and despawning are queued commands in the source; the scene
    here is the world once the queued commands have been applied, in order. */
module Sync {
  import opened Base
  import Grid
  import Atlas
  import opened MapAsset
  import Changes

  /** A child entity of a root. */
  datatype Child = TileChild(tile: Grid.TileBundle) | WallChild(wall: Grid.WallBundle)

  function MaterialOf(c: Child): MaterialHandle {
    match c
    case TileChild(t) => t.material
    case WallChild(w) => w.material
  }

  /** An entity carrying a map handle (the query of `update_map`), with its children. */
  datatype Root = Root(handle: MapHandle, children: seq<Child>)

  /** The rectangle computations of a rebuild of `m` cannot divide by zero:
      every sheet that is asked for a sprite can be divided into cells. */
  predicate Buildable(m: Map, images: Atlas.Images) {
    && (|m.tiles| > 0 ==>
          Atlas.Divisible(Atlas.Dimensions(m.tileSprites, images), m.tileSprites.gridDimensions))
    && (|m.walls| > 0 ==>
          Atlas.Divisible(Atlas.Dimensions(m.wallSprites, images), m.wallSprites.gridDimensions))
  }

  /** Material `h` draws sprite `id` (or sprite 0) of `sheet`. */
  ghost predicate MadeFor(h: MaterialHandle, sheet: Atlas.SpriteSheet, id: Option<U32>,
                          images: Atlas.Images, materials: seq<Atlas.Material>)
  {
    var dimensions := Atlas.Dimensions(sheet, images);
    && Atlas.Divisible(dimensions, sheet.gridDimensions)
    && h < |materials|
    && materials[h] == Atlas.Material(sheet.spriteSheet,
                                      Atlas.UvRect(SpriteOf(id), dimensions, sheet.gridDimensions))
  }

  /** `children` are the tiles of `tiles`, in order. */
  ghost predicate TilesMirror(children: seq<Child>, tiles: seq<MapTile>, sheet: Atlas.SpriteSheet,
                              images: Atlas.Images, materials: seq<Atlas.Material>)
  {
    && |children| == |tiles|
    && forall k :: 0 <= k < |children| ==>
         && children[k].TileChild?
         && children[k] == TileChild(Grid.NewTile(Grid.LocationFrom(tiles[k].pos), MaterialOf(children[k])))
         && MadeFor(MaterialOf(children[k]), sheet, tiles[k].id, images, materials)
  }

  /** `children` are the walls of `walls`, in order. */
  ghost predicate WallsMirror(children: seq<Child>, walls: seq<MapWall>, sheet: Atlas.SpriteSheet,
                              images: Atlas.Images, materials: seq<Atlas.Material>)
  {
    && |children| == |walls|
    && forall k :: 0 <= k < |children| ==>
         && children[k].WallChild?
         && children[k] == WallChild(Grid.NewWall(Grid.LocationFrom(walls[k].pos), walls[k].direction,
                                                  MaterialOf(children[k])))
         && MadeFor(MaterialOf(children[k]), sheet, walls[k].id, images, materials)
  }

  /** Two children share a material exactly when they draw the same sprite. */
  ghost predicate SharedBySprite(children: seq<Child>, ids: seq<Option<U32>>) {
    && |children| == |ids|
    && forall k1, k2 :: 0 <= k1 < |ids| && 0 <= k2 < |ids| ==>
         (MaterialOf(children[k1]) == MaterialOf(children[k2]) <==> SpriteOf(ids[k1]) == SpriteOf(ids[k2]))
  }

  function TileIds(tiles: seq<MapTile>): (ids: seq<Option<U32>>)
    ensures |ids| == |tiles| && forall k :: 0 <= k < |tiles| ==> ids[k] == tiles[k].id
  {
    seq(|tiles|, k requires 0 <= k < |tiles| => tiles[k].id)
  }

  function WallIds(walls: seq<MapWall>): (ids: seq<Option<U32>>)
    ensures |ids| == |walls| && forall k :: 0 <= k < |walls| ==> ids[k] == walls[k].id
  {
    seq(|walls|, k requires 0 <= k < |walls| => walls[k].id)
  }

  /** The children of a finished rebuild of `m`: its tiles in file order,
      then its walls in file order, each with the material for its sprite,
      one material per distinct sprite of each sheet. */
  ghost predicate Mirrors(children: seq<Child>, m: Map, images: Atlas.Images, materials: seq<Atlas.Material>) {
    && |children| == |m.tiles| + |m.walls|
    && TilesMirror(children[..|m.tiles|], m.tiles, m.tileSprites, images, materials)
    && WallsMirror(children[|m.tiles|..], m.walls, m.wallSprites, images, materials)
    && SharedBySprite(children[..|m.tiles|], TileIds(m.tiles))
    && SharedBySprite(children[|m.tiles|..], WallIds(m.walls))
  }

  lemma MadeForExtend(h: MaterialHandle, sheet: Atlas.SpriteSheet, id: Option<U32>, images: Atlas.Images,
                      materials: seq<Atlas.Material>, more: seq<Atlas.Material>)
    requires MadeFor(h, sheet, id, images, materials)
    ensures MadeFor(h, sheet, id, images, materials + more)
  {
  }

  lemma TilesMirrorExtend(children: seq<Child>, tiles: seq<MapTile>, sheet: Atlas.SpriteSheet,
                          images: Atlas.Images, materials: seq<Atlas.Material>, more: seq<Atlas.Material>)
    requires TilesMirror(children, tiles, sheet, images, materials)
    ensures TilesMirror(children, tiles, sheet, images, materials + more)
  {
    forall k | 0 <= k < |children|
      ensures MadeFor(MaterialOf(children[k]), sheet, tiles[k].id, images, materials + more)
    {
      MadeForExtend(MaterialOf(children[k]), sheet, tiles[k].id, images, materials, more);
    }
  }

  lemma WallsMirrorExtend(children: seq<Child>, walls: seq<MapWall>, sheet: Atlas.SpriteSheet,
                          images: Atlas.Images, materials: seq<Atlas.Material>, more: seq<Atlas.Material>)
    requires WallsMirror(children, walls, sheet, images, materials)
    ensures WallsMirror(children, walls, sheet, images, materials + more)
  {
    forall k | 0 <= k < |children|
      ensures MadeFor(MaterialOf(children[k]), sheet, walls[k].id, images, materials + more)
    {
      MadeForExtend(MaterialOf(children[k]), sheet, walls[k].id, images, materials, more);
    }
  }

  /** Materials are only appended, so a finished rebuild stays correct. */
  lemma MirrorsExtend(children: seq<Child>, m: Map, images: Atlas.Images,
                      materials: seq<Atlas.Material>, more: seq<Atlas.Material>)
    requires Mirrors(children, m, images, materials)
    ensures Mirrors(children, m, images, materials + more)
  {
    var t := |m.tiles|;
    TilesMirrorExtend(children[..t], m.tiles, m.tileSprites, images, materials, more);
    WallsMirrorExtend(children[t..], m.walls, m.wallSprites, images, materials, more);
  }

  /** The allocator's cache holds, for every row so far, the material of
      that row's child, and only materials made since `before`. */
  ghost predicate Agrees(cache: map<U32, MaterialHandle>, ids: seq<Option<U32>>, children: seq<Child>, before: nat) {
    && |children| == |ids|
    && (forall k :: 0 <= k < |ids| ==> SpriteOf(ids[k]) in cache && cache[SpriteOf(ids[k])] == MaterialOf(children[k]))
    && (forall s :: s in cache ==> cache[s] >= before)
  }

  /** One `get_material` call keeps the cache in agreement. */
  lemma AgreesStep(cache: map<U32, MaterialHandle>, cache': map<U32, MaterialHandle>, ids: seq<Option<U32>>,
                   children: seq<Child>, id: Option<U32>, c: Child, before: nat)
    requires Agrees(cache, ids, children, before)
    requires MaterialOf(c) >= before
    requires SpriteOf(id) in cache ==> cache' == cache && cache[SpriteOf(id)] == MaterialOf(c)
    requires SpriteOf(id) !in cache ==> cache' == cache[SpriteOf(id) := MaterialOf(c)]
    ensures Agrees(cache', ids + [id], children + [c], before)
  {
  }

  /** One more tile row spawned. */
  lemma TilesMirrorStep(tiles: seq<Child>, rows: seq<MapTile>, i: nat, sheet: Atlas.SpriteSheet, images: Atlas.Images,
                        materials: seq<Atlas.Material>, more: seq<Atlas.Material>, c: Child)
    requires i < |rows| && TilesMirror(tiles, rows[..i], sheet, images, materials)
    requires c == TileChild(Grid.NewTile(Grid.LocationFrom(rows[i].pos), MaterialOf(c)))
    requires MadeFor(MaterialOf(c), sheet, rows[i].id, images, materials + more)
    ensures TilesMirror(tiles + [c], rows[..i + 1], sheet, images, materials + more)
  {
    TilesMirrorExtend(tiles, rows[..i], sheet, images, materials, more);
    assert rows[..i + 1] == rows[..i] + [rows[i]];
  }

  /** One more wall row spawned. */
  lemma WallsMirrorStep(walls: seq<Child>, rows: seq<MapWall>, i: nat, sheet: Atlas.SpriteSheet, images: Atlas.Images,
                        materials: seq<Atlas.Material>, more: seq<Atlas.Material>, c: Child)
    requires i < |rows| && WallsMirror(walls, rows[..i], sheet, images, materials)
    requires c == WallChild(Grid.NewWall(Grid.LocationFrom(rows[i].pos), rows[i].direction, MaterialOf(c)))
    requires MadeFor(MaterialOf(c), sheet, rows[i].id, images, materials + more)
    ensures WallsMirror(walls + [c], rows[..i + 1], sheet, images, materials + more)
  {
    WallsMirrorExtend(walls, rows[..i], sheet, images, materials, more);
    assert rows[..i + 1] == rows[..i] + [rows[i]];
  }

  /** Equal materials draw the same sprite, and (by the allocator's cache)
      equal sprites get the same material. */
  lemma SharedFromCache(children: seq<Child>, ids: seq<Option<U32>>, sheet: Atlas.SpriteSheet,
                        images: Atlas.Images, materials: seq<Atlas.Material>, cache: map<U32, MaterialHandle>, before: nat)
    requires Agrees(cache, ids, children, before)
    requires forall k :: 0 <= k < |ids| ==> MadeFor(MaterialOf(children[k]), sheet, ids[k], images, materials)
    ensures SharedBySprite(children, ids)
  {
    forall k1, k2 | 0 <= k1 < |ids| && 0 <= k2 < |ids| && MaterialOf(children[k1]) == MaterialOf(children[k2])
      ensures SpriteOf(ids[k1]) == SpriteOf(ids[k2])
    {
      Atlas.UvRectInjective(SpriteOf(ids[k1]), SpriteOf(ids[k2]), Atlas.Dimensions(sheet, images), sheet.gridDimensions);
    }
  }

  /** Where a child stands: its cell, and its facing if it is a wall. */
  datatype Placement = Placement(location: Grid.Location, facing: Option<Grid.Direction>)

  function PlacementOf(c: Child): Placement {
    match c
    case TileChild(t) => Placement(t.gridPos, None)
    case WallChild(w) => Placement(w.location, Some(w.direction))
  }

  function Layout(children: seq<Child>): (l: seq<Placement>)
    ensures |l| == |children| && forall k :: 0 <= k < |children| ==> l[k] == PlacementOf(children[k])
  {
    seq(|children|, k requires 0 <= k < |children| => PlacementOf(children[k]))
  }

  /** Where the rows of `m` say its children stand. */
  function MapLayout(m: Map): (l: seq<Placement>)
    ensures |l| == |m.tiles| + |m.walls|
  {
    seq(|m.tiles|, k requires 0 <= k < |m.tiles| => Placement(Grid.LocationFrom(m.tiles[k].pos), None))
    + seq(|m.walls|, k requires 0 <= k < |m.walls| =>
            Placement(Grid.LocationFrom(m.walls[k].pos), Some(m.walls[k].direction)))
  }

  /** A rebuild places exactly what the map describes. */
  lemma MirrorsLayout(children: seq<Child>, m: Map, images: Atlas.Images, materials: seq<Atlas.Material>)
    requires Mirrors(children, m, images, materials)
    ensures Layout(children) == MapLayout(m)
  {
    var t := |m.tiles|;
    forall k | 0 <= k < |children|
      ensures Layout(children)[k] == MapLayout(m)[k]
    {
      if k < t {
        assert children[..t][k] == children[k];
      } else {
        assert children[t..][k - t] == children[k];
      }
    }
  }

  /** Rebuilding an unchanged map, any number of times, places the same
      tiles and walls. */
  lemma RebuildIdempotent(first: seq<Child>, second: seq<Child>, m: Map, images: Atlas.Images,
                          before: seq<Atlas.Material>, after: seq<Atlas.Material>)
    requires Mirrors(first, m, images, before) && Mirrors(second, m, images, after)
    ensures Layout(first) == Layout(second)
  {
    MirrorsLayout(first, m, images, before);
    MirrorsLayout(second, m, images, after);
  }

  /** An allocator freshly made for `sheet`. */
  ghost predicate FreshFor(allocator: Atlas.MaterialAllocator, sheet: Atlas.SpriteSheet, images: Atlas.Images)
    reads allocator
  {
    && allocator.texture == sheet.spriteSheet
    && allocator.gridDimensions == sheet.gridDimensions
    && allocator.dimensions == Atlas.Dimensions(sheet, images)
    && allocator.cache == map[]
  }

  /** The tile loop of `update_map`: one tile per row, in order. */
  method SpawnTiles(rows: seq<MapTile>, sheet: Atlas.SpriteSheet, images: Atlas.Images,
                    allocator: Atlas.MaterialAllocator, store: Atlas.MaterialStore) returns (tiles: seq<Child>)
    requires FreshFor(allocator, sheet, images)
    requires |rows| > 0 ==> allocator.Usable()
    modifies allocator, store
    ensures |old(store.materials)| <= |store.materials|
    ensures store.materials[..|old(store.materials)|] == old(store.materials)
    ensures TilesMirror(tiles, rows, sheet, images, store.materials)
    ensures SharedBySprite(tiles, TileIds(rows))
    ensures forall k :: 0 <= k < |tiles| ==> MaterialOf(tiles[k]) >= |old(store.materials)|
  {
    ghost var before := |store.materials|;
    ghost var ids := TileIds(rows);
    tiles := [];
    for i := 0 to |rows|
      invariant allocator.Valid(store)
      invariant before <= |store.materials| && store.materials[..before] == old(store.materials)
      invariant TilesMirror(tiles, rows[..i], sheet, images, store.materials)
      invariant Agrees(allocator.cache, ids[..i], tiles, before)
    {
      ghost var materials := store.materials;
      ghost var cache := allocator.cache;
      var tile := rows[i];
      var h := allocator.GetMaterial(SpriteOf(tile.id), store);
      var child := TileChild(Grid.NewTile(Grid.LocationFrom(tile.pos), h));
      ghost var more := store.materials[|materials|..];
      assert materials + more == store.materials;
      TilesMirrorStep(tiles, rows, i, sheet, images, materials, more, child);
      AgreesStep(cache, allocator.cache, ids[..i], tiles, tile.id, child, before);
      assert ids[..i + 1] == ids[..i] + [tile.id];
      tiles := tiles + [child];
    }
    assert rows[..|rows|] == rows && ids[..|rows|] == ids;
    SharedFromCache(tiles, ids, sheet, images, store.materials, allocator.cache, before);
  }

  /** The wall loop of `update_map`: one wall per row, in order. */
  method SpawnWalls(rows: seq<MapWall>, sheet: Atlas.SpriteSheet, images: Atlas.Images,
                    allocator: Atlas.MaterialAllocator, store: Atlas.MaterialStore) returns (walls: seq<Child>)
    requires FreshFor(allocator, sheet, images)
    requires |rows| > 0 ==> allocator.Usable()
    modifies allocator, store
    ensures |old(store.materials)| <= |store.materials|
    ensures store.materials[..|old(store.materials)|] == old(store.materials)
    ensures WallsMirror(walls, rows, sheet, images, store.materials)
    ensures SharedBySprite(walls, WallIds(rows))
    ensures forall k :: 0 <= k < |walls| ==> MaterialOf(walls[k]) >= |old(store.materials)|
  {
    ghost var before := |store.materials|;
    ghost var ids := WallIds(rows);
    walls := [];
    for i := 0 to |rows|
      invariant allocator.Valid(store)
      invariant before <= |store.materials| && store.materials[..before] == old(store.materials)
      invariant WallsMirror(walls, rows[..i], sheet, images, store.materials)
      invariant Agrees(allocator.cache, ids[..i], walls, before)
    {
      ghost var materials := store.materials;
      ghost var cache := allocator.cache;
      var wall := rows[i];
      var h := allocator.GetMaterial(SpriteOf(wall.id), store);
      var child := WallChild(Grid.NewWall(Grid.LocationFrom(wall.pos), wall.direction, h));
      ghost var more := store.materials[|materials|..];
      assert materials + more == store.materials;
      WallsMirrorStep(walls, rows, i, sheet, images, materials, more, child);
      AgreesStep(cache, allocator.cache, ids[..i], walls, wall.id, child, before);
      assert ids[..i + 1] == ids[..i] + [wall.id];
      walls := walls + [child];
    }
    assert rows[..|rows|] == rows && ids[..|rows|] == ids;
    SharedFromCache(walls, ids, sheet, images, store.materials, allocator.cache, before);
  }

  /** The children one rebuild request spawns under the root, with their
      materials from two allocators made fresh for this request. */
  method SpawnChildren(m: Map, images: Atlas.Images, store: Atlas.MaterialStore) returns (children: seq<Child>)
    requires Buildable(m, images)
    modifies store
    ensures |old(store.materials)| <= |store.materials|
    ensures store.materials[..|old(store.materials)|] == old(store.materials)
    ensures Mirrors(children, m, images, store.materials)
    ensures forall k :: 0 <= k < |children| ==> MaterialOf(children[k]) >= |old(store.materials)|
    ensures forall a, b :: 0 <= a < |m.tiles| <= b < |children| ==> MaterialOf(children[a]) != MaterialOf(children[b])
  {
    var tileMaterials := new Atlas.MaterialAllocator(m.tileSprites, images);
    var wallMaterials := new Atlas.MaterialAllocator(m.wallSprites, images);
    var tiles := SpawnTiles(m.tiles, m.tileSprites, images, tileMaterials, store);
    ghost var afterTiles := store.materials;
    var walls := SpawnWalls(m.walls, m.wallSprites, images, wallMaterials, store);
    TilesMirrorExtend(tiles, m.tiles, m.tileSprites, images, afterTiles, store.materials[|afterTiles|..]);
    assert afterTiles + store.materials[|afterTiles|..] == store.materials;
    children := tiles + walls;
    assert children[..|m.tiles|] == tiles && children[|m.tiles|..] == walls;
    forall a, b | 0 <= a < |m.tiles| <= b < |children|
      ensures MaterialOf(children[a]) != MaterialOf(children[b])
    {
      assert MaterialOf(children[a]) < |afterTiles|;
      assert MaterialOf(children[b]) == MaterialOf(walls[b - |m.tiles|]) >= |afterTiles|;
    }
  }

  /** The map each root stands for, in spawn order. */
  function Tags(roots: seq<Root>): (tags: seq<MapHandle>)
    ensures |tags| == |roots| && forall k :: 0 <= k < |roots| ==> tags[k] == roots[k].handle
  {
    seq(|roots|, k requires 0 <= k < |roots| => roots[k].handle)
  }

  function HandlesOf(events: seq<Changes.MapEvent>): (hs: seq<MapHandle>)
    ensures |hs| == |events| && forall k :: 0 <= k < |events| ==> hs[k] == events[k].handle
  {
    seq(|events|, k requires 0 <= k < |events| => events[k].handle)
  }

  /** The roots after one request whose lookup saw `tags`: the single root
      is reused, and otherwise a root is spawned. */
  function Step(tags: seq<MapHandle>, h: MapHandle): seq<MapHandle> {
    if |tags| == 1 then [h] else tags + [h]
  }

  /** The roots after a batch of requests, looking the root up afresh for
      each request. */
  function LookupTags(tags: seq<MapHandle>, hs: seq<MapHandle>): seq<MapHandle>
    decreases |hs|
  {
    if hs == [] then tags else LookupTags(Step(tags, hs[0]), hs[1..])
  }

  /** The roots after a batch of requests as `update_map` is written: the
      lookup is made against the world as it was before the batch, because
      the spawns of earlier requests are still queued. */
  function SnapshotTags(tags: seq<MapHandle>, hs: seq<MapHandle>): seq<MapHandle> {
    if hs == [] then tags else if |tags| == 1 then [hs[|hs| - 1]] else tags + hs
  }

  /** With a fresh lookup per request, a scene with at most one root keeps
      exactly one, standing for the last request. */
  lemma {:induction false} LookupKeepsOneRoot(tags: seq<MapHandle>, hs: seq<MapHandle>)
    requires |tags| <= 1 && hs != []
    ensures LookupTags(tags, hs) == [hs[|hs| - 1]]
    decreases |hs|
  {
    if |hs| > 1 {
      LookupKeepsOneRoot(Step(tags, hs[0]), hs[1..]);
    }
  }

  /** As written, two requests in one batch with no root yet spawn two
      roots, and every later batch then spawns more, since the lookup never
      again finds exactly one. */
  lemma SnapshotSpawnsTwoRoots(h: MapHandle)
    ensures SnapshotTags([], [h, h]) == [h, h]
    ensures forall later :: later != [] ==> |SnapshotTags([h, h], later)| == 2 + |later|
    ensures LookupTags([], [h, h]) == [h]
  {
    LookupKeepsOneRoot([], [h, h]);
  }

  /** The fresh-lookup batch, one request further. */
  lemma LookupStep(tags: seq<MapHandle>, hs: seq<MapHandle>, i: nat, now: seq<MapHandle>)
    requires i < |hs| && LookupTags(tags, hs) == LookupTags(now, hs[i..])
    ensures LookupTags(tags, hs) == LookupTags(Step(now, hs[i]), hs[i + 1..])
  {
    assert hs[i..][1..] == hs[i + 1..];
  }

  /** The snapshot batch, one request further. */
  lemma SnapshotStep(tags: seq<MapHandle>, hs: seq<MapHandle>, i: nat, now: seq<MapHandle>)
    requires i < |hs| && now == SnapshotTags(tags, hs[..i])
    requires |tags| == 1 ==> (i == 0 || |now| == 1)
    ensures (if |tags| == 1 then [hs[i]] else now + [hs[i]]) == SnapshotTags(tags, hs[..i + 1])
  {
    assert hs[..i + 1] == hs[..i] + [hs[i]];
  }

  /** A root rebuilt for its map. */
  ghost predicate Current(root: Root, maps: map<MapHandle, Map>, images: Atlas.Images,
                          materials: seq<Atlas.Material>)
  {
    root.handle in maps && Mirrors(root.children, maps[root.handle], images, materials)
  }

  /** Every root is either one of `before`, untouched at its place, or
      rebuilt for its map. */
  ghost predicate Kept(roots: seq<Root>, before: seq<Root>, maps: map<MapHandle, Map>, images: Atlas.Images,
                       materials: seq<Atlas.Material>)
  {
    forall k :: 0 <= k < |roots| ==>
      (k < |before| && roots[k] == before[k]) || Current(roots[k], maps, images, materials)
  }

  lemma KeptExtend(roots: seq<Root>, before: seq<Root>, maps: map<MapHandle, Map>, images: Atlas.Images,
                   materials: seq<Atlas.Material>, more: seq<Atlas.Material>)
    requires Kept(roots, before, maps, images, materials)
    ensures Kept(roots, before, maps, images, materials + more)
  {
    forall k | 0 <= k < |roots| && !(k < |before| && roots[k] == before[k])
      ensures Current(roots[k], maps, images, materials + more)
    {
      MirrorsExtend(roots[k].children, maps[roots[k].handle], images, materials, more);
    }
  }

  /** Every request can be served: its map is loaded and can be rebuilt. */
  predicate Servable(events: seq<Changes.MapEvent>, maps: map<MapHandle, Map>, images: Atlas.Images) {
    forall k :: 0 <= k < |events| ==> events[k].handle in maps && Buildable(maps[events[k].handle], images)
  }

  /** The world's map entities: every entity that carries a map handle, with
      its children. */
  class Scene {
    var roots: seq<Root>

    constructor ()
      ensures roots == []
    {
      roots := [];
    }

    /** The commands of one rebuild request, applied: reuse the root when
        `reuse` (the lookup found exactly one) or spawn one, despawn its
        children, tag it with the map and spawn the map's children. */
    method Rebuild(reuse: bool, handle: MapHandle, m: Map, images: Atlas.Images, store: Atlas.MaterialStore)
      requires reuse ==> |roots| == 1
      requires Buildable(m, images)
      modifies this, store
      ensures |old(store.materials)| <= |store.materials|
      ensures store.materials[..|old(store.materials)|] == old(store.materials)
      ensures |roots| > 0
      ensures roots == (if reuse then [] else old(roots)) + [Root(handle, roots[|roots| - 1].children)]
      ensures Mirrors(roots[|roots| - 1].children, m, images, store.materials)
    {
      var children := SpawnChildren(m, images, store);
      if reuse {
        roots := [Root(handle, children)];
      } else {
        roots := roots + [Root(handle, children)];
      }
    }

    /** One rebuild request, with what it keeps of the scene: roots other
        than the one rebuilt stay as they were, and still mirror their maps
        once the store has grown. */
    method Serve(reuse: bool, handle: MapHandle, maps: map<MapHandle, Map>, images: Atlas.Images,
                 store: Atlas.MaterialStore, ghost initial: seq<Root>)
      requires reuse ==> |roots| == 1
      requires handle in maps && Buildable(maps[handle], images)
      requires Kept(roots, initial, maps, images, store.materials)
      modifies this, store
      ensures |old(store.materials)| <= |store.materials|
      ensures store.materials[..|old(store.materials)|] == old(store.materials)
      ensures Tags(roots) == (if reuse then [] else old(Tags(roots))) + [handle]
      ensures !reuse ==> roots[..|old(roots)|] == old(roots)
      ensures Kept(roots, initial, maps, images, store.materials)
      ensures Current(roots[|roots| - 1], maps, images, store.materials)
    {
      ghost var materials := store.materials;
      ghost var previous := roots;
      Rebuild(reuse, handle, maps[handle], images, store);
      ghost var more := store.materials[|materials|..];
      assert materials + more == store.materials;
      KeptExtend(previous, initial, maps, images, materials, more);
      if !reuse {
        assert Tags(roots) == Tags(previous) + [handle];
      }
    }

    /** `update_map` as written: one lookup, made before any request of the
        batch is applied. */
    method UpdateMapAsWritten(events: seq<Changes.MapEvent>, maps: map<MapHandle, Map>,
                              images: Atlas.Images, store: Atlas.MaterialStore)
      requires Servable(events, maps, images)
      modifies this, store
      ensures |old(store.materials)| <= |store.materials|
      ensures store.materials[..|old(store.materials)|] == old(store.materials)
      ensures Tags(roots) == SnapshotTags(old(Tags(roots)), HandlesOf(events))
      ensures Kept(roots, old(roots), maps, images, store.materials)
      ensures events == [] ==> roots == old(roots)
      ensures |old(roots)| == 1 && events != [] ==> |roots| == 1 && Current(roots[0], maps, images, store.materials)
      ensures |old(roots)| != 1 ==> |roots| == |old(roots)| + |events| && roots[..|old(roots)|] == old(roots)
    {
      var found := |roots| == 1;
      ghost var initial := roots;
      ghost var tags := Tags(roots);
      ghost var hs := HandlesOf(events);
      for i := 0 to |events|
        invariant |old(store.materials)| <= |store.materials|
        invariant store.materials[..|old(store.materials)|] == old(store.materials)
        invariant Tags(roots) == SnapshotTags(tags, hs[..i])
        invariant found ==> |roots| == 1
        invariant found && i > 0 ==> Current(roots[0], maps, images, store.materials)
        invariant i == 0 ==> roots == initial
        invariant !found ==> |roots| == |initial| + i && roots[..|initial|] == initial
        invariant Kept(roots, initial, maps, images, store.materials)
      {
        ghost var now := Tags(roots);
        Serve(found, events[i].handle, maps, images, store, initial);
        SnapshotStep(tags, hs, i, now);
      }
      assert hs[..|events|] == hs;
    }

    /** `update_map` with the root looked up afresh for each request, so
        that a root spawned by an earlier request of the batch is reused. */
    method UpdateMap(events: seq<Changes.MapEvent>, maps: map<MapHandle, Map>,
                     images: Atlas.Images, store: Atlas.MaterialStore)
      requires Servable(events, maps, images)
      modifies this, store
      ensures |old(store.materials)| <= |store.materials|
      ensures store.materials[..|old(store.materials)|] == old(store.materials)
      ensures Tags(roots) == LookupTags(old(Tags(roots)), HandlesOf(events))
      ensures Kept(roots, old(roots), maps, images, store.materials)
      ensures |old(roots)| <= 1 && events != [] ==>
                |roots| == 1 && roots[0].handle == events[|events| - 1].handle
                && Current(roots[0], maps, images, store.materials)
    {
      ghost var initial := roots;
      ghost var tags := Tags(roots);
      ghost var hs := HandlesOf(events);
      for i := 0 to |events|
        invariant |old(store.materials)| <= |store.materials|
        invariant store.materials[..|old(store.materials)|] == old(store.materials)
        invariant LookupTags(tags, hs) == LookupTags(Tags(roots), hs[i..])
        invariant Kept(roots, initial, maps, images, store.materials)
        invariant |initial| <= 1 ==> |roots| <= 1
        invariant |initial| <= 1 && i > 0 ==>
                    |roots| == 1 && roots[0].handle == events[i - 1].handle
                    && Current(roots[0], maps, images, store.materials)
      {
        ghost var now := Tags(roots);
        var found := |roots| == 1;
        Serve(found, events[i].handle, maps, images, store, initial);
        LookupStep(tags, hs, i, now);
      }
      assert hs[|events|..] == [];
    }
  }
}
