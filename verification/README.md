# Map pipeline of rusty_jam, modelled in Dafny

This project models how the rusty_jam Bevy scene turns a decoded map file
into placed floor tiles and walls:

- **Grid** (`src/map/mod.rs`) places grid cells and compass directions in
  the world. A cell's translation is its corner on the ground plane, and a
  direction is a yaw about the vertical axis. It also covers the `serde`
  names of the directions, the two bundle constructors, and the two
  controllers that rewrite one field of a transform.
- **GridCentred** (`src/map.rs`) is the older copy of the grid module. It
  puts a cell's translation at the centre of the cell. It is kept apart so
  the two conventions are never confused.
- **Atlas** (`src/map/loading.rs`) covers the sprite sheet, the UV
  rectangle of a linear sprite index, and the material allocator. The
  allocator is a per-sheet cache in front of the append-only material store.
- **MapAsset** (`src/map/loading.rs`) covers the map asset. The loader
  copies the decoded file and registers the two sprite sheets as its
  dependencies.
- **Changes** (`src/map/loading.rs`) covers `detect_changes`, which turns
  asset events into rebuild requests for the active map.
- **Sync** (`src/map/loading.rs`) covers `update_map`. It tears down a map
  root's children and spawns one tile per tile row and one wall per wall
  row, with materials from fresh allocators.
- **Base** and **Spatial** hold shared types: `Option`, `Result`, 32-bit
  integer ranges, handles, vectors, yaw rotations and transforms.

UV coordinates and world positions are exact reals, and rotations are whole
degrees of yaw.

## Notes on the source

- Sprites are numbered left to right, then top to bottom: the column is
  `index % (width / cell_width)` and the row is `index / (width / cell_width)`,
  as the comment at src/map/loading.rs:87-89 shows. `Atlas.FiveWideSheet`
  pins that example: sprite 5 of a five-wide sheet is column 0 of row 1.
- `get_material` computes the rectangle before it consults the cache, so a
  sheet that cannot be divided into cells fails even on a cache hit;
  `GetMaterial` therefore requires a divisible sheet on every call.
- `WallBundle::new` leaves the rotation at the identity. Only
  `direction_controller` turns a wall to face its direction, so a rebuild
  alone does not set the rotation.

## Model

| member | source | states |
|---|---|---|
| Grid.Translation | src/map/mod.rs:56-60 | the translation of a cell lies on the ground plane (y = 0), and its x and z are the cell's x and y in units of the 0.2 tile size, with no offset |
| Grid.TranslationRoundTrip | src/map/mod.rs:56-60 | dividing a cell's translation by the tile size gives back exactly that cell |
| Grid.TranslationInjective | src/map/mod.rs:56-60 | distinct cells have distinct translations |
| Grid.LocationFrom | src/map/mod.rs:62-66 | converting an (x, y) pair to a location keeps both coordinates |
| Grid.Angle | src/map/mod.rs:90-97 | every direction's angle is a multiple of 90 in [0, 360), and it is 0 exactly for +x |
| Grid.DirectionRotation | src/map/mod.rs:90-99 | a direction becomes a turn about the vertical axis by its angle |
| Grid.AngleInjective | src/map/mod.rs:92-97 | distinct directions have distinct angles |
| Grid.QuarterTurn | src/map/mod.rs:79-97 | each direction in declaration order is a 90-degree turn from the one before it |
| Grid.FourQuarterTurns | src/map/mod.rs:79-97 | four quarter turns from any direction bring back both the direction and its rotation |
| Grid.ParseDirection | src/map/mod.rs:78-88 | only "+x", "-y", "-x" and "+y" name a direction, and a parsed direction's name is the input |
| Grid.TokenRoundTrip | src/map/mod.rs:78-88 | parsing a direction's name gives back that direction |
| Grid.NewTile | src/map/mod.rs:146-160 | a new tile keeps its cell and material, uses the tile mesh, and both of its transforms are the cell's translation with no rotation and unit scale |
| Grid.NewWall | src/map/mod.rs:178-198 | a new wall keeps its cell, direction and material, uses the wall mesh, and both of its transforms are the cell's translation with the rotation still at identity |
| Grid.LocationController | src/map/mod.rs:69-75 | each entity's translation becomes its cell's translation, and the rest of every transform is unchanged |
| Grid.DirectionController | src/map/mod.rs:102-108 | each entity's rotation becomes its direction's rotation, and the rest of every transform is unchanged |
| GridCentred.Translation | src/map.rs:74-84 | the translation of a cell lies on the ground plane, and in tile units its x and z are the cell's x and y plus one half |
| GridCentred.TranslationRoundTrip | src/map.rs:74-84 | the point a cell is placed at lies inside that cell |
| GridCentred.TranslationInjective | src/map.rs:74-84 | distinct cells have distinct centred translations |
| GridCentred.HalfTileFromCorner | src/map.rs:76-83 | the centred translation is the corner translation moved half a tile along x and along z, at the same height |
| GridCentred.NewTile | src/map.rs:52-64 | a new tile keeps its cell and material, and both of its transforms are the cell-centre translation |
| GridCentred.LocationController | src/map.rs:87-93 | each entity's translation becomes its cell centre, and the rest of every transform is unchanged |
| Atlas.Dimensions | src/map/loading.rs:35-41 | a sheet's size is the decoded image's pixel size, or the declared cell size while the image is not loaded |
| Atlas.Cell | src/map/loading.rs:87-90 | an index's column is below the number of cells per row, and its row times that number plus its column is the index |
| Atlas.CellOfLinear | src/map/loading.rs:87-90 | the cell at a given column and row has index row * perRow + column, so the numbering is one to one |
| Atlas.CellWidth | src/map/loading.rs:93-96 | one cell is at most the whole sheet wide in UV units, and more than zero |
| Atlas.UvRect | src/map/loading.rs:79-109 | a sprite's rectangle is exactly one cell wide and high, and its left and top edges sit at the index's column and row |
| Atlas.UvRectInjective | src/map/loading.rs:79-109 | distinct sprite indices never share a rectangle |
| Atlas.UvRectInUnitSquare | src/map/loading.rs:98-108 | the rectangle lies in the unit square exactly when the index names a whole cell of the sheet; past the last cell it runs off the bottom, and it is still returned |
| Atlas.FiveWideSheet | src/map/loading.rs:87-90 | on a 50 by 25 pixel sheet of 10 by 5 pixel cells, sprite 0 is the top-left fifth and sprite 5 starts the second row |
| Atlas.CacheMatchesExtend | src/map/loading.rs:67-72 | materials are only appended, so cache entries that were right stay right |
| Atlas.CacheNoAlias | src/map/loading.rs:61-73 | a consistent cache never gives one material to two sprite indices |
| Atlas.MaterialStore.Add | src/map/loading.rs:70 | adding a material appends it and returns its position |
| Atlas.MaterialAllocator.constructor | src/map/loading.rs:43-50 | a new allocator takes the sheet's texture, cell size and current dimensions, and starts with an empty cache |
| Atlas.MaterialAllocator.GetMaterial | src/map/loading.rs:61-73 | the returned material is this sheet's texture with the index's rectangle; a hit returns the cached handle and adds nothing; a miss appends exactly one material and caches it under the index, leaving every other entry unchanged |
| MapAsset.SpriteOf | src/map/loading.rs:277 | a missing sprite id means sprite 0 |
| MapAsset.SheetOf | src/map/loading.rs:160-171 | a loaded sheet refers to the image at the file's path and keeps the file's cell size |
| MapAsset.Load | src/map/loading.rs:160-185 | the map keeps the file's name, tiles and walls, and the tile-sheet path and the wall-sheet path, in that order, are the only dependencies |
| MapAsset.LoadLossless | src/map/loading.rs:160-185 | nothing of the decoded file is lost: it can be read back from the loaded asset |
| MapAsset.DependenciesAreTextures | src/map/loading.rs:183-185 | a path is a dependency exactly when it names one of the map's two sprite sheets |
| Changes.DetectChanges | src/map/loading.rs:202-236 | the loop over one batch of asset events sends the events the recursive definition `Detected` gives, or reports that the active map was unloaded |
| Changes.OnlyActiveUpdated | src/map/loading.rs:230-234 | every request sent is for the active map |
| Changes.OneUpdatePerTouch | src/map/loading.rs:208-234 | without removals, one request is sent per creation or modification of the active map, and nothing else is sent |
| Changes.ForeignRemovalEndsBatch | src/map/loading.rs:222-227 | removing another map ends the batch: the events after it are never looked at |
| Changes.ActiveRemovalFatal | src/map/loading.rs:222-225 | removing the active map is fatal, whatever creations and modifications come before it, and whatever comes after |
| Sync.SpawnTiles | src/map/loading.rs:273-281 | one tile per tile row, in file order, at the row's cell; each material draws the row's sprite, or sprite 0, and was made during this rebuild; two tiles share a material exactly when they draw the same sprite |
| Sync.SpawnWalls | src/map/loading.rs:283-292 | one wall per wall row, in file order, at the row's cell and facing its direction, with materials as for tiles |
| Sync.SpawnChildren | src/map/loading.rs:263-293 | the new children are the tiles followed by the walls, with materials from two fresh allocators: every material is new, existing materials are untouched, and no tile shares a material with a wall |
| Sync.MirrorsExtend | src/map/loading.rs:263-293 | a finished rebuild stays correct as later rebuilds add materials |
| Sync.SharedFromCache | src/map/loading.rs:263-293 | within one rebuild, equal sprite ids share a material handle and distinct sprites never do |
| Sync.MirrorsLayout | src/map/loading.rs:273-292 | a finished rebuild places exactly the cells and facings the map's rows describe, in order |
| Sync.RebuildIdempotent | src/map/loading.rs:268-293 | rebuilding an unchanged map again places the same tiles and walls |
| Sync.Scene.Rebuild | src/map/loading.rs:255-293 | one request either reuses the single root, dropping its old children, or spawns a new root after the others; the root is tagged with the map and its children mirror the map |
| Sync.Scene.Serve | src/map/loading.rs:246-294 | after one request, every other root is as it was and still mirrors its map, and the rebuilt root mirrors its map |
| Sync.Scene.UpdateMapAsWritten | src/map/loading.rs:238-297 | as written, the roots after a batch follow the one lookup made before the batch: with a single root, that root is kept, tagged with the last request and rebuilt for its map; otherwise one new root is spawned per request, after the untouched old ones |
| Sync.SnapshotSpawnsTwoRoots | src/map/loading.rs:255-261 | as written, two requests in one batch with no root yet leave two roots, and every later batch adds more |
| Sync.LookupKeepsOneRoot | src/map/loading.rs:255-261 | if the root is looked up for each request, a scene with at most one root ends a non-empty batch with exactly one, tagged with the last request |
| Sync.Scene.UpdateMap | src/map/loading.rs:238-297 | with the root looked up for each request, a scene with at most one root ends with exactly one root; it is tagged with the last request and mirrors that map, and every other root is untouched or rebuilt |

## Left out

- Floating point: UVs, translations and tile sizes are exact reals, so `f32` rounding is not modelled. The cast of an image's float size to `u32` is not modelled either: a decoded image's size is given as a pair of 32-bit integers.
- Atlas.UvRect: also requires the sheet to have a non-zero pixel height. In the source, a zero height is a float division that yields an infinite or NaN rectangle rather than a panic, and the model does not represent those values. The other conditions (non-zero cell sizes, at least one cell across the sheet) are the source's own integer-division panics.
- Atlas.MaterialAllocator.GetMaterial: requires a divisible sheet on a hit as well as on a miss, since the rectangle is computed first (see above), including the non-zero height from the previous line.
- Sync.SpawnChildren: requires a divisible sheet for every sheet that has rows (`Buildable`); a sheet that would panic in `index` is excluded rather than modelled as a crash.
- Quaternions: a rotation is a whole number of degrees of yaw about the vertical axis, which is the only axis the map code uses; `from_axis_angle` and the radian conversion are left out.
- YAML decoding, `LoadContext::get_handle` and the path's `to_str().unwrap()` are foreign calls: `Load` takes the decoded file, and an image handle is its path.
- `MapLoader::extensions` returns a constant list of file extensions and has no logic to model.
- Logging (`info!`, `debug!`) and the map-name lookups done only for logging in `detect_changes` are left out.
- Sync.Scene.UpdateMapAsWritten: the `expect` on a map missing from the asset store is a precondition (`Servable`) rather than a modelled panic.
- Command deferral: each request's commands (spawn, despawn of descendants, tag insertion, child spawns) are applied in order right after the request. The source applies the whole batch's commands after the system ends, in the same order, with the same final world. The lookup snapshot that deferral causes is modelled (see Findings).
- The root entity's own default `Transform` and `GlobalTransform` are not part of `Root`.
- ECS change detection (`Changed<Location>`, `Changed<Direction>`): the controllers take the entities the query matched and update them all.
- Asset handle reference counting, mesh construction (`TileMesh`, `WallMesh`), plugin and inspector registration, and the startup system that loads the test map are renderer or application setup.
- Materials dropped when a root's children are despawned stay in the store, which only grows; nothing removes them in the model.

## Findings

| source | as written | input that shows it | evidently intended | confidence | as-written member | corrected member |
|---|---|---|---|---|---|---|
| src/map/loading.rs:255-261 | each request looks the root up with `get_single` on a query made before the batch; the spawn it falls back to is a deferred command, so every request of the batch sees the same world | no map root yet, and two `Update` requests for the active map in one batch (a creation and a modification of the map in the same frame): two roots are spawned, and since `get_single` then never finds exactly one, every later request spawns another | a request reuses the root spawned by the request before it, so the world keeps a single map root | not executed; medium | Sync.SnapshotSpawnsTwoRoots | Sync.Scene.UpdateMap |
