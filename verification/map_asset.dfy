/** The map asset of src/map/loading.rs: the decoded map file, the map built
    from it, and the texture dependencies the loader registers. The YAML
    decoding itself happens before this model starts: `Load` takes the
    decoded file. */
module MapAsset {
  import opened Base
  import Grid
  import Atlas

  /** A floor tile row of the map file. */
  datatype MapTile = MapTile(pos: (I32, I32), id: Option<U32>)

  /** A wall row of the map file. */
  datatype MapWall = MapWall(pos: (I32, I32), direction: Grid.Direction, id: Option<U32>)

  /** A sprite sheet as written in the file: a path and a cell size. */
  datatype SpriteSheetFile = SpriteSheetFile(spriteSheet: string, gridDimensions: (U32, U32))

  /** The decoded map file. */
  datatype MapFile = MapFile(name: string, tileSprites: SpriteSheetFile, wallSprites: SpriteSheetFile,
                             tiles: seq<MapTile>, walls: seq<MapWall>)

  /** The map asset. */
  datatype Map = Map(name: string, tileSprites: Atlas.SpriteSheet, wallSprites: Atlas.SpriteSheet,
                     tiles: seq<MapTile>, walls: seq<MapWall>)

  /** What the loader hands to the asset server: the map and its dependency paths. */
  datatype LoadedAsset = LoadedAsset(value: Map, dependencies: seq<string>)

  /** The sprite a row names: `id.unwrap_or(0)`. */
  function SpriteOf(id: Option<U32>): (i: U32)
    ensures id.Some? ==> i == id.value
    ensures id.None? ==> i == 0
  {
    id.UnwrapOr(0)
  }

  /** A sheet whose texture is the image at the file's path. */
  function SheetOf(f: SpriteSheetFile): (s: Atlas.SpriteSheet)
    ensures s.spriteSheet == ImageHandle(f.spriteSheet) && s.gridDimensions == f.gridDimensions
  {
    Atlas.SpriteSheet(f.gridDimensions, ImageHandle(f.spriteSheet))
  }

  /** `MapLoader::load` after decoding. */
  function Load(file: MapFile): (r: LoadedAsset)
    ensures r.value.name == file.name && r.value.tiles == file.tiles && r.value.walls == file.walls
    ensures r.value.tileSprites == SheetOf(file.tileSprites) && r.value.wallSprites == SheetOf(file.wallSprites)
    ensures r.dependencies == [file.tileSprites.spriteSheet, file.wallSprites.spriteSheet]
  {
    var value := Map(file.name, SheetOf(file.tileSprites), SheetOf(file.wallSprites), file.tiles, file.walls);
    LoadedAsset(value, [file.tileSprites.spriteSheet, file.wallSprites.spriteSheet])
  }

  /** The file a loaded asset came from: the inverse of `Load`. */
  function Unload(asset: LoadedAsset): (f: MapFile)
    requires |asset.dependencies| == 2
  {
    MapFile(asset.value.name,
            SpriteSheetFile(asset.dependencies[0], asset.value.tileSprites.gridDimensions),
            SpriteSheetFile(asset.dependencies[1], asset.value.wallSprites.gridDimensions),
            asset.value.tiles, asset.value.walls)
  }

  /** Loading keeps every field of the file: the file can be read back. */
  lemma LoadLossless(file: MapFile)
    ensures |Load(file).dependencies| == 2 && Unload(Load(file)) == file
  {
  }

  /** The loader registers exactly the images the map refers to. */
  lemma DependenciesAreTextures(file: MapFile)
    ensures var r := Load(file);
            forall p :: p in r.dependencies <==>
              ImageHandle(p) == r.value.tileSprites.spriteSheet || ImageHandle(p) == r.value.wallSprites.spriteSheet
  {
  }
}
