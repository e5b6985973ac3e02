/** The sprite-atlas allocator of src/map/loading.rs: a texture sheet cut
    into equal cells, the UV rectangle of a linear sprite index, and a
    per-sheet cache of the materials made from those rectangles. UV values
    are exact reals; the source's single-precision rounding is not modelled. */
module Atlas {
  import opened Base

  /** A rectangle in UV coordinates, (0, 0) top left and (1, 1) bottom right. */
  datatype Rect = Rect(top: real, left: real, bottom: real, right: real)

  /** An unlit material: a sprite sheet and the part of it to draw. */
  datatype Material = Material(spriteSheet: ImageHandle, sprite: Rect)

  /** A texture sheet and the pixel size of one of its cells. */
  datatype SpriteSheet = SpriteSheet(gridDimensions: (U32, U32), spriteSheet: ImageHandle)

  /** The pixel sizes of the images decoded so far. */
  type Images = map<ImageHandle, (U32, U32)>

  /** `SpriteSheet::dimensions`: the image's pixel size once it is decoded,
      and the declared cell size until then (the sheet is then one cell). */
  function Dimensions(sheet: SpriteSheet, images: Images): (d: (U32, U32))
    ensures sheet.spriteSheet in images ==> d == images[sheet.spriteSheet]
    ensures sheet.spriteSheet !in images ==> d == sheet.gridDimensions
  {
    if sheet.spriteSheet in images then images[sheet.spriteSheet] else sheet.gridDimensions
  }

  /** When `index` can run without a division by zero: cells have a size,
      at least one cell fits across the sheet, and the sheet has a height. */
  predicate Divisible(dimensions: (U32, U32), grid: (U32, U32)) {
    grid.0 > 0 && grid.1 > 0 && dimensions.0 >= grid.0 && dimensions.1 > 0
  }

  /** How many whole cells fit across the sheet (the source calls it `rows`). */
  function PerRow(dimensions: (U32, U32), grid: (U32, U32)): nat
    requires grid.0 > 0
  {
    dimensions.0 / grid.0
  }

  /** How many whole cells fit down the sheet (the source calls it `cols`). */
  function PerColumn(dimensions: (U32, U32), grid: (U32, U32)): nat
    requires grid.1 > 0
  {
    dimensions.1 / grid.1
  }

  /** The (column, row) of a linear index: cells are numbered left to right,
      then top to bottom. */
  function Cell(index: nat, perRow: nat): (c: (nat, nat))
    requires perRow > 0
    ensures c.0 < perRow
    ensures c.1 * perRow + c.0 == index
  {
    (index % perRow, index / perRow)
  }

  lemma MulMonotone(a: nat, b: nat, c: nat)
    requires a <= b
    ensures a * c <= b * c
  {
  }

  /** The numbering is one to one: the cell at column `col` of row `row` has
      index `row * perRow + col`. */
  lemma CellOfLinear(col: nat, row: nat, perRow: nat)
    requires col < perRow
    ensures Cell(row * perRow + col, perRow) == (col, row)
  {
    var n := row * perRow + col;
    var q := n / perRow;
    assert n == q * perRow + n % perRow;
    if q < row {
      MulMonotone(q + 1, row, perRow);
      assert false;
    } else if q > row {
      MulMonotone(row + 1, q, perRow);
      assert false;
    }
  }

  /** Width of one cell in UV units. */
  function CellWidth(dimensions: (U32, U32), grid: (U32, U32)): (w: real)
    requires Divisible(dimensions, grid)
    ensures 0.0 < w <= 1.0
  {
    grid.0 as real / dimensions.0 as real
  }

  /** Height of one cell in UV units. */
  function CellHeight(dimensions: (U32, U32), grid: (U32, U32)): (h: real)
    requires Divisible(dimensions, grid)
    ensures 0.0 < h
  {
    grid.1 as real / dimensions.1 as real
  }

  /** `MaterialAllocator::index`: the UV rectangle of sprite `index`. It is
      exactly one cell in size, at the cell's column and row. */
  function UvRect(index: nat, dimensions: (U32, U32), grid: (U32, U32)): (r: Rect)
    requires Divisible(dimensions, grid)
    ensures r.right - r.left == CellWidth(dimensions, grid)
    ensures r.bottom - r.top == CellHeight(dimensions, grid)
    ensures r.left == Cell(index, PerRow(dimensions, grid)).0 as real * CellWidth(dimensions, grid)
    ensures r.top == Cell(index, PerRow(dimensions, grid)).1 as real * CellHeight(dimensions, grid)
  {
    var perRow := dimensions.0 / grid.0;
    var x := (index % perRow) as real;
    var y := (index / perRow) as real;
    var w := grid.0 as real / dimensions.0 as real;
    var h := grid.1 as real / dimensions.1 as real;
    Rect(y * h, x * w, y * h + h, x * w + w)
  }

  lemma MulCancel(a: real, b: real, w: real)
    requires w > 0.0 && a * w == b * w
    ensures a == b
  {
  }

  /** A rectangle placed on a grid of `w` by `h` cells gives back its cell. */
  lemma RectDeterminesCell(ci: (nat, nat), cj: (nat, nat), w: real, h: real, ri: Rect, rj: Rect)
    requires w > 0.0 && h > 0.0
    requires ri.left == ci.0 as real * w && ri.top == ci.1 as real * h
    requires rj.left == cj.0 as real * w && rj.top == cj.1 as real * h
    requires ri == rj
    ensures ci == cj
  {
    MulCancel(ci.0 as real, cj.0 as real, w);
    MulCancel(ci.1 as real, cj.1 as real, h);
  }

  /** Distinct sprite indices never share a rectangle. */
  lemma UvRectInjective(i: nat, j: nat, dimensions: (U32, U32), grid: (U32, U32))
    requires Divisible(dimensions, grid)
    requires UvRect(i, dimensions, grid) == UvRect(j, dimensions, grid)
    ensures i == j
  {
    var perRow := PerRow(dimensions, grid);
    RectDeterminesCell(Cell(i, perRow), Cell(j, perRow), CellWidth(dimensions, grid),
                       CellHeight(dimensions, grid), UvRect(i, dimensions, grid), UvRect(j, dimensions, grid));
  }

  lemma ScaleDiv(k: nat, g: nat, total: nat)
    requires total > 0
    ensures k as real * (g as real / total as real) == (k * g) as real / total as real
  {
  }

  lemma RatioAtMostOne(n: nat, total: nat)
    requires total > 0
    ensures (n as real / total as real <= 1.0) <==> n <= total
  {
  }

  /** An index lies within the first `perColumn` rows exactly when it is
      below `perRow * perColumn`. */
  lemma RowsWithin(index: nat, perRow: nat, perColumn: nat)
    requires perRow > 0
    ensures Cell(index, perRow).1 < perColumn <==> index < perRow * perColumn
  {
    var c := Cell(index, perRow);
    if c.1 < perColumn {
      MulMonotone(c.1 + 1, perColumn, perRow);
    } else {
      MulMonotone(perColumn, c.1, perRow);
    }
  }

  /** Cell number `k` along an axis of `count` whole cells of `g` pixels,
      on a `total`-pixel sheet, ends at `end`; it ends within the sheet
      exactly when `k < count`. */
  lemma CellEndWithin(k: nat, count: nat, g: nat, total: nat, end: real)
    requires g > 0 && total > 0
    requires count * g <= total < (count + 1) * g
    requires end == k as real * (g as real / total as real) + g as real / total as real
    ensures end <= 1.0 <==> k < count
  {
    assert end == (k + 1) as real * (g as real / total as real);
    ScaleDiv(k + 1, g, total);
    RatioAtMostOne((k + 1) * g, total);
    if k < count {
      MulMonotone(k + 1, count, g);
    } else {
      MulMonotone(count + 1, k + 1, g);
    }
  }

  /** Whole cells of `g` pixels across a `total`-pixel sheet. */
  lemma WholeCells(g: nat, total: nat)
    requires g > 0
    ensures (total / g) * g <= total < (total / g + 1) * g
  {
  }

  /** An index is never rejected: the rectangle lies inside the unit square
      exactly when the index names a whole cell of the sheet, and past the
      last cell it runs off the bottom. */
  lemma UvRectInUnitSquare(index: nat, dimensions: (U32, U32), grid: (U32, U32))
    requires Divisible(dimensions, grid)
    ensures var r := UvRect(index, dimensions, grid);
            (0.0 <= r.left && r.right <= 1.0 && 0.0 <= r.top && r.bottom <= 1.0)
            <==> index < PerRow(dimensions, grid) * PerColumn(dimensions, grid)
    ensures index >= PerRow(dimensions, grid) * PerColumn(dimensions, grid)
            ==> UvRect(index, dimensions, grid).bottom > 1.0
  {
    var perRow := PerRow(dimensions, grid);
    var perColumn := PerColumn(dimensions, grid);
    var c := Cell(index, perRow);
    var r := UvRect(index, dimensions, grid);
    WholeCells(grid.0, dimensions.0);
    WholeCells(grid.1, dimensions.1);
    RowsWithin(index, perRow, perColumn);
    CellEndWithin(c.0, perRow, grid.0, dimensions.0, r.right);
    CellEndWithin(c.1, perColumn, grid.1, dimensions.1, r.bottom);
  }

  /** A sheet of 10 by 5 pixel cells on a 50 by 25 pixel image: sprite 5
      starts the second row. */
  lemma FiveWideSheet()
    ensures Cell(5, PerRow((50, 25), (10, 5))) == (0, 1)
    ensures UvRect(0, (50, 25), (10, 5)) == Rect(0.0, 0.0, 0.2, 0.2)
    ensures UvRect(5, (50, 25), (10, 5)) == Rect(0.2, 0.0, 0.4, 0.2)
  {
  }

  /** Every cached index points at a material, made from this sheet's
      texture and the index's rectangle. */
  ghost predicate CacheMatches(cache: map<U32, MaterialHandle>, texture: ImageHandle,
                               dimensions: (U32, U32), grid: (U32, U32), materials: seq<Material>)
  {
    forall i :: i in cache ==>
      && Divisible(dimensions, grid)
      && cache[i] < |materials|
      && materials[cache[i]] == Material(texture, UvRect(i, dimensions, grid))
  }

  /** Materials are only ever appended, so a cache that was right stays right. */
  lemma CacheMatchesExtend(cache: map<U32, MaterialHandle>, texture: ImageHandle,
                           dimensions: (U32, U32), grid: (U32, U32), materials: seq<Material>, more: seq<Material>)
    requires CacheMatches(cache, texture, dimensions, grid, materials)
    ensures CacheMatches(cache, texture, dimensions, grid, materials + more)
  {
  }

  /** A consistent cache never hands one material to two indices. */
  lemma CacheNoAlias(cache: map<U32, MaterialHandle>, texture: ImageHandle,
                     dimensions: (U32, U32), grid: (U32, U32), materials: seq<Material>, i: U32, j: U32)
    requires CacheMatches(cache, texture, dimensions, grid, materials)
    requires i in cache && j in cache && i != j
    ensures cache[i] != cache[j]
  {
    if cache[i] == cache[j] {
      UvRectInjective(i, j, dimensions, grid);
    }
  }

  /** The store of all materials (`Assets<UnlitMaterial>`); a handle is a
      position in it, and it only grows. */
  class MaterialStore {
    var materials: seq<Material>

    constructor ()
      ensures materials == []
    {
      materials := [];
    }

    method Add(m: Material) returns (h: MaterialHandle)
      modifies this
      ensures materials == old(materials) + [m]
      ensures h == |old(materials)| && materials[h] == m
    {
      h := |materials|;
      materials := materials + [m];
    }
  }

  /** One sheet's allocator, for one rebuild: the sheet's geometry and a cache
      from sprite index to the material made for it. */
  class MaterialAllocator {
    const texture: ImageHandle
    const dimensions: (U32, U32)
    const gridDimensions: (U32, U32)
    var cache: map<U32, MaterialHandle>

    /** `SpriteSheet::material_allocator`: always starts with an empty cache. */
    constructor (sheet: SpriteSheet, images: Images)
      ensures texture == sheet.spriteSheet && gridDimensions == sheet.gridDimensions
      ensures dimensions == Dimensions(sheet, images)
      ensures cache == map[]
    {
      texture := sheet.spriteSheet;
      gridDimensions := sheet.gridDimensions;
      dimensions := Dimensions(sheet, images);
      cache := map[];
    }

    predicate Usable() {
      Divisible(dimensions, gridDimensions)
    }

    ghost predicate Valid(store: MaterialStore)
      reads this, store
    {
      CacheMatches(cache, texture, dimensions, gridDimensions, store.materials)
    }

    /** `MaterialAllocator::get_material`: the material for sprite `index`,
        made and cached on the first request, reused afterwards. The
        rectangle is computed before the cache is consulted, so a sheet that
        cannot be divided fails even on a hit. */
    method GetMaterial(index: U32, store: MaterialStore) returns (h: MaterialHandle)
      requires Usable() && Valid(store)
      modifies this, store
      ensures Valid(store)
      ensures h < |store.materials|
      ensures store.materials[h] == Material(texture, UvRect(index, dimensions, gridDimensions))
      ensures index in old(cache) ==>
                h == old(cache[index]) && cache == old(cache) && store.materials == old(store.materials)
      ensures index !in old(cache) ==>
                && store.materials == old(store.materials) + [Material(texture, UvRect(index, dimensions, gridDimensions))]
                && h == |old(store.materials)|
                && cache == old(cache)[index := h]
    {
      var rect := UvRect(index, dimensions, gridDimensions);
      if index in cache {
        h := cache[index];
      } else {
        h := store.Add(Material(texture, rect));
        cache := cache[index := h];
      }
    }
  }
}
