/**
 * The grid layout rule of the DumpGrid page: how many columns the collage
 * has, how tall each tile is and at which scale the grid is rasterized.
 * All of it depends only on the number of photos and on whether the
 * viewport is a phone-sized one, so the hidden export grid and the visible
 * preview grid, which both ask these functions, get the same column count,
 * tile height and scale.
 */
module Layout {
  import opened Types

  /** Widest viewport, in CSS pixels, that is still treated as mobile. */
  const MobileMaxWidth: int := 768

  /** The viewport class the resize listener derives from `window.innerWidth`. */
  predicate IsMobileWidth(innerWidth: int)
  {
    innerWidth <= MobileMaxWidth
  }

  /**
   * The column count behind the `grid-cols-N` class the grid is given.
   * The desktop branch tests `<= 6` and `<= 9` separately; both give 3.
   */
  function Columns(count: nat, isMobile: bool): (cols: nat)
    ensures 2 <= cols <= 4
    ensures isMobile ==> cols <= 3
    ensures count <= 4 ==> cols == 2
  {
    if isMobile then
      (if count <= 4 then 2 else 3)
    else if count <= 4 then 2
    else if count <= 6 then 3
    else if count <= 9 then 3
    else 4
  }

  /**
   * The column table: on mobile two columns up to four photos and three
   * beyond; on desktop two up to four, three for five to nine, four from ten.
   */
  lemma ColumnsTable(count: nat)
    ensures Columns(count, true) == (if count <= 4 then 2 else 3)
    ensures Columns(count, false) == (if count <= 4 then 2 else if count <= 9 then 3 else 4)
  {
  }

  /** More photos never means fewer columns. */
  lemma ColumnsMonotone(fewer: nat, more: nat, isMobile: bool)
    requires fewer <= more
    ensures Columns(fewer, isMobile) <= Columns(more, isMobile)
  {
  }

  /** A mobile grid is never wider, in columns, than the desktop grid for the same photos. */
  lemma MobileNotWider(count: nat)
    ensures Columns(count, true) <= Columns(count, false)
    ensures count <= 9 ==> Columns(count, true) == Columns(count, false)
  {
  }

  /**
   * Tile height in Tailwind spacing units of a quarter rem: the tile class is
   * `h-32` on mobile and `h-40` on desktop.
   */
  function TileHeight(isMobile: bool): (units: nat)
    ensures units > 0
  {
    if isMobile then 32 else 40
  }

  /** Tile height in CSS pixels, with the browser's 16-pixel rem. */
  function TileHeightPx(isMobile: bool): (px: nat)
    ensures px == if isMobile then 128 else 160
  {
    TileHeight(isMobile) * 4
  }

  /** Pixel multiplier handed to the rasterizer: 1 on mobile, 2 on desktop. */
  function ExportScale(isMobile: bool): (scale: nat)
    ensures scale >= 1
  {
    if isMobile then 1 else 2
  }

  /** Desktop gets the taller tile and the finer export. */
  lemma DesktopTallerAndFiner()
    ensures TileHeight(true) < TileHeight(false)
    ensures ExportScale(true) < ExportScale(false)
  {
  }

  /** The layout derived for a grid: its column count and tile height. */
  datatype Plan = Plan(columns: nat, tileHeight: nat)

  /** The layout both grids receive for `count` photos. */
  function PlanFor(count: nat, isMobile: bool): (p: Plan)
    ensures 2 <= p.columns <= 4 && p.tileHeight > 0
    ensures p.columns == Columns(count, isMobile) && p.tileHeight == TileHeight(isMobile)
  {
    Plan(Columns(count, isMobile), TileHeight(isMobile))
  }

  /**
   * Rows a CSS grid with `columns` columns needs for `count` tiles placed
   * row by row: the least number of full rows that hold them.
   */
  function Rows(count: nat, columns: nat): (rows: nat)
    requires columns > 0
    ensures count <= rows * columns
    ensures rows > 0 ==> (rows - 1) * columns < count
  {
    if count == 0 then 0
    else if count <= columns then 1
    else 1 + Rows(count - columns, columns)
  }

  /**
   * A selection within the limit fills at most three rows on desktop and
   * four on mobile.
   */
  lemma RowsBound(count: nat, isMobile: bool)
    requires count <= MaxPhotos
    ensures Rows(count, Columns(count, isMobile)) <= (if isMobile then 4 else 3)
  {
  }

  /**
   * Height in pixels of the exported image: the grid's rows of tiles with no
   * gap between them, times the export scale. With at most twelve photos it
   * is at most 960 pixels on desktop and 512 on mobile.
   */
  function ExportHeightPx(count: nat, isMobile: bool): (px: nat)
    ensures count <= MaxPhotos ==> px <= (if isMobile then 512 else 960)
    ensures px > 0 <==> count > 0
  {
    Rows(count, Columns(count, isMobile)) * TileHeightPx(isMobile) * ExportScale(isMobile)
  }
}
