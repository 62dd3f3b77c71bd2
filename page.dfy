/**
 * The state of the DumpGrid page (the `Home` component) and its handlers:
 * picking, removing and clearing photos, opening the preview, the resize
 * listener, the previous-grid load and save effects, and exporting the grid.
 *
 * Browser services become parameters: the rasterizer (html2canvas followed
 * by `toDataURL`) is an oracle from a snapshot of the grid to an optional
 * data URL, whether a grid element is mounted is an oracle on the surface,
 * `localStorage` is a single-slot store object, and started downloads are
 * recorded in a field.
 */
module Page {
  import opened Types
  import Selection
  import Layout

  /** The name every exported collage is downloaded under. */
  const DownloadName: string := "dumpgrid.png"

  /** Milliseconds the export waits for the off-screen grid to finish its layout. */
  const HiddenLayoutDelayMs: nat := 100

  /** The two grids the page can rasterize. */
  datatype Surface = PreviewGrid | HiddenGrid

  /** The export uses the visible preview grid when the preview is open, the hidden grid otherwise. */
  function ExportSurface(showPreview: bool): (s: Surface)
    ensures s == PreviewGrid <==> showPreview
  {
    if showPreview then PreviewGrid else HiddenGrid
  }

  /** The wait before rasterizing: only the hidden grid gets one. */
  function LayoutDelay(s: Surface): (ms: nat)
    ensures ms > 0 <==> s == HiddenGrid
  {
    if s == HiddenGrid then HiddenLayoutDelayMs else 0
  }

  /**
   * What the rasterizer is handed, as far as this model tracks it: which
   * grid, its tiles in order, their column count and tile height, and the
   * scale. The grid's width is not recorded.
   */
  datatype Snapshot = Snapshot(surface: Surface, tiles: seq<ImageRef>, plan: Layout.Plan, scale: nat)

  /** The snapshot taken of `surface` while it shows `images`. */
  function SnapshotOf(surface: Surface, images: seq<ImageRef>, isMobile: bool): (shot: Snapshot)
    ensures shot.surface == surface && shot.tiles == images
    ensures shot.plan.columns == Layout.Columns(|images|, isMobile)
    ensures shot.plan.tileHeight == Layout.TileHeight(isMobile) && shot.scale == Layout.ExportScale(isMobile)
  {
    Snapshot(surface, images, Layout.PlanFor(|images|, isMobile), Layout.ExportScale(isMobile))
  }

  /**
   * The preview grid and the hidden export grid hold the same tiles in the
   * same order with the same column count, tile height and scale. Their
   * widths and the tiles' cross-origin setting do differ; a snapshot does not
   * record those.
   */
  lemma SurfacesAgree(images: seq<ImageRef>, isMobile: bool)
    ensures SnapshotOf(PreviewGrid, images, isMobile).(surface := HiddenGrid) == SnapshotOf(HiddenGrid, images, isMobile)
  {
  }

  /** A download the page started: the file name and the data it points at. */
  datatype Download = Download(fileName: string, href: DataUrl)

  /** How one export attempt ended. */
  datatype ExportOutcome = SurfaceMissing | Exported(url: DataUrl) | Failed

  /** The outcome of an export, given whether the chosen grid is mounted and what the rasterizer returned. */
  function ExportOutcomeOf(mounted: bool, raster: Option<DataUrl>): (o: ExportOutcome)
    ensures o.SurfaceMissing? <==> !mounted
    ensures o.Exported? <==> mounted && raster.Some?
    ensures o.Exported? ==> raster == Some(o.url)
  {
    if !mounted then SurfaceMissing
    else match raster
      case Some(url) => Exported(url)
      case None => Failed
  }

  /** The browser's `localStorage` entry `dumpgrid_previous`: one slot that outlives the page. */
  class SlotStore {
    var value: Option<string>

    constructor (initial: Option<string>)
      ensures value == initial
    {
      value := initial;
    }
  }

  /** The page's component state. */
  class Home {
    var images: seq<ImageRef>
    var currentFile: Option<int>   // key of the file input being shown, if any
    var showPreview: bool
    var previousGrid: Option<DataUrl>
    var isLoading: bool
    var isMobile: bool
    var downloads: seq<Download>   // downloads started by the page, oldest first
    const store: SlotStore

    /** The selection never holds more photos than the limit. */
    ghost predicate Valid()
      reads this
    {
      |images| <= MaxPhotos
    }

    /** The state a freshly mounted page starts in, before its effects run. */
    constructor (store: SlotStore)
      ensures Valid() && this.store == store
      ensures images == [] && currentFile == None && !showPreview
      ensures previousGrid == None && !isLoading && !isMobile && downloads == []
    {
      images := [];
      currentFile := None;
      showPreview := false;
      previousGrid := None;
      isLoading := false;
      isMobile := false;
      downloads := [];
      this.store := store;
    }

    /** The mount and resize listener: the viewport class follows the window width. */
    method HandleResize(innerWidth: int)
      requires Valid()
      modifies this
      ensures Valid()
      ensures isMobile == Layout.IsMobileWidth(innerWidth)
      ensures images == old(images) && currentFile == old(currentFile) && showPreview == old(showPreview)
      ensures previousGrid == old(previousGrid) && isLoading == old(isLoading) && downloads == old(downloads)
    {
      isMobile := Layout.IsMobileWidth(innerWidth);
    }

    /** The mount effect: a stored previous grid is adopted only when it is a non-empty string. */
    method LoadPreviousGrid()
      requires Valid()
      modifies this
      ensures Valid()
      ensures previousGrid == if Truthy(store.value) then store.value else old(previousGrid)
      ensures images == old(images) && currentFile == old(currentFile) && showPreview == old(showPreview)
      ensures isMobile == old(isMobile) && isLoading == old(isLoading) && downloads == old(downloads)
    {
      if Truthy(store.value) {
        previousGrid := store.value;
      }
    }

    /** The effect run when `previousGrid` changes: a non-empty grid overwrites the stored one. */
    method SavePreviousGrid()
      modifies store
      ensures store.value == if Truthy(previousGrid) then previousGrid else old(store.value)
    {
      if Truthy(previousGrid) {
        store.value := previousGrid;
      }
    }

    /** Clicking Add Photo shows a fresh file input, keyed by the current time. */
    method HandleAddPhotoClick(now: int)
      requires Valid()
      modifies this
      ensures Valid()
      ensures currentFile == Some(now)
      ensures images == old(images) && showPreview == old(showPreview) && isMobile == old(isMobile)
      ensures previousGrid == old(previousGrid) && isLoading == old(isLoading) && downloads == old(downloads)
    {
      currentFile := Some(now);
    }

    /**
     * A file was picked (or the picker was cancelled, `file == None`). With
     * twelve photos already selected the page alerts and changes nothing;
     * otherwise the photo is appended and the file input is hidden.
     */
    method HandleFileChange(file: Option<ImageRef>) returns (outcome: Selection.AddOutcome)
      requires Valid()
      modifies this
      ensures Valid()
      ensures outcome == Selection.AddOutcomeOf(old(images), file)
      ensures images == Selection.AfterFileChange(old(images), file)
      ensures currentFile == if outcome == Selection.Added then None else old(currentFile)
      ensures showPreview == old(showPreview) && isMobile == old(isMobile)
      ensures previousGrid == old(previousGrid) && isLoading == old(isLoading) && downloads == old(downloads)
    {
      outcome := Selection.AddOutcomeOf(images, file);
      if outcome != Selection.Added {
        return;
      }
      images := Selection.AfterFileChange(images, file);
      currentFile := None;
    }

    /**
     * The remove button of photo `index`: that photo leaves the selection,
     * the others keep their order; an index that names no photo changes nothing.
     */
    method HandleRemovePhoto(index: int)
      requires Valid()
      modifies this
      ensures Valid()
      ensures images == Selection.RemoveAt(old(images), index)
      ensures 0 <= index < |old(images)| ==> images == old(images)[..index] + old(images)[index + 1..]
      ensures !(0 <= index < |old(images)|) ==> images == old(images)
      ensures currentFile == old(currentFile) && showPreview == old(showPreview) && isMobile == old(isMobile)
      ensures previousGrid == old(previousGrid) && isLoading == old(isLoading) && downloads == old(downloads)
    {
      images := Selection.RemoveAt(images, index);
    }

    /** Start New Grid: the selection is emptied and the input and preview are closed; the previous grid stays. */
    method HandleStartNewGrid()
      requires Valid()
      modifies this
      ensures Valid()
      ensures images == [] && currentFile == None && !showPreview
      ensures isMobile == old(isMobile) && previousGrid == old(previousGrid)
      ensures isLoading == old(isLoading) && downloads == old(downloads)
    {
      images := [];
      currentFile := None;
      showPreview := false;
    }

    /** The Preview Grid button (`open`) and the preview's close button (`!open`). */
    method SetShowPreview(open: bool)
      requires Valid()
      modifies this
      ensures Valid()
      ensures showPreview == open
      ensures images == old(images) && currentFile == old(currentFile) && isMobile == old(isMobile)
      ensures previousGrid == old(previousGrid) && isLoading == old(isLoading) && downloads == old(downloads)
    {
      showPreview := open;
    }

    /**
     * Download Dump. The grid to rasterize is the preview when it is open and
     * the hidden grid otherwise. If that grid is not mounted the export stops
     * at once. Otherwise, after the wait the hidden grid needs, the grid is
     * rasterized once: on success its data URL becomes the previous grid and
     * one download named dumpgrid.png is started; on failure nothing else
     * changes. `isLoading` is false again on every way out. `delayMs` is the
     * wait that was taken.
     */
    method DownloadGrid(mounted: Surface -> bool, rasterize: Snapshot -> Option<DataUrl>)
      returns (outcome: ExportOutcome, delayMs: nat)
      requires Valid()
      modifies this
      ensures Valid()
      ensures !isLoading
      ensures outcome == ExportOutcomeOf(mounted(ExportSurface(showPreview)),
                                         rasterize(SnapshotOf(ExportSurface(showPreview), images, isMobile)))
      ensures delayMs == if outcome.SurfaceMissing? then 0 else LayoutDelay(ExportSurface(showPreview))
      ensures outcome.Exported? ==> previousGrid == Some(outcome.url)
      ensures outcome.Exported? ==> downloads == old(downloads) + [Download(DownloadName, outcome.url)]
      ensures !outcome.Exported? ==> previousGrid == old(previousGrid) && downloads == old(downloads)
      ensures images == old(images) && currentFile == old(currentFile)
      ensures showPreview == old(showPreview) && isMobile == old(isMobile)
    {
      isLoading := true;
      var surface := ExportSurface(showPreview);
      if !mounted(surface) {
        isLoading := false;
        return SurfaceMissing, 0;
      }
      delayMs := LayoutDelay(surface);
      var raster := rasterize(SnapshotOf(surface, images, isMobile));
      outcome := ExportOutcomeOf(true, raster);
      if raster.Some? {
        previousGrid := raster;
        downloads := downloads + [Download(DownloadName, raster.value)];
      }
      isLoading := false;
    }
  }

  /**
   * Starting over with two photos and then adding a third one leaves a
   * selection of exactly that one photo.
   */
  method ResetThenAdd(home: Home, a: ImageRef, b: ImageRef, c: ImageRef)
    requires home.Valid() && home.images == [a, b]
    modifies home
    ensures home.Valid() && home.images == [c]
  {
    home.HandleStartNewGrid();
    var outcome := home.HandleFileChange(Some(c));
  }

  /**
   * A successful export survives a reload: after the save effect, a new page
   * on the same store adopts the exported grid when it mounts, provided the
   * data URL is non-empty (an empty one would be neither saved nor loaded).
   * After a failed export the reloaded page sees the grid the page already
   * held, or else whatever the store held before.
   */
  method ExportThenReload(home: Home, mounted: Surface -> bool, rasterize: Snapshot -> Option<DataUrl>)
    returns (outcome: ExportOutcome, reloaded: Home)
    requires home.Valid()
    modifies home, home.store
    ensures reloaded.store == home.store
    ensures outcome.Exported? && outcome.url != "" ==> reloaded.previousGrid == Some(outcome.url)
    ensures !outcome.Exported? ==>
              reloaded.previousGrid == (if Truthy(old(home.previousGrid)) then old(home.previousGrid)
                                        else if Truthy(old(home.store.value)) then old(home.store.value)
                                        else None)
  {
    var delayMs;
    outcome, delayMs := home.DownloadGrid(mounted, rasterize);
    home.SavePreviousGrid();
    reloaded := new Home(home.store);
    reloaded.LoadPreviousGrid();
  }
}
