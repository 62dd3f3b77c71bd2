# DumpGrid page model

DumpGrid is a single browser page that turns two to twelve photos into a grid
collage and exports it as `dumpgrid.png`. All of its logic lives in the `Home`
component. This project models that component in Dafny:

- **Selection** (`selection.dfy`): the ordered list of image handles. Picking a
  file appends it unless twelve are already selected. Removing is a `filter` on
  the position, so an index that names no photo is a silent no-op.
- **Layout** (`layout.dfy`): the column count (`grid-cols-N`), the tile height
  (`h-32` / `h-40`) and the export scale (1 / 2). Each is a pure function of
  the photo count and the viewport class. Also the number of rows the grid
  fills when its tiles are placed row by row, and the exported image's height.
- **Status and gating** (`status.dfy`): the status line, and which buttons are
  rendered for a given number of photos.
- **Page state** (`page.dfy`): class `Home` holds the component's state fields
  (`images`, `currentFile`, `showPreview`, `previousGrid`, `isLoading`,
  `isMobile`) and has one method per handler and effect. `SlotStore` stands for
  the `localStorage` key `dumpgrid_previous`. The field `downloads` records the
  downloads the page starts. `DownloadGrid` receives the rasterizer as an
  oracle. That oracle maps a `Snapshot` (which grid, its tiles, their layout
  and the scale) to a data URL, or to nothing when rasterizing fails.
  `DownloadGrid` also receives whether each grid element is mounted.
- `types.dfy`: `Option` (standing for `null`), the limits 2 and 12, and
  JavaScript truthiness of a `string | null`.

Three behaviours of the code are worth stating plainly, because the model
follows them as written:
- Removing at an index outside the list is a silent no-op: `filter` matches
  nothing and the list stays as it was.
- `downloadGrid` has no photo-count check of its own. Only the rendering
  condition at `src/app/page.js:198` keeps the Download button away below two
  photos.
- Picking a file with twelve photos already selected shows an alert and
  changes nothing.

## Model

| member | source | states |
|---|---|---|
| Selection.AddOutcomeOf | src/app/page.js:52-58 | a picked file is added iff a file was picked and fewer than 12 photos are selected; it is refused for the limit iff a file was picked with 12 or more already there |
| Selection.AfterFileChange | src/app/page.js:52-62 | the old list is kept as a prefix; the list grows by exactly one iff the photo is added, and the new last element is the picked handle; a list within 12 stays within 12 |
| Selection.KeepOthers | src/app/page.js:68-70 | filtering by position never lengthens the list |
| Selection.KeepOthersDropsIndex | src/app/page.js:69 | the filter over positions `pos..` removes exactly the element at `index` when it lies in range, and returns the list unchanged otherwise |
| Selection.KeepOthersKeepsAll | src/app/page.js:69 | when `index` lies before every position, the filter keeps the whole list |
| Selection.RemoveAt | src/app/page.js:68-70 | removing at an in-range index gives `s[..i] + s[i+1..]`, which is one shorter and in the original order; a negative or too-large index, or any index on an empty list, leaves the list unchanged |
| Selection.RemoveAtKeepsLimit | src/app/page.js:68-70 | removing never takes the selection over 12 |
| Selection.RemoveUndoesAdd | src/app/page.js:52-70 | removing the photo just added, at the old length, restores the previous list |
| Layout.Columns | src/app/page.js:123-131 | the column count is between 2 and 4, at most 3 on mobile, and 2 for up to four photos |
| Layout.ColumnsTable | src/app/page.js:123-131 | mobile: 2 columns up to four photos, else 3; desktop: 2 up to four, 3 for five to nine, 4 from ten |
| Layout.ColumnsMonotone | src/app/page.js:123-131 | more photos never give fewer columns |
| Layout.MobileNotWider | src/app/page.js:123-131 | the mobile count is never above the desktop count, and the two are equal up to nine photos |
| Layout.TileHeight | src/app/page.js:134-136 | each tile has a positive height |
| Layout.TileHeightPx | src/app/page.js:134-136 | a tile is 128 pixels high on mobile (h-32) and 160 on desktop (h-40) |
| Layout.ExportScale | src/app/page.js:95 | the rasterizer's scale is at least 1 |
| Layout.DesktopTallerAndFiner | src/app/page.js:134-136 | desktop tiles (h-40) are taller than mobile tiles (h-32), and the desktop export scale (2, line 95) is higher than the mobile one (1) |
| Layout.PlanFor | src/app/page.js:250-268 | a grid's layout has 2 to 4 columns and a positive tile height, given by the column rule and the tile rule |
| Layout.Rows | src/app/page.js:250-277 | the row count is the least number of rows that holds all tiles |
| Layout.RowsBound | src/app/page.js:250-277 | at most 12 photos fill at most 3 rows on desktop and at most 4 on mobile |
| Layout.ExportHeightPx | src/app/page.js:240-277 | the exported image has positive height iff there is a photo; with at most 12 photos it is at most 960 pixels high on desktop and 512 on mobile |
| Status.StatusMessage | src/app/page.js:148-152 | below 2 photos the line asks for `2 - len` more (at least one); from 2 to 11 it allows `12 - len` more (at least one); from 12 on it reports the maximum |
| Status.Decimal | src/app/page.js:149-151 | the interpolated count is a non-empty string of decimal digits that spells the number, with no leading zero, one digit long iff it is below 10 |
| Status.StatusText | src/app/page.js:148-152 | the line reads "Maximum photos reached" iff the maximum is reported; otherwise it is "Select at least " or "You can add up to ", then the count in decimal, then " more photo(s)" |
| Status.StatusTextInjective | src/app/page.js:148-152 | two status lines that read the same have the same form and the same count |
| Status.ShowAddButton | src/app/page.js:155 | the Add button is shown (`len < 12`) iff the status line does not report the maximum |
| Status.ShowExportControls | src/app/page.js:198 | the export controls are shown (`len >= 2`) iff the status line does not ask for more photos; they or the Add button are always shown |
| Status.DownloadEnabled | src/app/page.js:198-208 | the Download button is usable iff at least two photos are selected and no export is running |
| Status.DownloadLabel | src/app/page.js:211 | the button reads "Generating..." iff an export is running |
| Status.ShowPreviousGridButton | src/app/page.js:213-237 | "View Previous Grid" is shown iff a non-empty previous grid exists and the selection does not hold exactly one photo |
| Page.ExportSurface | src/app/page.js:80 | the preview grid is rasterized iff the preview is open |
| Page.LayoutDelay | src/app/page.js:86-89 | there is a wait before rasterizing iff the hidden grid is used |
| Page.SnapshotOf | src/app/page.js:92-97 | the rasterizer sees the chosen grid, the selected tiles in order, the column and tile rules for this count and viewport, and the viewport's scale |
| Page.SurfacesAgree | src/app/page.js:250-316 | the preview and hidden grids have the same tiles in the same order, the same column count, tile height and scale; only the surface differs among the recorded parts |
| Page.ExportOutcomeOf | src/app/page.js:81-119 | an export finds the surface missing iff the grid is not mounted; it succeeds iff the grid is mounted and the rasterizer returns a URL, and then carries that URL |
| Page.SlotStore.constructor | src/app/page.js:26-33 | the `dumpgrid_previous` slot starts with the value the browser holds for it |
| Page.Home.constructor | src/app/page.js:6-12 | a new page starts with no photos, no file input, the preview closed, no previous grid, not loading and not mobile |
| Page.Home.HandleResize | src/app/page.js:17-22 | the viewport class follows the window width; nothing else changes |
| Page.Home.LoadPreviousGrid | src/app/page.js:25-28 | the stored grid is adopted only when it is a non-empty string; nothing else changes |
| Page.Home.SavePreviousGrid | src/app/page.js:31-35 | a non-empty previous grid overwrites the stored one; otherwise the store is untouched |
| Page.Home.HandleAddPhotoClick | src/app/page.js:64-66 | a file input keyed by the current time is shown; nothing else changes |
| Page.Home.HandleFileChange | src/app/page.js:52-62 | the selection becomes the guarded append of the picked file and stays within 12; the input is hidden only when the photo was added; nothing else changes |
| Page.Home.HandleRemovePhoto | src/app/page.js:68-70 | an in-range index removes that photo and keeps the rest in order; any other index changes nothing; no other field changes |
| Page.Home.HandleStartNewGrid | src/app/page.js:72-76 | photos are emptied, the file input and the preview are closed, and the previous grid, loading flag and downloads are untouched |
| Page.Home.SetShowPreview | src/app/page.js:200-291 | the Preview Grid button (line 201, `open`) opens the preview and its close button (line 286, `!open`) closes it; nothing else changes |
| Page.Home.DownloadGrid | src/app/page.js:78-120 | the grid chosen by `showPreview` is rasterized once, after a 100 ms wait only for the hidden grid. A missing grid ends with no wait, no download and the previous grid unchanged. Success sets the previous grid to the new data URL and starts one download of `dumpgrid.png`. Failure changes neither. `isLoading` is false on every exit |
| Page.ResetThenAdd | src/app/page.js:52-76 | starting a new grid from `[a, b]` and then adding `c` gives `[c]` |
| Page.ExportThenReload | src/app/page.js:24-35 | after a successful export with a non-empty URL and the save effect, a new page on the same store loads that URL. After a failed export it loads the grid the page already held, or else the old stored value |

## Left out

- Rasterizing with html2canvas, PNG encoding and `toDataURL`: a foreign library, modelled only as an oracle from a snapshot to an optional data URL. The `onclone` size fix-up depends on DOM measurements and is part of that oracle.
- Preloading images with `Promise.all`, the timer behind the 100 ms wait, and the awaits inside `downloadGrid`: an export is modelled as one atomic step, so nothing the user does while it is suspended is modelled.
- `URL.createObjectURL`: the handle it would mint is the `file` argument of `HandleFileChange`. `Date.now()` is the `now` argument of `HandleAddPhotoClick`.
- `alert`, `console.error` and creating and clicking the download link are browser side effects. The alert for a full selection appears only as the `LimitReached` outcome. The download appears as an entry in `downloads`.
- `localStorage` failures, such as storage being unavailable or full, are not modelled.
- React's scheduling of effects: `LoadPreviousGrid` and `SavePreviousGrid` are methods the caller runs at the points where React would run the effects.
- The markup and styling: the previous-grid modal and its "Download Again" link, the footer and the donation button. The tile and column classes are modelled as numbers. The width of the exported image is not modelled; see the `Page.SurfacesAgree` line.
- Page.SurfacesAgree: the two grids are not alike in every respect, and the snapshot leaves out where they differ. The hidden grid's wrapper is 600 pixels wide on desktop and the full viewport on mobile (page.js line 246). The preview grid fills a `max-w-2xl` modal inside two `p-4` paddings (lines 283-284 and 301): min(viewport − 64, 640) pixels, which is 640 on every desktop window and the viewport less 64 only below 705 pixels. So the two exports differ in width and in how tiles are cropped. Only the hidden tiles carry `crossOrigin="anonymous"` (line 275). The lemma covers only tiles, column count, tile height and scale.
- Page.Home.SavePreviousGrid: writes whenever the previous grid is non-empty, not only when it has just changed. The value written is the one the store already holds in that case.
- src/app/layout.js holds only font setup, page metadata and a root wrapper, and is not part of this model.
