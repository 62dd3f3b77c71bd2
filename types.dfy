/**
 * Values shared by the DumpGrid page model: the optional wrapper that stands
 * for JavaScript's `null`, the handles the page stores, and its photo limits.
 */
module Types {

  /** A value that may be absent: `None` stands for `null` (or `undefined`). */
  datatype Option<+T> = None | Some(value: T)

  /** An object URL minted for a picked file; the page keeps these, in order. */
  type ImageRef = string

  /** A `data:image/png;base64,...` string produced by exporting the grid. */
  type DataUrl = string

  /** Fewest photos a grid can be exported with. */
  const MinPhotos: nat := 2

  /** Most photos the page accepts. */
  const MaxPhotos: nat := 12

  /**
   * JavaScript truthiness of a `string | null` value: `null` and the empty
   * string are falsy, every other string is truthy.
   */
  predicate Truthy(v: Option<string>)
  {
    v.Some? && v.value != ""
  }
}
