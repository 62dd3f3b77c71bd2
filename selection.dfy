/**
 * The list updates behind the page's selection of photos: the guarded append
 * done when a file is picked, and the index filter done when a photo is
 * removed. Both are pure functions of the current list; the page's handlers
 * (module Page) assign their results to the `images` field.
 */
module Selection {
  import opened Types

  /** What picking a file does: nothing was picked, the page is full, or the photo was added. */
  datatype AddOutcome = NoFile | LimitReached | Added

  /** Which branch of the file-change handler is taken for the current list and the picked file. */
  function AddOutcomeOf(images: seq<ImageRef>, file: Option<ImageRef>): (o: AddOutcome)
    ensures o == Added <==> file.Some? && |images| < MaxPhotos
    ensures o == LimitReached <==> file.Some? && |images| >= MaxPhotos
  {
    if file.None? then NoFile
    else if |images| >= MaxPhotos then LimitReached
    else Added
  }

  /**
   * The list after a file change: the picked handle appended at the end when
   * there is room, the list unchanged otherwise.
   */
  function AfterFileChange(images: seq<ImageRef>, file: Option<ImageRef>): (r: seq<ImageRef>)
    ensures |images| <= |r| <= |images| + 1 && r[..|images|] == images
    ensures |r| == |images| + 1 <==> AddOutcomeOf(images, file) == Added
    ensures |r| == |images| + 1 ==> file == Some(r[|images|])
    ensures |images| <= MaxPhotos ==> |r| <= MaxPhotos
  {
    if AddOutcomeOf(images, file) == Added then images + [file.value] else images
  }

  /**
   * Array `filter` with the position test `i !== index`: the elements of `s`,
   * which stand at positions `pos`, `pos + 1`, ..., except the one at
   * position `index`, in their original order.
   */
  function KeepOthers<T>(s: seq<T>, index: int, pos: int): (r: seq<T>)
    ensures |r| <= |s|
    decreases |s|
  {
    if s == [] then []
    else
      (if pos != index then [s[0]] else []) + KeepOthers(s[1..], index, pos + 1)
  }

  /** The filter drops exactly the element at position `index` when there is one, and nothing otherwise. */
  lemma {:induction false} KeepOthersDropsIndex<T>(s: seq<T>, index: int, pos: int)
    ensures pos <= index < pos + |s| ==> KeepOthers(s, index, pos) == s[..index - pos] + s[index - pos + 1..]
    ensures !(pos <= index < pos + |s|) ==> KeepOthers(s, index, pos) == s
    decreases |s|
  {
    if s == [] {
    } else if pos == index {
      KeepOthersKeepsAll(s[1..], index, pos + 1);
    } else {
      var rest := KeepOthers(s[1..], index, pos + 1);
      assert KeepOthers(s, index, pos) == [s[0]] + rest;
      KeepOthersDropsIndex(s[1..], index, pos + 1);
      if pos < index < pos + |s| {
        var k := index - pos;
        assert rest == s[1..][..k - 1] + s[1..][k..];
        assert [s[0]] + s[1..][..k - 1] == s[..k];
        assert s[1..][k..] == s[k + 1..];
      } else {
        assert [s[0]] + s[1..] == s;
      }
    }
  }

  /** When `index` lies before every position of `s`, the filter keeps all of `s`. */
  lemma {:induction false} KeepOthersKeepsAll<T>(s: seq<T>, index: int, pos: int)
    requires index < pos
    ensures KeepOthers(s, index, pos) == s
    decreases |s|
  {
    if s != [] {
      KeepOthersKeepsAll(s[1..], index, pos + 1);
      assert [s[0]] + s[1..] == s;
    }
  }

  /**
   * The list with the element at position `index` filtered out: for an index
   * inside the list that element is gone and the others keep their order;
   * any other index (negative, past the end, or on an empty list) leaves the
   * list as it was.
   */
  function RemoveAt<T>(s: seq<T>, index: int): (r: seq<T>)
    ensures 0 <= index < |s| ==> r == s[..index] + s[index + 1..]
    ensures 0 <= index < |s| ==> |r| == |s| - 1
    ensures !(0 <= index < |s|) ==> r == s
  {
    KeepOthersDropsIndex(s, index, 0);
    KeepOthers(s, index, 0)
  }

  /** Removing a photo never takes the list over the limit. */
  lemma RemoveAtKeepsLimit<T>(s: seq<T>, index: int)
    requires |s| <= MaxPhotos
    ensures |RemoveAt(s, index)| <= MaxPhotos
  {
  }

  /** Removing the photo just added (its index is the old length) restores the list. */
  lemma RemoveUndoesAdd(images: seq<ImageRef>, url: ImageRef)
    requires |images| < MaxPhotos
    ensures RemoveAt(AfterFileChange(images, Some(url)), |images|) == images
  {
  }
}
