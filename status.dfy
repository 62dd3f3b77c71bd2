/**
 * What the page shows for a given number of selected photos: the status
 * line above the Add button and which controls are visible or enabled.
 */
module Status {
  import opened Types

  /** The three forms of the status line. */
  datatype Message =
    | SelectAtLeast(more: nat)   // fewer than two photos: how many more are needed
    | CanAddUpTo(more: nat)      // between two and eleven: how many more fit
    | MaximumReached

  /** The status line for `len` selected photos. */
  function StatusMessage(len: nat): (m: Message)
    ensures m.SelectAtLeast? <==> len < MinPhotos
    ensures m.SelectAtLeast? ==> m.more > 0 && len + m.more == MinPhotos
    ensures m.CanAddUpTo? <==> MinPhotos <= len < MaxPhotos
    ensures m.CanAddUpTo? ==> m.more > 0 && len + m.more == MaxPhotos
    ensures m.MaximumReached? <==> len >= MaxPhotos
  {
    if len < MinPhotos then SelectAtLeast(MinPhotos - len)
    else if len < MaxPhotos then CanAddUpTo(MaxPhotos - len)
    else MaximumReached
  }

  /** The character of one decimal digit. */
  function DigitChar(d: nat): (c: char)
    requires d < 10
    ensures '0' <= c <= '9'
    ensures c as int - '0' as int == d
  {
    "0123456789"[d]
  }

  /** The number a string of decimal digits spells, most significant digit first. */
  function DigitsValue(s: string): (v: nat)
    requires forall i :: 0 <= i < |s| ==> '0' <= s[i] <= '9'
  {
    if s == [] then 0
    else DigitsValue(s[..|s| - 1]) * 10 + (s[|s| - 1] as int - '0' as int)
  }

  /**
   * A natural number written in decimal, as template-literal interpolation
   * writes the small counts the status line shows (1 to 10).
   */
  function Decimal(n: nat): (s: string)
    ensures |s| >= 1
    ensures forall i :: 0 <= i < |s| ==> '0' <= s[i] <= '9'
    ensures DigitsValue(s) == n
    ensures n >= 10 ==> s[0] != '0'
    ensures n < 10 <==> |s| == 1
    decreases n
  {
    if n < 10 then [DigitChar(n)]
    else
      var s := Decimal(n / 10) + [DigitChar(n % 10)];
      assert s[..|s| - 1] == Decimal(n / 10);
      s
  }

  /** The fixed parts of the status text around the interpolated count. */
  const SelectPrefix: string := "Select at least "
  const AddPrefix: string := "You can add up to "
  const MoreSuffix: string := " more photo(s)"
  const MaximumText: string := "Maximum photos reached"

  /**
   * The text the status line displays. The two counting forms carry their
   * own prefix and the count, written in decimal, just before the common
   * suffix; the maximum is the only form with the fixed text.
   */
  function StatusText(m: Message): (r: string)
    ensures m.MaximumReached? <==> r == MaximumText
    ensures m.SelectAtLeast? ==>
              |SelectPrefix| + |MoreSuffix| < |r| && r[..|SelectPrefix|] == SelectPrefix &&
              r[|r| - |MoreSuffix|..] == MoreSuffix &&
              r[|SelectPrefix|..|r| - |MoreSuffix|] == Decimal(m.more)
    ensures m.CanAddUpTo? ==>
              |AddPrefix| + |MoreSuffix| < |r| && r[..|AddPrefix|] == AddPrefix &&
              r[|r| - |MoreSuffix|..] == MoreSuffix &&
              r[|AddPrefix|..|r| - |MoreSuffix|] == Decimal(m.more)
  {
    match m
    case SelectAtLeast(k) =>
      var r := SelectPrefix + Decimal(k) + MoreSuffix;
      assert r[0] == 'S' && r[..|SelectPrefix|] == SelectPrefix;
      assert r[|SelectPrefix|..|r| - |MoreSuffix|] == Decimal(k);
      r
    case CanAddUpTo(k) =>
      var r := AddPrefix + Decimal(k) + MoreSuffix;
      assert r[0] == 'Y' && r[..|AddPrefix|] == AddPrefix;
      assert r[|AddPrefix|..|r| - |MoreSuffix|] == Decimal(k);
      r
    case MaximumReached => MaximumText
  }

  /**
   * The Add Photo button (and with it the file input) is rendered exactly
   * when the status line does not report the maximum.
   */
  function ShowAddButton(len: nat): (shown: bool)
    ensures shown <==> !StatusMessage(len).MaximumReached?
  {
    len < MaxPhotos
  }

  /**
   * Preview, Download and Start New Grid are rendered exactly when the status
   * line does not ask for more photos; at every size either these controls or
   * the Add button is on screen.
   */
  function ShowExportControls(len: nat): (shown: bool)
    ensures shown <==> !StatusMessage(len).SelectAtLeast?
    ensures shown || ShowAddButton(len)
  {
    len >= MinPhotos
  }

  /**
   * The Download button is rendered with the other controls and disabled
   * while an export runs, so a download can start only with at least two
   * photos and no export in flight.
   */
  function DownloadEnabled(len: nat, isLoading: bool): (enabled: bool)
    ensures enabled ==> len >= MinPhotos && !StatusMessage(len).SelectAtLeast?
    ensures enabled ==> !isLoading
    ensures len >= MinPhotos && !isLoading ==> enabled
  {
    ShowExportControls(len) && !isLoading
  }

  /** The Download button's label says an export is running exactly while one is. */
  function DownloadLabel(isLoading: bool): (caption: string)
    ensures caption == "Generating..." <==> isLoading
  {
    if isLoading then "Generating..." else "Download Dump 📥"
  }

  /**
   * "View Previous Grid" appears among the export controls when there is a
   * previous grid, and on its own when no photo is selected. So a stored
   * grid can be viewed at every selection size except exactly one photo.
   */
  function ShowPreviousGridButton(len: nat, previousGrid: Option<string>): (shown: bool)
    ensures shown <==> Truthy(previousGrid) && len != 1
  {
    (ShowExportControls(len) && Truthy(previousGrid)) || (len == 0 && Truthy(previousGrid))
  }

  /**
   * Different status lines never read the same: the text determines the
   * form of the line and the count it shows.
   */
  lemma StatusTextInjective(m1: Message, m2: Message)
    requires StatusText(m1) == StatusText(m2)
    ensures m1 == m2
  {
  }
}
