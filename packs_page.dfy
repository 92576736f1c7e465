/**
 * static/js/packs.js: the card-pack web page. Each packs response redraws
 * the grid and keeps one polling timer alive exactly while some pack is
 * still processing; the upload button follows the file selection.
 */
module PacksPage {
  import opened Wrappers
  import CardPage

  /** One pack of a packs response: its id, its status text and its number of cards. */
  datatype PackView = PackView(id: string, status: string, cardCount: nat)

  /** One drawn grid tile. */
  datatype Tile = Tile(caption: string, cardCount: nat, readyClass: bool, clickable: bool)

  /** `statusLabel`: processing and opened have their own labels; every other status reads as ready. */
  function StatusLabel(status: string): (text: string)
    ensures text == "Processing..." <==> status == "processing"
    ensures text == "Opened" <==> status == "opened"
    ensures text == "Ready to Open" <==> status != "processing" && status != "opened"
  {
    if status == "processing" then "Processing..."
    else if status == "opened" then "Opened"
    else "Ready to Open"
  }

  /** A tile opens its pack only when the pack is ready or opened. */
  predicate Clickable(status: string) {
    status == "ready" || status == "opened"
  }

  /**
   * `renderPacks`' tile for one pack: the ready style goes only on a tile that
   * opens, and a tile that opens never reads as processing.
   */
  function TileOf(p: PackView): (t: Tile)
    ensures t.cardCount == p.cardCount
    ensures t.readyClass ==> t.clickable
    ensures t.clickable ==> t.caption != "Processing..."
    ensures t.caption == "Opened" <==> p.status == "opened"
  {
    Tile(StatusLabel(p.status), p.cardCount, p.status == "ready", Clickable(p.status))
  }

  /** A clickable tile is never labelled as processing, and a processing pack cannot be opened. */
  lemma ClickableNeverProcessing(p: PackView)
    ensures TileOf(p).clickable ==> TileOf(p).caption != "Processing..."
    ensures p.status == "processing" ==> !TileOf(p).clickable
  {
  }

  /** A status the page does not know reads "Ready to Open" but its tile does not open. */
  lemma UnknownStatusLooksReadyButIsInert(p: PackView)
    requires p.status != "processing" && p.status != "opened" && p.status != "ready"
    ensures TileOf(p).caption == "Ready to Open" && !TileOf(p).clickable
  {
  }

  /** `packs.some(p => p.status === 'processing')`. */
  predicate AnyProcessing(packs: seq<PackView>) {
    exists i :: 0 <= i < |packs| && packs[i].status == "processing"
  }

  /** `adjustDescriptionSize` on this page, in hundredths of an em. */
  function DescriptionSize(textLength: nat): (size: nat)
    ensures textLength > 150 ==> size == 70
    ensures 100 < textLength <= 150 ==> size == 80
    ensures textLength <= 100 ==> size == 90
  {
    if textLength > 150 then 70 else if textLength > 100 then 80 else 90
  }

  /** The two pages switch sizes at the same lengths, only with different sizes. */
  lemma SameThresholdsAsCardPage(n: nat)
    ensures DescriptionSize(n) == 90 <==> CardPage.DescriptionSize(n) == 85
    ensures DescriptionSize(n) == 80 <==> CardPage.DescriptionSize(n) == 75
    ensures DescriptionSize(n) == 70 <==> CardPage.DescriptionSize(n) == 70
  {
  }

  class PacksPage {
    /** `pollInterval`: the running timer's id, or null. */
    var pollTimer: Option<nat>
    /** Every timer started and not yet cleared. */
    ghost var activeTimers: set<nat>
    var nextTimerId: nat
    var tiles: seq<Tile>
    /** The number of files in the file input. */
    var selected: nat
    var uploadEnabled: bool

    ghost predicate Valid()
      reads this
    {
      && (pollTimer.None? ==> activeTimers == {})
      && (pollTimer.Some? ==> activeTimers == {pollTimer.value})
      && (forall t :: t in activeTimers ==> t < nextTimerId)
    }

    constructor ()
      ensures Valid() && pollTimer.None? && tiles == [] && selected == 0 && !uploadEnabled
    {
      pollTimer := None;
      activeTimers := {};
      nextTimerId := 1;
      tiles := [];
      selected := 0;
      uploadEnabled := false;
    }

    /**
     * The handler of a packs response: redraw, then start a timer when some
     * pack is processing and none runs, or clear the running one when none is.
     */
    method PacksLoaded(packs: seq<PackView>)
      requires Valid()
      modifies this
      ensures Valid()
      ensures |tiles| == |packs| && forall i :: 0 <= i < |packs| ==> tiles[i] == TileOf(packs[i])
      ensures pollTimer.Some? <==> AnyProcessing(packs)
      ensures |activeTimers| <= 1
      ensures old(pollTimer).Some? && AnyProcessing(packs) ==> pollTimer == old(pollTimer)
      ensures selected == old(selected) && uploadEnabled == old(uploadEnabled)
    {
      RenderPacks(packs);
      var anyProcessing := exists i | 0 <= i < |packs| :: packs[i].status == "processing";
      if anyProcessing && pollTimer.None? {
        pollTimer := Some(nextTimerId);
        activeTimers := activeTimers + {nextTimerId};
        nextTimerId := nextTimerId + 1;
      } else if !anyProcessing && pollTimer.Some? {
        activeTimers := activeTimers - {pollTimer.value};
        pollTimer := None;
      }
      if pollTimer.Some? {
        assert activeTimers == {pollTimer.value};
      }
    }

    /** `renderPacks`: one tile per pack, in response order. */
    method RenderPacks(packs: seq<PackView>)
      modifies this`tiles
      ensures |tiles| == |packs| && forall i :: 0 <= i < |packs| ==> tiles[i] == TileOf(packs[i])
    {
      tiles := [];
      var i := 0;
      while i < |packs|
        invariant 0 <= i <= |packs|
        invariant |tiles| == i && forall j :: 0 <= j < i ==> tiles[j] == TileOf(packs[j])
      {
        tiles := tiles + [TileOf(packs[i])];
        i := i + 1;
      }
    }

    /** The file input's change: the upload button is enabled exactly when some file is chosen. */
    method FilesChanged(count: nat)
      requires Valid()
      modifies this`selected, this`uploadEnabled
      ensures Valid()
      ensures selected == count && (uploadEnabled <==> count > 0)
    {
      selected := count;
      uploadEnabled := count > 0;
    }

    /**
     * The upload click: a disabled button takes no click, and with no file
     * nothing happens; otherwise the button is disabled while the upload runs.
     */
    method UploadClick() returns (sent: bool)
      requires Valid()
      modifies this`uploadEnabled
      ensures Valid()
      ensures sent <==> old(uploadEnabled) && selected > 0
      ensures !sent ==> uploadEnabled == old(uploadEnabled)
      ensures sent ==> !uploadEnabled
    {
      if !uploadEnabled || selected == 0 {
        return false;
      }
      uploadEnabled := false;
      return true;
    }

    /**
     * The end of an upload: success clears the file input and leaves the
     * button as it is; failure turns the button back on, whatever is chosen.
     */
    method UploadDone(ok: bool)
      requires Valid()
      modifies this`selected, this`uploadEnabled
      ensures Valid()
      ensures ok ==> selected == 0 && uploadEnabled == old(uploadEnabled)
      ensures !ok ==> selected == old(selected) && uploadEnabled
    {
      if ok {
        selected := 0;
      } else {
        uploadEnabled := true;
      }
    }
  }

  /**
   * Two uploads can overlap, because choosing files again re-enables the
   * button; when the first succeeds and the second then fails, the button is
   * enabled with no file chosen.
   */
  method OverlappingUploadsEnableEmptyButton(page: PacksPage)
    requires page.Valid()
    modifies page`selected, page`uploadEnabled
    ensures page.Valid() && page.uploadEnabled && page.selected == 0
  {
    page.FilesChanged(2);
    var first := page.UploadClick();
    page.FilesChanged(3);
    var second := page.UploadClick();
    page.UploadDone(true);
    page.UploadDone(false);
  }
}
