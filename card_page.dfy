/**
 * static/js/script.js: the single-card web page. It keeps the chosen file,
 * the card on show and the drag state of the 3D card. A drag turns the card
 * by half a degree per pixel; on release the angle is reduced to [0, 360)
 * and the card snaps to its back exactly when that angle lies strictly
 * between 90 and 270 degrees.
 *
 * Angles are counted in half degrees, so every angle the page computes from
 * whole-pixel mouse positions is an integer here.
 */
module CardPage {
  import opened Wrappers
  import opened Strings
  import WebApi

  /** A full turn, in half degrees. */
  const FullTurn: int := 720

  /** JavaScript `y % 360` in half degrees: the remainder takes the sign of the dividend. */
  function TruncRem(y: int): (r: int)
    ensures y >= 0 ==> 0 <= r < FullTurn
    ensures y < 0 ==> -FullTurn < r <= 0
    ensures (y - r) % FullTurn == 0
  {
    if y >= 0 then y % FullTurn else -((-y) % FullTurn)
  }

  /**
   * `finalY`, in half degrees: the start angle (0, or 180 when the back
   * showed) plus one half degree per pixel. A drag of less than a quarter turn
   * either way ends on the side it started from.
   */
  function FinalAngle(wasFlipped: bool, deltaX: int): (a: int)
    ensures -FullTurn / 4 < deltaX < FullTurn / 4 ==> (ShowsBack(Normalized(a)) <==> wasFlipped)
  {
    var a := (if wasFlipped then 360 else 0) + deltaX;
    NormalizedIsEuclidean(a);
    a
  }

  /** `normalizedY`: the JavaScript remainder, moved up by a turn when negative. */
  function Normalized(y: int): (n: int)
    ensures 0 <= n < FullTurn
    ensures (y - n) % FullTurn == 0
  {
    var r := TruncRem(y);
    if r < 0 then r + FullTurn else r
  }

  /** The normalisation is Euclidean reduction modulo a turn. */
  lemma NormalizedIsEuclidean(y: int)
    ensures Normalized(y) == y % FullTurn
  {
    var n := Normalized(y);
    var e := y % FullTurn;
    assert (n - e) % FullTurn == 0 by {
      assert n - e == (y - e) - (y - n);
    }
    assert -FullTurn < n - e < FullTurn;
  }

  /** One more turn does not change where the angle lands. */
  lemma NormalizedTurn(y: int)
    ensures Normalized(y + FullTurn) == Normalized(y)
  {
    NormalizedIsEuclidean(y);
    NormalizedIsEuclidean(y + FullTurn);
  }

  /** Whole turns added to the angle do not change where it lands. */
  lemma {:induction false} NormalizedPeriodic(y: int, k: int)
    ensures Normalized(y + k * FullTurn) == Normalized(y)
    decreases if k < 0 then -k else k
  {
    if k > 0 {
      NormalizedPeriodic(y, k - 1);
      NormalizedTurn(y + (k - 1) * FullTurn);
    } else if k < 0 {
      NormalizedPeriodic(y, k + 1);
      NormalizedTurn(y + k * FullTurn);
    }
  }

  /** `showBack`, on a known release position. */
  predicate ShowsBack(n: int) {
    180 < n < 540
  }

  /**
   * The side a release shows; a release with no position (NaN) always shows
   * the front. With a position, it is the back exactly when the final angle,
   * reduced modulo a turn in the Euclidean sense, lies strictly between a
   * quarter and three quarters of a turn.
   */
  function SnapToBack(wasFlipped: bool, startX: int, clientX: Option<int>): (back: bool)
    ensures back <==> clientX.Some? && ShowsBack(FinalAngle(wasFlipped, clientX.value - startX) % FullTurn)
  {
    match clientX
    case None => false
    case Some(x) =>
      NormalizedIsEuclidean(FinalAngle(wasFlipped, x - startX));
      ShowsBack(Normalized(FinalAngle(wasFlipped, x - startX)))
  }

  /** A release where the drag began keeps the side that showed. */
  lemma NoDragKeepsSide(wasFlipped: bool, x: int)
    ensures SnapToBack(wasFlipped, x, Some(x)) == wasFlipped
  {
  }

  /** From the front, the card turns over exactly for drags of more than 90 and less than 270 degrees, modulo whole turns. */
  lemma FrontTurnsOverIff(deltaX: int, k: int)
    requires 0 <= deltaX < FullTurn
    ensures SnapToBack(false, 0, Some(deltaX + k * FullTurn)) <==> 180 < deltaX < 540
  {
    NormalizedPeriodic(deltaX, k);
    NormalizedIsEuclidean(deltaX);
  }

  /** Exactly 90 and 270 degrees snap to the front. */
  lemma BoundariesShowFront(wasFlipped: bool)
    ensures !ShowsBack(Normalized(180)) && !ShowsBack(Normalized(540))
    ensures !ShowsBack(Normalized(-180)) && !ShowsBack(Normalized(-540))
  {
    NormalizedIsEuclidean(-180);
    NormalizedIsEuclidean(-540);
  }

  /** `adjustDescriptionSize`, in hundredths of a rem. */
  function DescriptionSize(textLength: nat): (size: nat)
    ensures textLength > 150 ==> size == 70
    ensures 100 < textLength <= 150 ==> size == 75
    ensures textLength <= 100 ==> size == 85
  {
    if textLength > 150 then 70 else if textLength > 100 then 75 else 85
  }

  /** Longer text never gets a larger font. */
  lemma DescriptionSizeMonotone(a: nat, b: nat)
    requires a <= b
    ensures DescriptionSize(b) <= DescriptionSize(a)
  {
  }

  /** A file the browser hands over: its name and MIME type. */
  datatype FileInfo = FileInfo(name: string, mimeType: string)

  /** The form `performGeneration` posts. */
  datatype Form = Form(file: Option<FileInfo>, regenerate: bool, existingMd5: Option<string>)

  class CardPage {
    var currentFile: Option<FileInfo>
    var currentCard: Option<WebApi.StoredCard>
    /** Whether the Generate and Regenerate buttons take clicks (a disabled button delivers none). */
    var generateEnabled: bool
    var regenerateEnabled: bool
    /** The `is-flipped` class of the card. */
    var flipped: bool
    var isDragging: bool
    var startX: int
    /** `currentRotateY` at mousedown: the drag's base is the back (180 degrees) when the card showed it then. */
    var dragFromBack: bool

    constructor ()
      ensures currentFile.None? && currentCard.None? && !flipped && !isDragging
      ensures !generateEnabled && regenerateEnabled
    {
      currentFile := None;
      currentCard := None;
      generateEnabled := false;
      regenerateEnabled := true;
      flipped := false;
      isDragging := false;
      startX := 0;
      dragFromBack := false;
    }

    /** `handleFileSelect`: only an `image/` type is taken, and it enables Generate. */
    method HandleFileSelect(f: FileInfo) returns (accepted: bool)
      modifies this`currentFile, this`generateEnabled
      ensures accepted <==> StartsWith(f.mimeType, "image/")
      ensures accepted ==> currentFile == Some(f) && generateEnabled
      ensures !accepted ==> currentFile == old(currentFile) && generateEnabled == old(generateEnabled)
    {
      if !StartsWith(f.mimeType, "image/") {
        return false;
      }
      currentFile := Some(f);
      generateEnabled := true;
      return true;
    }

    /** The drop and change handlers: only the first file counts, and none means nothing happens. */
    method FilesChosen(files: seq<FileInfo>)
      modifies this`currentFile, this`generateEnabled
      ensures files == [] ==> currentFile == old(currentFile) && generateEnabled == old(generateEnabled)
      ensures files != [] && StartsWith(files[0].mimeType, "image/") ==> currentFile == Some(files[0])
      ensures files != [] && !StartsWith(files[0].mimeType, "image/") ==> currentFile == old(currentFile)
    {
      if |files| > 0 {
        var _ := HandleFileSelect(files[0]);
      }
    }

    /**
     * The Generate button: a disabled button takes no click, and without a
     * chosen file there is no request; a request disables both buttons until
     * it ends. Choosing a file enables Generate again, even mid-request.
     */
    method GenerateClick() returns (form: Option<Form>)
      modifies this`generateEnabled, this`regenerateEnabled
      ensures form.Some? <==> old(generateEnabled) && currentFile.Some?
      ensures form.Some? ==> form.value == Form(currentFile, false, None) && !generateEnabled && !regenerateEnabled
      ensures form.None? ==> generateEnabled == old(generateEnabled) && regenerateEnabled == old(regenerateEnabled)
    {
      if !generateEnabled || currentFile.None? {
        return None;
      }
      generateEnabled := false;
      regenerateEnabled := false;
      return Some(Form(currentFile, false, None));
    }

    /**
     * The Regenerate button: needs an enabled button, a card with a non-empty
     * md5 and the user's confirmation; a request disables both buttons.
     */
    method RegenerateClick(confirmed: bool) returns (form: Option<Form>)
      modifies this`generateEnabled, this`regenerateEnabled
      ensures form.Some? <==> old(regenerateEnabled) && currentCard.Some? && currentCard.value.md5 != "" && confirmed
      ensures form.Some? ==> form.value == Form(None, true, Some(currentCard.value.md5)) && !generateEnabled && !regenerateEnabled
      ensures form.None? ==> generateEnabled == old(generateEnabled) && regenerateEnabled == old(regenerateEnabled)
    {
      if !regenerateEnabled {
        return None;
      }
      if currentCard.None? || currentCard.value.md5 == "" {
        return None;
      }
      if !confirmed {
        return None;
      }
      generateEnabled := false;
      regenerateEnabled := false;
      return Some(Form(None, true, Some(currentCard.value.md5)));
    }

    /** The end of `performGeneration`: a returned card is shown face up; both buttons are enabled again either way. */
    method GenerationDone(result: Option<WebApi.StoredCard>)
      modifies this`currentCard, this`flipped, this`generateEnabled, this`regenerateEnabled
      ensures generateEnabled && regenerateEnabled
      ensures result.Some? ==> currentCard == result && !flipped
      ensures result.None? ==> currentCard == old(currentCard) && flipped == old(flipped)
    {
      if result.Some? {
        currentCard := result;
        flipped := false;
      }
      generateEnabled := true;
      regenerateEnabled := true;
    }

    /**
     * `loadCardToView`, run when a card of the library is clicked: that card
     * becomes the current one and is shown face up, since the card's classes
     * are reset. The buttons and any drag are left as they are.
     */
    method LoadCardToView(card: WebApi.StoredCard)
      modifies this`currentCard, this`flipped
      ensures currentCard == Some(card) && !flipped
    {
      currentCard := Some(card);
      flipped := false;
    }

    /** `mousedown` on the scene: the drag starts from where the card stands, and that side is its base. */
    method MouseDown(clientX: int)
      modifies this`isDragging, this`startX, this`dragFromBack
      ensures isDragging && startX == clientX && dragFromBack == flipped
    {
      isDragging := true;
      startX := clientX;
      dragFromBack := flipped;
    }

    /**
     * `mouseup`: ends a drag and snaps from the base taken at mousedown, whatever
     * side the card shows meanwhile; without a drag it does nothing.
     */
    method MouseUp(clientX: Option<int>)
      modifies this`isDragging, this`flipped
      ensures !old(isDragging) ==> !isDragging && flipped == old(flipped)
      ensures old(isDragging) ==> !isDragging && flipped == SnapToBack(dragFromBack, startX, clientX)
      ensures old(isDragging) && clientX.Some? ==>
        flipped == ShowsBack(Normalized((if dragFromBack then 360 else 0) + (clientX.value - startX)))
      ensures old(isDragging) && clientX.None? ==> !flipped
    {
      if !isDragging {
        return;
      }
      isDragging := false;
      var back := SnapToBack(dragFromBack, startX, clientX);
      flipped := back;
    }

    /** `mouseleave` during a drag sends a bare mouseup, which carries no position: the card shows its front. */
    method MouseLeave()
      modifies this`isDragging, this`flipped
      ensures !isDragging
      ensures old(isDragging) ==> !flipped
      ensures !old(isDragging) ==> flipped == old(flipped)
    {
      if isDragging {
        MouseUp(None);
      }
    }
  }

  /**
   * The snap base is taken at mousedown: a card turned to its back, then
   * dragged again while a generated card resets it to the front, still snaps
   * to the back when released where the drag began.
   */
  method BaseTakenAtMouseDown(card: WebApi.StoredCard) returns (page: CardPage)
    ensures page.flipped
  {
    page := new CardPage();
    page.MouseDown(0);
    page.MouseUp(Some(360));
    page.MouseDown(0);
    page.GenerationDone(Some(card));
    page.MouseUp(Some(0));
  }

  /** Clicking again with nothing in between starts no second request, from either button. */
  method NoOverlappingRequests(page: CardPage) returns (first: Option<Form>, second: Option<Form>, third: Option<Form>)
    requires page.currentFile.Some? && page.generateEnabled
    modifies page`generateEnabled, page`regenerateEnabled
    ensures first.Some? && second.None? && third.None?
  {
    first := page.GenerateClick();
    second := page.GenerateClick();
    third := page.RegenerateClick(true);
  }

  /**
   * The file input stays live during a request: a file chosen while the first
   * request is in flight enables Generate, and a second request starts
   * before the first has ended.
   */
  method FileChosenMidRequestOverlaps(f: FileInfo, g: FileInfo) returns (first: Option<Form>, second: Option<Form>)
    requires StartsWith(f.mimeType, "image/") && StartsWith(g.mimeType, "image/")
    ensures first == Some(Form(Some(f), false, None))
    ensures second == Some(Form(Some(g), false, None))
  {
    var page := new CardPage();
    var _ := page.HandleFileSelect(f);
    first := page.GenerateClick();
    var _ := page.HandleFileSelect(g);
    second := page.GenerateClick();
  }

  /** The regenerate form for a stored md5 takes the back end's regenerate branch. */
  lemma RegenerateFormReachesRegeneratePath(md5: string, cards: map<string, WebApi.StoredCard>)
    requires md5 != "" && md5 in cards
    ensures WebApi.RegeneratePath(Some(md5), true, cards)
  {
  }
}
