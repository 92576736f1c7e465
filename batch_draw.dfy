/**
 * BatchDrawActivity.kt: a batch of picked images turned into a pack of cards.
 * Each picked image becomes an item; queueing hashes every item, answers the
 * cached ones at once and sends the others to the generation worker, whose
 * completion broadcasts then fill the items in.
 *
 * The item list is a sequence of values that the screen reassigns: no other
 * reference to an item outlives the method that changes it.
 */
module BatchDraw {
  import opened Wrappers
  import opened Vlm
  import CardCache
  import GenerationWorker
  import SingleDraw
  import Search

  /** `BatchCardItem`. */
  datatype BatchItem = BatchItem(
    bitmap: Bitmap, uri: string, md5: string, cardData: Option<CardData>,
    isFlipped: bool, isAnalyzing: bool, error: Option<string>)

  /** An item as a pick adds it: no card, no error, face down, not analyzing. */
  predicate Untouched(item: BatchItem) {
    item.cardData.None? && !item.isFlipped && !item.isAnalyzing && item.error.None?
  }

  /** One picked content uri: what decoding it gave, and the provisional "pending_" id it gets. */
  datatype Pick = Pick(uri: string, decoded: Option<Bitmap>, placeholder: string)

  const MaxSide: nat := 1024

  /** `loadImage`: a side above 1024 makes the bitmap a 512 by 768 copy; otherwise it is kept. */
  function ScaledForBatch(b: Bitmap): (r: Bitmap)
    ensures b.width <= MaxSide && b.height <= MaxSide ==> r == b
    ensures !(b.width <= MaxSide && b.height <= MaxSide) ==> r.width == 512 && r.height == 768
  {
    if b.width > MaxSide || b.height > MaxSide then Bitmap(512, 768, b.source) else b
  }

  /** Every loaded bitmap fits the bound, so loading it again keeps it as it is. */
  lemma ScaledForBatchFits(b: Bitmap)
    ensures ScaledForBatch(b).width <= MaxSide && ScaledForBatch(b).height <= MaxSide
    ensures ScaledForBatch(ScaledForBatch(b)) == ScaledForBatch(b)
  {
  }

  /** The picks whose image decodes, in pick order. */
  function Decodable(picks: seq<Pick>): seq<Pick> {
    if picks == [] then []
    else Decodable(picks[..|picks| - 1]) + (if picks[|picks| - 1].decoded.Some? then [picks[|picks| - 1]] else [])
  }

  /**
   * The items a pick adds, in pick order: one per decodable image, carrying
   * that image's uri, its provisional id and its bitmap scaled to fit.
   */
  function Loaded(picks: seq<Pick>): (items: seq<BatchItem>)
    ensures |items| <= |picks|
    ensures |items| == |Decodable(picks)|
    ensures forall i :: 0 <= i < |items| ==> Untouched(items[i])
    ensures forall i :: 0 <= i < |items| ==> items[i].bitmap.width <= MaxSide && items[i].bitmap.height <= MaxSide
    ensures forall i :: 0 <= i < |items| ==>
      && Decodable(picks)[i].decoded.Some?
      && items[i].uri == Decodable(picks)[i].uri
      && items[i].md5 == Decodable(picks)[i].placeholder
      && items[i].bitmap == ScaledForBatch(Decodable(picks)[i].decoded.value)
    decreases |picks|
  {
    if picks == [] then []
    else
      var p := picks[|picks| - 1];
      var item := match p.decoded
        case None => []
        case Some(b) => [BatchItem(ScaledForBatch(b), p.uri, p.placeholder, None, false, false, None)];
      Loaded(picks[..|picks| - 1]) + item
  }

  /** A pick where every image decodes gives one item per image, in order. */
  lemma {:induction false} LoadedAllDecoded(picks: seq<Pick>)
    requires forall i :: 0 <= i < |picks| ==> picks[i].decoded.Some?
    ensures |Loaded(picks)| == |picks|
    ensures forall i :: 0 <= i < |picks| ==> Loaded(picks)[i].uri == picks[i].uri
    decreases |picks|
  {
    if picks != [] {
      LoadedAllDecoded(picks[..|picks| - 1]);
    }
  }

  /** `item.copy(md5 = md5)` followed by the cache check of `startQueueing`. */
  function Hashed(item: BatchItem, md5: string, cache: map<string, CardData>): BatchItem {
    if md5 in cache then item.(md5 := md5, cardData := Some(cache[md5]))
    else item.(md5 := md5, isAnalyzing := true)
  }

  /** The hashed copies of a whole pick, in order. */
  function HashedAll(items: seq<BatchItem>, h: CardCache.Hasher, cache: map<string, CardData>): (r: seq<BatchItem>)
    ensures |r| == |items|
    ensures forall i :: 0 <= i < |items| ==> r[i] == Hashed(items[i], CardCache.Md5OfBitmap(h, items[i].bitmap), cache)
    decreases |items|
  {
    if items == [] then []
    else
      var last := items[|items| - 1];
      HashedAll(items[..|items| - 1], h, cache) + [Hashed(last, CardCache.Md5OfBitmap(h, last.bitmap), cache)]
  }

  /** Once hashed, a freshly picked item has either its cached card or the analyzing flag, never both. */
  lemma HashedExclusive(item: BatchItem, md5: string, cache: map<string, CardData>)
    requires Untouched(item)
    ensures var h := Hashed(item, md5, cache);
      && (h.cardData.Some? <==> md5 in cache)
      && (h.cardData.Some? != h.isAnalyzing)
      && (h.cardData.Some? ==> h.cardData.value == cache[md5])
      && h.md5 == md5 && h.bitmap == item.bitmap && h.uri == item.uri
  {
  }

  /** The library entry a cache hit adds, if its PNG copy is written. */
  function HitSave(item: BatchItem, h: CardCache.Hasher, cache: map<string, CardData>, world: SingleDraw.World): seq<SingleDraw.SavedCard> {
    var md5 := CardCache.Md5OfBitmap(h, item.bitmap);
    if md5 in cache && world.pngWritten
    then [SingleDraw.SavedCardOf(cache[md5], SingleDraw.LibraryPath(world.filesDir, world.now), world.now)]
    else []
  }

  /** The library entries the cache hits of a batch add, in item order. */
  function HitSaves(items: seq<BatchItem>, h: CardCache.Hasher, cache: map<string, CardData>, world: SingleDraw.World): seq<SingleDraw.SavedCard>
    decreases |items|
  {
    if items == [] then []
    else HitSaves(items[..|items| - 1], h, cache, world) + HitSave(items[|items| - 1], h, cache, world)
  }

  /** One more item hashed: its library entry goes on top of the earlier ones. */
  lemma HitSavesStep(entries: seq<SingleDraw.SavedCard>, items: seq<BatchItem>, i: nat, h: CardCache.Hasher, cache: map<string, CardData>, world: SingleDraw.World)
    requires i < |items|
    ensures SingleDraw.PrependEach(entries, HitSaves(items[..i + 1], h, cache, world))
      == SingleDraw.PrependEach(SingleDraw.PrependEach(entries, HitSaves(items[..i], h, cache, world)), HitSave(items[i], h, cache, world))
  {
    assert items[..i + 1][..i] == items[..i];
    SingleDraw.PrependEachAppend(entries, HitSaves(items[..i], h, cache, world), HitSave(items[i], h, cache, world));
  }

  /** One more item hashed: its copy goes after the earlier copies. */
  lemma HashedAllStep(items: seq<BatchItem>, i: nat, h: CardCache.Hasher, cache: map<string, CardData>)
    requires i < |items|
    ensures HashedAll(items[..i + 1], h, cache)
      == HashedAll(items[..i], h, cache) + [Hashed(items[i], CardCache.Md5OfBitmap(h, items[i].bitmap), cache)]
  {
    assert items[..i + 1][..i] == items[..i];
  }

  /** The start intent queued for an item still without a card: request id and md5 are both its md5. */
  function RequestFor(item: BatchItem): GenerationWorker.Intent {
    GenerationWorker.Intent(Some(GenerationWorker.ActionProcessImage), Some(item.uri), Some(item.md5), Some(item.md5))
  }

  /** The intents queued for a list, in order: one per item without a card. */
  function Requests(items: seq<BatchItem>): (rs: seq<GenerationWorker.Intent>)
    ensures |rs| <= |items|
    decreases |items|
  {
    if items == [] then []
    else
      var last := items[|items| - 1];
      Requests(items[..|items| - 1]) + (if last.cardData.None? then [RequestFor(last)] else [])
  }

  /** Exactly the items without a card are queued. */
  lemma {:induction false} RequestsExactlyWaiting(items: seq<BatchItem>)
    ensures forall i :: 0 <= i < |items| && items[i].cardData.None? ==> RequestFor(items[i]) in Requests(items)
    ensures forall r :: r in Requests(items) ==>
      exists i :: 0 <= i < |items| && items[i].cardData.None? && r == RequestFor(items[i])
    decreases |items|
  {
    if items != [] {
      var n := |items| - 1;
      var front := items[..n];
      RequestsExactlyWaiting(front);
      assert forall i :: 0 <= i < n ==> items[i] == front[i];
      forall r | r in Requests(items)
        ensures exists i :: 0 <= i < |items| && items[i].cardData.None? && r == RequestFor(items[i])
      {
        if r in Requests(front) {
          var i :| 0 <= i < n && front[i].cardData.None? && r == RequestFor(front[i]);
          assert items[i] == front[i];
        } else {
          assert items[n].cardData.None? && r == RequestFor(items[n]);
        }
      }
    }
  }

  /** The worker accepts every queued intent, as a task keyed and answered by the item's md5. */
  lemma RequestsAccepted(items: seq<BatchItem>)
    ensures forall j :: 0 <= j < |Requests(items)| ==>
      var t := GenerationWorker.TaskOf(Requests(items)[j]);
      t.Some? && t.value.md5 == t.value.requestId
  {
  }

  /** Fresh items whose images are all cached send nothing to the worker. */
  lemma {:induction false} AllCachedSendsNothing(items: seq<BatchItem>)
    requires forall i :: 0 <= i < |items| ==> items[i].cardData.Some?
    ensures Requests(items) == []
    decreases |items|
  {
    if items != [] {
      AllCachedSendsNothing(items[..|items| - 1]);
    }
  }

  predicate Ready(item: BatchItem) {
    item.cardData.Some? || item.error.Some?
  }

  /** `updateProcessingStatus`'s count of items with a card or an error. */
  function ReadyCount(items: seq<BatchItem>): (n: nat)
    ensures n <= |items|
    decreases |items|
  {
    if items == [] then 0
    else ReadyCount(items[..|items| - 1]) + (if Ready(items[|items| - 1]) then 1 else 0)
  }

  /** Making one item ready adds one to the count if it was not ready before, and nothing otherwise. */
  lemma {:induction false} ReadyCountUpdate(items: seq<BatchItem>, k: nat, x: BatchItem)
    requires k < |items| && Ready(x)
    ensures ReadyCount(items[k := x]) == ReadyCount(items) + (if Ready(items[k]) then 0 else 1)
    decreases |items|
  {
    var n := |items| - 1;
    if k == n {
      assert items[k := x][..n] == items[..n];
    } else {
      assert items[k := x][..n] == items[..n][k := x];
      ReadyCountUpdate(items[..n], k, x);
    }
  }

  /** The test `indexOfFirst { it.md5 == md5 }` applies to each item. */
  function HasMd5(md5: string): BatchItem -> bool {
    (item: BatchItem) => item.md5 == md5
  }

  /** The position `indexOfFirst { it.md5 == md5 }` stops at. */
  function FirstWithMd5(items: seq<BatchItem>, md5: string): Option<nat> {
    Search.FirstWhere(items, HasMd5(md5))
  }

  /** What a completion broadcast does to the item it names. */
  function Completed(item: BatchItem, outcome: GenerationWorker.Outcome): (r: BatchItem)
    ensures !r.isAnalyzing && Ready(r)
  {
    match outcome
    case CardJson(card) => item.(isAnalyzing := false, cardData := Some(card))
    case Error(message) => item.(isAnalyzing := false, error := Some(message.GetOr("Unknown Error")))
  }

  /**
   * The completion receiver on the item list: the first item with the md5,
   * and no other, is completed; no item behind an item with that md5 changes.
   */
  function AfterCompletion(items: seq<BatchItem>, c: GenerationWorker.Completion): (r: seq<BatchItem>)
    ensures |r| == |items|
    ensures forall j :: 0 <= j < |items| ==>
      || r[j] == items[j]
      || (items[j].md5 == c.md5 && r[j] == Completed(items[j], c.outcome))
    ensures forall i, j :: 0 <= i < j < |items| && items[i].md5 == c.md5 ==> r[j] == items[j]
  {
    match FirstWithMd5(items, c.md5)
    case None => items
    case Some(k) => items[k := Completed(items[k], c.outcome)]
  }

  /** An unknown md5 changes nothing; a known one makes exactly its first item ready and adds at most one to the count. */
  lemma AfterCompletionEffect(items: seq<BatchItem>, c: GenerationWorker.Completion)
    ensures var r := AfterCompletion(items, c);
      && |r| == |items|
      && (forall j :: 0 <= j < |items| && items[j].md5 != c.md5 ==> r[j] == items[j])
      && ReadyCount(items) <= ReadyCount(r) <= ReadyCount(items) + 1
  {
    match FirstWithMd5(items, c.md5) {
      case None =>
      case Some(k) => ReadyCountUpdate(items, k, Completed(items[k], c.outcome));
    }
  }

  /**
   * Two items of one image share an md5, and every broadcast for it finds the
   * first: the second copy is never answered and stays analyzing.
   */
  lemma DuplicateStaysAnalyzing(items: seq<BatchItem>, c: GenerationWorker.Completion, i: nat, j: nat)
    requires i < j < |items| && items[i].md5 == c.md5 && items[j].md5 == c.md5
    requires items[j].isAnalyzing
    ensures AfterCompletion(items, c)[j] == items[j]
    ensures AfterCompletion(AfterCompletion(items, c), c)[j].isAnalyzing
  {
    var once := AfterCompletion(items, c);
    var k := FirstWithMd5(items, c.md5).value;
    assert k <= i;
    assert FirstWithMd5(once, c.md5) == Some(k) by {
      assert once[k].md5 == c.md5;
      Search.FirstWhereAt(once, HasMd5(c.md5), k);
    }
  }


  class BatchDrawScreen {
    var items: seq<BatchItem>
    /** The start intents sent to the generation worker so far. */
    var sent: seq<GenerationWorker.Intent>
    const cards: CardCache.CardRepository
    const history: SingleDraw.HistoryStore

    constructor (cards: CardCache.CardRepository, history: SingleDraw.HistoryStore)
      ensures items == [] && sent == [] && this.cards == cards && this.history == history
    {
      items := [];
      sent := [];
      this.cards := cards;
      this.history := history;
    }

    /** The result of the picker: a successful pick replaces the selection with the decodable images. */
    method PickImages(resultOk: bool, picks: seq<Pick>)
      modifies this`items
      ensures resultOk ==> items == Loaded(picks)
      ensures !resultOk ==> items == old(items)
    {
      if !resultOk {
        return;
      }
      items := [];
      var i := 0;
      while i < |picks|
        invariant 0 <= i <= |picks|
        invariant items == Loaded(picks[..i])
      {
        assert picks[..i + 1][..i] == picks[..i];
        var p := picks[i];
        if p.decoded.Some? {
          items := items + [BatchItem(ScaledForBatch(p.decoded.value), p.uri, p.placeholder, None, false, false, None)];
        }
        i := i + 1;
      }
      assert picks[..i] == picks;
    }

    /**
     * `startQueueing` with its background job: every item is hashed and looked
     * up; each hit gets its cached card and a library entry, each miss is
     * marked analyzing and queued with the worker.
     */
    method StartQueueing(world: SingleDraw.World)
      modifies this`items, this`sent, history
      ensures |items| == |old(items)|
      ensures forall i :: 0 <= i < |items| ==>
        items[i] == Hashed(old(items)[i], CardCache.Md5OfBitmap(world.hasher, old(items)[i].bitmap), cards.cache)
      ensures sent == old(sent) + Requests(items)
      ensures history.entries == SingleDraw.PrependEach(old(history.entries), HitSaves(old(items), world.hasher, cards.cache, world))
    {
      var updated := HashAll(items, world);
      QueueRequests(updated);
      items := updated;
    }

    /** The hashing loop of `startQueueing`: the updated copies, and a library entry per cache hit. */
    method HashAll(picked: seq<BatchItem>, world: SingleDraw.World) returns (updated: seq<BatchItem>)
      modifies history
      ensures updated == HashedAll(picked, world.hasher, cards.cache)
      ensures history.entries == SingleDraw.PrependEach(old(history.entries), HitSaves(picked, world.hasher, cards.cache, world))
    {
      ghost var entries := history.entries;
      ghost var cache := cards.cache;
      updated := [];
      var i := 0;
      while i < |picked|
        invariant 0 <= i <= |picked|
        invariant cards.cache == cache
        invariant updated == HashedAll(picked[..i], world.hasher, cache)
        invariant history.entries == SingleDraw.PrependEach(entries, HitSaves(picked[..i], world.hasher, cache, world))
      {
        HitSavesStep(entries, picked, i, world.hasher, cache, world);
        HashedAllStep(picked, i, world.hasher, cache);
        var u := HashOne(picked[i], world);
        updated := updated + [u];
        i := i + 1;
      }
      assert picked[..i] == picked;
    }

    /** One turn of the hashing loop: the hashed copy, and the library entry of a hit. */
    method HashOne(item: BatchItem, world: SingleDraw.World) returns (u: BatchItem)
      modifies history
      ensures u == Hashed(item, CardCache.Md5OfBitmap(world.hasher, item.bitmap), cards.cache)
      ensures history.entries == SingleDraw.PrependEach(old(history.entries), HitSave(item, world.hasher, cards.cache, world))
    {
      var md5 := CardCache.Md5OfBitmap(world.hasher, item.bitmap);
      var cached := cards.GetCard(md5);
      if cached.Some? {
        u := item.(md5 := md5, cardData := cached);
        if world.pngWritten {
          history.AddToTop(SingleDraw.SavedCardOf(cached.value, SingleDraw.LibraryPath(world.filesDir, world.now), world.now));
        }
      } else {
        u := item.(md5 := md5, isAnalyzing := true);
      }
    }

    /** The queueing loop of `startQueueing`: one start intent per item still without a card. */
    method QueueRequests(updated: seq<BatchItem>)
      modifies this`sent
      ensures sent == old(sent) + Requests(updated)
    {
      var j := 0;
      while j < |updated|
        invariant 0 <= j <= |updated|
        invariant sent == old(sent) + Requests(updated[..j])
      {
        assert updated[..j + 1][..j] == updated[..j];
        if updated[j].cardData.None? {
          sent := sent + [RequestFor(updated[j])];
        }
        j := j + 1;
      }
      assert updated[..j] == updated;
    }

    /** The completion receiver: updates the first item with the broadcast md5; a card also goes to the library. */
    method OnCardComplete(c: GenerationWorker.Completion, world: SingleDraw.World)
      modifies this`items, history
      ensures items == AfterCompletion(old(items), c)
      ensures history.entries ==
        if FirstWithMd5(old(items), c.md5).Some? && c.outcome.CardJson? && world.pngWritten
        then [SingleDraw.SavedCardOf(c.outcome.card, SingleDraw.LibraryPath(world.filesDir, world.now), world.now)] + old(history.entries)
        else old(history.entries)
    {
      var k := IndexOfMd5(c.md5);
      if k.None? {
        return;
      }
      var item := Completed(items[k.value], c.outcome);
      items := items[k.value := item];
      if c.outcome.CardJson? && world.pngWritten {
        history.AddToTop(SingleDraw.SavedCardOf(c.outcome.card, SingleDraw.LibraryPath(world.filesDir, world.now), world.now));
      }
    }

    method IndexOfMd5(md5: string) returns (k: Option<nat>)
      ensures k == FirstWithMd5(items, md5)
    {
      var i := 0;
      while i < |items|
        invariant 0 <= i <= |items|
        invariant forall j :: 0 <= j < i ==> items[j].md5 != md5
      {
        if items[i].md5 == md5 {
          Search.FirstWhereAt(items, HasMd5(md5), i);
          return Some(i);
        }
        i := i + 1;
      }
      return None;
    }

    /** `flipCard`: an item already face up is left alone; otherwise it turns when its view is on screen. */
    method FlipCard(position: nat, holderShown: bool)
      requires position < |items|
      modifies this`items
      ensures old(items[position].isFlipped) || !holderShown ==> items == old(items)
      ensures !old(items[position].isFlipped) && holderShown ==>
        items == old(items)[position := old(items[position]).(isFlipped := true)]
    {
      if items[position].isFlipped {
        return;
      }
      if holderShown {
        items := items[position := items[position].(isFlipped := true)];
      }
    }

    /** The back button of the grid empties the list. */
    method BackToPacks()
      modifies this`items
      ensures items == []
    {
      items := [];
    }
  }
}
