/**
 * PackOpeningActivity.kt: one pack, opened. The screen finds the pack named
 * by its start intent, shows it closed or, when it was opened before, goes
 * straight to the card grid. Opening marks the pack OPENED and copies every
 * card the cache holds for it into the library history.
 */
module PackOpening {
  import opened Wrappers
  import opened Strings
  import opened Vlm
  import CardCache
  import PackStore
  import SingleDraw
  import Search

  /** What the screen shows: nothing (it finished), the closed pack, or the grid of cards. */
  datatype View = Finished | ClosedPack(count: nat) | Grid

  /** What the outside world does while a pack is saved: which image uris decode, whether PNG files are written, and the clock. */
  datatype SaveWorld = SaveWorld(decodable: set<string>, pngWritten: bool, filesDir: string, now: nat)

  /** Kotlin `take(n)`: at most the first n characters. */
  function Take(s: string, n: nat): (t: string)
    ensures |t| <= n && t <= s
    ensures |s| >= n ==> |t| == n
  {
    if |s| <= n then s else s[..n]
  }

  /** `"card_${millis}_${md5.take(5)}.png"` in the files directory. */
  function PackCardPath(filesDir: string, now: nat, md5: string): (path: string)
    ensures EndsWith(path, ".png")
  {
    var path := filesDir + "/card_" + Decimal(now) + "_" + Take(md5, 5) + ".png";
    assert path[|path| - 4..] == ".png";
    path
  }

  /** The library entry one pack item yields: only a cached card whose image decodes and whose PNG is written. */
  function ItemSave(item: PackStore.PackItem, cache: map<string, CardData>, world: SaveWorld): (r: seq<SingleDraw.SavedCard>)
    ensures |r| <= 1
    ensures |r| == 1 <==> item.md5 in cache && item.uri in world.decodable && world.pngWritten
  {
    if item.md5 in cache && item.uri in world.decodable && world.pngWritten then
      [SingleDraw.SavedCardOf(cache[item.md5], PackCardPath(world.filesDir, world.now, item.md5), world.now)]
    else []
  }

  /** The entries `savePackToLibrary` adds, in item order. */
  function PackSaves(items: seq<PackStore.PackItem>, cache: map<string, CardData>, world: SaveWorld): seq<SingleDraw.SavedCard>
    decreases |items|
  {
    if items == [] then []
    else PackSaves(items[..|items| - 1], cache, world) + ItemSave(items[|items| - 1], cache, world)
  }

  /** How many items of the pack have their md5 in the cache. */
  function CachedCount(items: seq<PackStore.PackItem>, cache: map<string, CardData>): (n: nat)
    ensures n <= |items|
    decreases |items|
  {
    if items == [] then 0
    else CachedCount(items[..|items| - 1], cache) + (if items[|items| - 1].md5 in cache then 1 else 0)
  }

  /**
   * At most one entry per cached item; exactly one each when every image
   * decodes and every file is written.
   */
  lemma {:induction false} PackSavesCount(items: seq<PackStore.PackItem>, cache: map<string, CardData>, world: SaveWorld)
    ensures |PackSaves(items, cache, world)| <= CachedCount(items, cache)
    ensures world.pngWritten && (forall i :: 0 <= i < |items| ==> items[i].uri in world.decodable) ==>
      |PackSaves(items, cache, world)| == CachedCount(items, cache)
    decreases |items|
  {
    if items != [] {
      var n := |items| - 1;
      assert forall i :: 0 <= i < n ==> items[..n][i] == items[i];
      PackSavesCount(items[..n], cache, world);
    }
  }

  /** Every entry is the cached card of an item of the pack. */
  lemma {:induction false} PackSavesFromCache(items: seq<PackStore.PackItem>, cache: map<string, CardData>, world: SaveWorld)
    ensures forall e :: e in PackSaves(items, cache, world) ==>
      exists i :: 0 <= i < |items| && items[i].md5 in cache && e == SingleDraw.SavedCardOf(cache[items[i].md5], PackCardPath(world.filesDir, world.now, items[i].md5), world.now)
    decreases |items|
  {
    if items != [] {
      var n := |items| - 1;
      var front := items[..n];
      PackSavesFromCache(front, cache, world);
      forall e | e in PackSaves(items, cache, world)
        ensures exists i :: 0 <= i < |items| && items[i].md5 in cache && e == SingleDraw.SavedCardOf(cache[items[i].md5], PackCardPath(world.filesDir, world.now, items[i].md5), world.now)
      {
        if e in PackSaves(front, cache, world) {
          var i :| 0 <= i < n && front[i].md5 in cache && e == SingleDraw.SavedCardOf(cache[front[i].md5], PackCardPath(world.filesDir, world.now, front[i].md5), world.now);
          assert items[i] == front[i];
        } else {
          assert e in ItemSave(items[n], cache, world);
        }
      }
    }
  }

  /** A card view of the grid; it turns face up once and stays so. */
  class Holder {
    var isFlipped: bool

    constructor ()
      ensures !isFlipped
    {
      isFlipped := false;
    }

    /** `flipCard`: a holder already face up is left alone; any other turns face up. */
    method Flip()
      modifies this
      ensures isFlipped
      ensures old(isFlipped) ==> unchanged(this)
    {
      if isFlipped {
        return;
      }
      isFlipped := true;
    }
  }

  class PackOpeningScreen {
    var packId: Option<string>
    var items: seq<PackStore.PackItem>
    var view: View
    const packs: PackStore.PackRepository
    const cards: CardCache.CardRepository
    const history: SingleDraw.HistoryStore

    constructor (packs: PackStore.PackRepository, cards: CardCache.CardRepository, history: SingleDraw.HistoryStore)
      ensures packId.None? && items == [] && view == Finished
      ensures this.packs == packs && this.cards == cards && this.history == history
    {
      packId := None;
      items := [];
      view := Finished;
      this.packs := packs;
      this.cards := cards;
      this.history := history;
    }

    /**
     * `onCreate` and `initViews`: without a pack id, or with an id no pack has,
     * the screen finishes; an OPENED pack goes to the grid, any other status
     * shows the closed pack with its card count.
     */
    method OnCreate(extraPackId: Option<string>)
      modifies this`packId, this`items, this`view
      ensures packId == extraPackId
      ensures extraPackId.None? ==> view == Finished
      ensures extraPackId.Some? ==>
        match PackStore.FirstWithId(packs.Records(), extraPackId.value)
        case None => view == Finished
        case Some(k) =>
          var pack := packs.Records()[k];
          && items == pack.items
          && view == (if pack.status == PackStore.Opened then Grid else ClosedPack(|pack.items|))
    {
      packId := extraPackId;
      if extraPackId.None? {
        view := Finished;
        return;
      }
      var pack := packs.GetPack(extraPackId.value);
      if pack.None? {
        view := Finished;
        return;
      }
      items := pack.value.items;
      view := if pack.value.status == PackStore.Opened then Grid else ClosedPack(|items|);
    }

    /**
     * The click on a closed pack (`openPack`): the pack becomes OPENED through
     * the repository, its cached cards go to the library, and the grid shows.
     */
    method OpenPack(world: SaveWorld)
      requires packId.Some? && view.ClosedPack? && packs.Valid()
      modifies (set p | p in packs.packs), history, this`view
      ensures packs.Valid()
      ensures packs.Records() == PackStore.WithStatus(old(packs.Records()), packId.value, PackStore.Opened)
      ensures history.entries == SingleDraw.PrependEach(old(history.entries), PackSaves(items, cards.cache, world))
      ensures view == Grid
    {
      ghost var entries := history.entries;
      ghost var cache := cards.cache;
      ghost var target := PackStore.WithStatus(packs.Records(), packId.value, PackStore.Opened);
      packs.UpdatePackStatus(packId.value, PackStore.Opened);
      ghost var recs := packs.Records();
      assert recs == target;
      assert history.entries == entries && cards.cache == cache;
      SavePackToLibrary(world);
      assert packs.Records() == recs;
      view := Grid;
      assert packs.Valid() && packs.Records() == recs;
    }

    /** `savePackToLibrary`: each item in turn, its library entry (if any) added at the top. */
    method SavePackToLibrary(world: SaveWorld)
      modifies history
      ensures history.entries == SingleDraw.PrependEach(old(history.entries), PackSaves(items, cards.cache, world))
    {
      var i := 0;
      while i < |items|
        invariant 0 <= i <= |items|
        invariant history.entries == SingleDraw.PrependEach(old(history.entries), PackSaves(items[..i], cards.cache, world))
      {
        assert items[..i + 1][..i] == items[..i];
        SingleDraw.PrependEachAppend(old(history.entries),
          PackSaves(items[..i], cards.cache, world), ItemSave(items[i], cards.cache, world));
        SaveItem(items[i], world);
        i := i + 1;
      }
      assert items[..i] == items;
    }

    /** One turn of the loop: a cached card whose image decodes is written out and added to the history. */
    method SaveItem(item: PackStore.PackItem, world: SaveWorld)
      modifies history
      ensures history.entries == SingleDraw.PrependEach(old(history.entries), ItemSave(item, cards.cache, world))
    {
      var data := cards.GetCard(item.md5);
      if data.Some? && item.uri in world.decodable && world.pngWritten {
        AddToHistory(SingleDraw.SavedCardOf(data.value, PackCardPath(world.filesDir, world.now, item.md5), world.now));
      }
    }

    /** `addToHistory`: the entry goes to index 0. */
    method AddToHistory(card: SingleDraw.SavedCard)
      modifies history
      ensures history.entries == [card] + old(history.entries)
    {
      history.AddToTop(card);
    }
  }

  /** After opening, the pack the screen shows is the first with its id, and it is OPENED. */
  lemma OpenedAfterOpen(rs: seq<PackStore.PackRecord>, id: string, k: nat)
    requires k < |rs| && rs[k].id == id && forall j :: 0 <= j < k ==> rs[j].id != id
    ensures var r := PackStore.WithStatus(rs, id, PackStore.Opened);
      && PackStore.FirstWithId(r, id) == Some(k) && r[k].status == PackStore.Opened && r[k].items == rs[k].items
  {
    PackStore.WithStatusKnownId(rs, id, PackStore.Opened, k);
    Search.FirstWhereAt(PackStore.WithStatus(rs, id, PackStore.Opened), PackStore.HasId(id), k);
  }
}
