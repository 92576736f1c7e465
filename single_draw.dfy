/**
 * SingleDrawActivity.kt: draw one card from one picked image. The screen
 * state is the selected bitmap, the flip flag and the text shown as the card
 * name; the card cache and the library history are shared with the other
 * screens. The model call, the PNG file and the clock are parameters.
 */
module SingleDraw {
  import opened Wrappers
  import opened Strings
  import opened Vlm
  import opened Rarity
  import CardCache
  import GenerationWorker

  /** One library entry (`SavedCard`). */
  datatype SavedCard = SavedCard(
    name: string, rarity: string, description: string, atk: string, def: string,
    imagePath: string, timestamp: int)

  function SavedCardOf(data: CardData, imagePath: string, timestamp: int): SavedCard {
    SavedCard(data.name, data.rarity, data.description, data.atk, data.def, imagePath, timestamp)
  }

  /**
   * The "history" list in the "card_library" preferences. Every screen reads
   * it, adds at index 0 and writes it back, so it is one shared list.
   */
  class HistoryStore {
    var entries: seq<SavedCard>

    constructor ()
      ensures entries == []
    {
      entries := [];
    }

    /** `list.add(0, card)` and write back: the new entry first, the old ones behind it in order. */
    method AddToTop(card: SavedCard)
      modifies this
      ensures entries == [card] + old(entries)
      ensures entries[0] == card && entries[1..] == old(entries)
    {
      entries := [card] + entries;
    }
  }

  /**
   * The history after `cs` have been added to the top one by one: the last
   * one added comes first, and the older entries follow unchanged.
   */
  function PrependEach(entries: seq<SavedCard>, cs: seq<SavedCard>): (r: seq<SavedCard>)
    ensures |r| == |cs| + |entries|
    ensures r[|cs|..] == entries
    ensures forall i :: 0 <= i < |cs| ==> r[i] == cs[|cs| - 1 - i]
    decreases |cs|
  {
    if cs == [] then entries else [cs[|cs| - 1]] + PrependEach(entries, cs[..|cs| - 1])
  }

  /** One more entry on top of the ones already added. */
  lemma PrependOneMore(entries: seq<SavedCard>, cs: seq<SavedCard>, c: SavedCard)
    ensures PrependEach(entries, cs + [c]) == [c] + PrependEach(entries, cs)
  {
    assert (cs + [c])[..|cs|] == cs;
  }

  /** Adding two batches one after the other is adding their concatenation. */
  lemma {:induction false} PrependEachAppend(entries: seq<SavedCard>, a: seq<SavedCard>, b: seq<SavedCard>)
    ensures PrependEach(entries, a + b) == PrependEach(PrependEach(entries, a), b)
    decreases |b|
  {
    if b == [] {
      assert a + b == a;
    } else {
      var n := |b| - 1;
      assert (a + b)[..|a + b| - 1] == a + b[..n];
      PrependEachAppend(entries, a, b[..n]);
    }
  }

  /** What one press of Generate leads to. */
  datatype Decision = NoImage | MissingKey | FromCache(card: CardData) | Fresh(card: CardData) | Failed(message: Option<string>)

  /**
   * `generateCard`: no image, nothing; an empty key, the settings screen,
   * before the cache is even looked at; then the cache, then the model.
   */
  function Decide(hasImage: bool, apiKey: string, cached: Option<CardData>, reply: GenerationWorker.Reply): (d: Decision)
    ensures !hasImage <==> d == NoImage
    ensures d == MissingKey <==> hasImage && apiKey == ""
    ensures d.FromCache? <==> hasImage && apiKey != "" && cached.Some?
    ensures d.Fresh? ==> reply == GenerationWorker.Generated(d.card)
    ensures hasImage && apiKey != "" && cached.None? ==>
      && (reply.Generated? ==> d == Fresh(reply.card))
      && (reply.Failed? ==> d == Failed(reply.message))
  {
    if !hasImage then NoImage
    else if apiKey == "" then MissingKey
    else match cached
      case Some(card) => FromCache(card)
      case None =>
        match reply
        case Generated(card) => Fresh(card)
        case Failed(message) => Failed(message)
  }

  /** A cached card is shown as it is: no model call, no library entry. */
  lemma CacheHitSkipsModel(apiKey: string, card: CardData, reply: GenerationWorker.Reply)
    requires apiKey != ""
    ensures Decide(true, apiKey, Some(card), reply) == FromCache(card)
  {
  }

  /** The key is checked first: without one even a cached card is not shown. */
  lemma KeyCheckedBeforeCache(card: CardData, reply: GenerationWorker.Reply)
    ensures Decide(true, "", Some(card), reply) == MissingKey
  {
  }

  /** `File(filesDir, "card_" + millis + ".png").absolutePath`. */
  function LibraryPath(filesDir: string, now: nat): (path: string)
    ensures EndsWith(path, ".png")
  {
    var path := filesDir + "/card_" + Decimal(now) + ".png";
    assert path[|path| - 4..] == ".png";
    path
  }

  /** What the outside world does during one generation. */
  datatype World = World(
    apiKey: string, hasher: CardCache.Hasher, reply: GenerationWorker.Reply,
    cacheFileWritable: bool, pngWritten: bool, filesDir: string, now: nat)

  /** The text the card name shows before any card is rendered. */
  const Placeholder: string := "Card Name"

  class SingleDrawScreen {
    var selectedImage: Option<Bitmap>
    var isFlipped: bool
    /** The flip animation runs, and the card does not take clicks. */
    var flipping: bool
    var cardName: string
    const cards: CardCache.CardRepository
    const history: HistoryStore

    constructor (cards: CardCache.CardRepository, history: HistoryStore)
      ensures selectedImage.None? && !isFlipped && !flipping && cardName == Placeholder
      ensures this.cards == cards && this.history == history
    {
      selectedImage := None;
      isFlipped := false;
      flipping := false;
      cardName := Placeholder;
      this.cards := cards;
      this.history := history;
    }

    /**
     * `loadImage`: when the stream opens, the decoded bitmap (possibly none)
     * becomes the selection and the card turns back to its front.
     */
    method LoadImage(streamOpened: bool, decoded: Option<Bitmap>)
      modifies this`selectedImage, this`isFlipped
      ensures streamOpened ==> selectedImage == decoded && !isFlipped
      ensures !streamOpened ==> selectedImage == old(selectedImage) && isFlipped == old(isFlipped)
    {
      if streamOpened {
        selectedImage := decoded;
        if isFlipped {
          isFlipped := false;
        }
      }
    }

    /** The click on the card: flips only once an image or a card is shown, and not mid-flip. */
    method OnCardClick()
      modifies this`flipping
      ensures flipping == (old(flipping) || selectedImage.Some? || cardName != Placeholder)
    {
      if flipping {
        return;
      }
      if selectedImage.Some? || cardName != Placeholder {
        flipping := true;
      }
    }

    /** The end of the flip animation toggles the side exactly once. */
    method OnFlipEnd()
      requires flipping
      modifies this`isFlipped, this`flipping
      ensures isFlipped == !old(isFlipped) && !flipping
    {
      isFlipped := !isFlipped;
      flipping := false;
    }

    /** `generateCard` with its background job, run to the end. */
    method GenerateCard(world: World) returns (d: Decision)
      modifies this`cardName, cards`cache, cards`isLoaded, cards`disk, history
      ensures old(selectedImage).None? || world.apiKey == "" ==>
        && d == Decide(old(selectedImage).Some?, world.apiKey, None, world.reply)
        && cards.cache == old(cards.cache) && history.entries == old(history.entries)
        && cardName == old(cardName) && cards.isLoaded == old(cards.isLoaded) && cards.disk == old(cards.disk)
      ensures old(selectedImage).Some? && world.apiKey != "" ==> cards.isLoaded
      ensures old(selectedImage).Some? && world.apiKey != "" ==>
        var md5 := CardCache.Md5OfBitmap(world.hasher, old(selectedImage).value);
        var cache := CardCache.AfterInit(old(cards.isLoaded), old(cards.cache), old(cards.disk));
        && d == Decide(true, world.apiKey, if md5 in cache then Some(cache[md5]) else None, world.reply)
        && (d.FromCache? ==> cards.cache == cache && history.entries == old(history.entries) && cardName == d.card.name)
        && (d.Fresh? ==>
              && cards.cache == cache[md5 := d.card] && cardName == d.card.name
              && history.entries == (if world.pngWritten
                then [SavedCardOf(d.card, LibraryPath(world.filesDir, world.now), world.now)] + old(history.entries)
                else old(history.entries)))
        && (d.Failed? ==> cards.cache == cache && history.entries == old(history.entries) && cardName == old(cardName))
        && cards.disk == (if d.Fresh? && world.cacheFileWritable then CardCache.Parsed(Some(cards.cache)) else old(cards.disk))
    {
      if selectedImage.None? {
        return NoImage;
      }
      if world.apiKey == "" {
        return MissingKey;
      }
      cards.Init();
      var md5 := CardCache.Md5OfBitmap(world.hasher, selectedImage.value);
      var cached := cards.GetCard(md5);
      if cached.Some? {
        d := FromCache(cached.value);
      } else {
        match world.reply {
          case Failed(message) =>
            return Failed(message);
          case Generated(card) =>
            cards.SaveCard(md5, card, world.cacheFileWritable);
            if world.pngWritten {
              history.AddToTop(SavedCardOf(card, LibraryPath(world.filesDir, world.now), world.now));
            }
            d := Fresh(card);
        }
      }
      cardName := d.card.name;
    }
  }

  /** A background and a border colour, by resource name. */
  datatype CardColors = CardColors(background: string, border: string)

  /** The colour pair of each tier. */
  function TierColors(t: Tier): CardColors {
    match t
    case UltraRare => CardColors("rarity_ur_bg", "rarity_ur_border")
    case SuperSuperRare => CardColors("rarity_ssr_bg", "rarity_ssr_border")
    case SuperRare => CardColors("rarity_sr_bg", "rarity_sr_border")
    case Rare => CardColors("rarity_r_bg", "rarity_r_border")
    case Common => CardColors("rarity_n_bg", "rarity_n_border")
  }

  /** `getRarityColors`, on the rarity upper-cased by its caller: the first of UR, SSR, SR, R it contains picks the pair, and N's pair otherwise. */
  function RarityColors(rarity: string): (c: CardColors)
    ensures var r := Upper(rarity);
      && (Contains(r, "UR") ==> c == CardColors("rarity_ur_bg", "rarity_ur_border"))
      && (!Contains(r, "UR") && Contains(r, "SSR") ==> c == CardColors("rarity_ssr_bg", "rarity_ssr_border"))
      && (!Contains(r, "UR") && !Contains(r, "SSR") && Contains(r, "SR") ==> c == CardColors("rarity_sr_bg", "rarity_sr_border"))
      && (!Contains(r, "UR") && !Contains(r, "SSR") && !Contains(r, "SR") && Contains(r, "R") ==> c == CardColors("rarity_r_bg", "rarity_r_border"))
      && (!Contains(r, "UR") && !Contains(r, "SSR") && !Contains(r, "SR") && !Contains(r, "R") ==> c == CardColors("rarity_n_bg", "rarity_n_border"))
  {
    TierColors(TierOf(Upper(rarity)))
  }

  /** Different tiers never share a colour, so the border alone tells the tier. */
  lemma RarityColorsDistinguishTiers(a: string, b: string)
    ensures RarityColors(a).border == RarityColors(b).border <==> TierOf(Upper(a)) == TierOf(Upper(b))
  {
  }

  /** `applyVisualEffects`: the shine overlay and breathing animation. */
  predicate HasShine(upperRarity: string) {
    Contains(upperRarity, "SSR") || Contains(upperRarity, "UR")
  }

  /** Exactly the SSR and UR colour tiers shine. */
  lemma ShineIffTopTiers(upperRarity: string)
    ensures HasShine(upperRarity) <==> TierOf(upperRarity) == SuperSuperRare || TierOf(upperRarity) == UltraRare
  {
  }
}
