/**
 * GodsDrawActivity.kt: the six-card summon. A summon resets the list to six
 * empty slots and fetches one random image per slot; a slot is face down
 * until tapped, and the tap turns it and generates (or looks up) its card.
 *
 * The image service and the model are oracles: each fetch reports a result
 * for its slot, and the generation step takes the model's reply as a
 * parameter. Every posted main-thread block runs as one step.
 */
module GodsDraw {
  import opened Wrappers
  import opened Strings
  import opened Vlm
  import opened Rarity
  import CardCache
  import GenerationWorker
  import SingleDraw

  /** `GodCardItem`. */
  datatype GodCard = GodCard(
    imageUrl: Option<string>, bitmap: Option<Bitmap>, cardData: Option<CardData>,
    isFlipped: bool, isLoading: bool)

  const EmptySlot: GodCard := GodCard(None, None, None, false, false)

  const SlotCount: nat := 6

  const FailedUrl: string := "failed"

  /** A slot the summon has finished with: it has a bitmap, or its fetch failed. */
  predicate Settled(c: GodCard) {
    c.bitmap.Some? || c.imageUrl == Some(FailedUrl)
  }

  /** The `all { ... }` check after each fetch. */
  predicate AllLoaded(slots: seq<GodCard>) {
    forall i :: 0 <= i < |slots| ==> Settled(slots[i])
  }

  /** The number of slots with a bitmap, as the status text reports it. */
  function SuccessCount(slots: seq<GodCard>): (n: nat)
    ensures n <= |slots|
    decreases |slots|
  {
    if slots == [] then 0
    else SuccessCount(slots[..|slots| - 1]) + (if slots[|slots| - 1].bitmap.Some? then 1 else 0)
  }

  /** The number of slots whose fetch failed and that have no bitmap. */
  function FailedCount(slots: seq<GodCard>): (n: nat)
    decreases |slots|
  {
    if slots == [] then 0
    else FailedCount(slots[..|slots| - 1]) + (if slots[|slots| - 1].bitmap.None? && slots[|slots| - 1].imageUrl == Some(FailedUrl) then 1 else 0)
  }

  /** Once every slot is settled, each is counted as a success or as a failure, never both. */
  lemma {:induction false} SettledSlotsSplit(slots: seq<GodCard>)
    requires AllLoaded(slots)
    ensures SuccessCount(slots) + FailedCount(slots) == |slots|
    decreases |slots|
  {
    if slots != [] {
      var n := |slots| - 1;
      assert forall i :: 0 <= i < n ==> slots[..n][i] == slots[i];
      SettledSlotsSplit(slots[..n]);
    }
  }

  /** One fetch's report: the image url and bitmap, or failure. */
  datatype Fetch = Fetched(url: string, bitmap: Bitmap) | FetchFailed

  /** What the posted blocks of one fetch do to its own slot. */
  function AfterFetch(c: GodCard, f: Fetch): (r: GodCard)
    ensures Settled(r)
    ensures r.cardData == c.cardData && r.isFlipped == c.isFlipped && r.isLoading == c.isLoading
  {
    match f
    case Fetched(url, bitmap) => c.(imageUrl := Some(url), bitmap := Some(bitmap))
    case FetchFailed => c.(imageUrl := Some(FailedUrl))
  }

  /** When every slot has reported, the summon is complete. */
  lemma {:induction false} AllReportedAllLoaded(slots: seq<GodCard>, fs: seq<Fetch>)
    requires |fs| == |slots|
    ensures AllLoaded(seq(|slots|, i requires 0 <= i < |slots| => AfterFetch(slots[i], fs[i])))
  {
  }

  /** `generateCardData`'s decision: the cache first, and only on a miss the key and then the model. */
  function GodDecide(cached: Option<CardData>, apiKey: string, reply: GenerationWorker.Reply): (d: SingleDraw.Decision)
    ensures !d.NoImage?
    ensures d.FromCache? <==> cached.Some?
    ensures d.MissingKey? <==> cached.None? && apiKey == ""
    ensures d.Fresh? ==> reply == GenerationWorker.Generated(d.card)
    ensures cached.None? && apiKey != "" ==>
      && (reply.Generated? ==> d == SingleDraw.Fresh(reply.card))
      && (reply.Failed? ==> d == SingleDraw.Failed(reply.message))
  {
    match cached
    case Some(card) => SingleDraw.FromCache(card)
    case None =>
      if apiKey == "" then SingleDraw.MissingKey
      else match reply
        case Generated(card) => SingleDraw.Fresh(card)
        case Failed(message) => SingleDraw.Failed(message)
  }

  /**
   * The two draw screens disagree on an empty key: here a cached card is
   * still revealed, while the single draw asks for the key first.
   */
  lemma KeyOrderDiffersFromSingleDraw(card: CardData, reply: GenerationWorker.Reply)
    ensures GodDecide(Some(card), "", reply) == SingleDraw.FromCache(card)
    ensures SingleDraw.Decide(true, "", Some(card), reply) == SingleDraw.MissingKey
  {
  }

  /** The card a decision shows, if it shows one. */
  function Shown(d: SingleDraw.Decision): Option<CardData> {
    match d
    case FromCache(card) => Some(card)
    case Fresh(card) => Some(card)
    case _ => None
  }

  /** A vibration: its length in milliseconds and its amplitude. */
  datatype Vibration = Vibration(durationMs: nat, amplitude: nat)

  /** `triggerVibration`: UR, then SSR, then SR, on the upper-cased text; R and N share the weakest. */
  function VibrationFor(rarity: string): (v: Vibration)
    ensures Contains(Upper(rarity), "UR") ==> v == Vibration(500, 255)
    ensures !Contains(Upper(rarity), "UR") && Contains(Upper(rarity), "SSR") ==> v == Vibration(300, 200)
    ensures !Contains(Upper(rarity), "UR") && !Contains(Upper(rarity), "SSR") && Contains(Upper(rarity), "SR") ==> v == Vibration(150, 150)
    ensures !Contains(Upper(rarity), "UR") && !Contains(Upper(rarity), "SSR") && !Contains(Upper(rarity), "SR") ==> v == Vibration(50, 80)
  {
    match TierOf(Upper(rarity))
    case UltraRare => Vibration(500, 255)
    case SuperSuperRare => Vibration(300, 200)
    case SuperRare => Vibration(150, 150)
    case _ => Vibration(50, 80)
  }

  /** A rarer tier never vibrates shorter or weaker. */
  lemma VibrationMonotone(a: string, b: string)
    requires Rank(TierOf(Upper(a))) <= Rank(TierOf(Upper(b)))
    ensures VibrationFor(a).durationMs <= VibrationFor(b).durationMs
    ensures VibrationFor(a).amplitude <= VibrationFor(b).amplitude
  {
  }

  /** Case does not matter. */
  lemma VibrationIgnoresCase(rarity: string)
    ensures VibrationFor(Upper(rarity)) == VibrationFor(rarity)
  {
    UpperIdempotent(rarity);
  }

  class GodsDrawScreen {
    var slots: seq<GodCard>
    var summonEnabled: bool
    const cards: CardCache.CardRepository
    const history: SingleDraw.HistoryStore

    constructor (cards: CardCache.CardRepository, history: SingleDraw.HistoryStore)
      ensures slots == [] && summonEnabled && this.cards == cards && this.history == history
    {
      slots := [];
      summonEnabled := true;
      this.cards := cards;
      this.history := history;
    }

    /** `onCreate` loads the card cache, once per process. */
    method OnCreate()
      modifies cards`cache, cards`isLoaded
      ensures cards.isLoaded
      ensures cards.cache == CardCache.AfterInit(old(cards.isLoaded), old(cards.cache), cards.disk)
    {
      cards.Init();
    }

    /** `startSummoning`: exactly six empty slots, and the button off until they settle. */
    method StartSummoning()
      modifies this`slots, this`summonEnabled
      ensures |slots| == SlotCount && forall i :: 0 <= i < |slots| ==> slots[i] == EmptySlot
      ensures !summonEnabled
    {
      slots := [];
      var i := 0;
      while i < SlotCount
        invariant 0 <= i <= SlotCount
        invariant |slots| == i && forall j :: 0 <= j < i ==> slots[j] == EmptySlot
      {
        slots := slots + [EmptySlot];
        i := i + 1;
      }
      summonEnabled := false;
    }

    /**
     * The blocks one fetch posts: its own slot gets the image or "failed", and
     * when every slot is settled the count of bitmaps is reported and the button
     * comes back.
     */
    method FetchDone(index: nat, f: Fetch) returns (report: Option<nat>)
      requires index < |slots|
      modifies this`slots, this`summonEnabled
      ensures slots == old(slots)[index := AfterFetch(old(slots)[index], f)]
      ensures report == if AllLoaded(slots) then Some(SuccessCount(slots)) else None
      ensures summonEnabled == (old(summonEnabled) || AllLoaded(slots))
    {
      match f {
        case Fetched(url, bitmap) =>
          slots := slots[index := slots[index].(imageUrl := Some(url), bitmap := Some(bitmap))];
        case FetchFailed =>
          slots := slots[index := slots[index].(imageUrl := Some(FailedUrl))];
      }
      var allLoaded := forall i | 0 <= i < |slots| :: slots[i].bitmap.Some? || slots[i].imageUrl == Some(FailedUrl);
      if allLoaded {
        report := Some(SuccessCount(slots));
        summonEnabled := true;
      } else {
        report := None;
      }
    }

    /**
     * `flipCard` with its generation job: a slot already face up, or without a
     * bitmap, or not on screen, is ignored; otherwise it turns face up and its
     * card is looked up or generated. The vibration follows a shown card.
     */
    method FlipCard(position: nat, holderShown: bool, world: SingleDraw.World) returns (d: Option<SingleDraw.Decision>, buzz: Option<Vibration>)
      requires position < |slots|
      modifies this`slots, cards`cache, cards`disk, history
      ensures old(slots[position].isFlipped) || old(slots[position].bitmap).None? || !holderShown ==>
        && d.None? && buzz.None? && slots == old(slots)
        && cards.cache == old(cards.cache) && cards.disk == old(cards.disk) && history.entries == old(history.entries)
      ensures !old(slots[position].isFlipped) && old(slots[position].bitmap).Some? && holderShown ==>
        var md5 := CardCache.Md5OfBitmap(world.hasher, old(slots[position].bitmap).value);
        var dec := GodDecide(if md5 in old(cards.cache) then Some(old(cards.cache)[md5]) else None, world.apiKey, world.reply);
        && d == Some(dec)
        && slots == old(slots)[position := old(slots[position]).(isFlipped := true, isLoading := false,
             cardData := if Shown(dec).Some? then Shown(dec) else old(slots[position].cardData))]
        && buzz == (if Shown(dec).Some? then Some(VibrationFor(Shown(dec).value.rarity)) else None)
        && cards.cache == (if dec.Fresh? then old(cards.cache)[md5 := dec.card] else old(cards.cache))
        && cards.disk == (if dec.Fresh? && world.cacheFileWritable then CardCache.Parsed(Some(cards.cache)) else old(cards.disk))
        && history.entries == (if dec.Fresh? && world.pngWritten
             then [SingleDraw.SavedCardOf(dec.card, SingleDraw.LibraryPath(world.filesDir, world.now), world.now)] + old(history.entries)
             else old(history.entries))
    {
      var item := slots[position];
      if item.isFlipped || item.bitmap.None? || !holderShown {
        return None, None;
      }
      slots := slots[position := item.(isFlipped := true, isLoading := true)];
      var md5 := CardCache.Md5OfBitmap(world.hasher, item.bitmap.value);
      var data := cards.GetCard(md5);
      var dec: SingleDraw.Decision;
      if data.Some? {
        dec := SingleDraw.FromCache(data.value);
      } else if world.apiKey == "" {
        dec := SingleDraw.MissingKey;
      } else {
        match world.reply {
          case Failed(message) =>
            dec := SingleDraw.Failed(message);
          case Generated(card) =>
            cards.SaveCard(md5, card, world.cacheFileWritable);
            if world.pngWritten {
              history.AddToTop(SingleDraw.SavedCardOf(card, SingleDraw.LibraryPath(world.filesDir, world.now), world.now));
            }
            dec := SingleDraw.Fresh(card);
        }
      }
      d := Some(dec);
      var shown := Shown(dec);
      if shown.Some? {
        slots := slots[position := slots[position].(cardData := shown, isLoading := false)];
        buzz := Some(VibrationFor(shown.value.rarity));
      } else {
        slots := slots[position := slots[position].(isLoading := false)];
        buzz := None;
      }
    }
  }
}
