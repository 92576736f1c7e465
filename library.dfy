/**
 * LibraryActivity.kt: the saved-card grid. The list is loaded from the shared
 * history and sorted in place by the chosen mode; the thumbnails are decoded
 * with a power-of-two sample size.
 *
 * The platform's sorts are stable, so each mode is modelled as one stable
 * insertion sort on an integer key, the key negated for the descending modes.
 */
module Library {
  import opened Strings
  import opened Rarity
  import SingleDraw
  import VlmPy

  type SavedCard = SingleDraw.SavedCard

  /** `getRarityValue`: the rank of the upper-cased text's tier, UR tested first. */
  function RarityValue(rarity: string): (v: int)
    ensures 1 <= v <= 5
    ensures var r := Upper(rarity);
      && (v == 5 <==> Contains(r, "UR"))
      && (v == 4 <==> !Contains(r, "UR") && Contains(r, "SSR"))
      && (v == 3 <==> !Contains(r, "UR") && !Contains(r, "SSR") && Contains(r, "SR"))
      && (v == 2 <==> !Contains(r, "UR") && !Contains(r, "SSR") && !Contains(r, "SR") && Contains(r, "R"))
      && (v == 1 <==> !Contains(r, "UR") && !Contains(r, "SSR") && !Contains(r, "SR") && !Contains(r, "R"))
  {
    Rank(TierOf(Upper(rarity)))
  }

  /** Only a text without any R, in either case, ranks 1. */
  lemma RarityValueOneIffNoR(rarity: string)
    ensures RarityValue(rarity) == 1 <==> !Contains(Upper(rarity), "R")
  {
    TierCommonIffNoR(Upper(rarity));
  }

  /** Case does not matter: a text and its upper-cased form rank alike. */
  lemma RarityValueIgnoresCase(rarity: string)
    ensures RarityValue(Upper(rarity)) == RarityValue(rarity)
  {
    UpperIdempotent(rarity);
  }

  /** The five rarity names rank 5, 4, 3, 2, 1. */
  lemma RarityValueOfNames()
    ensures RarityValue("UR") == 5 && RarityValue("SSR") == 4 && RarityValue("SR") == 3
    ensures RarityValue("R") == 2 && RarityValue("N") == 1
  {
    assert Upper("UR") == "UR" && Upper("SSR") == "SSR" && Upper("SR") == "SR";
    assert Upper("R") == "R" && Upper("N") == "N";
    TierOfNames();
  }

  /**
   * A text naming both SSR and UR ranks as UR here, while the web back end's
   * rarity cleaning, which tries SSR first, makes it SSR.
   */
  lemma RarityOrderDiffersFromWebBackEnd(text: string)
    requires text == "SSR or UR"
    ensures RarityValue(text) == 5
    ensures VlmPy.CleanRarity(text) == "SSR"
  {
    var u := Upper(text);
    assert u[7..9] == "UR";
    ContainsAt(u, "UR", 7);
    VlmPy.CleanRaritySsrBeforeUr(text);
  }

  datatype SortMode = DateNewest | DateOldest | RarityHigh | RarityLow

  /** The ascending key a mode sorts by. */
  function Key(mode: SortMode, c: SavedCard): int {
    match mode
    case DateNewest => -c.timestamp
    case DateOldest => c.timestamp
    case RarityHigh => -RarityValue(c.rarity)
    case RarityLow => RarityValue(c.rarity)
  }

  /** The mode's key as a function value, which is what the sort is written against. */
  function KeyOf(mode: SortMode): SavedCard -> int {
    c => Key(mode, c)
  }

  predicate SortedBy(cs: seq<SavedCard>, key: SavedCard -> int) {
    forall i, j :: 0 <= i < j < |cs| ==> key(cs[i]) <= key(cs[j])
  }

  /** The cards whose key is `k`, in list order. */
  function Filter(cs: seq<SavedCard>, key: SavedCard -> int, k: int): seq<SavedCard> {
    if cs == [] then []
    else (if key(cs[0]) == k then [cs[0]] else []) + Filter(cs[1..], key, k)
  }

  /** Puts `c` before the first card whose key is not smaller: exactly the card is added. */
  function Insert(c: SavedCard, s: seq<SavedCard>, key: SavedCard -> int): (r: seq<SavedCard>)
    ensures multiset(r) == multiset(s) + multiset{c}
  {
    if s == [] || key(c) <= key(s[0]) then [c] + s
    else
      assert s == [s[0]] + s[1..];
      [s[0]] + Insert(c, s[1..], key)
  }

  /** `sortedBy`/`sortedByDescending`: an insertion sort, which like Kotlin's sort is stable; it keeps the same cards. */
  function SortBy(cs: seq<SavedCard>, key: SavedCard -> int): (r: seq<SavedCard>)
    ensures multiset(r) == multiset(cs)
  {
    if cs == [] then []
    else
      assert cs == [cs[0]] + cs[1..];
      Insert(cs[0], SortBy(cs[1..], key), key)
  }

  lemma {:induction false} InsertBound(c: SavedCard, s: seq<SavedCard>, key: SavedCard -> int, b: int)
    requires key(c) >= b
    requires forall i :: 0 <= i < |s| ==> key(s[i]) >= b
    ensures forall i :: 0 <= i < |Insert(c, s, key)| ==> key(Insert(c, s, key)[i]) >= b
  {
    if !(s == [] || key(c) <= key(s[0])) {
      InsertBound(c, s[1..], key, b);
    }
  }

  /** Inserting into a sorted list keeps it sorted. */
  lemma {:induction false} InsertKeepsSorted(c: SavedCard, s: seq<SavedCard>, key: SavedCard -> int)
    requires SortedBy(s, key)
    ensures SortedBy(Insert(c, s, key), key)
  {
    if !(s == [] || key(c) <= key(s[0])) {
      var rest := s[1..];
      assert SortedBy(rest, key) by {
        assert forall i :: 0 <= i < |rest| ==> rest[i] == s[i + 1];
      }
      InsertKeepsSorted(c, rest, key);
      InsertBound(c, rest, key, key(s[0]));
      var t := Insert(c, rest, key);
      var r := [s[0]] + t;
      assert Insert(c, s, key) == r;
      forall i, j | 0 <= i < j < |r|
        ensures key(r[i]) <= key(r[j])
      {
        if i == 0 {
          assert r[j] == t[j - 1];
        } else {
          assert r[i] == t[i - 1] && r[j] == t[j - 1];
        }
      }
    }
  }

  /** Inserting into a sorted list keeps it sorted and adds exactly the card. */
  lemma InsertSorted(c: SavedCard, s: seq<SavedCard>, key: SavedCard -> int)
    requires SortedBy(s, key)
    ensures SortedBy(Insert(c, s, key), key)
    ensures multiset(Insert(c, s, key)) == multiset(s) + multiset{c}
  {
    InsertKeepsSorted(c, s, key);
  }

  /** Inserting `c` adds it to its own key's cards ahead of them, and leaves every other key's cards as they were. */
  lemma {:induction false} InsertFilter(c: SavedCard, s: seq<SavedCard>, key: SavedCard -> int, k: int)
    ensures Filter(Insert(c, s, key), key, k) == (if key(c) == k then [c] else []) + Filter(s, key, k)
  {
    if s == [] || key(c) <= key(s[0]) {
      assert ([c] + s)[1..] == s;
    } else {
      var rest := Insert(c, s[1..], key);
      assert ([s[0]] + rest)[1..] == rest;
      InsertFilter(c, s[1..], key, k);
      var head := if key(s[0]) == k then [s[0]] else [];
      var added := if key(c) == k then [c] else [];
      assert Filter(s, key, k) == head + Filter(s[1..], key, k);
      assert Filter(Insert(c, s, key), key, k) == head + (added + Filter(s[1..], key, k));
      assert head == [] || added == [];
    }
  }

  /** The sorted list is in key order and holds the same cards. */
  lemma {:induction false} SortBySortedPermutation(cs: seq<SavedCard>, key: SavedCard -> int)
    ensures SortedBy(SortBy(cs, key), key)
    ensures multiset(SortBy(cs, key)) == multiset(cs)
  {
    if cs != [] {
      SortBySortedPermutation(cs[1..], key);
      InsertSorted(cs[0], SortBy(cs[1..], key), key);
      assert cs == [cs[0]] + cs[1..];
    }
  }

  /** Stability: the cards of any one key keep their relative order. */
  lemma {:induction false} SortByStable(cs: seq<SavedCard>, key: SavedCard -> int, k: int)
    ensures Filter(SortBy(cs, key), key, k) == Filter(cs, key, k)
  {
    if cs != [] {
      SortByStable(cs[1..], key, k);
      InsertFilter(cs[0], SortBy(cs[1..], key), key, k);
    }
  }

  /** What sortedness by each mode's key means for the cards. */
  lemma SortedMeaning(cs: seq<SavedCard>, mode: SortMode)
    requires SortedBy(cs, KeyOf(mode))
    ensures mode == DateNewest ==> forall i, j :: 0 <= i < j < |cs| ==> cs[i].timestamp >= cs[j].timestamp
    ensures mode == DateOldest ==> forall i, j :: 0 <= i < j < |cs| ==> cs[i].timestamp <= cs[j].timestamp
    ensures mode == RarityHigh ==> forall i, j :: 0 <= i < j < |cs| ==> RarityValue(cs[i].rarity) >= RarityValue(cs[j].rarity)
    ensures mode == RarityLow ==> forall i, j :: 0 <= i < j < |cs| ==> RarityValue(cs[i].rarity) <= RarityValue(cs[j].rarity)
  {
    assert forall i, j :: 0 <= i < j < |cs| ==> Key(mode, cs[i]) <= Key(mode, cs[j]);
  }

  class LibraryScreen {
    var allCards: seq<SavedCard>
    var currentSortMode: SortMode

    /** `onCreate`: the stored history, sorted newest first. */
    constructor (history: seq<SavedCard>)
      ensures currentSortMode == DateNewest
      ensures allCards == SortBy(history, KeyOf(DateNewest))
    {
      allCards := history;
      currentSortMode := DateNewest;
      new;
      SortCards();
    }

    /** `sortCards`: a stable sort of the list by the current mode. */
    method SortCards()
      modifies this`allCards
      ensures allCards == SortBy(old(allCards), KeyOf(currentSortMode))
      ensures SortedBy(allCards, KeyOf(currentSortMode))
      ensures multiset(allCards) == multiset(old(allCards))
      ensures forall k :: Filter(allCards, KeyOf(currentSortMode), k) == Filter(old(allCards), KeyOf(currentSortMode), k)
    {
      var sorted := SortBy(allCards, KeyOf(currentSortMode));
      SortBySortedPermutation(allCards, KeyOf(currentSortMode));
      forall k
        ensures Filter(sorted, KeyOf(currentSortMode), k) == Filter(allCards, KeyOf(currentSortMode), k)
      {
        SortByStable(allCards, KeyOf(currentSortMode), k);
      }
      allCards := sorted;
    }

    /** `onOptionsItemSelected`: menu items 1 to 4 pick a mode and re-sort; any other item leaves the list alone. */
    method OnOptionsItemSelected(itemId: int)
      modifies this
      ensures 1 <= itemId <= 4 ==>
        currentSortMode == ModeOfItem(itemId) && allCards == SortBy(old(allCards), KeyOf(currentSortMode))
      ensures !(1 <= itemId <= 4) ==> currentSortMode == old(currentSortMode) && allCards == old(allCards)
    {
      if 1 <= itemId <= 4 {
        currentSortMode := ModeOfItem(itemId);
        SortCards();
      }
    }
  }

  /** The menu: 1 newest, 2 oldest, 3 rarity high to low, 4 rarity low to high. */
  function ModeOfItem(itemId: int): SortMode
    requires 1 <= itemId <= 4
  {
    if itemId == 1 then DateNewest
    else if itemId == 2 then DateOldest
    else if itemId == 3 then RarityHigh
    else RarityLow
  }

  /** Kotlin's `Int` division, which truncates toward zero. */
  function TruncDiv(a: int, b: int): int
    requires b > 0
  {
    if a >= 0 then a / b else -((-a) / b)
  }

  function Pow2(e: nat): (p: int)
    ensures p >= 1
  {
    if e == 0 then 1 else 2 * Pow2(e - 1)
  }

  /** The loop's test: halving `s` times more would still leave both halves at least the request. */
  predicate StillTooLarge(halfHeight: int, halfWidth: int, s: int, reqHeight: int, reqWidth: int)
    requires s > 0
  {
    TruncDiv(halfHeight, s) >= reqHeight && TruncDiv(halfWidth, s) >= reqWidth
  }

  /**
   * `calculateInSampleSize`: 1 when the image fits the request; otherwise the
   * smallest power of two at which a halved side drops below the request.
   */
  method CalculateInSampleSize(height: int, width: int, reqWidth: int, reqHeight: int) returns (s: int)
    requires reqWidth > 0 && reqHeight > 0
    ensures exists e: nat :: s == Pow2(e)
    ensures height <= reqHeight && width <= reqWidth ==> s == 1
    ensures !(height <= reqHeight && width <= reqWidth) ==>
      && !StillTooLarge(TruncDiv(height, 2), TruncDiv(width, 2), s, reqHeight, reqWidth)
      && forall e: nat :: Pow2(e) < s ==> StillTooLarge(TruncDiv(height, 2), TruncDiv(width, 2), Pow2(e), reqHeight, reqWidth)
  {
    s := 1;
    ghost var e: nat := 0;
    if height > reqHeight || width > reqWidth {
      var halfHeight := TruncDiv(height, 2);
      var halfWidth := TruncDiv(width, 2);
      while TruncDiv(halfHeight, s) >= reqHeight && TruncDiv(halfWidth, s) >= reqWidth
        invariant s == Pow2(e)
        invariant forall j: nat :: j < e ==> StillTooLarge(halfHeight, halfWidth, Pow2(j), reqHeight, reqWidth)
        decreases halfHeight - s
      {
        QuotientBound(halfHeight, s, reqHeight);
        s := s * 2;
        e := e + 1;
      }
      forall j: nat | Pow2(j) < s
        ensures StillTooLarge(halfHeight, halfWidth, Pow2(j), reqHeight, reqWidth)
      {
        Pow2Below(j, e);
      }
    }
    assert s == Pow2(e);
  }

  /** A truncated quotient of at least `r >= 1` needs a dividend of at least the divisor. */
  lemma QuotientBound(a: int, b: int, r: int)
    requires b > 0 && r >= 1 && TruncDiv(a, b) >= r
    ensures a >= b
  {
    if a >= 0 {
      var q := a / b;
      assert a == b * q + a % b;
      assert q >= 1;
      assert b * q >= b;
    }
  }

  /** Powers of two grow with the exponent. */
  lemma {:induction false} Pow2Below(j: nat, e: nat)
    requires Pow2(j) < Pow2(e)
    ensures j < e
  {
    if j >= e {
      Pow2Monotone(e, j);
    }
  }

  lemma {:induction false} Pow2Monotone(e: nat, j: nat)
    requires e <= j
    ensures Pow2(e) <= Pow2(j)
    decreases j
  {
    if e < j {
      Pow2Monotone(e, j - 1);
    }
  }
}
