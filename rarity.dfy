/**
 * The rarity chain the Android screens repeat (`getRarityColors`,
 * `getRarityValue`, `applyRarityVisuals`, `triggerVibration`): on an
 * upper-cased rarity text, UR is tested first, then SSR, SR and R, and
 * anything else is N.
 */
module Rarity {
  import opened Strings

  datatype Tier = Common | Rare | SuperRare | SuperSuperRare | UltraRare

  /** The `when` chain on an already upper-cased rarity text. */
  function TierOf(r: string): (t: Tier)
    ensures t == UltraRare <==> Contains(r, "UR")
    ensures t == SuperSuperRare <==> !Contains(r, "UR") && Contains(r, "SSR")
    ensures t == SuperRare <==> !Contains(r, "UR") && !Contains(r, "SSR") && Contains(r, "SR")
    ensures t == Rare <==> !Contains(r, "UR") && !Contains(r, "SSR") && !Contains(r, "SR") && Contains(r, "R")
    ensures t == Common <==> !Contains(r, "UR") && !Contains(r, "SSR") && !Contains(r, "SR") && !Contains(r, "R")
  {
    if Contains(r, "UR") then UltraRare
    else if Contains(r, "SSR") then SuperSuperRare
    else if Contains(r, "SR") then SuperRare
    else if Contains(r, "R") then Rare
    else Common
  }

  /** "R" occurs in every rarity name but N. */
  lemma EndsInR(r: string)
    requires r == "UR" || r == "SSR" || r == "SR"
    ensures Contains(r, "R")
  {
    assert r[|r| - 1..] == "R";
    ContainsAt(r, "R", |r| - 1);
  }

  /** Only a text without any "R" is N. */
  lemma TierCommonIffNoR(r: string)
    ensures TierOf(r) == Common <==> !Contains(r, "R")
  {
    if Contains(r, "UR") {
      EndsInR("UR");
      ContainsTransitive(r, "UR", "R");
    } else if Contains(r, "SSR") {
      EndsInR("SSR");
      ContainsTransitive(r, "SSR", "R");
    } else if Contains(r, "SR") {
      EndsInR("SR");
      ContainsTransitive(r, "SR", "R");
    }
  }

  /** A text naming SSR never gets the SR tier: it is SSR, or UR when UR also occurs. */
  lemma SsrNeverSr(r: string)
    requires Contains(r, "SSR")
    ensures TierOf(r) == SuperSuperRare || TierOf(r) == UltraRare
  {
  }

  /** Each rarity name gets its own tier. */
  lemma TierOfNames()
    ensures TierOf("UR") == UltraRare
    ensures TierOf("SSR") == SuperSuperRare
    ensures TierOf("SR") == SuperRare
    ensures TierOf("R") == Rare
    ensures TierOf("N") == Common
  {
    assert StartsWith("UR", "UR");
    assert StartsWith("SSR", "SSR");
    assert StartsWith("SR", "SR");
    assert StartsWith("R", "R");
    ContainsShorter("R", "UR");
    ContainsShorter("N", "UR");
    ContainsShorter("N", "SR");
    ContainsShorter("N", "SSR");
    ContainsShorter("SR", "SSR");
    ContainsShorter("R", "SSR");
    ContainsShorter("", "R");
    assert "SR"[1..] == "R" && "SSR"[1..] == "SR" && "N"[1..] == "";
    ContainsStep("SR", "UR");
    ContainsStep("SSR", "UR");
    assert "N"[..1] != "R" by { assert "N"[..1][0] == 'N'; }
    ContainsStep("N", "R");
  }

  /** `getRarityValue`'s numbers: N 1, R 2, SR 3, SSR 4, UR 5. */
  function Rank(t: Tier): (v: int)
    ensures 1 <= v <= 5
  {
    match t
    case Common => 1
    case Rare => 2
    case SuperRare => 3
    case SuperSuperRare => 4
    case UltraRare => 5
  }
}
