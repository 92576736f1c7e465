/**
 * CardRepository.kt: the process-wide cache from an image's MD5 hex string to
 * the card generated for it, and the hex formatting of the MD5 digest. The
 * digest (RFC 1321) and the JPEG compression before hashing are library code
 * and enter the model as uninterpreted functions.
 */
module CardCache {
  import opened Wrappers
  import opened Vlm

  /** A JVM `Byte`: signed, -128..127. */
  newtype SByte = x: int | -128 <= x < 128

  /** An MD5 digest as `MessageDigest.digest` returns it: 16 signed bytes. */
  type Digest = d: seq<SByte> | |d| == 16
    witness [0, 0, 0, 0, 0, 0, 0, 0, 0, 0, 0, 0, 0, 0, 0, 0]

  /**
   * The library steps behind `calculateMD5`: JPEG compression at quality 80
   * and the MD5 digest of a byte array.
   */
  datatype Hasher = Hasher(jpeg80: Bitmap -> seq<SByte>, md5: seq<SByte> -> Digest)

  predicate IsLowerHex(c: char) {
    '0' <= c <= '9' || 'a' <= c <= 'f'
  }

  predicate AllLowerHex(s: string) {
    forall i :: 0 <= i < |s| ==> IsLowerHex(s[i])
  }

  /** The value of one lower-case hex digit. */
  function HexValue(c: char): (v: nat)
    requires IsLowerHex(c)
    ensures v < 16
  {
    if c <= '9' then c as int - '0' as int else c as int - 'a' as int + 10
  }

  /** The lower-case hex digit of a value below 16. */
  function HexDigit(v: nat): (c: char)
    requires v < 16
    ensures IsLowerHex(c) && HexValue(c) == v
  {
    if v < 10 then ('0' as int + v) as char else ('a' as int + v - 10) as char
  }

  /** The value `%x` formats for a byte: its unsigned reading, b + 256 when negative. */
  function Unsigned(b: SByte): (u: nat)
    ensures u < 256 && (u - b as int) % 256 == 0
  {
    if b < 0 then b as int + 256 else b as int
  }

  /** `"%02x".format(b)`: exactly two lower-case hex digits spelling the unsigned value. */
  function ByteHex(b: SByte): (h: string)
    ensures |h| == 2 && IsLowerHex(h[0]) && IsLowerHex(h[1])
    ensures HexValue(h[0]) * 16 + HexValue(h[1]) == Unsigned(b)
  {
    var u := Unsigned(b);
    [HexDigit(u / 16), HexDigit(u % 16)]
  }

  /** `digest.joinToString("") { "%02x".format(it) }`. */
  function DigestHex(d: seq<SByte>): (hex: string)
    ensures |hex| == 2 * |d| && AllLowerHex(hex)
  {
    if d == [] then "" else ByteHex(d[0]) + DigestHex(d[1..])
  }

  /** Reads a byte back from its two hex digits. */
  function ParseByte(hi: char, lo: char): SByte
    requires IsLowerHex(hi) && IsLowerHex(lo)
  {
    var v := HexValue(hi) * 16 + HexValue(lo);
    if v >= 128 then (v - 256) as SByte else v as SByte
  }

  /** Reads a digest back from its hex string. */
  function ParseHex(hex: string): seq<SByte>
    requires |hex| % 2 == 0 && AllLowerHex(hex)
  {
    if hex == [] then [] else [ParseByte(hex[0], hex[1])] + ParseHex(hex[2..])
  }

  lemma ByteHexRoundTrip(b: SByte)
    ensures ParseByte(ByteHex(b)[0], ByteHex(b)[1]) == b
  {
  }

  /** Parsing the hex string gives back the digest, so the formatting loses nothing. */
  lemma {:induction false} DigestHexRoundTrip(d: seq<SByte>)
    ensures ParseHex(DigestHex(d)) == d
  {
    if d != [] {
      var hex := DigestHex(d);
      assert hex[..2] == ByteHex(d[0]);
      assert hex[2..] == DigestHex(d[1..]);
      ByteHexRoundTrip(d[0]);
      DigestHexRoundTrip(d[1..]);
    }
  }

  /** Distinct digests give distinct hex strings. */
  lemma DigestHexInjective(d1: seq<SByte>, d2: seq<SByte>)
    requires DigestHex(d1) == DigestHex(d2)
    ensures d1 == d2
  {
    DigestHexRoundTrip(d1);
    DigestHexRoundTrip(d2);
  }

  /** `calculateMD5(bytes)`: 32 lower-case hex digits. */
  function Md5OfBytes(h: Hasher, bytes: seq<SByte>): (hex: string)
    ensures |hex| == 32 && AllLowerHex(hex)
  {
    DigestHex(h.md5(bytes))
  }

  /** The byte-array hash reads back as the MD5 digest of the bytes. */
  lemma Md5OfBytesParses(h: Hasher, bytes: seq<SByte>)
    ensures ParseHex(Md5OfBytes(h, bytes)) == h.md5(bytes)
  {
    DigestHexRoundTrip(h.md5(bytes));
  }

  /** `calculateMD5(bitmap)`: the digest of the bitmap's JPEG at quality 80. */
  function Md5OfBitmap(h: Hasher, bitmap: Bitmap): (hex: string)
    ensures |hex| == 32 && AllLowerHex(hex)
  {
    Md5OfBytes(h, h.jpeg80(bitmap))
  }

  /** The bitmap hash reads back as the MD5 digest of the bitmap's quality-80 JPEG. */
  lemma Md5OfBitmapParses(h: Hasher, bitmap: Bitmap)
    ensures ParseHex(Md5OfBitmap(h, bitmap)) == h.md5(h.jpeg80(bitmap))
  {
    Md5OfBytesParses(h, h.jpeg80(bitmap));
  }

  /** Both overloads format alike: equal hashes exactly when the digests are equal. */
  lemma Md5SameDigestSameHex(h: Hasher, bitmap: Bitmap, bytes: seq<SByte>)
    ensures Md5OfBitmap(h, bitmap) == Md5OfBytes(h, bytes) <==> h.md5(h.jpeg80(bitmap)) == h.md5(bytes)
  {
    DigestHexRoundTrip(h.md5(h.jpeg80(bitmap)));
    DigestHexRoundTrip(h.md5(bytes));
  }

  /**
   * The cache file in the app's files directory: missing, present but not
   * readable as JSON, or parsed (Gson yields null for an empty document).
   */
  datatype CacheFile = Missing | Unreadable | Parsed(loaded: Option<map<string, CardData>>)

  /** The cache after `init`: the file's map on the first call if it parsed to one, else the cache as it was. */
  function AfterInit(isLoaded: bool, cache: map<string, CardData>, file: CacheFile): (r: map<string, CardData>)
    ensures isLoaded ==> r == cache
    ensures !(file.Parsed? && file.loaded.Some?) ==> r == cache
  {
    if !isLoaded && file.Parsed? && file.loaded.Some? then file.loaded.value else cache
  }

  /** The singleton repository; `disk` stands for the cache file. */
  class CardRepository {
    var cache: map<string, CardData>
    var isLoaded: bool
    var disk: CacheFile

    constructor (file: CacheFile)
      ensures cache == map[] && !isLoaded && disk == file
    {
      cache := map[];
      isLoaded := false;
      disk := file;
    }

    /**
     * `init`: loads the file once. A missing, unreadable or null file leaves
     * the cache as it was; a second call changes nothing.
     */
    method Init()
      modifies this`cache, this`isLoaded
      ensures isLoaded
      ensures !old(isLoaded) && disk.Parsed? && disk.loaded.Some? ==> cache == disk.loaded.value
      ensures old(isLoaded) || !(disk.Parsed? && disk.loaded.Some?) ==> cache == old(cache)
      ensures cache == AfterInit(old(isLoaded), old(cache), disk)
    {
      if !isLoaded {
        LoadCache();
        isLoaded := true;
      }
    }

    method LoadCache()
      modifies this`cache
      ensures disk.Parsed? && disk.loaded.Some? ==> cache == disk.loaded.value
      ensures !(disk.Parsed? && disk.loaded.Some?) ==> cache == old(cache)
    {
      match disk
      case Parsed(Some(loaded)) => cache := loaded;
      case _ =>
    }

    function HasCard(md5: string): bool
      reads this
    {
      md5 in cache
    }

    function GetCard(md5: string): (card: Option<CardData>)
      reads this
      ensures card.Some? ==> md5 in cache && cache[md5] == card.value
    {
      if md5 in cache then Some(cache[md5]) else None
    }

    /** `saveCard`: overwrites one entry, then writes the whole map back if the write succeeds. */
    method SaveCard(md5: string, data: CardData, writeOk: bool)
      modifies this`cache, this`disk
      ensures cache == old(cache)[md5 := data]
      ensures GetCard(md5) == Some(data)
      ensures forall k :: k != md5 ==> GetCard(k) == old(GetCard(k))
      ensures disk == if writeOk then Parsed(Some(cache)) else old(disk)
    {
      cache := cache[md5 := data];
      if writeOk {
        disk := Parsed(Some(cache));
      }
    }
  }

  /** `hasCard(m)` holds exactly when `getCard(m)` yields a card. */
  lemma HasCardIffGetCard(r: CardRepository, md5: string)
    ensures r.HasCard(md5) <==> r.GetCard(md5).Some?
  {
  }

  /**
   * What a successful save writes is what a fresh process loads: a new
   * repository over the saved file sees the same cards.
   */
  method SaveThenReload(r: CardRepository, md5: string, data: CardData) returns (reloaded: CardRepository)
    modifies r`cache, r`disk
    ensures reloaded.cache == r.cache && reloaded.GetCard(md5) == Some(data)
  {
    r.SaveCard(md5, data, true);
    reloaded := new CardRepository(r.disk);
    reloaded.Init();
  }
}
