/**
 * VLMService.kt: the Android client of the vision-language model. The HTTP
 * exchange itself is not modelled; what is modelled is how the endpoint URL is
 * formed, how the model's reply is cleaned of Markdown fences, which defaults a
 * reply missing a field gets, and the size rule applied before upload.
 */
module Vlm {
  import opened Strings

  /** One generated trading card, as the model describes it. */
  datatype CardData = CardData(rarity: string, name: string, description: string, atk: string, def: string)

  /**
   * A decoded image. Only its size is observed by the code modelled here; the
   * pixels are identified by the image they were decoded from.
   */
  datatype Bitmap = Bitmap(width: nat, height: nat, source: string)

  const CompletionsPath: string := "/v1/chat/completions"
  const OpenAiEndpoint: string := "https://api.openai.com/v1/chat/completions"

  /**
   * The URL the request is posted to, given the configured API URL: the fixed
   * OpenAI endpoint when the override applies, and otherwise the configured
   * URL extended.
   */
  function RequestUrl(apiUrl: string): (url: string)
    ensures OpenAiOverride(apiUrl) ==> url == OpenAiEndpoint
    ensures !OpenAiOverride(apiUrl) ==> StartsWith(url, apiUrl)
  {
    if OpenAiOverride(apiUrl) then OpenAiEndpoint else JoinedUrl(apiUrl)
  }

  /**
   * The configured URL with the chat-completions path appended once: the URL
   * is kept as a prefix, and it is returned unchanged exactly when it already
   * ends with the path.
   */
  function JoinedUrl(apiUrl: string): (url: string)
    ensures StartsWith(url, apiUrl)
    ensures url == apiUrl <==> EndsWith(apiUrl, CompletionsPath)
  {
    if EndsWith(apiUrl, CompletionsPath) then apiUrl
    else if EndsWith(apiUrl, "/") then apiUrl + "v1/chat/completions"
    else apiUrl + CompletionsPath
  }

  /**
   * An OpenAI URL without a version is replaced by the fixed endpoint. The
   * override never fires on a URL that already names the endpoint, since the
   * path holds a version.
   */
  function OpenAiOverride(apiUrl: string): (b: bool)
    ensures b ==> !EndsWith(apiUrl, CompletionsPath)
  {
    EndpointHasVersion(apiUrl);
    Contains(apiUrl, "api.openai.com") && !Contains(apiUrl, "v1")
  }

  /** A URL ending with the completions path contains "v1". */
  lemma EndpointHasVersion(apiUrl: string)
    ensures EndsWith(apiUrl, CompletionsPath) ==> Contains(apiUrl, "v1")
  {
    if EndsWith(apiUrl, CompletionsPath) {
      assert apiUrl[|apiUrl| - |CompletionsPath|..][1..3] == "v1";
      ContainsAt(apiUrl, "v1", |apiUrl| - |CompletionsPath| + 1);
    }
  }

  /** Whatever the configured URL, the request goes to a chat-completions endpoint. */
  lemma RequestUrlEndsWithPath(apiUrl: string)
    ensures EndsWith(RequestUrl(apiUrl), CompletionsPath)
  {
    if !OpenAiOverride(apiUrl) && !EndsWith(apiUrl, CompletionsPath) && EndsWith(apiUrl, "/") {
      assert apiUrl + "v1/chat/completions" == apiUrl[..|apiUrl| - 1] + CompletionsPath;
    }
  }

  /** A URL that already names the endpoint is used as it is. */
  lemma RequestUrlKeepsFullEndpoint(apiUrl: string)
    requires EndsWith(apiUrl, CompletionsPath)
    ensures RequestUrl(apiUrl) == apiUrl
  {
  }

  /** With a trailing slash the path is appended without a second separator. */
  lemma JoinedUrlSlashed(base: string)
    requires !EndsWith(base, "/")
    ensures JoinedUrl(base + "/") == base + CompletionsPath
  {
    var slashed := base + "/";
    assert slashed[|slashed| - 1] == '/';
    LastCharDiffers(slashed, CompletionsPath);
    assert EndsWith(slashed, "/") by {
      assert slashed[|slashed| - 1..] == "/";
    }
    var rest := "v1/chat/completions";
    assert CompletionsPath == "/" + rest;
    assert slashed + rest == base + ("/" + rest);
  }

  /** A trailing slash neither creates nor hides "api.openai.com" or "v1". */
  lemma OverrideIgnoresSlash(base: string)
    ensures OpenAiOverride(base + "/") == OpenAiOverride(base)
  {
    ContainsAppend(base, '/', "api.openai.com");
    ContainsAppend(base, '/', "v1");
  }

  /**
   * "base" and "base/" give the same URL, so the separator is never doubled:
   * both become base + "/v1/chat/completions" unless the OpenAI override applies.
   */
  lemma RequestUrlTrailingSlash(base: string)
    requires !EndsWith(base, "/") && !EndsWith(base, CompletionsPath)
    ensures RequestUrl(base + "/") == RequestUrl(base)
    ensures RequestUrl(base) == base + CompletionsPath
         || RequestUrl(base) == OpenAiEndpoint
  {
    JoinedUrlSlashed(base);
    OverrideIgnoresSlash(base);
  }

  /** A URL naming api.openai.com without a version goes to the fixed OpenAI endpoint. */
  lemma RequestUrlOpenAiOverride(apiUrl: string)
    requires Contains(apiUrl, "api.openai.com") && !Contains(apiUrl, "v1")
    ensures RequestUrl(apiUrl) == OpenAiEndpoint
  {
  }

  /** A versioned OpenAI base URL escapes the override and gets the version twice. */
  lemma RequestUrlVersionedOpenAi(apiUrl: string)
    requires apiUrl == "https://api.openai.com/v1"
    ensures RequestUrl(apiUrl) == apiUrl + "/v1/chat/completions"
  {
    assert apiUrl[23..25] == "v1";
    ContainsAt(apiUrl, "v1", 23);
    assert apiUrl[|apiUrl| - 1] != CompletionsPath[|CompletionsPath| - 1];
    LastCharDiffers(apiUrl, CompletionsPath);
    assert apiUrl[|apiUrl| - 1] != '/';
  }

  /**
   * The Markdown-fence cleanup applied to the model's reply before it is parsed
   * as JSON: trim, drop a leading "```json" and then a leading "```", drop a
   * trailing "```", trim again. Kotlin and Python differ only in what counts
   * as whitespace.
   */
  function StripFences(content: string, f: Flavor): (r: string)
    ensures |r| <= |content|
    ensures forall c :: c in r ==> c in content
  {
    var t := Trim(content, f);
    TrimShrinks(content, f);
    TrimShrinks(Unfence(t), f);
    Trim(Unfence(t), f)
  }

  /** The middle of the cleanup: the fences come off, and nothing else is added or removed. */
  function Unfence(a: string): (d: string)
    ensures forall c :: c in d ==> c in a
  {
    var b := if StartsWith(a, "```json") then a[7..] else a;
    var c := if StartsWith(b, "```") then b[3..] else b;
    if EndsWith(c, "```") then c[..|c| - 3] else c
  }

  /**
   * Behind the opening "```json", dropping a further "```" and then a closing
   * "```" leaves exactly the fenced text, provided it does not itself open
   * with a fence.
   */
  lemma DropClosingFence(x: string)
    requires !StartsWith(x, "```")
    ensures var b := x + "```";
            var c := if StartsWith(b, "```") then b[3..] else b;
            (if EndsWith(c, "```") then c[..|c| - 3] else c) == x
  {
    var b := x + "```";
    if |x| >= 3 {
      assert b[..3] == x[..3];
      assert b[..|b| - 3] == x;
    } else if |x| == 0 {
      assert b[3..] == x;
    } else if x[0] != '`' || (|x| == 2 && x[1] != '`') {
      assert b[0] == x[0] && b[..|b| - 3] == x;
      if |x| == 2 { assert b[1] == x[1]; }
    } else {
      assert b[3..] == x;
    }
  }

  /** Fence removal on a "```json" ... "```" block leaves exactly what is between the fences. */
  lemma UnfenceFenced(x: string)
    requires !StartsWith(x, "```")
    ensures Unfence("```json" + x + "```") == x
  {
    var opening := "```json";
    var s := opening + x + "```";
    assert s[..7] == opening;
    assert s[7..] == x + "```";
    DropClosingFence(x);
  }

  /**
   * A reply whose trimmed text is a fenced JSON block, whatever whitespace
   * surrounds it, loses exactly its fences and the whitespace around the JSON.
   */
  lemma StripFencesFenced(content: string, x: string, f: Flavor)
    requires Trim(content, f) == "```json" + x + "```" && !StartsWith(x, "```")
    ensures StripFences(content, f) == Trim(x, f)
  {
    UnfenceFenced(x);
  }

  /** An unfenced reply is only trimmed. */
  lemma StripFencesUnfenced(content: string, f: Flavor)
    requires !StartsWith(Trim(content, f), "```") && !EndsWith(Trim(content, f), "```")
    ensures StripFences(content, f) == Trim(content, f)
  {
    PrefixOfPrefix(Trim(content, f), "```json", "```");
    TrimIdempotent(content, f);
  }

  /** The five keys a card reply is read from. */
  const CardKeys: set<string> := {"rarity", "name", "description", "atk", "def"}

  /** The card every key's default makes up. */
  const DefaultCard: CardData := CardData("N", "Unknown", "No Data", "0", "0")

  /**
   * The card built from the parsed reply object (each JSON value as the string
   * `optString` yields): a missing key takes its default and nothing is cleaned.
   * A reply with all five keys is copied as it is; one with none of them is
   * the default card.
   */
  function CardFromJson(obj: map<string, string>): (card: CardData)
    ensures CardKeys <= obj.Keys ==>
      card == CardData(obj["rarity"], obj["name"], obj["description"], obj["atk"], obj["def"])
    ensures CardKeys !! obj.Keys ==> card == DefaultCard
  {
    CardData(
      if "rarity" in obj then obj["rarity"] else "N",
      if "name" in obj then obj["name"] else "Unknown",
      if "description" in obj then obj["description"] else "No Data",
      if "atk" in obj then obj["atk"] else "0",
      if "def" in obj then obj["def"] else "0")
  }

  /** Each key on its own: a missing key takes its Kotlin default, a present value is copied unchanged. */
  lemma CardFromJsonDefaults(obj: map<string, string>)
    ensures "rarity" !in obj ==> CardFromJson(obj).rarity == "N"
    ensures "name" !in obj ==> CardFromJson(obj).name == "Unknown"
    ensures "description" !in obj ==> CardFromJson(obj).description == "No Data"
    ensures "atk" !in obj ==> CardFromJson(obj).atk == "0"
    ensures "def" !in obj ==> CardFromJson(obj).def == "0"
    ensures "rarity" in obj ==> CardFromJson(obj).rarity == obj["rarity"]
    ensures "name" in obj ==> CardFromJson(obj).name == obj["name"]
    ensures "description" in obj ==> CardFromJson(obj).description == obj["description"]
    ensures "atk" in obj ==> CardFromJson(obj).atk == obj["atk"]
    ensures "def" in obj ==> CardFromJson(obj).def == obj["def"]
  {
  }

  /** Keys other than the five do not change the card. */
  lemma CardFromJsonIgnoresOtherKeys(obj: map<string, string>, key: string, value: string)
    requires key !in CardKeys
    ensures CardFromJson(obj[key := value]) == CardFromJson(obj)
  {
  }

  /**
   * The size `resizeBitmap` scales to. The short side is computed here with
   * exact integer arithmetic; the source uses a float aspect ratio.
   */
  function ResizedSize(width: nat, height: nat, maxSize: nat): (size: (nat, nat))
    ensures width <= maxSize && height <= maxSize ==> size == (width, height)
    ensures !(width <= maxSize && height <= maxSize) ==>
      (if width > height then size.0 == maxSize && size.1 <= maxSize
       else size.1 == maxSize && size.0 <= maxSize)
  {
    if width <= maxSize && height <= maxSize then (width, height)
    else if width > height then
      ScaledSideBound(maxSize, height, width);
      var scaled: nat := maxSize * height / width;
      (maxSize, scaled)
    else
      ScaledSideBound(maxSize, width, height);
      var scaled: nat := maxSize * width / height;
      (scaled, maxSize)
  }

  /** Multiplying by a natural number keeps the order. */
  lemma {:induction false} MulMonotone(a: int, b: int, c: nat)
    ensures a <= b ==> a * c <= b * c
    decreases c
  {
    if c > 0 {
      MulMonotone(a, b, c - 1);
      assert a * c == a * (c - 1) + a;
      assert b * c == b * (c - 1) + b;
    }
  }

  /** Scaling the short side by max/long never exceeds max. */
  lemma ScaledSideBound(max: nat, short: nat, long: nat)
    requires 0 < long && short <= long
    ensures 0 <= max * short / long <= max
  {
    var p := max * short;
    MulMonotone(short, long, max);
    assert p <= max * long;
    var q := p / long;
    assert q * long <= p;
    MulMonotone(max + 1, q, long);
    assert (max + 1) * long == max * long + long;
  }
}
