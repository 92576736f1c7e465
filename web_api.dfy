/**
 * app.py: the web back end. The card store is the `cards.json` dictionary,
 * keyed by image md5 and kept in insertion order; the uploads directory is
 * the set of file names in it. `generate_card` either re-analyses a stored
 * card's image or takes an upload, returning the stored card on a hash hit;
 * `get_cards` and `list_card_backs` are listing filters.
 *
 * The content hash and the model's analysis are oracles: an upload carries
 * the md5 of its bytes, and the analysis of a request is a parameter.
 */
module WebApi {
  import opened Wrappers
  import opened Strings

  /** One entry of `cards.json`. */
  datatype StoredCard = StoredCard(
    md5: string, filename: string, imageUrl: string,
    rarity: string, name: string, description: string, atk: string, def: string)

  /** What `analyze_image` returns; atk and def may be absent (`analysis.get(..., "0")`). */
  datatype Analysis = Analysis(rarity: string, name: string, description: string, atk: Option<string>, def: Option<string>)

  /** An uploaded file: the name the client gave it and the md5 of its bytes. */
  datatype Upload = Upload(filename: string, md5: string)

  /** Why a request failed. */
  datatype Cause = MissingOriginal | FileRequired | AnalysisFailed

  datatype Response = Ok(card: StoredCard) | HttpError(status: nat, cause: Cause)

  /** The status each failure is raised with before the catch-all sees it. */
  function RaisedStatus(c: Cause): nat {
    match c
    case MissingOriginal => 404
    case FileRequired => 400
    case AnalysisFailed => 500
  }

  /** The catch-all `except Exception` turns every failure, HTTPException included, into a 500. */
  function CaughtAll(c: Cause): (r: Response)
    ensures r.HttpError? && r.status == 500 && r.cause == c
  {
    HttpError(500, c)
  }

  /** The 400 and 404 the handler raises reach the client as 500. */
  lemma RaisedStatusLost(c: Cause)
    ensures RaisedStatus(c) != 500 <==> c == MissingOriginal || c == FileRequired
    ensures CaughtAll(c).status == 500
  {
  }

  function OrZero(s: Option<string>): string {
    match s
    case Some(v) => v
    case None => "0"
  }

  /** The `new_card` dictionary both branches build. */
  function CardOf(md5: string, filename: string, a: Analysis): StoredCard {
    StoredCard(md5, filename, "/uploads/" + filename, a.rarity, a.name, a.description, OrZero(a.atk), OrZero(a.def))
  }

  /** Python `str.rfind` for one character. */
  function LastIndexOf(s: string, c: char): (r: Option<nat>)
    ensures r.Some? ==> r.value < |s| && s[r.value] == c && forall j :: r.value < j < |s| ==> s[j] != c
    ensures r.None? ==> forall j :: 0 <= j < |s| ==> s[j] != c
    decreases |s|
  {
    if s == [] then None
    else if s[|s| - 1] == c then Some(|s| - 1)
    else LastIndexOf(s[..|s| - 1], c)
  }

  /** The last occurrence is the one with none after it. */
  lemma LastIndexAt(s: string, c: char, k: nat)
    requires k < |s| && s[k] == c && forall j :: k < j < |s| ==> s[j] != c
    ensures LastIndexOf(s, c) == Some(k)
  {
  }

  /**
   * `os.path.splitext(p)[1]` on POSIX: from the last dot of the last path
   * component to the end, unless that component is only dots before it
   * (".bashrc" has no extension).
   */
  function Extension(p: string): (ext: string)
    ensures ext == "" || (ext[0] == '.' && EndsWith(p, ext))
    ensures forall j :: 0 < j < |ext| ==> ext[j] != '.' && ext[j] != '/'
  {
    var start := match LastIndexOf(p, '/') case None => 0 case Some(k) => k + 1;
    match LastIndexOf(p, '.')
    case None => ""
    case Some(d) =>
      if start <= d && exists j :: start <= j < d && p[j] != '.' then
        assert p[d..] == p[|p| - |p[d..]|..];
        p[d..]
      else ""
  }

  /** A plain name: the last dot starts the extension. */
  lemma ExtensionOfPhoto(a: string)
    requires a == "photo.png"
    ensures Extension(a) == ".png"
  {
    assert forall j :: 0 <= j < |a| ==> a[j] != '/';
    LastIndexAt(a, '.', 5);
    assert a[0] != '.';
    assert a[5..] == ".png";
  }

  /** Only the last suffix counts. */
  lemma ExtensionOfArchive(b: string)
    requires b == "archive.tar.gz"
    ensures Extension(b) == ".gz"
  {
    assert forall j :: 0 <= j < |b| ==> b[j] != '/';
    LastIndexAt(b, '.', 11);
    assert b[0] != '.';
    assert b[11..] == ".gz";
  }

  /** A name that is only a leading dot and a stem has no extension. */
  lemma DotFileHasNoExtension(a: string)
    requires a == ".bashrc"
    ensures Extension(a) == ""
  {
    assert forall j :: 0 <= j < |a| ==> a[j] != '/';
    LastIndexAt(a, '.', 0);
  }

  /** A name without a dot has no extension. */
  lemma DotlessHasNoExtension(a: string)
    requires a == "README"
    ensures Extension(a) == ""
  {
    assert forall j :: 0 <= j < |a| ==> a[j] != '.';
  }

  /** A dot in a directory name is not an extension. */
  lemma DirectoryDotIsNoExtension(c: string)
    requires c == "v1.2/scan"
    ensures Extension(c) == ""
  {
    LastIndexAt(c, '/', 4);
    LastIndexAt(c, '.', 2);
  }

  /** `final_filename`: the md5, then the upload's extension or ".jpg". */
  function StoredFilename(md5: string, uploadName: string): (f: string)
    ensures |f| > |md5| && f[..|md5|] == md5 && f[|md5|] == '.'
    ensures EndsWith(uploadName, f[|md5|..]) || f[|md5|..] == ".jpg"
  {
    var ext := Extension(uploadName);
    var f := md5 + (if ext == "" then ".jpg" else ext);
    assert f[|md5|..] == (if ext == "" then ".jpg" else ext);
    f
  }

  /** The regenerate branch is taken only for a non-empty stored md5 with the flag set. */
  predicate RegeneratePath(existingMd5: Option<string>, regenerate: bool, cards: map<string, StoredCard>) {
    existingMd5.Some? && existingMd5.value != "" && existingMd5.value in cards && regenerate
  }

  /** `get_cards`: the stored cards whose file is still there, in store order. */
  function ExistingCards(keys: seq<string>, cards: map<string, StoredCard>, uploads: set<string>): (r: seq<StoredCard>)
    requires forall k :: k in keys ==> k in cards
    ensures |r| <= |keys|
    decreases |keys|
  {
    if keys == [] then []
    else
      var last := cards[keys[|keys| - 1]];
      ExistingCards(keys[..|keys| - 1], cards, uploads) + (if last.filename in uploads then [last] else [])
  }

  /** Exactly the cards of listed keys whose file exists are returned. */
  lemma {:induction false} ExistingCardsMembers(keys: seq<string>, cards: map<string, StoredCard>, uploads: set<string>)
    requires forall k :: k in keys ==> k in cards
    ensures forall c :: c in ExistingCards(keys, cards, uploads) <==>
      exists i :: 0 <= i < |keys| && c == cards[keys[i]] && c.filename in uploads
    decreases |keys|
  {
    if keys != [] {
      var n := |keys| - 1;
      var front := keys[..n];
      ExistingCardsMembers(front, cards, uploads);
      forall c
        ensures c in ExistingCards(keys, cards, uploads) <==>
          exists i :: 0 <= i < |keys| && c == cards[keys[i]] && c.filename in uploads
      {
        if c in ExistingCards(keys, cards, uploads) {
          if c in ExistingCards(front, cards, uploads) {
            var i :| 0 <= i < n && c == cards[front[i]] && c.filename in uploads;
            assert keys[i] == front[i];
          } else {
            assert c == cards[keys[n]];
          }
        }
        if exists i :: 0 <= i < |keys| && c == cards[keys[i]] && c.filename in uploads {
          var i :| 0 <= i < |keys| && c == cards[keys[i]] && c.filename in uploads;
          if i < n {
            assert front[i] == keys[i];
          }
        }
      }
    }
  }

  /** The file name filter of `list_card_backs`, on the lower-cased name. */
  predicate IsImageName(f: string) {
    var l := Lower(f);
    EndsWith(l, ".png") || EndsWith(l, ".jpg") || EndsWith(l, ".jpeg") || EndsWith(l, ".webp") || EndsWith(l, ".svg")
  }

  /** The extension test ignores case. */
  lemma UpperCaseImageName(a: string)
    requires a == "Back.PNG"
    ensures IsImageName(a)
  {
    assert Lower(a)[4..] == ".png";
  }

  /** Every listed suffix is an image, ".jpeg" included. */
  lemma JpegAndSvgAreImageNames(a: string, b: string)
    requires a == "dragon.jpeg" && b == "x.svg"
    ensures IsImageName(a) && IsImageName(b)
  {
    assert Lower(a)[6..] == ".jpeg";
    assert Lower(b)[1..] == ".svg";
  }

  /** Another suffix is not an image. */
  lemma TextIsNoImageName(a: string)
    requires a == "notes.txt"
    ensures !IsImageName(a)
  {
    assert Lower(a)[5..] == ".txt";
  }

  /** The suffix needs its dot: a bare "png" is not an image name. */
  lemma BareSuffixIsNoImageName(a: string)
    requires a == "png"
    ensures !IsImageName(a)
  {
  }

  const BacksPrefix: string := "/static/card_backs/"

  /** The urls `list_card_backs` returns for a directory listing, in listing order. */
  function BackUrls(names: seq<string>): (r: seq<string>)
    ensures |r| <= |names|
    decreases |names|
  {
    if names == [] then []
    else BackUrls(names[..|names| - 1]) + (if IsImageName(names[|names| - 1]) then [BacksPrefix + names[|names| - 1]] else [])
  }

  /** A url is listed exactly when it is the prefixed name of an image file of the directory. */
  lemma {:induction false} BackUrlsMembers(names: seq<string>)
    ensures forall u :: u in BackUrls(names) <==>
      exists i :: 0 <= i < |names| && IsImageName(names[i]) && u == BacksPrefix + names[i]
    decreases |names|
  {
    if names != [] {
      var n := |names| - 1;
      var front := names[..n];
      BackUrlsMembers(front);
      forall u
        ensures u in BackUrls(names) <==>
          exists i :: 0 <= i < |names| && IsImageName(names[i]) && u == BacksPrefix + names[i]
      {
        if u in BackUrls(names) {
          if u in BackUrls(front) {
            var i :| 0 <= i < n && IsImageName(front[i]) && u == BacksPrefix + front[i];
            assert names[i] == front[i];
          } else {
            assert u == BacksPrefix + names[n];
          }
        }
        if exists i :: 0 <= i < |names| && IsImageName(names[i]) && u == BacksPrefix + names[i] {
          var i :| 0 <= i < |names| && IsImageName(names[i]) && u == BacksPrefix + names[i];
          if i < n {
            assert front[i] == names[i];
          }
        }
      }
    }
  }

  /** `list_card_backs`: each listed image name, prefixed, in listing order; no directory, no urls. */
  method ListCardBacks(dirExists: bool, names: seq<string>) returns (files: seq<string>)
    ensures files == if dirExists then BackUrls(names) else []
  {
    files := [];
    if !dirExists {
      return;
    }
    var i := 0;
    while i < |names|
      invariant 0 <= i <= |names|
      invariant files == BackUrls(names[..i])
    {
      assert names[..i + 1][..i] == names[..i];
      if IsImageName(names[i]) {
        files := files + [BacksPrefix + names[i]];
      }
      i := i + 1;
    }
    assert names[..i] == names;
  }

  /** `cards.json` with the uploads directory beside it. */
  class CardStore {
    /** The dictionary's key order: insertion order, a reassigned key keeps its place. */
    var order: seq<string>
    var cards: map<string, StoredCard>
    var uploads: set<string>

    ghost predicate Valid()
      reads this
    {
      && (forall i, j :: 0 <= i < j < |order| ==> order[i] != order[j])
      && (forall k :: k in cards <==> k in order)
    }

    constructor ()
      ensures Valid() && order == [] && cards == map[] && uploads == {}
    {
      order := [];
      cards := map[];
      uploads := {};
    }

    /** `cards[key] = card`: a new key goes last, an existing one keeps its place. */
    method Put(key: string, card: StoredCard)
      requires Valid()
      modifies this`order, this`cards
      ensures Valid()
      ensures cards == old(cards)[key := card]
      ensures order == if key in old(cards) then old(order) else old(order) + [key]
    {
      if key !in cards {
        order := order + [key];
      }
      cards := cards[key := card];
    }

    /** `get_cards`: walks the keys in order and keeps the cards whose file exists. */
    method GetCards() returns (valid: seq<StoredCard>)
      requires Valid()
      ensures valid == ExistingCards(order, cards, uploads)
    {
      valid := [];
      var i := 0;
      while i < |order|
        invariant 0 <= i <= |order|
        invariant valid == ExistingCards(order[..i], cards, uploads)
      {
        assert order[..i + 1][..i] == order[..i];
        var card := cards[order[i]];
        if card.filename in uploads {
          valid := valid + [card];
        }
        i := i + 1;
      }
      assert order[..i] == order;
    }

    /**
     * `generate_card`. The regenerate branch re-analyses the stored image and
     * rewrites the entry in place; otherwise an upload is required, a stored
     * md5 is answered from the store unless `regenerate` is set, and a new
     * image is filed under its md5 and analysed. Every failure is a 500.
     */
    method GenerateCard(file: Option<Upload>, regenerate: bool, existingMd5: Option<string>, analysis: Option<Analysis>)
      returns (resp: Response)
      requires Valid()
      modifies this
      ensures Valid()
      ensures resp.HttpError? ==> resp.status == 500
      ensures RegeneratePath(existingMd5, regenerate, old(cards)) ==>
        var m := existingMd5.value;
        var stored := old(cards)[m];
        && uploads == old(uploads) && order == old(order)
        && (stored.filename !in old(uploads) ==> resp == CaughtAll(MissingOriginal) && cards == old(cards))
        && (stored.filename in old(uploads) && analysis.None? ==> resp == CaughtAll(AnalysisFailed) && cards == old(cards))
        && (stored.filename in old(uploads) && analysis.Some? ==>
              resp == Ok(CardOf(m, stored.filename, analysis.value)) && cards == old(cards)[m := resp.card])
      ensures !RegeneratePath(existingMd5, regenerate, old(cards)) && file.None? ==>
        resp == CaughtAll(FileRequired) && cards == old(cards) && order == old(order) && uploads == old(uploads)
      ensures !RegeneratePath(existingMd5, regenerate, old(cards)) && file.Some? && file.value.md5 in old(cards) && !regenerate ==>
        resp == Ok(old(cards)[file.value.md5]) && cards == old(cards) && order == old(order) && uploads == old(uploads)
      ensures !RegeneratePath(existingMd5, regenerate, old(cards)) && file.Some? && (file.value.md5 !in old(cards) || regenerate) ==>
        var md5 := file.value.md5;
        var name := StoredFilename(md5, file.value.filename);
        && uploads == old(uploads) + {name}
        && (analysis.None? ==> resp == CaughtAll(AnalysisFailed) && cards == old(cards) && order == old(order))
        && (analysis.Some? ==>
              && resp == Ok(CardOf(md5, name, analysis.value)) && cards == old(cards)[md5 := resp.card]
              && order == if md5 in old(cards) then old(order) else old(order) + [md5])
    {
      if existingMd5.Some? && existingMd5.value != "" && existingMd5.value in cards && regenerate {
        var m := existingMd5.value;
        var stored := cards[m];
        if stored.filename !in uploads {
          return CaughtAll(MissingOriginal);
        }
        if analysis.None? {
          return CaughtAll(AnalysisFailed);
        }
        var card := CardOf(m, stored.filename, analysis.value);
        Put(m, card);
        return Ok(card);
      }
      if file.None? {
        return CaughtAll(FileRequired);
      }
      var md5 := file.value.md5;
      if md5 in cards && !regenerate {
        return Ok(cards[md5]);
      }
      var finalName := StoredFilename(md5, file.value.filename);
      uploads := uploads + {finalName};
      if analysis.None? {
        return CaughtAll(AnalysisFailed);
      }
      var card := CardOf(md5, finalName, analysis.value);
      Put(md5, card);
      resp := Ok(card);
    }
  }

  /** Every card the store holds after a successful generation is filed under its own md5 field. */
  lemma StoredUnderOwnMd5(md5: string, filename: string, a: Analysis)
    ensures CardOf(md5, filename, a).md5 == md5
    ensures CardOf(md5, filename, a).imageUrl == "/uploads/" + filename
  {
  }
}
