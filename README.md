# PaiCard card generator, modelled in Dafny

PaiCard turns pictures into trading cards. An image goes to a vision-language
model. The model names the card and gives it a rarity (N, R, SR, SSR, UR), a
description and attack and defence numbers. Two front ends share this idea:

- an Android app (Kotlin). It has a process-wide card cache keyed by the
  image's MD5, a pack store, a background generation worker, and the
  single, batch, pack and six-card "God's Draw" screens. Every screen adds
  its new cards to one library history;
- a Python web back end (`app.py`, `vlm.py`) with two JavaScript pages. The
  card page has a draggable 3D card; the packs page polls while a pack is
  being processed.

The model keeps the bookkeeping around the model call: what is cached, queued,
stored, listed, shown and flipped, and how model replies and URLs are cleaned.
The network, image decoding, hashing, files and the clock are parameters of the
operations that use them.

Each core source file is one module:

- `CardCache` (CardRepository.kt): class `CardRepository` (cache map, loaded flag, the cache file) plus pure hex formatting of the digest.
- `PackStore` (PackRepository.kt): class `Pack` with an assignable status, class `PackRepository` over a `seq<Pack>`.
- `GenerationWorker` (CardGenerationService.kt): class `GenerationService`: FIFO queue, `isRunning`, broadcasts; the job is one atomic step.
- `Vlm` (VLMService.kt): pure functions: endpoint URL, fence stripping, JSON defaults, resize rule.
- `VlmPy` (vlm.py): pure clean-up functions, the prompt merge as a loop method, the answer assembly.
- `Library` (LibraryActivity.kt): class `LibraryScreen` (sort in place by a stable insertion sort), rarity rank, the sample-size loop.
- `SingleDraw` (SingleDrawActivity.kt): class `HistoryStore` (the shared library history), class `SingleDrawScreen`.
- `BatchDraw` (BatchDrawActivity.kt): class `BatchDrawScreen` over a `seq` of items; hashing and queueing loops.
- `PackOpening` (PackOpeningActivity.kt): class `PackOpeningScreen`, class `Holder`; the saving loop.
- `GodsDraw` (GodsDrawActivity.kt): class `GodsDrawScreen` over six slots; vibration tables.
- `WebApi` (app.py): class `CardStore` (the `cards.json` dictionary with its key order, the uploads directory).
- `CardPage` (static/js/script.js): class `CardPage` (chosen file, shown card, drag state); snap angle functions.
- `PacksPage` (static/js/packs.js): class `PacksPage` (poll timer, tiles, upload button).

`Strings` holds the library string operations the source relies on (Kotlin
`trim`, Python `strip`, `contains`/`in`, upper and lower case, decimal
rendering). `Rarity` holds the UR, SSR, SR, R chain that the Android screens
repeat. `Search` holds the front-to-back search that `find` and `indexOfFirst`
perform. `Wrappers` holds `Option`.

Notable behaviour the proofs make explicit:

- the Python rarity clean-up tries SSR before UR, while the Kotlin chains test
  UR first. So "SSR or UR" is SSR on the web and UR on Android
  (`Library.RarityOrderDiffersFromWebBackEnd`);
- the single draw checks the API key before the cache, but God's Draw
  reveals a cached card without a key (`GodsDraw.KeyOrderDiffersFromSingleDraw`);
- `generate_card` raises 404 and 400, but its own catch-all turns every
  failure into 500 (`WebApi.RaisedStatusLost`);
- in a batch, a second image with the same md5 as an earlier one is never
  completed. The completion receiver only updates the first match
  (`BatchDraw.DuplicateStaysAnalyzing`);
- a versioned OpenAI URL escapes the endpoint override and gets `v1` twice
  (`Vlm.RequestUrlVersionedOpenAi`);
- on the card page, the bare `mouseup` that `mouseleave` sends has no
  position, so the angle is NaN and the card always snaps to its front
  (`CardPage.CardPage.MouseLeave`);
- on the packs page, choosing files again re-enables the upload button during
  an upload. Two uploads can then overlap, and a success followed by a failure
  leaves the button enabled with no file chosen
  (`PacksPage.OverlappingUploadsEnableEmptyButton`);
- on the card page, a request disables Generate, but choosing a file
  enables it again, so a second generation can start before the first ends
  (`CardPage.FileChosenMidRequestOverlaps`).

Angles on the card page are counted in half degrees. One pixel of drag is then
one unit, so every angle is an integer.

## Model

| member | source | states |
|---|---|---|
| `CardCache.ByteHex` | Android/app/src/main/java/com/cardgen/app/CardRepository.kt:72 | `"%02x"` of a signed byte is two lower-case hex digits whose value is the byte read unsigned |
| `CardCache.DigestHex` | Android/app/src/main/java/com/cardgen/app/CardRepository.kt:72-79 | the joined hex string has two lower-case hex digits per digest byte |
| `CardCache.ByteHexRoundTrip` | Android/app/src/main/java/com/cardgen/app/CardRepository.kt:72 | the two hex digits of a byte read back as that byte |
| `CardCache.DigestHexRoundTrip` | Android/app/src/main/java/com/cardgen/app/CardRepository.kt:72-79 | parsing the hex string gives back the digest, so the formatting loses nothing |
| `CardCache.DigestHexInjective` | Android/app/src/main/java/com/cardgen/app/CardRepository.kt:72-79 | distinct digests give distinct hex strings |
| `CardCache.Md5OfBytes` | Android/app/src/main/java/com/cardgen/app/CardRepository.kt:76-80 | the byte-array overload returns 32 lower-case hex digits |
| `CardCache.Md5OfBytesParses` | Android/app/src/main/java/com/cardgen/app/CardRepository.kt:76-80 | that string parses back to the MD5 digest of the bytes |
| `CardCache.Md5OfBitmap` | Android/app/src/main/java/com/cardgen/app/CardRepository.kt:66-73 | the bitmap overload returns 32 lower-case hex digits |
| `CardCache.Md5OfBitmapParses` | Android/app/src/main/java/com/cardgen/app/CardRepository.kt:66-73 | that string parses back to the digest of the bitmap's quality-80 JPEG |
| `CardCache.Md5SameDigestSameHex` | Android/app/src/main/java/com/cardgen/app/CardRepository.kt:66-80 | both overloads format alike: their hashes are equal exactly when the digests are equal |
| `CardCache.AfterInit` | Android/app/src/main/java/com/cardgen/app/CardRepository.kt:20-41 | a loaded repository keeps its cache, and so does a missing, unreadable or null file |
| `CardCache.CardRepository.constructor` | Android/app/src/main/java/com/cardgen/app/CardRepository.kt:16-18 | the cache starts empty and not loaded |
| `CardCache.CardRepository.Init` | Android/app/src/main/java/com/cardgen/app/CardRepository.kt:20-25 | the first call loads a parsed map from the file; a second call, or a bad file, leaves the cache as it was; afterwards the repository is loaded |
| `CardCache.CardRepository.LoadCache` | Android/app/src/main/java/com/cardgen/app/CardRepository.kt:27-41 | a file that parses to a map replaces the cache; any other file leaves it unchanged |
| `CardCache.CardRepository.GetCard` | Android/app/src/main/java/com/cardgen/app/CardRepository.kt:57-59 | a returned card is the cache entry of that md5 |
| `CardCache.CardRepository.SaveCard` | Android/app/src/main/java/com/cardgen/app/CardRepository.kt:61-64 | afterwards `getCard(md5)` is the new card, every other key reads as before, and a successful write puts the whole map in the file |
| `CardCache.HasCardIffGetCard` | Android/app/src/main/java/com/cardgen/app/CardRepository.kt:53-59 | `hasCard(m)` holds exactly when `getCard(m)` yields a card |
| `CardCache.SaveThenReload` | Android/app/src/main/java/com/cardgen/app/CardRepository.kt:20-64 | a new repository initialised over the file a successful save wrote sees the same cards, the saved one included |
| `PackStore.Pack.constructor` | Android/app/src/main/java/com/cardgen/app/PackRepository.kt:28-33 | a new pack is PROCESSING with the given id, time and items |
| `PackStore.RecordsOf` | Android/app/src/main/java/com/cardgen/app/PackRepository.kt:19-33 | the values of a list of packs, one per pack, in order |
| `Search.FirstWhere` | Android/app/src/main/java/com/cardgen/app/PackRepository.kt:80 | `find` (and `indexOfFirst` in the batch draw) stops at the first element passing the test; none means no element passes |
| `PackStore.SameIdsSameFirst` | Android/app/src/main/java/com/cardgen/app/PackRepository.kt:80 | a status change never changes which pack an id finds |
| `PackStore.WithStatusUnknownId` | Android/app/src/main/java/com/cardgen/app/PackRepository.kt:83-89 | `updatePackStatus` with an unknown id changes nothing |
| `PackStore.WithStatus` | Android/app/src/main/java/com/cardgen/app/PackRepository.kt:83-89 | `updatePackStatus` changes statuses only, and each pack keeps its value or takes the new status |
| `PackStore.WithStatusKnownId` | Android/app/src/main/java/com/cardgen/app/PackRepository.kt:83-89 | with a known id exactly the first such pack gets the status, with no transition guard; ids, items and other packs are kept |
| `PackStore.ReadiedKeepsOpened` | Android/app/src/main/java/com/cardgen/app/PackRepository.kt:92-101 | `checkPackReadiness` never touches an OPENED pack |
| `PackStore.Readied` | Android/app/src/main/java/com/cardgen/app/PackRepository.kt:92-101 | `checkPackReadiness` changes statuses only, and only a PROCESSING pack whose items are all cached changes, to READY |
| `PackStore.ReadiedIffAllCached` | Android/app/src/main/java/com/cardgen/app/PackRepository.kt:96-100 | an unopened pack becomes READY exactly when every item's md5 is cached; otherwise nothing changes |
| `PackStore.EmptyPackReady` | Android/app/src/main/java/com/cardgen/app/PackRepository.kt:96-98 | a processing pack without items is READY after its first check |
| `PackStore.ReadiedIdempotent` | Android/app/src/main/java/com/cardgen/app/PackRepository.kt:92-101 | a second readiness check with the same cache changes nothing |
| `PackStore.PackRepository.constructor` | Android/app/src/main/java/com/cardgen/app/PackRepository.kt:15-17 | no packs, not loaded |
| `PackStore.PackRepository.Init` | Android/app/src/main/java/com/cardgen/app/PackRepository.kt:35-56 | the first call with a parsed file makes the list the file's packs; a later call or a bad file keeps the list |
| `PackStore.PackRepository.CreatePack` | Android/app/src/main/java/com/cardgen/app/PackRepository.kt:68-73 | the new PROCESSING pack is at index 0 and every older pack follows unchanged |
| `PackStore.PackRepository.IndexOf` | Android/app/src/main/java/com/cardgen/app/PackRepository.kt:80 | the scan returns the position of the first pack with the id |
| `PackStore.PackRepository.GetPack` | Android/app/src/main/java/com/cardgen/app/PackRepository.kt:79-81 | the first pack with the id, or none when no pack has it |
| `PackStore.PackRepository.UpdatePackStatus` | Android/app/src/main/java/com/cardgen/app/PackRepository.kt:83-89 | the list's values afterwards are the old ones with the first matching pack's status assigned |
| `PackStore.PackRepository.CheckPackReadiness` | Android/app/src/main/java/com/cardgen/app/PackRepository.kt:92-101 | the pack is promoted to READY as the readiness rule says, over the keys of the card cache |
| `PackStore.PackRepository.SetStatusAt` | Android/app/src/main/java/com/cardgen/app/PackRepository.kt:86 | assigning one pack object's status changes only that pack's value |
| `Search.FirstWhereAt` | Android/app/src/main/java/com/cardgen/app/BatchDrawActivity.kt:87-88 | an element that passes with no earlier one passing is the one found |
| `PackStore.Deserialize` | Android/app/src/main/java/com/cardgen/app/PackRepository.kt:42-56 | the loaded list holds one new, distinct object per stored pack, with the stored values |
| `GenerationWorker.TaskOf` | Android/app/src/main/java/com/cardgen/app/CardGenerationService.kt:56-67 | a task exists exactly for PROCESS_IMAGE with a uri and an md5; a missing request id becomes "0" |
| `GenerationWorker.RunTask` | Android/app/src/main/java/com/cardgen/app/CardGenerationService.kt:78-118 | one completion with the job's md5 and request id; the cache gains at most the job's md5; a card answer is what the cache then holds; the model is called only after the image loaded |
| `GenerationWorker.CacheHitDoesNoWork` | Android/app/src/main/java/com/cardgen/app/CardGenerationService.kt:81-83 | a hit loads no image, calls no model, keeps the cache and answers with the cached card |
| `GenerationWorker.MissCachesGeneratedCard` | Android/app/src/main/java/com/cardgen/app/CardGenerationService.kt:85-98 | a miss with a decodable image and a key caches exactly the model's card and answers with it |
| `GenerationWorker.MissWithoutImageOrKeyFails` | Android/app/src/main/java/com/cardgen/app/CardGenerationService.kt:93-118 | a missing key or an undecodable image gives an error broadcast, no model call and an unchanged cache |
| `GenerationWorker.CacheGrowsOnlyOnSuccess` | Android/app/src/main/java/com/cardgen/app/CardGenerationService.kt:81-101 | the cache changes only on a successful fresh generation |
| `GenerationWorker.DrainIsFifo` | Android/app/src/main/java/com/cardgen/app/CardGenerationService.kt:73-127 | a drained queue answers one completion per task, in queue order, each with its task's md5 and request id |
| `GenerationWorker.Drain` | Android/app/src/main/java/com/cardgen/app/CardGenerationService.kt:73-127 | working through a queue gives one completion per task; the cache keeps every key and gains only md5s the queue asked for |
| `GenerationWorker.DrainKeepsCache` | Android/app/src/main/java/com/cardgen/app/CardGenerationService.kt:81-98 | no cached card is ever lost or overwritten while a queue drains |
| `GenerationWorker.DrainDisk` | Android/app/src/main/java/com/cardgen/app/CardGenerationService.kt:97-98 | the cache file after a drain is untouched when no write succeeds, and otherwise untouched or a stored map |
| `GenerationWorker.GenerationService.constructor` | Android/app/src/main/java/com/cardgen/app/CardGenerationService.kt:38-42 | empty queue, not running, nothing broadcast |
| `GenerationWorker.GenerationService.OnCreate` | Android/app/src/main/java/com/cardgen/app/CardGenerationService.kt:50-54 | `onCreate` loads the card cache: afterwards it is loaded, holding the file's map on a first load |
| `GenerationWorker.GenerationService.OnStartCommand` | Android/app/src/main/java/com/cardgen/app/CardGenerationService.kt:56-69 | a well-formed intent appends its task; a task is running afterwards exactly when one was or the queue is non-empty |
| `GenerationWorker.GenerationService.ProcessNext` | Android/app/src/main/java/com/cardgen/app/CardGenerationService.kt:71-75 | nothing happens while running or with an empty queue; otherwise the head is started and stays queued |
| `GenerationWorker.GenerationService.RunHead` | Android/app/src/main/java/com/cardgen/app/CardGenerationService.kt:78-127 | the head's run sets the cache and appends exactly its completion; a fresh card whose write succeeds leaves the file holding the whole cache, and otherwise the file is untouched; the head is removed; the next task starts exactly when the queue is non-empty |
| `GenerationWorker.GenerationService.RunUntilIdle` | Android/app/src/main/java/com/cardgen/app/CardGenerationService.kt:78-127 | running the started chain until the queue is empty broadcasts and caches exactly what `Drain` gives, and leaves the file as `DrainDisk` gives |
| `GenerationWorker.DrainDiskInSync` | Android/app/src/main/java/com/cardgen/app/CardGenerationService.kt:97-98 | with every write succeeding, the file after a drain is untouched with the cache unchanged, or holds exactly the final cache |
| `Vlm.RequestUrlEndsWithPath` | Android/app/src/main/java/com/cardgen/app/VLMService.kt:82-90 | the request URL always ends with "/v1/chat/completions" |
| `Vlm.RequestUrl` | Android/app/src/main/java/com/cardgen/app/VLMService.kt:81-89 | the fixed OpenAI endpoint when the override applies; otherwise the configured URL, extended |
| `Vlm.JoinedUrl` | Android/app/src/main/java/com/cardgen/app/VLMService.kt:81-84 | keeps the configured URL as a prefix, and leaves it unchanged exactly when it already ends with the path |
| `Vlm.OpenAiOverride` | Android/app/src/main/java/com/cardgen/app/VLMService.kt:86-89 | the override never fires on a URL that already ends with the completions path |
| `Vlm.EndpointHasVersion` | Android/app/src/main/java/com/cardgen/app/VLMService.kt:82-87 | a URL ending with the completions path contains "v1", which is what keeps it out of the override |
| `Vlm.RequestUrlKeepsFullEndpoint` | Android/app/src/main/java/com/cardgen/app/VLMService.kt:83-88 | a URL already naming the endpoint is used unchanged |
| `Vlm.JoinedUrlSlashed` | Android/app/src/main/java/com/cardgen/app/VLMService.kt:84 | after a trailing slash the path is appended without a second slash |
| `Vlm.OverrideIgnoresSlash` | Android/app/src/main/java/com/cardgen/app/VLMService.kt:88 | a trailing slash does not change whether the OpenAI override applies |
| `Vlm.RequestUrlTrailingSlash` | Android/app/src/main/java/com/cardgen/app/VLMService.kt:82-90 | "base/" and "base" give the same URL, base + "/v1/chat/completions" |
| `Vlm.RequestUrlOpenAiOverride` | Android/app/src/main/java/com/cardgen/app/VLMService.kt:88-90 | a URL containing "api.openai.com" but not "v1" becomes the fixed OpenAI endpoint |
| `Vlm.RequestUrlVersionedOpenAi` | Android/app/src/main/java/com/cardgen/app/VLMService.kt:83-90 | "https://api.openai.com/v1" escapes the override and gets "/v1/v1/chat/completions" |
| `Vlm.Unfence` | Android/app/src/main/java/com/cardgen/app/VLMService.kt:115-123 | removing the fences adds no character |
| `Vlm.DropClosingFence` | Android/app/src/main/java/com/cardgen/app/VLMService.kt:118-123 | after the opening fence, the further-fence and closing-fence steps leave exactly the fenced text |
| `Vlm.UnfenceFenced` | Android/app/src/main/java/com/cardgen/app/VLMService.kt:118-123 | fence removal on "```json" + X + "```" leaves exactly X when X does not open a fence |
| `Vlm.StripFencesFenced` | Android/app/src/main/java/com/cardgen/app/VLMService.kt:114-125 | any reply whose trimmed text is "```json" + X + "```", with X not opening a fence, cleans to X trimmed |
| `Vlm.StripFencesUnfenced` | Android/app/src/main/java/com/cardgen/app/VLMService.kt:114-125 | a reply without fences is only trimmed |
| `Vlm.StripFences` | Android/app/src/main/java/com/cardgen/app/VLMService.kt:114-130 | the fence clean-up never lengthens the reply and adds no character |
| `Vlm.CardFromJsonDefaults` | Android/app/src/main/java/com/cardgen/app/VLMService.kt:127-133 | each key on its own: missing rarity, name, description, atk, def give "N", "Unknown", "No Data", "0", "0"; a present value is copied without cleaning |
| `Vlm.CardFromJson` | Android/app/src/main/java/com/cardgen/app/VLMService.kt:127-133 | an object with all five keys is copied as it is; one with none of them gives the default card |
| `Vlm.CardFromJsonIgnoresOtherKeys` | Android/app/src/main/java/com/cardgen/app/VLMService.kt:127-133 | keys other than the five never change the card |
| `Vlm.ResizedSize` | Android/app/src/main/java/com/cardgen/app/VLMService.kt:141-156 | an image that fits is kept; otherwise the longer side (height on a tie) becomes exactly the maximum and the other side stays within it |
| `Vlm.ScaledSideBound` | Android/app/src/main/java/com/cardgen/app/VLMService.kt:147-153 | the scaled short side never exceeds the maximum |
| `VlmPy.FirstFound` | vlm.py:117-121 | the loop answers the candidate at the least index that occurs in the text, and "N" exactly when none occurs |
| `VlmPy.CleanRarity` | vlm.py:115-121 | on the upper-cased, stripped text: SSR exactly when "SSR" occurs, else UR exactly when "UR" occurs, else SR, else R, and N exactly when none of them occurs |
| `VlmPy.CleanRarityLowerSsr` | vlm.py:116-120 | "ssr" is SSR, not the SR it also contains |
| `VlmPy.CleanRaritySsrWins` | vlm.py:117-120 | SSR anywhere in the cleaned text wins |
| `VlmPy.CleanRaritySsrBeforeUr` | vlm.py:117 | "SSR or UR" is SSR |
| `VlmPy.FirstFoundHits` | vlm.py:118-120 | a candidate other than N that occurs keeps the answer off N |
| `VlmPy.CleanRarityNIffNoR` | vlm.py:115-121 | the answer is N exactly when the cleaned text has no "R" |
| `VlmPy.CleanRarityRIsNotN` | vlm.py:115-121 | a cleaned text containing "R" never falls back to N |
| `VlmPy.Digits` | vlm.py:112 | the kept characters are all digits and no more than the input's |
| `VlmPy.DigitsAppend` | vlm.py:112 | the digit filter distributes over concatenation, so exactly the digits survive, in order |
| `VlmPy.DigitsOfDigits` | vlm.py:112 | a string of digits filters to itself |
| `VlmPy.CleanNumber` | vlm.py:110-113 | `_clean_number` is the text's digits, or "0" when it has none; never empty |
| `VlmPy.CleanNumberIdempotent` | vlm.py:110-113 | cleaning a cleaned number changes nothing |
| `VlmPy.CleanNumberDropsNoise` | vlm.py:110-113 | a number with digit-free text on either side cleans to the number |
| `VlmPy.MergePrompts` | vlm.py:35-39 | the merged keys are the defaults' keys and the non-blank custom ones; a non-blank custom prompt wins, every other key keeps its default |
| `VlmPy.Fallback` | vlm.py:50-54 | an empty answer is replaced by the default, any other is kept |
| `VlmPy.AssembleCard` | vlm.py:50-62 | the returned dict has a valid rarity, non-empty digit-only atk and def, and a name and description without surrounding whitespace |
| `VlmPy.CleanRarityOfN` | vlm.py:50-57 | the rarity fallback "N" cleans to N |
| `VlmPy.CleanNumberOfZero` | vlm.py:53-61 | the number fallback "0" cleans to "0" |
| `VlmPy.EmptyRarityIsN` | vlm.py:50-57 | an empty rarity answer gives N |
| `VlmPy.StrippedDefault` | vlm.py:51-59 | an empty answer strips to its default unchanged |
| `VlmPy.EmptyNameIsUnknown` | vlm.py:51-58 | an empty name gives "Unknown Entity" |
| `VlmPy.EmptyDescriptionIsNoEffect` | vlm.py:52-59 | an empty description gives "No effect." |
| `VlmPy.EmptyStatsAreZero` | vlm.py:53-61 | an empty atk or def answer gives "0" |
| `VlmPy.BlankNameBecomesEmpty` | vlm.py:51-58 | a name of spaces escapes the fallback and is stripped to nothing |
| `VlmPy.AnalyzeImage` | vlm.py:27-65 | real answers are returned exactly when the stub is off, the single-call mode is off and no model call raised, and they are the assembled answers |
| `VlmPy.StubStat` | vlm.py:150-151 | stub atk and def are decimal strings of multiples of 10 within 0..5000 |
| `VlmPy.TrimAgrees` | vlm.py:58-59 | Python `strip` and Kotlin `trim` agree on text without NEL |
| `VlmPy.FencesAgreeWithKotlin` | vlm.py:87-94 | the Python fence clean-up gives the Kotlin result on a reply without NEL |
| `Strings.Trim` | Android/app/src/main/java/com/cardgen/app/VLMService.kt:114 | the trimmed text neither starts nor ends with whitespace of the language's definition |
| `Strings.TrimStart` | vlm.py:88 | the result is a suffix of the input, the dropped part is whitespace and the result does not start with whitespace |
| `Strings.TrimEnd` | vlm.py:88 | the result is a prefix of the input, the dropped part is whitespace and the result does not end with whitespace |
| `Strings.TrimIdempotent` | Android/app/src/main/java/com/cardgen/app/VLMService.kt:114-125 | trimming twice is trimming once |
| `Strings.Upper` | Android/app/src/main/java/com/cardgen/app/LibraryActivity.kt:94 | upper-casing keeps the length |
| `Strings.UpperIdempotent` | Android/app/src/main/java/com/cardgen/app/GodsDrawActivity.kt:198 | upper-casing twice is upper-casing once |
| `Strings.Decimal` | vlm.py:150-151 | `str(n)` is a non-empty string of digits |
| `Strings.DecimalRoundTrip` | vlm.py:150-151 | `str(n)` reads back as n |
| `Rarity.TierOf` | Android/app/src/main/java/com/cardgen/app/SingleDrawActivity.kt:382-390 | UR exactly when "UR" occurs; SSR exactly when "UR" does not and "SSR" does; SR, R and N likewise down the `when` chain |
| `Rarity.TierCommonIffNoR` | Android/app/src/main/java/com/cardgen/app/SingleDrawActivity.kt:387-388 | the N tier exactly when no "R" occurs |
| `Rarity.SsrNeverSr` | Android/app/src/main/java/com/cardgen/app/SingleDrawActivity.kt:384-386 | a text naming SSR never gets the SR tier |
| `Rarity.TierOfNames` | Android/app/src/main/java/com/cardgen/app/SingleDrawActivity.kt:382-390 | each rarity name gets its own tier |
| `Rarity.Rank` | Android/app/src/main/java/com/cardgen/app/LibraryActivity.kt:96-100 | tier ranks lie in 1..5 |
| `Library.RarityValue` | Android/app/src/main/java/com/cardgen/app/LibraryActivity.kt:93-102 | on the upper-cased text, 5 exactly when "UR" occurs, 4 exactly when "UR" does not and "SSR" does, then 3 for "SR", 2 for "R", and 1 when none occurs |
| `Library.RarityValueOneIffNoR` | Android/app/src/main/java/com/cardgen/app/LibraryActivity.kt:99-100 | the value is 1 exactly when the text has no R in either case |
| `Library.RarityValueIgnoresCase` | Android/app/src/main/java/com/cardgen/app/LibraryActivity.kt:94 | a text and its upper-cased form rank alike |
| `Library.RarityValueOfNames` | Android/app/src/main/java/com/cardgen/app/LibraryActivity.kt:96-100 | UR, SSR, SR, R and N rank 5, 4, 3, 2, 1 |
| `Library.RarityOrderDiffersFromWebBackEnd` | Android/app/src/main/java/com/cardgen/app/LibraryActivity.kt:96-97 | "SSR or UR" ranks as UR here, while the web back end cleans it to SSR |
| `Library.InsertSorted` | Android/app/src/main/java/com/cardgen/app/LibraryActivity.kt:81-87 | inserting into a sorted list keeps it sorted and adds exactly the card |
| `Library.Insert` | Android/app/src/main/java/com/cardgen/app/LibraryActivity.kt:81-87 | an insertion adds exactly the card |
| `Library.InsertFilter` | Android/app/src/main/java/com/cardgen/app/LibraryActivity.kt:81-87 | inserting puts the card ahead of its own key's cards and leaves other keys' cards as they were |
| `Library.SortBySortedPermutation` | Android/app/src/main/java/com/cardgen/app/LibraryActivity.kt:81-87 | each sort leaves the list in key order and holding the same cards |
| `Library.SortBy` | Android/app/src/main/java/com/cardgen/app/LibraryActivity.kt:81-87 | the sort keeps exactly the same cards |
| `Library.SortByStable` | Android/app/src/main/java/com/cardgen/app/LibraryActivity.kt:81-87 | cards with equal keys keep their relative order |
| `Library.SortedMeaning` | Android/app/src/main/java/com/cardgen/app/LibraryActivity.kt:83-86 | newest: timestamps non-increasing; oldest: non-decreasing; rarity high: values non-increasing; rarity low: non-decreasing |
| `Library.LibraryScreen.constructor` | Android/app/src/main/java/com/cardgen/app/LibraryActivity.kt:50-51 | the loaded history, sorted newest first |
| `Library.LibraryScreen.SortCards` | Android/app/src/main/java/com/cardgen/app/LibraryActivity.kt:81-87 | the list is sorted by the current mode, stably, and is a permutation of the old list |
| `Library.LibraryScreen.OnOptionsItemSelected` | Android/app/src/main/java/com/cardgen/app/LibraryActivity.kt:67-79 | items 1 to 4 set their mode and re-sort; any other item changes nothing |
| `Library.Pow2` | Android/app/src/main/java/com/cardgen/app/LibraryActivity.kt:207 | every power of two is at least 1 |
| `Library.CalculateInSampleSize` | Android/app/src/main/java/com/cardgen/app/LibraryActivity.kt:199-210 | a power of two; 1 when the image fits; otherwise the smallest power whose halved sides fall below a request |
| `Library.QuotientBound` | Android/app/src/main/java/com/cardgen/app/LibraryActivity.kt:206 | a truncated quotient of at least 1 needs a dividend of at least the divisor |
| `SingleDraw.HistoryStore.constructor` | Android/app/src/main/java/com/cardgen/app/SingleDrawActivity.kt:271-274 | an absent history reads as empty |
| `SingleDraw.HistoryStore.AddToTop` | Android/app/src/main/java/com/cardgen/app/SingleDrawActivity.kt:270-277 | the new entry is at index 0 and the old ones follow in order |
| `SingleDraw.PrependEach` | Android/app/src/main/java/com/cardgen/app/SingleDrawActivity.kt:275 | after adding several entries one by one, the last added is first and the older history follows unchanged |
| `SingleDraw.PrependOneMore` | Android/app/src/main/java/com/cardgen/app/SingleDrawActivity.kt:275 | one more add puts its entry in front of the earlier result |
| `SingleDraw.PrependEachAppend` | Android/app/src/main/java/com/cardgen/app/SingleDrawActivity.kt:275 | adding two batches in turn is adding their concatenation |
| `SingleDraw.Decide` | Android/app/src/main/java/com/cardgen/app/SingleDrawActivity.kt:198-237 | no image, nothing; with an image an empty key stops first; then a cached card is shown; on a keyed miss the model's card is shown exactly when it answers, and its failure message is passed on |
| `SingleDraw.CacheHitSkipsModel` | Android/app/src/main/java/com/cardgen/app/SingleDrawActivity.kt:222-237 | with a key, a cached card is shown as it is |
| `SingleDraw.KeyCheckedBeforeCache` | Android/app/src/main/java/com/cardgen/app/SingleDrawActivity.kt:207-211 | without a key even a cached card is not shown |
| `SingleDraw.LibraryPath` | Android/app/src/main/java/com/cardgen/app/SingleDrawActivity.kt:258-259 | the library image path ends in ".png" |
| `SingleDraw.SingleDrawScreen.constructor` | Android/app/src/main/java/com/cardgen/app/SingleDrawActivity.kt:76-83 | no image, face up, not flipping, the placeholder name |
| `SingleDraw.SingleDrawScreen.LoadImage` | Android/app/src/main/java/com/cardgen/app/SingleDrawActivity.kt:175-195 | an opened stream sets the decoded bitmap (possibly none) and turns the card to its front; a failure changes nothing |
| `SingleDraw.SingleDrawScreen.OnCardClick` | Android/app/src/main/java/com/cardgen/app/SingleDrawActivity.kt:121-124 | a flip starts only with an image or a rendered card |
| `SingleDraw.SingleDrawScreen.OnFlipEnd` | Android/app/src/main/java/com/cardgen/app/SingleDrawActivity.kt:323-326 | a finished flip toggles the side exactly once |
| `SingleDraw.SingleDrawScreen.GenerateCard` | Android/app/src/main/java/com/cardgen/app/SingleDrawActivity.kt:198-282 | the decision as `Decide` says; the cache is loaded once the image and key are present; only a fresh card is cached under the image md5, written to the file when the write succeeds, and, if its PNG is written, added at the top of the history |
| `SingleDraw.RarityColors` | Android/app/src/main/java/com/cardgen/app/SingleDrawActivity.kt:382-390 | the first of UR, SSR, SR, R occurring in the upper-cased text picks its background and border colours, and N's pair otherwise |
| `SingleDraw.RarityColorsDistinguishTiers` | Android/app/src/main/java/com/cardgen/app/SingleDrawActivity.kt:382-390 | two rarities get the same border colour exactly when they fall in the same tier |
| `SingleDraw.ShineIffTopTiers` | Android/app/src/main/java/com/cardgen/app/SingleDrawActivity.kt:392-413 | the shine and breathing apply exactly to the SSR and UR tiers |
| `BatchDraw.ScaledForBatch` | Android/app/src/main/java/com/cardgen/app/BatchDrawActivity.kt:225-229 | an image with both sides at most 1024 is kept; any other becomes 512 by 768 |
| `BatchDraw.ScaledForBatchFits` | Android/app/src/main/java/com/cardgen/app/BatchDrawActivity.kt:225-229 | every loaded bitmap fits, and loading it again keeps it |
| `BatchDraw.Loaded` | Android/app/src/main/java/com/cardgen/app/BatchDrawActivity.kt:107-237 | one fresh, fitting item per decodable image, in pick order, carrying that image's uri, provisional id and scaled bitmap |
| `BatchDraw.LoadedAllDecoded` | Android/app/src/main/java/com/cardgen/app/BatchDrawActivity.kt:107-237 | when every image decodes, one item per image, in pick order |
| `BatchDraw.HashedExclusive` | Android/app/src/main/java/com/cardgen/app/BatchDrawActivity.kt:249-263 | after hashing a fresh item has either its cached card or the analyzing flag, never both |
| `BatchDraw.HashedAll` | Android/app/src/main/java/com/cardgen/app/BatchDrawActivity.kt:249-263 | one hashed copy per item, in order, each under its own bitmap's md5 |
| `BatchDraw.Requests` | Android/app/src/main/java/com/cardgen/app/BatchDrawActivity.kt:266-275 | at most one request per item |
| `BatchDraw.RequestsExactlyWaiting` | Android/app/src/main/java/com/cardgen/app/BatchDrawActivity.kt:266-275 | exactly the items without a card are sent, each with request id and md5 both its md5 |
| `BatchDraw.RequestsAccepted` | Android/app/src/main/java/com/cardgen/app/BatchDrawActivity.kt:266-275 | the worker accepts every request as a task keyed and answered by the item's md5 |
| `BatchDraw.AllCachedSendsNothing` | Android/app/src/main/java/com/cardgen/app/BatchDrawActivity.kt:266-275 | when every item is cached nothing is sent |
| `BatchDraw.ReadyCount` | Android/app/src/main/java/com/cardgen/app/BatchDrawActivity.kt:294-298 | the ready count never exceeds the total |
| `BatchDraw.ReadyCountUpdate` | Android/app/src/main/java/com/cardgen/app/BatchDrawActivity.kt:90-298 | making one item ready adds one to the count exactly when it was not ready |
| `BatchDraw.Completed` | Android/app/src/main/java/com/cardgen/app/BatchDrawActivity.kt:90-98 | a completion clears the analyzing flag and leaves the item ready |
| `BatchDraw.AfterCompletionEffect` | Android/app/src/main/java/com/cardgen/app/BatchDrawActivity.kt:87-98 | an unknown md5 changes nothing; a known one updates exactly its first item and adds at most one to the count |
| `BatchDraw.AfterCompletion` | Android/app/src/main/java/com/cardgen/app/BatchDrawActivity.kt:87-98 | an item either keeps its value or, sharing the md5, is completed; no item behind the first with the md5 changes |
| `BatchDraw.DuplicateStaysAnalyzing` | Android/app/src/main/java/com/cardgen/app/BatchDrawActivity.kt:87-88 | a later item with the same md5 is never updated, however often the completion comes |
| `BatchDraw.BatchDrawScreen.constructor` | Android/app/src/main/java/com/cardgen/app/BatchDrawActivity.kt:62 | no items, nothing sent |
| `BatchDraw.BatchDrawScreen.PickImages` | Android/app/src/main/java/com/cardgen/app/BatchDrawActivity.kt:107-126 | a successful pick replaces the selection with the loaded images; a cancelled one keeps it |
| `BatchDraw.BatchDrawScreen.StartQueueing` | Android/app/src/main/java/com/cardgen/app/BatchDrawActivity.kt:239-292 | every item is hashed against the cache, the items without a card are sent, and each cache hit adds its library entry |
| `BatchDraw.BatchDrawScreen.HashAll` | Android/app/src/main/java/com/cardgen/app/BatchDrawActivity.kt:249-263 | the loop hashes each item in order and adds the entries of the hits |
| `BatchDraw.BatchDrawScreen.HashOne` | Android/app/src/main/java/com/cardgen/app/BatchDrawActivity.kt:250-262 | one item is hashed and checked; a hit adds its entry |
| `BatchDraw.BatchDrawScreen.QueueRequests` | Android/app/src/main/java/com/cardgen/app/BatchDrawActivity.kt:266-275 | the loop sends exactly the requests of items without a card, in order |
| `BatchDraw.BatchDrawScreen.OnCardComplete` | Android/app/src/main/java/com/cardgen/app/BatchDrawActivity.kt:78-105 | the first item with the md5 is completed; a card also goes to the library |
| `BatchDraw.BatchDrawScreen.IndexOfMd5` | Android/app/src/main/java/com/cardgen/app/BatchDrawActivity.kt:87-88 | the scan finds the first item with the md5 |
| `BatchDraw.BatchDrawScreen.FlipCard` | Android/app/src/main/java/com/cardgen/app/BatchDrawActivity.kt:312-340 | a face-up item, or one not on screen, is left alone; otherwise only that item turns face up |
| `BatchDraw.BatchDrawScreen.BackToPacks` | Android/app/src/main/java/com/cardgen/app/BatchDrawActivity.kt:194-202 | the back button empties the list |
| `PackOpening.Take` | Android/app/src/main/java/com/cardgen/app/PackOpeningActivity.kt:113 | `take(n)` is a prefix of at most n characters, exactly n when the text is long enough |
| `PackOpening.PackCardPath` | Android/app/src/main/java/com/cardgen/app/PackOpeningActivity.kt:113-114 | the saved image path ends in ".png" |
| `PackOpening.ItemSave` | Android/app/src/main/java/com/cardgen/app/PackOpeningActivity.kt:108-125 | an item gives one entry exactly when its md5 is cached, its image decodes and its PNG is written |
| `PackOpening.CachedCount` | Android/app/src/main/java/com/cardgen/app/PackOpeningActivity.kt:108-109 | the number of cached items is at most the number of items |
| `PackOpening.PackSavesCount` | Android/app/src/main/java/com/cardgen/app/PackOpeningActivity.kt:105-130 | saving adds at most one entry per cached item, exactly one each when every image decodes and every file is written |
| `PackOpening.PackSavesFromCache` | Android/app/src/main/java/com/cardgen/app/PackOpeningActivity.kt:107-124 | every entry is the cached card of an item of the pack |
| `PackOpening.Holder.constructor` | Android/app/src/main/java/com/cardgen/app/PackOpeningActivity.kt:185-186 | a card view starts face down |
| `PackOpening.Holder.Flip` | Android/app/src/main/java/com/cardgen/app/PackOpeningActivity.kt:154-177 | afterwards the holder is face up; one already face up is not touched |
| `PackOpening.PackOpeningScreen.constructor` | Android/app/src/main/java/com/cardgen/app/PackOpeningActivity.kt:35-36 | no pack, no items, nothing shown |
| `PackOpening.PackOpeningScreen.OnCreate` | Android/app/src/main/java/com/cardgen/app/PackOpeningActivity.kt:40-88 | no id or an unknown id finishes the screen; an OPENED pack shows the grid; any other status shows the closed pack with its card count |
| `PackOpening.PackOpeningScreen.OpenPack` | Android/app/src/main/java/com/cardgen/app/PackOpeningActivity.kt:90-103 | the pack becomes OPENED through the repository, its cached cards go to the library, the grid shows |
| `PackOpening.PackOpeningScreen.SavePackToLibrary` | Android/app/src/main/java/com/cardgen/app/PackOpeningActivity.kt:105-135 | the history gains the entries of the pack's items, each at the top, in item order |
| `PackOpening.PackOpeningScreen.SaveItem` | Android/app/src/main/java/com/cardgen/app/PackOpeningActivity.kt:108-125 | one item's entry, if any, goes to the top |
| `PackOpening.PackOpeningScreen.AddToHistory` | Android/app/src/main/java/com/cardgen/app/PackOpeningActivity.kt:137-144 | the entry goes to index 0 ahead of the old history |
| `PackOpening.OpenedAfterOpen` | Android/app/src/main/java/com/cardgen/app/PackOpeningActivity.kt:98 | after opening, the same id finds the same pack, now OPENED with its items |
| `GodsDraw.SuccessCount` | Android/app/src/main/java/com/cardgen/app/GodsDrawActivity.kt:156 | the reported count is at most the number of slots |
| `GodsDraw.SettledSlotsSplit` | Android/app/src/main/java/com/cardgen/app/GodsDrawActivity.kt:154-157 | once all slots are settled, each is counted once, as a success or as a failure |
| `GodsDraw.AfterFetch` | Android/app/src/main/java/com/cardgen/app/GodsDrawActivity.kt:131-150 | a fetch settles its slot, with the image or "failed", and changes nothing else of it |
| `GodsDraw.AllReportedAllLoaded` | Android/app/src/main/java/com/cardgen/app/GodsDrawActivity.kt:145-160 | once every slot has reported, the summon is complete |
| `GodsDraw.GodDecide` | Android/app/src/main/java/com/cardgen/app/GodsDrawActivity.kt:246-266 | a cached card is shown; a miss without a key fails; on a keyed miss the model's card is shown exactly when it answers, and its failure message is passed on |
| `GodsDraw.KeyOrderDiffersFromSingleDraw` | Android/app/src/main/java/com/cardgen/app/GodsDrawActivity.kt:250-259 | without a key a cached card is still shown here, while the single draw stops |
| `GodsDraw.VibrationFor` | Android/app/src/main/java/com/cardgen/app/GodsDrawActivity.kt:197-211 | 500 ms at 255, 300 at 200, 150 at 150, or 50 at 80 for UR, SSR, SR or anything else, tested in that order on the upper-cased text |
| `GodsDraw.VibrationMonotone` | Android/app/src/main/java/com/cardgen/app/GodsDrawActivity.kt:199-211 | a rarer tier never vibrates shorter or weaker |
| `GodsDraw.VibrationIgnoresCase` | Android/app/src/main/java/com/cardgen/app/GodsDrawActivity.kt:198 | case does not matter |
| `GodsDraw.GodsDrawScreen.constructor` | Android/app/src/main/java/com/cardgen/app/GodsDrawActivity.kt:44 | no slots, the summon button enabled |
| `GodsDraw.GodsDrawScreen.OnCreate` | Android/app/src/main/java/com/cardgen/app/GodsDrawActivity.kt:59-65 | the card cache is initialised |
| `GodsDraw.GodsDrawScreen.StartSummoning` | Android/app/src/main/java/com/cardgen/app/GodsDrawActivity.kt:88-97 | exactly six empty slots, and the button off |
| `GodsDraw.GodsDrawScreen.FetchDone` | Android/app/src/main/java/com/cardgen/app/GodsDrawActivity.kt:131-160 | only the fetch's own slot changes; when all slots are settled the count of bitmaps is reported and the button comes back |
| `GodsDraw.GodsDrawScreen.FlipCard` | Android/app/src/main/java/com/cardgen/app/GodsDrawActivity.kt:164-285 | a face-up, empty or off-screen slot is ignored; otherwise it turns, its card is decided, a shown card vibrates, and only a fresh card is cached, written to the file when the write succeeds, and added to the library |
| `WebApi.CaughtAll` | app.py:159-162 | every failure reaches the client as status 500 |
| `WebApi.RaisedStatusLost` | app.py:86-162 | the 404 and 400 raised inside are lost to the catch-all |
| `WebApi.LastIndexOf` | app.py:127 | the last occurrence of a character, or none |
| `WebApi.Extension` | app.py:127 | `splitext(...)[1]` is empty or a dot-led suffix of the name, with no further dot or slash |
| `WebApi.ExtensionOfPhoto` | app.py:127 | "photo.png" has extension ".png" |
| `WebApi.ExtensionOfArchive` | app.py:127 | only the last suffix counts |
| `WebApi.DotFileHasNoExtension` | app.py:127-129 | a leading dot does not start an extension: ".bashrc" has none |
| `WebApi.DotlessHasNoExtension` | app.py:127-129 | a name without a dot has no extension |
| `WebApi.DirectoryDotIsNoExtension` | app.py:127-129 | a dot in a directory name is not an extension |
| `WebApi.StoredFilename` | app.py:127-131 | the md5, a dot, then the upload's extension or "jpg" |
| `WebApi.ExistingCards` | app.py:167-175 | at most one card per key |
| `WebApi.ExistingCardsMembers` | app.py:172-175 | exactly the stored cards whose file exists are returned |
| `WebApi.UpperCaseImageName` | app.py:184 | the extension test ignores case |
| `WebApi.JpegAndSvgAreImageNames` | app.py:184 | ".jpeg" and ".svg" names are listed |
| `WebApi.TextIsNoImageName` | app.py:184 | a name with another suffix is not listed |
| `WebApi.BareSuffixIsNoImageName` | app.py:184 | the suffix needs its dot |
| `WebApi.BackUrls` | app.py:181-185 | at most one url per listed name |
| `WebApi.BackUrlsMembers` | app.py:183-185 | a url is returned exactly for an image name of the directory, prefixed by "/static/card_backs/" |
| `WebApi.ListCardBacks` | app.py:179-186 | the listing's image urls in order, and none without the directory |
| `WebApi.CardStore.constructor` | app.py:42-50 | no cards and no uploads |
| `WebApi.CardStore.Put` | app.py:103-154 | a new key goes last in the dictionary order; an existing key keeps its place and takes the new card |
| `WebApi.CardStore.GetCards` | app.py:164-177 | the loop returns the stored cards whose file exists, in dictionary order |
| `WebApi.CardStore.GenerateCard` | app.py:73-162 | regenerate path: a missing original or failed analysis is 500, else the entry is rewritten in place with md5 and file kept; without an upload 500; a stored md5 without regenerate is answered as stored; otherwise the file is filed under the md5 name and the analysed card stored under its md5 |
| `WebApi.StoredUnderOwnMd5` | app.py:93-146 | a generated card carries its key as md5 and "/uploads/" + its file as url |
| `CardPage.TruncRem` | static/js/script.js:356 | JavaScript `%` takes the dividend's sign and differs from it by whole turns |
| `CardPage.Normalized` | static/js/script.js:356-357 | the snap angle lies in [0, 360) and differs from the final angle by whole turns |
| `CardPage.NormalizedIsEuclidean` | static/js/script.js:356-357 | the two steps are Euclidean reduction modulo a turn |
| `CardPage.NormalizedPeriodic` | static/js/script.js:356-362 | adding whole turns to the final angle does not change the snap |
| `CardPage.NoDragKeepsSide` | static/js/script.js:313-372 | a release where the drag began keeps the side that showed |
| `CardPage.FinalAngle` | static/js/script.js:346 | a drag of less than a quarter turn either way ends on the side it started from |
| `CardPage.SnapToBack` | static/js/script.js:346-362 | the back exactly when there is a position and the final angle, reduced modulo a turn, lies strictly between a quarter and three quarters of a turn |
| `CardPage.FrontTurnsOverIff` | static/js/script.js:344-372 | from the front, the card turns over exactly for drags strictly between 90 and 270 degrees, modulo whole turns |
| `CardPage.BoundariesShowFront` | static/js/script.js:362 | exactly 90 and 270 degrees, either way, snap to the front |
| `CardPage.DescriptionSize` | static/js/script.js:282-294 | 0.7rem above 150 characters, 0.75rem above 100, else 0.85rem |
| `CardPage.DescriptionSizeMonotone` | static/js/script.js:282-294 | longer text never gets a larger font |
| `CardPage.CardPage.constructor` | static/js/script.js:26-298 | no file, no card, face up, not dragging |
| `CardPage.CardPage.HandleFileSelect` | static/js/script.js:198-217 | a file is taken exactly when its type starts with "image/", which enables Generate; otherwise nothing changes |
| `CardPage.CardPage.FilesChosen` | static/js/script.js:184-196 | only the first file is handled, and no file changes nothing |
| `CardPage.CardPage.GenerateClick` | static/js/script.js:220-268 | a request exactly when the button is enabled and a file is chosen, carrying just that file; a request disables both buttons |
| `CardPage.CardPage.RegenerateClick` | static/js/script.js:271-280 | a request exactly when the button is enabled, a shown card has an md5 and the user confirms, carrying that md5 and the regenerate flag; a request disables both buttons |
| `CardPage.CardPage.GenerationDone` | static/js/script.js:233-259 | a returned card is shown face up; both buttons are enabled again either way |
| `CardPage.CardPage.LoadCardToView` | static/js/script.js:147-170 | a card picked from the library becomes the current card and shows its front |
| `CardPage.CardPage.MouseDown` | static/js/script.js:307-319 | a drag starts at the mouse position, with the side showing then as its base |
| `CardPage.CardPage.MouseUp` | static/js/script.js:338-373 | without a drag nothing changes; otherwise the card snaps by the final angle normalised into [0, 360): the base from mousedown (180 if the back showed) plus half a degree per pixel; a release without a position shows the front |
| `CardPage.BaseTakenAtMouseDown` | static/js/script.js:313-314 | a card reset to its front by a generated card in mid-drag still snaps to the back the drag started from |
| `CardPage.NoOverlappingRequests` | static/js/script.js:220-222 | a second click with nothing in between starts nothing, from either button |
| `CardPage.FileChosenMidRequestOverlaps` | static/js/script.js:198-222 | a file chosen while a request is in flight enables Generate again, and a second request starts before the first ends |
| `CardPage.CardPage.MouseLeave` | static/js/script.js:375-379 | leaving during a drag ends it with the front showing; otherwise nothing changes |
| `CardPage.RegenerateFormReachesRegeneratePath` | static/js/script.js:276-279 | the regenerate form for a stored md5 takes the back end's regenerate branch |
| `PacksPage.StatusLabel` | static/js/packs.js:88 | "Processing..." exactly for processing, "Opened" exactly for opened, "Ready to Open" for everything else |
| `PacksPage.ClickableNeverProcessing` | static/js/packs.js:88-99 | a clickable tile is never labelled processing, and a processing pack cannot be opened |
| `PacksPage.TileOf` | static/js/packs.js:84-99 | the tile shows the pack's card count; the ready style only on a tile that opens; an opening tile never reads processing; "Opened" exactly for an opened pack |
| `PacksPage.UnknownStatusLooksReadyButIsInert` | static/js/packs.js:88-99 | an unknown status reads "Ready to Open" but does not open |
| `PacksPage.DescriptionSize` | static/js/packs.js:198-206 | 0.7em above 150 characters, 0.8em above 100, else 0.9em |
| `PacksPage.SameThresholdsAsCardPage` | static/js/packs.js:198-206 | both pages switch sizes at the same lengths |
| `PacksPage.PacksPage.constructor` | static/js/packs.js:12 | no timer, no tiles, no file, upload off |
| `PacksPage.PacksPage.PacksLoaded` | static/js/packs.js:65-80 | one tile per pack; afterwards a timer runs exactly when some pack is processing; at most one timer is ever active, and a running one is kept |
| `PacksPage.PacksPage.RenderPacks` | static/js/packs.js:82-103 | one tile per pack, in response order, with its label, count, ready class and clickability |
| `PacksPage.PacksPage.FilesChanged` | static/js/packs.js:15-24 | the upload button is enabled exactly when a file is chosen |
| `PacksPage.PacksPage.UploadClick` | static/js/packs.js:27-32 | an upload starts exactly when the button is enabled and a file is chosen, and it disables the button |
| `PacksPage.PacksPage.UploadDone` | static/js/packs.js:45-61 | success clears the input and leaves the button as it is; failure turns it on, whatever is chosen |
| `PacksPage.OverlappingUploadsEnableEmptyButton` | static/js/packs.js:15-61 | choosing files during an upload allows a second one, and a success then a failure leave the button enabled with no file |

## Left out

- Network: the OkHttp calls of VLMService.kt and GodsDrawActivity.kt, `requests` in vlm.py and every `fetch` of the pages. The model's answer, an image fetch's result and an HTTP response are parameters.
- Hashing and image codecs: the MD5 digest, JPEG and PNG compression and bitmap decoding are uninterpreted functions or parameters. Only the hex formatting of the digest is modelled.
- Persistence: Gson, SharedPreferences and the JSON files become in-memory state. A save's success is a parameter. Parse errors and a null document are one "bad file" case.
- Concurrency: executors, the main-thread handler and broadcasts are left out. Each posted block or job is one atomic step. The unsynchronised `isRunning` flag of the worker is modelled as if its updates were sequential.
- Floating point and animation: flip and breathing animations, `ParticleView`, `showParticles`, the mousemove transform and the summoning animation are left out.
- Whole files that are UI or configuration only are not part of this model: MainActivity.kt, SettingsActivity.kt, CardDetailActivity.kt, ParticleView.kt, static/js/fx.js, static/js/batch.js, static/js/god_draw.js and static/js/settings.js.
- The vlm.py single-call path: only its fence clean-up is modelled. Its `json.loads` names a module that is never imported, so that path always ends in the stub.
- The stub's random choices, apart from the range of its atk and def.
- The packs page's opened-pack view (`openPack`, `renderOpenedCards`, the back button).
- `PackRepository.getPacks`, a plain accessor.
- The status texts and toasts of the screens.
- Vlm.ResizedSize: the short side is computed with exact integer arithmetic. The source truncates a float aspect ratio, so only the fits rule and the long side are exact.
- Strings.Upper: upper- and lower-casing and `isdigit` cover ASCII only. Kotlin and Python map every Unicode letter and digit.
- SingleDraw.SingleDrawScreen.GenerateCard: one clock reading serves both the file name and the timestamp. The source reads the clock twice.
- BatchDraw.BatchDrawScreen.HashAll: one clock reading serves every cache hit of a batch, so their entries share one path and one timestamp and each PNG save overwrites the last. The source reads the clock on every save, so this is only the run where all saves fall in one millisecond.
- BatchDraw.BatchDrawScreen.StartQueueing: the same single clock reading, through HashAll.
- BatchDraw.BatchDrawScreen.HashOne: one clock reading serves the file name and the timestamp.
- PackOpening.PackOpeningScreen.SavePackToLibrary: one clock reading serves every item of the pack, for its file name and its timestamp. The source reads the clock per item, twice.
- PackOpening.PackOpeningScreen.SaveItem: the same single clock reading.
- PackOpening.PackSaves: the same single clock reading, so entries differ only by the md5 prefix in their path.
- CardCache.CardRepository.SaveCard: a failed write keeps the old file. The source can leave it truncated when the write fails after the file was opened.
- The Android lifecycle order is not enforced. Android runs the worker's `onCreate`, modelled by `GenerationWorker.GenerationService.OnCreate`, before any `onStartCommand`, and the model leaves that order to its caller.
- CardPage.CardPage.LoadCardToView: the card's texts, image and description size on screen are not modelled, only which card is current and that it shows its front.
- GodsDraw.GodsDrawScreen.FetchDone: the two blocks one fetch posts run as one step. A summon restarted while fetches are still running is not modelled.
- GodsDraw.GodsDrawScreen.FlipCard: the slot is updated by index. The source writes through the item object, which a summon restarted mid-generation would detach from the list.
- WebApi.CardStore.GenerateCard: a failing `analyze_image` (or any later exception) is one "analysis failed" case. The error detail string is not kept, only its cause.
- WebApi.CardStore.GenerateCard: an upload without a filename is not modelled.
- WebApi.CardStore.GenerateCard: the temporary upload file is not modelled; the uploads directory is the set of final names.
- BatchDraw.BatchDrawScreen.PickImages: batch items are values in a list, not objects, which is what the source's copy-and-replace updates amount to.
- CardPage.DescriptionSize: the text length is a parameter. JavaScript counts UTF-16 code units.
