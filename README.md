# Render-test runner and SKU-token rotation, modelled in Dafny

This project models two pieces of the Mapbox GL native repository.

**The native render-test runner.** It has four parts:

- **Loading a scenario.** A render test is a `style.json` whose `metadata.test` block configures the renderer and lists operations to replay.
- **Localizing references.** Before a style reaches the renderer, every resource reference in it (`local://`, `http://localhost:2900`, `mapbox://`) is rewritten into a `file://` path. The path points into the harness's vendor directory or into the integration suite, and each rewrite is kept only when its directory exists.
- **Running a scenario.** The runner keeps a cache of renderers, keyed by map mode, pixel ratio and cross-source collisions. It prepares the renderer for a scenario and replays the operations one by one, erasing each from the document as it goes. It then scores the rendered image against `expected.png` as the fraction of differing pixels.
- **The driver loop.** For every scenario it loads the file, resets the cache unless renderers are recycled, derives the test name, looks it up in `ignores.json` (a reason starting with "skip" means the scenario is not run) and classifies the result.

**The Android SKU-token manager.** The token is obtained for the end user and stored in the shared preferences with its timestamp. It is replaced when it is more than an hour old, using Java's 64-bit arithmetic. When the app does not let the SDK manage the token, it is read from the preferences as is.

Modules, one per file:

- **Wrappers:** `Option`.
- **Strings:** substring search and replacement, the helpers standing in for `std::string` and `std::regex_replace` on literal patterns.
- **Json:** the document as ordered member lists, with RapidJSON's lookup, append and swap-with-last removal.
- **Host:** the machine as a fixed oracle: which paths exist, which files parse as JSON or decode as images, and the `UPDATE` variable.
- **Metadata:** the `TestMetadata` record and its defaults.
- **Resolver:** the URL rules.
- **Parser:** tree localization, the test block and the ignore list.
- **Renderer:** the style and camera state the operations edit, and the engine services as functions.
- **Operations:** decoding and applying one operation, and replaying the list.
- **Runner:** the `TestRunner` class.
- **Harness:** the driver loop.
- **Accounts:** the `AccountsManager` class.

Where the source mutates state, the model does too:

- `Parser.LocalizeArray`, `Parser.LocalizeSourceURLs`, `Parser.LocalizeStyleURLs`, `Parser.ParseTestMetadata` and `Parser.ParseIgnores` are loops or step-by-step updates. Each is proved equal to a specification function, and the properties are proved about that function.
- `Runner.TestRunner` holds the renderer cache as a `map` field. Its `RunOperations` recurses as the source does.
- `Accounts.AccountsManager` holds `timestamp`, `skuToken`, `isManaged` and the preference store as fields. Each method is tied to a pure transition on `Accounts.State`, and the lemmas are about those transitions.

Where the source asserts the type of a JSON value (RapidJSON's `Get*` on a value of another type is undefined behaviour), the model reads a value of the wrong type as absent. Such a value leaves the field at its previous value, or decodes to a `Malformed` operation that is skipped like an unknown one.

## Model

| member | source | states |
|---|---|---|
| Resolver.RemoveURLArguments | test-runner/parser.cpp:15-21 | the result is the prefix of the URL before its first '?', holds no '?', and is the whole URL when it has none |
| Resolver.FileSchemeRoundTrip | test-runner/parser.cpp:23-26 | the result starts with `file://`, and erasing 7 characters (as done at line 321) gives the reference back |
| Resolver.Rewrite | test-runner/parser.cpp:28-56 | a rewrite exists iff the parent of the replaced path exists, or, for glyphs, its grandparent; it has no query string |
| Resolver.SchemeRewrite | test-runner/parser.cpp:28-56 | for a reference `pattern+rest` the rewrite is `base+rest` without its query, kept iff the probe accepts `base+rest` |
| Resolver.LocalPrefersVendor | test-runner/parser.cpp:58-65 | `local://` tries the vendor directory first, then the suite root |
| Resolver.HttpPrefersVendor | test-runner/parser.cpp:67-74 | `http://localhost:2900` tries the vendor directory first, then the suite root |
| Resolver.MapboxSuiteOnlyRules | test-runner/parser.cpp:76-98 | `mapbox://` sprites, fonts and tilesets go only to the suite root, `glyphs/` (glyph probe) and `tilesets/` |
| Resolver.MapboxTilesPreferVendor | test-runner/parser.cpp:86-93 | `mapbox://` tiles try the vendor directory, then the suite's `tiles/` |
| Resolver.LocalizeURL | test-runner/parser.cpp:294-301 | when the probe accepts the vendor rewrite the result is that path without its query; else, when it accepts the suite-root rewrite, that path without its query; else the URL itself |
| Resolver.Resolve | test-runner/parser.cpp:303-372 | the first accepted rule of each field's chain; any rewrite has no query string |
| Resolver.Localized | test-runner/parser.cpp:306-370 | the written value is `file://` followed by the first accepted rewrite, else by the original reference |
| Resolver.LocalizationNotIdempotent | test-runner/parser.cpp:23-26 | a reference no rule rewrites gains a second `file://` when localized twice |
| Parser.LocalizeArray | test-runner/parser.cpp:305-310 | the loop replaces every string entry by its localized form, in place and in order |
| Parser.SourceUrlsLocalized | test-runner/parser.cpp:304-311 | every entry of a source's `urls` array is localized as a tileset reference |
| Parser.UrlsStageKeepsUrlAndType | test-runner/parser.cpp:304-311 | the `urls` stage leaves `url`, `type` and `tiles` as they were |
| Parser.ManifestPath | test-runner/parser.cpp:321 | the manifest path is the localized `url` with `file://` removed |
| Parser.SourceUrlKept | test-runner/parser.cpp:313-328 | an image or video source, or one whose manifest cannot be read, keeps `url` with its localized value |
| Parser.SourceManifestSpliced | test-runner/parser.cpp:320-326 | a tile source with a readable manifest loses `url` and gains the manifest's `tiles`, then localized as tile templates |
| Parser.UrlStageKeepsOthers | test-runner/parser.cpp:313-328 | the `url` stage leaves every member other than `url` and `tiles` reading as before |
| Parser.SourceTilesLocalized | test-runner/parser.cpp:330-340 | when no manifest is spliced in, each `tiles` entry is localized as a tile template |
| Parser.SourceDataLocalized | test-runner/parser.cpp:342-347 | string `data` is localized as a local reference; `data` of any other type is untouched |
| Parser.LastStagesKeepOthers | test-runner/parser.cpp:330-347 | the `tiles` and `data` stages leave every other member reading as before |
| Parser.LocalizeSourceURLs | test-runner/parser.cpp:303-348 | the in-place edit equals the specification of source localization |
| Parser.LocalizeStyleURLs | test-runner/parser.cpp:350-373 | the loop over the sources, then glyphs and sprite, equals the specification of style localization |
| Parser.StyleKeepsOthers | test-runner/parser.cpp:350-373 | members other than `sources`, `glyphs` and `sprite` are untouched |
| Parser.StyleReferencesLocalized | test-runner/parser.cpp:350-373 | every source is localized, and string `glyphs` and `sprite` are rewritten by their own chains |
| Parser.LocalizeKeepsTestBlock | test-runner/parser.cpp:203-218 | localizing the document never changes `metadata.test` |
| Parser.TestBlock | test-runner/parser.cpp:205-218 | a test block is found iff the document has `metadata` and `metadata` has `test` |
| Parser.ToUint32 | test-runner/parser.cpp:222 | a signed width or height stored into the unsigned 32-bit `Size` field wraps modulo 2^32 |
| Parser.ReadSizeOptions | test-runner/parser.cpp:220-228 | equals the specification of reading `width` and `height`; what those become is stated by Parser.ApplyTestBlockFields and Parser.DocumentOptions |
| Parser.ReadRenderingOptions | test-runner/parser.cpp:230-249 | equals the specification of reading `pixelRatio`, `allowed`, `description` and `mapMode`; what those become is stated by Parser.ApplyTestBlockFields and Parser.DocumentOptions |
| Parser.ReadDebugOptions | test-runner/parser.cpp:253-263 | equals the specification of setting one debug flag per member present |
| Parser.WithFlag | test-runner/parser.cpp:253-263 | a flag is set afterwards iff it was set or its member is present; every other flag is unchanged |
| Parser.ReadProjectionOptions | test-runner/parser.cpp:265-279 | equals the specification of reading `crossSourceCollisions`, `axonometric` and `skew`; what those become is stated by Parser.ApplyTestBlockFields and Parser.DocumentOptions |
| Parser.ParseTestMetadata | test-runner/parser.cpp:192-292 | the step-by-step parse equals the specification `ParsedMetadata` |
| Parser.ParseFailsExactly | test-runner/parser.cpp:196-200 | loading fails iff the file cannot be read, or its test block has `fadeDuration` or `addFakeCanvas` (lines 281-289) |
| Parser.NoTestBlockGivesDefaults | test-runner/parser.cpp:205-216 | without `metadata` or `metadata.test`, the result is the defaults with the path and the localized document |
| Parser.TestBlockOptions | test-runner/parser.cpp:220-279 | the map mode is Tile iff `mapMode` is "tile"; each debug flag is set iff its member is present; an integral `width` or `height` is stored modulo 2^32 (unchanged below 2^32); a numeric `pixelRatio` or `allowed`, a string `description`, a boolean `crossSourceCollisions` or `axonometric`, and the first two numbers of `skew` are stored as given; each absent member leaves its default (512, 512, 1, 0.00015, "", true, false, 0 and 1); `fadeDuration` stays 0 |
| Parser.DocumentOptions | test-runner/parser.cpp:218-291 | the same option facts, member by member, for the record built from an already localized document holding the test block |
| Parser.ApplyTestBlockFields | test-runner/parser.cpp:220-279 | after the test block is read, each of width, height, pixel ratio, `allowed`, description, map mode, `crossSourceCollisions`, `axonometric` and the two skews comes from its member when that has the right type and is otherwise kept, and each debug flag is set iff it was set or its member is present; path, document, `fadeDuration` and `addFakeCanvas` are untouched |
| Parser.EmptyTestBlockKeepsDefaults | test-runner/metadata.hpp:15-28 | an empty test block leaves every field at its declared default |
| Parser.ParseIgnores | test-runner/parser.cpp:173-190 | the loop equals the specification: one (name, reason) pair per member of the file's object, in order; empty when the file is missing |
| Parser.IgnoreEntriesAllStrings | test-runner/parser.cpp:180-186 | when every reason is a string, the list has exactly one pair per member, in file order |
| Renderer.JumpTo | test-runner/runner.cpp:186-198 | a jump sets each of center, zoom, bearing and pitch to the value the options give, and keeps each field they leave out |
| Renderer.FindLayer | test-runner/runner.cpp:212 | the lookup finds a layer with that id, or reports that none has it |
| Renderer.AddLayerThenRemove | test-runner/runner.cpp:250-266 | adding a layer with a new id and then removing that id restores the style |
| Renderer.AddLayerFinds | test-runner/runner.cpp:250-260 | after a layer with a new id is added, a lookup of its id finds it on top |
| Renderer.RemoveLayerRemoves | test-runner/runner.cpp:263-266 | with unique ids, removal leaves no layer of that id and drops exactly one layer if there was one |
| Renderer.AddSourceThenRemove | test-runner/runner.cpp:269-288 | adding a source under a new id stores it, and removing that id restores the style |
| Renderer.AddImageThenRemove | test-runner/runner.cpp:123-162 | adding an image under a new name and then removing it restores the style |
| Operations.Decode | test-runner/runner.cpp:91-326 | a non-array, an empty array or a non-string command is malformed; the command is unsupported iff it is not one of the known names; image names and paths contain no '"' |
| Operations.DecodeImageEntry | test-runner/runner.cpp:122-144 | a well-formed `addImage`/`updateImage` entry decodes to an image operation whose name and path are the given strings with '"' erased; without options the pixel ratio is 1 and `sdf` is off |
| Strings.RemoveAll | test-runner/runner.cpp:140-144 | the erase-remove result holds no `c`, is no longer than the input, is the input when it holds no `c`, and holds every other character as often as the input |
| Strings.RemoveAllAppend | test-runner/runner.cpp:140-144 | erasing distributes over concatenation, so the kept characters stay in their order |
| Operations.DecodeEncode | test-runner/runner.cpp:100-326 | decoding the entry written for any expressible operation gives that operation back |
| Operations.DecodeEncodeImage | test-runner/runner.cpp:123-154 | an `addImage` entry with an options object decodes to its name, path, pixel ratio and `sdf` flag |
| Operations.DecodeEncodeView | test-runner/runner.cpp:164-198 | `setStyle`, `setCenter`, `setZoom` and `setBearing` entries decode to the operation they were written for |
| Operations.DecodeEncodeLayerEdits | test-runner/runner.cpp:200-234 | `setFilter`, `setLayerZoomRange`, `setPaintProperty` and `setLayoutProperty` entries decode to the operation they were written for |
| Operations.DecodeEncodeStyleEdits | test-runner/runner.cpp:236-288 | `setLight`, `addLayer`, `removeLayer`, `addSource` and `removeSource` entries decode to the operation they were written for |
| Operations.HaltsOnlyOnMissingImage | test-runner/runner.cpp:146-152 | applying an operation stops the replay iff it adds an image whose file cannot be read |
| Operations.CameraOperationsAreLocal | test-runner/runner.cpp:178-198 | `setCenter`, `setZoom` and `setBearing` change only their own camera field; style, size, debug flags and projection are unchanged |
| Operations.LayerOperationsAreLocal | test-runner/runner.cpp:200-322 | layer edits give a map equal to the old one except for its layer list, in which only the layer found by name may change; a missing layer is logged and nothing changes |
| Operations.UnsupportedIsSkipped | test-runner/runner.cpp:324-326 | an unknown command is logged and leaves the map unchanged |
| Operations.ReplayRemainder | test-runner/runner.cpp:148-152 | the unapplied entries are a suffix of the list, headed by an image operation whose file is missing |
| Operations.ReplayAppend | test-runner/runner.cpp:328-329 | replaying `xs + ys` is replaying `xs`, then, when it finished, `ys` from the resulting map |
| Operations.ReplayWithoutImagesCompletes | test-runner/runner.cpp:71-330 | a list without image operations is always replayed to the end |
| Operations.ZoomThenCenter | test-runner/runner.cpp:179-192 | `setZoom 5` then `setCenter [10, 20]` gives zoom 5 at latitude 20, longitude 10, with nothing left or logged |
| Runner.NewInstance | test-runner/runner.cpp:332-341 | a new renderer carries the mode, pixel ratio and collision setting of its key |
| Runner.OpsOfWithOps | test-runner/runner.cpp:86 | writing a list back into `metadata.test.operations` and reading it again gives that list |
| Runner.WithOpsTwice | test-runner/runner.cpp:328 | erasing step by step is writing the final list once |
| Runner.RemainingOpsStayInDocument | test-runner/runner.cpp:71-89 | after the operations run, the document's list holds exactly the entries left unapplied |
| Runner.RunOpsStep | test-runner/runner.cpp:91-329 | running the list applies the first entry and either stops with map and document untouched, or erases the entry and runs the rest |
| Runner.RunOpsEmpty | test-runner/runner.cpp:72-89 | a document without `metadata`, `test` or operations, or with an empty list, leaves the renderer and the document unchanged |
| Runner.FirstOperation | test-runner/runner.cpp:71-329 | one step of the recursion: when the list is empty or its first entry halts, running the list changes nothing; otherwise running it equals running the shorter erased list on the renderer after that entry |
| Runner.TestRunner.RunOperations | test-runner/runner.cpp:71-330 | the recursive method updates only the cached renderer for its key, and returns the document the specification gives |
| Runner.CheckImage | test-runner/runner.cpp:30-69 | every finite score is non-negative (the division by the pixel count wrapped to 32 bits is stated by Runner.WrappedPixelCountNotFinite and Runner.PassesIffFewDifferences) |
| Runner.ScoreWithinUnitInterval | test-runner/runner.cpp:57-68 | when the comparison counts at most every pixel, a finite score is non-negative, and at most 1 when width × height is below 2^32 |
| Runner.WrappedPixelCountNotFinite | test-runner/runner.cpp:52-68 | two images of 65536 × 65536 pixels have a pixel count that wraps to 0, so they never get a finite score |
| Runner.PassesIffFewDifferences | test-runner/runner.cpp:52-68 | for images of equal size whose 32-bit pixel count is not 0, a scenario passes iff differing pixels <= allowed × that pixel count |
| Runner.MissingOrMismatchedExpectationPasses | test-runner/runner.cpp:39-55 | a missing or differently sized expected image scores 0, so the scenario passes for any allowed difference |
| Runner.UpdateModeFails | test-runner/runner.cpp:32-37 | in update mode the score is 1, so the scenario passes iff at least 1 is allowed |
| Runner.RunTouchesOnlyItsKey | test-runner/runner.cpp:343-367 | a run stores its renderer under its own key and leaves all other cached renderers alone |
| Runner.FreshRendererIgnoresHistory | test-runner/runner.cpp:348-350 | with no cached renderer for its key, a scenario scores as it would on an empty cache |
| Runner.RecycledRendererKeepsCamera | test-runner/runner.cpp:361-362 | a recycled renderer keeps the camera fields the new style's default camera leaves out |
| Runner.TestRunner.Run | test-runner/runner.cpp:343-367 | the score, the cache and the returned record (path cut to its directory, list cut to the unapplied entries) match the specification |
| Runner.TestRunner.Reset | test-runner/runner.cpp:369-371 | the cache is empty afterwards |
| Runner.TestRunner.constructor | test-runner/runner.hpp:12-27 | a runner starts with an empty cache |
| Host.PathOfFileInDir | test-runner/runner.cpp:366 | removing the file name from `dir/name` leaves `dir/`, and its parent is `dir` |
| Harness.TestNameOfDirectory | test-runner/main.cpp:70-72 | the directory `root/name/` is named `name` |
| Harness.TestNameOfScenario | test-runner/main.cpp:70-72 | the scenario file `root/name/style.json` is named `name` |
| Harness.FindIgnore | test-runner/main.cpp:77-81 | the reason of the first ignore entry with that key; none iff no entry has it |
| Harness.Classify | test-runner/main.cpp:89-103 | a scenario that is not ignored is passed iff it passed; an ignored one is reported as ignored with its reason, either way |
| Harness.RunTest | test-runner/main.cpp:60-104 | one iteration updates the runner's cache and yields the outcome the specification gives |
| Harness.RunAll | test-runner/main.cpp:60-104 | there is one outcome per scenario path |
| Harness.RunTests | test-runner/main.cpp:60-104 | the loop over all paths gives the outcomes and final cache of the specification |
| Harness.UnparsedScenarioDoesNothing | test-runner/main.cpp:61-64 | a scenario that does not load is reported, and the cache is neither reset nor used |
| Harness.SkippedScenarioNeverRuns | test-runner/main.cpp:82-85 | a scenario whose first ignore reason starts with "skip" is reported skipped and never run; without recycling the cache is still emptied |
| Harness.VerdictOfRunScenario | test-runner/main.cpp:88-103 | a scenario that runs is passed iff its score is at most its allowed difference, and ignored iff the ignore list names it |
| Harness.OutcomeIgnoresCacheWithoutRecycling | test-runner/main.cpp:66-68 | without recycling, an outcome does not depend on the cache the scenario starts with |
| Harness.ScenariosAreIsolatedWithoutRecycling | test-runner/main.cpp:60-104 | without recycling, each scenario's outcome in the loop is the one it has when run alone |
| Accounts.WrapLong | platform/android/MapboxGLAndroidSDK/src/main/java/com/mapbox/mapboxsdk/AccountsManager.java:125 | a subtraction wraps to the 64-bit value congruent to it modulo 2^64, equal to it when it fits |
| Accounts.ExpiredIffMoreThanAnHour | platform/android/MapboxGLAndroidSDK/src/main/java/com/mapbox/mapboxsdk/AccountsManager.java:124-126 | when the difference does not overflow, a token is expired iff more than 3600000 ms have passed |
| Accounts.UpwardOverflowNeverExpires | platform/android/MapboxGLAndroidSDK/src/main/java/com/mapbox/mapboxsdk/AccountsManager.java:124-126 | a difference of 2^63 or more wraps negative, so the token never counts as expired |
| Accounts.DownwardOverflowWraps | platform/android/MapboxGLAndroidSDK/src/main/java/com/mapbox/mapboxsdk/AccountsManager.java:124-126 | a difference below -2^63 wraps up by 2^64, and the token is expired iff that wrapped difference exceeds 3600000 |
| Accounts.DownwardOverflowCanExpire | platform/android/MapboxGLAndroidSDK/src/main/java/com/mapbox/mapboxsdk/AccountsManager.java:124-126 | a token stamped at 1 counts as expired at the earliest 64-bit instant, although that instant is earlier |
| Accounts.PersistedReads | platform/android/MapboxGLAndroidSDK/src/main/java/com/mapbox/mapboxsdk/AccountsManager.java:128-135 | after persisting, the stored timestamp and token read back as those written |
| Accounts.UnmanagedStartsEmpty | platform/android/MapboxGLAndroidSDK/src/main/java/com/mapbox/mapboxsdk/AccountsManager.java:50-53 | an unmanaged manager starts with timestamp 0, no token and the preferences untouched |
| Accounts.ManagedStartsSynced | platform/android/MapboxGLAndroidSDK/src/main/java/com/mapbox/mapboxsdk/AccountsManager.java:45-101 | a managed manager starts with the stored user id (or the new one, then stored) and a token and timestamp equal to the stored ones |
| Accounts.SkuTokenKeepsSynced | platform/android/MapboxGLAndroidSDK/src/main/java/com/mapbox/mapboxsdk/AccountsManager.java:103-118 | reading the token keeps a managed manager's token and timestamp equal to the stored ones |
| Accounts.ManagedRotationOnlyWhenExpired | platform/android/MapboxGLAndroidSDK/src/main/java/com/mapbox/mapboxsdk/AccountsManager.java:105-111 | a managed token is replaced iff it is expired, by one for the stored user, stored with the new timestamp; otherwise nothing changes |
| Accounts.RotatedTokenStableForAnHour | platform/android/MapboxGLAndroidSDK/src/main/java/com/mapbox/mapboxsdk/AccountsManager.java:103-126 | a freshly rotated token is returned unchanged by any read within the next hour |
| Accounts.UnmanagedReadsStoredToken | platform/android/MapboxGLAndroidSDK/src/main/java/com/mapbox/mapboxsdk/AccountsManager.java:112-116 | an unmanaged manager returns the stored token, or "" when none is stored, and writes nothing |
| Accounts.AccountsManager.constructor | platform/android/MapboxGLAndroidSDK/src/main/java/com/mapbox/mapboxsdk/AccountsManager.java:45-54 | the fields are the initial state of the specification |
| Accounts.AccountsManager.ValidateUserId | platform/android/MapboxGLAndroidSDK/src/main/java/com/mapbox/mapboxsdk/AccountsManager.java:80-91 | returns the stored non-empty user id, or stores and returns the new one |
| Accounts.AccountsManager.ValidateRotation | platform/android/MapboxGLAndroidSDK/src/main/java/com/mapbox/mapboxsdk/AccountsManager.java:93-101 | adopts the stored token and timestamp, or regenerates both when the timestamp is 0 or the token is empty |
| Accounts.AccountsManager.PersistRotation | platform/android/MapboxGLAndroidSDK/src/main/java/com/mapbox/mapboxsdk/AccountsManager.java:128-135 | stores the timestamp and token and returns the timestamp |
| Accounts.AccountsManager.GetSkuToken | platform/android/MapboxGLAndroidSDK/src/main/java/com/mapbox/mapboxsdk/AccountsManager.java:103-118 | the new state and the returned token match the specification |

## Left out

- Reading files, parsing JSON and decoding PNG are not modelled: the machine is an oracle of which paths exist, which files parse and which images decode. The JSON serialization handed to the engine is left out.
- Logging: the error log of `runOperations` is modelled as the `Operations.LogEntry` values `Apply` returns (runner.cpp:150, 210-325). The other log calls are not modelled: those of `checkImage` (runner.cpp:41, 53) and those of the parser (parser.cpp:105-213).
- `std::regex_replace` is modelled for the literal patterns the runner uses, replacing every occurrence.
- Floating point is modelled as `real`: the `float` pixel ratio and the `double` scores are exact. The `toString` of the pixel ratio in the renderer key is the value itself.
- `sleep` and `wait` are modelled as leaving the map unchanged. Timers, run loops and the render a `wait` triggers are left out.
- The engine's behaviour is parameters: style loading, filter/light/layer/source conversion, property validation, rendering and `pixelmatch`. Some details are fixed instead (see also the `setCenter` line below): camera values are not clamped, and adding a layer or source whose id exists is a no-op. In the engine such an add throws `std::runtime_error` ("… already exists"), which nothing in the runner catches, so the run ends; the model does not capture that abort.
- Operations.Apply: a `setCenter` entry (runner.cpp:186) accepts any latitude; Operations.Decode builds its `LatLng` from any two numbers. The engine's `LatLng` constructor rejects a latitude outside [-90, 90], or a NaN or infinite coordinate, by throwing `std::domain_error`. Nothing in `runOperations`, `run` or the driver catches it, so the run ends. The model does not capture that abort: it moves the camera and goes on with the remaining entries.
- The writes of `expected.png`, `actual.png` and `diff.png` are not modelled; only the scores are.
- Runner.CheckImage: one oracle, `Env.images`, stands for a file that both reads and decodes. The source branches only on whether `expected.png` reads and then decodes it unconditionally (runner.cpp:39-45). An expected image that reads but does not decode is treated as missing (score 0), which the source does not do.
- Operations.Apply: the same conflation for `addImage`/`updateImage` (runner.cpp:146-154). An image that reads but does not decode halts the operations like a missing one, which the source does not do.
- Argument parsing, directory traversal and shuffling are left out; the driver is given the list of scenario paths.
- Harness.TestName: the scenario path must contain the test root (`UnderRoot`). In the source, `erase` throws when `find` fails, which cannot happen for traversed paths.
- Parser.TestBlockOptions: `GetInt` on a number that is not a 32-bit integer is undefined behaviour in RapidJSON. The model keeps the default for a non-integral width or height, and stores any integral one modulo 2^32, as a negative `int` converted to `uint32_t` is (-1 gives 4294967295). Integers of 2^31 or more are therefore given a meaning the source does not define.
- A JSON value whose type the source asserts is read as absent when it has another type. The source's behaviour there is undefined (asserts off) or an abort (asserts on).
- Two properties one might expect do not hold:
  - The code always prefixes `file://`, so localizing twice is not a no-op; Resolver.LocalizationNotIdempotent proves it.
  - `checkImage` returns `false` (0) for a missing or mismatched expectation, so such scenarios pass; Runner.MissingOrMismatchedExpectationPasses states it.
- MapboxConstants is not part of this model. The shared token key is a named constant whose text is only required to differ from the other two keys, and the manage-token default is the `managed` parameter.
- The manifest lookup, `SharedPreferences`, `System.currentTimeMillis` and the `MapboxAccounts` generators are parameters. A preference of the wrong type reads as its default, where Android would throw `ClassCastException`.
- The two clock reads in `getSkuToken` are separate parameters.
- `editor.apply()` takes effect at once in the model; asynchronous disk persistence is left out.
