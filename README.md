# Playwright test harness: per-thread sessions, registry and data feed

This project models the coordination layer of a Java test-automation harness that is
built on Playwright, ExtentReports and TestNG. Parallel test threads each own one browser
session. The harness keeps each thread's handles in `ThreadLocal` slots. It also:

- resolves per-thread overrides against a shared configuration table;
- launches and tears down browsers in a fixed order;
- keeps a per-thread registry of the current page and frame;
- decides when a log event gets a screenshot;
- turns data files into header-keyed records.

Modelling choices:

- Threads are explicit ids. Every `ThreadLocal<T>` is a `map<ThreadId, T>`, and a missing
  key stands for `null`.
- Browser, context, page and frame handles are opaque values.
- Library calls, the clock, the file system and random draws are parameters: their
  outcomes are given to the model.
- Static state that the source updates in place is a class whose methods say what they
  change. The pure decisions are functions, and lemmas state the properties.

Modules:

- `Common`: Option, Result and the handles.
- `Text`: the `java.lang.String` operations the harness uses.
- `ThreadLocals`: thread-local semantics.
- `Registry`: `PageManager`.
- `Config`: `ConfigReader`.
- `Reports`: `ExtentManager`.
- `Logging`: `ExtentLogger`.
- `TestData`: `DynamicDataProvider`.
- `Lifecycle`: `TestBase`.
- `Pages`: `PageBase`.

Behaviour of the source that the model keeps as written:

- **A failed setup is not undone.** `setup` registers the handles (lines 222-228 of
  `TestBase.java`). If tracing or navigation then throws, the catch block (lines 236-239)
  logs and rethrows without closing or unregistering anything. `Lifecycle.SetupOutcome`
  states this.
- **Teardown stops at the first failing close step.** `tearDown` swallows the failure of
  the first close step and skips the rest (lines 278-288). `Lifecycle.TearDownOrder`
  states this.
- **Teardown can throw.** With no report object, `extent.flush()` in the `finally` block
  (lines 289-299) throws before the logger bindings are removed.
  `Lifecycle.TearDownClears` states this.
- **Setup without a configuration escapes its catch block.** The first statement of
  `setup` (line 163) logs through `ExtentLogger`. The class initialisation of
  `ExtentLogger` reads the configuration, so without one it fails with an `Error`. The
  `catch (Exception e)` at line 236 does not catch an `Error`.
- **The video is looked for in the wrong directory.** See Findings.

## Model

| member | source | states |
|---|---|---|
| Registry.WithPage | src/test/java/com/hcl/base/PageManager.java:44-47 | after `setPage(p)` the thread's page is p and its frame is forgotten, so `getFrame()` yields p's main frame; no other thread's entry changes |
| Registry.WithFrame | src/test/java/com/hcl/base/PageManager.java:76-78 | `setFrame(f)` makes `getFrame()` return f; `setFrame(null)` makes it fall back to the page's main frame, and is callable exactly when a page is set; other threads unchanged |
| Registry.Unloaded | src/test/java/com/hcl/base/PageManager.java:64-67 | `unload()` leaves the thread with neither page nor frame, so `getFrame()` may not be called; other threads unchanged |
| Registry.UnloadIdempotent | src/test/java/com/hcl/base/PageManager.java:64-67 | unloading twice equals unloading once |
| Registry.OwnRunDependsOnOwnSlot | src/test/java/com/hcl/base/PageManager.java:28-34 | a thread's own series of calls leads to an entry that depends only on its starting entry |
| Registry.ThreadIsolation | src/test/java/com/hcl/base/PageManager.java:28-34 | under any interleaving of calls from all threads, a thread's entry is what its own calls alone would make of it |
| Registry.NoPageUntilSetPage | src/test/java/com/hcl/base/PageManager.java:54-67 | once a thread has no page, `getPage()` stays null whatever others do, until that thread calls `setPage` |
| Registry.PageManager.constructor | src/test/java/com/hcl/base/PageManager.java:28-34 | both thread-local slots start empty for every thread |
| Registry.PageManager.SetPage | src/test/java/com/hcl/base/PageManager.java:44-47 | the new state is `WithPage` of the old |
| Registry.PageManager.GetPage | src/test/java/com/hcl/base/PageManager.java:54-56 | returns the thread's page, or null |
| Registry.PageManager.Unload | src/test/java/com/hcl/base/PageManager.java:64-67 | the new state is `Unloaded` of the old |
| Registry.PageManager.SetFrame | src/test/java/com/hcl/base/PageManager.java:76-78 | the new state is `WithFrame` of the old |
| Registry.PageManager.GetFrame | src/test/java/com/hcl/base/PageManager.java:88-91 | the explicitly set frame, else the page's main frame; it requires one of the two, because with neither the source dereferences null |
| ThreadLocals.Put | src/test/java/com/hcl/utils/ExtentLogger.java:93-99 | `set` or `remove` on one thread changes what `get` returns on that thread only |
| ThreadLocals.GetAfterReplay | src/test/java/com/hcl/utils/ExtentLogger.java:93-99 | after any series of set and remove calls from any threads, `get` returns the thread's last value set, null after its last remove, or the initial value if it never wrote |
| Config.Lookup | src/test/java/com/hcl/utils/ConfigReader.java:33-38 | throws "Properties not loaded" exactly when no table is installed; otherwise the stored value, or null for a missing key |
| Config.LookupOr | src/test/java/com/hcl/utils/ConfigReader.java:43-48 | the same failure before loading; otherwise the stored value, else the default |
| Config.LookupOrIsLookupWithDefault | src/test/java/com/hcl/utils/ConfigReader.java:33-48 | both forms read the same shared table and agree: the defaulted one is the plain one with null replaced by the default |
| Config.TableAfterLoad | src/test/java/com/hcl/utils/ConfigReader.java:19-28 | a stream that fails to open leaves the table as it was; once the stream is open a fresh table is installed, the partial one if loading then throws an IOException or a malformed-escape IllegalArgumentException |
| Config.LoadReplacesTable | src/test/java/com/hcl/utils/ConfigReader.java:21-22 | after a successful load every lookup answers from the new file alone; keys of an earlier load are gone |
| Config.ConfigReader.constructor | src/test/java/com/hcl/utils/ConfigReader.java:13 | the table starts absent |
| Config.ConfigReader.LoadProperties | src/test/java/com/hcl/utils/ConfigReader.java:19-28 | the new table is `TableAfterLoad`; the call fails exactly when the file did not load: an IOException with "Failed to load config.properties file: " and the cause, a malformed `\uxxxx` escape with the unwrapped IllegalArgumentException (the partly filled table stays installed) |
| Config.ConfigReader.GetProperty | src/test/java/com/hcl/utils/ConfigReader.java:33-38 | answers `Lookup` on the shared table |
| Config.ConfigReader.GetPropertyOr | src/test/java/com/hcl/utils/ConfigReader.java:43-48 | answers `LookupOr` on the shared table |
| Reports.ReportPath | src/test/java/com/hcl/utils/ExtentManager.java:42-47 | the path is "target/reports/" + folder + "/ExtentReport_", then the timestamp with each '_' turned into a space (no underscore is left), then ".html" |
| Reports.GetInstanceStep | src/test/java/com/hcl/utils/ExtentManager.java:31-40 | an existing instance is returned unchanged; an IOException leaves no instance and fails; otherwise a new instance is stored, and the call still fails if the configuration is not loaded |
| Reports.InstanceIsStable | src/test/java/com/hcl/utils/ExtentManager.java:31-40 | once the instance exists, every later call returns that same object and it is never replaced |
| Reports.AllSuccessesAgree | src/test/java/com/hcl/utils/ExtentManager.java:31-77 | over any series of calls, all successful calls return one and the same object: it is created at most once |
| Reports.ExtentManager.constructor | src/test/java/com/hcl/utils/ExtentManager.java:14 | no instance at first |
| Reports.ExtentManager.GetInstance | src/test/java/com/hcl/utils/ExtentManager.java:31-77 | the new state and the result are `GetInstanceStep`; an existing instance is returned and kept |
| Logging.ScreenshotMode | src/test/java/com/hcl/utils/ExtentLogger.java:24-27 | the mode is the configured value trimmed and lower-cased, "failed" when unset; it is always trimmed and lower case; initialisation fails without a configuration |
| Logging.DefaultModeIsFailed | src/test/java/com/hcl/utils/ExtentLogger.java:24-27 | the default "Failed" normalises to "failed" |
| Logging.AttachTable | src/test/java/com/hcl/utils/ExtentLogger.java:102-109 | an event is photographed exactly when the mode is "all", the mode is "failed" and the event is a failure, or the mode is "passed" and the event is a pass; so info and warning events get one only in mode "all" |
| Logging.AttachIgnoresEventCase | src/test/java/com/hcl/utils/ExtentLogger.java:105-106 | the event name is compared without regard to letter case |
| Logging.ScreenshotFile | src/test/java/com/hcl/utils/ExtentLogger.java:111-117 | nothing is attached unless both the test and the page are bound; the file is the name, "_", the timestamp and ".png": prefix, length and the middle slice pin it |
| Logging.ScreenshotFilesDistinct | src/test/java/com/hcl/utils/ExtentLogger.java:114-115 | two screenshots of one name taken at different times get different files |
| Logging.ShotName | src/test/java/com/hcl/utils/ExtentLogger.java:172-198 | each entry point names its screenshot after its own event, capitalised: the name lower-cases to the event name passed to `shouldAttach` |
| Logging.LogEvent | src/test/java/com/hcl/utils/ExtentLogger.java:172-198 | an entry is reported exactly when a test is bound; a screenshot is taken exactly when the policy says so and both bindings exist, and it is the file `ScreenshotFile` names for the entry point's shot name and the timestamp |
| Logging.ExtentLogger.constructor | src/test/java/com/hcl/utils/ExtentLogger.java:21-27 | the mode is fixed from the configuration and both bindings start empty |
| Logging.ExtentLogger.SetTest | src/test/java/com/hcl/utils/ExtentLogger.java:93 | the thread's test binding is set; the page bindings are unchanged |
| Logging.ExtentLogger.GetTest | src/test/java/com/hcl/utils/ExtentLogger.java:94 | the thread's test binding, or null |
| Logging.ExtentLogger.RemoveTest | src/test/java/com/hcl/utils/ExtentLogger.java:95 | the thread's test binding is removed; the page bindings are unchanged |
| Logging.ExtentLogger.SetPage | src/test/java/com/hcl/utils/ExtentLogger.java:97 | the thread's page binding is set; the test bindings are unchanged |
| Logging.ExtentLogger.GetPage | src/test/java/com/hcl/utils/ExtentLogger.java:98 | the thread's page binding, or null |
| Logging.ExtentLogger.RemovePage | src/test/java/com/hcl/utils/ExtentLogger.java:99 | the thread's page binding is removed; the test bindings are unchanged |
| Logging.ExtentLogger.Log | src/test/java/com/hcl/utils/ExtentLogger.java:172-198 | one logging call does `LogEvent` with the calling thread's bindings |
| TestData.Put | src/test/java/com/hcl/utils/DynamicDataProvider.java:85 | after `put(k, v)`, k maps to v and no entry appears other than the old ones and (k, v) |
| TestData.PutOther | src/test/java/com/hcl/utils/DynamicDataProvider.java:85 | `put` leaves every other key's value alone |
| TestData.PutNew | src/test/java/com/hcl/utils/DynamicDataProvider.java:85 | a new key is appended at the end, in insertion order |
| TestData.PutKeys | src/test/java/com/hcl/utils/DynamicDataProvider.java:85 | `put` adds its key to the key sequence only if it is new, and only at the end |
| TestData.PutDistinct | src/test/java/com/hcl/utils/DynamicDataProvider.java:85 | `put` never creates a second entry for a key |
| TestData.TrimmedHeaders | src/test/java/com/hcl/utils/DynamicDataProvider.java:148-150 | each header becomes its own trim, with count and order unchanged |
| TestData.Cell | src/test/java/com/hcl/utils/DynamicDataProvider.java:155-157 | the value of column j is the row's trimmed cell, or "" past the row's end |
| TestData.CsvRecords | src/test/java/com/hcl/utils/DynamicDataProvider.java:139-163 | an empty file gives no records; a header plus k rows gives exactly k records, record i built from row i+1 under the trimmed header |
| TestData.LastColumn | src/test/java/com/hcl/utils/DynamicDataProvider.java:152-158 | the last column with a given header, or none when no column has it |
| TestData.RowRecordClean | src/test/java/com/hcl/utils/DynamicDataProvider.java:145-158 | every key and value of a CSV record is non-null and trimmed |
| TestData.RowRecordGet | src/test/java/com/hcl/utils/DynamicDataProvider.java:152-158 | looking up a header gives the trimmed cell of the last column carrying it (duplicate headers overwrite); a non-header is absent |
| TestData.RowRecordDistinct | src/test/java/com/hcl/utils/DynamicDataProvider.java:152-158 | with distinct headers, the record maps header j to cell j in column order: short rows are padded with "" and cells past the header are dropped |
| TestData.CsvRecordShape | src/test/java/com/hcl/utils/DynamicDataProvider.java:139-163 | every CSV record has one entry per header column: the trimmed header and the trimmed cell or "" |
| TestData.TrimInPlace | src/test/java/com/hcl/utils/DynamicDataProvider.java:148-150 | the header array holds `TrimmedHeaders` of its old contents |
| TestData.ReadRow | src/test/java/com/hcl/utils/DynamicDataProvider.java:153-158 | the inner loop builds `RowRecord` for the whole header |
| TestData.ReadCsv | src/test/java/com/hcl/utils/DynamicDataProvider.java:139-163 | `readCsv` returns `CsvRecords` of the rows |
| TestData.TrimOpt | src/test/java/com/hcl/utils/DynamicDataProvider.java:83-84 | null stays null and a string becomes its trim |
| TestData.Trimmed | src/test/java/com/hcl/utils/DynamicDataProvider.java:79-88 | a rebuilt record has only trimmed keys and values, and distinct keys |
| TestData.FirstOccurrencesMembers | src/test/java/com/hcl/utils/DynamicDataProvider.java:81-86 | the first-occurrence order of a key list holds each of its keys exactly once |
| TestData.TrimmedKeys | src/test/java/com/hcl/utils/DynamicDataProvider.java:81-86 | the rebuilt record's keys are the input's trimmed keys in first-occurrence order: a key that trims to an earlier one takes the earlier position |
| TestData.LastTrimmedValueIsLast | src/test/java/com/hcl/utils/DynamicDataProvider.java:81-86 | the reference lookup finds a key exactly when some input key trims to it, and then gives the trimmed value of an entry after which no key trims to it |
| TestData.TrimmedGet | src/test/java/com/hcl/utils/DynamicDataProvider.java:81-86 | looking up a key in the rebuilt record gives the trimmed value of the last input entry whose key trims to it (a later `put` overwrites), and nothing when none does |
| TestData.Normalized | src/test/java/com/hcl/utils/DynamicDataProvider.java:79-88 | normalisation keeps the record count and order, and every output record is clean |
| TestData.TrimmedOfClean | src/test/java/com/hcl/utils/DynamicDataProvider.java:79-88 | a record that is already clean comes out unchanged |
| TestData.NormalizedIdempotent | src/test/java/com/hcl/utils/DynamicDataProvider.java:79-88 | normalising twice equals normalising once |
| TestData.NormalizeAll | src/test/java/com/hcl/utils/DynamicDataProvider.java:79-88 | the nested loops compute `Normalized` |
| TestData.ConvertToArray | src/test/java/com/hcl/utils/DynamicDataProvider.java:218-224 | a fresh n-by-1 array with `arr[i][0] == data[i]` |
| TestData.FormatOfIsSuffix | src/test/java/com/hcl/utils/DynamicDataProvider.java:72-76 | a file is read as a format exactly when its name ends with that format's suffix |
| TestData.LoadedRecords | src/test/java/com/hcl/utils/DynamicDataProvider.java:68-95 | every failure reads "Failed to load test data from: " and the file name; an unknown extension fails; for each of .xlsx, .csv, .json and .xml the load succeeds exactly when that format's reader does, and then returns `Normalized` of that reader's records (the CSV rows through `CsvRecords`); every record that comes out is trimmed |
| TestData.LoadData | src/test/java/com/hcl/utils/DynamicDataProvider.java:68-95 | succeeds exactly when `LoadedRecords` does, with its error text, or returns an n-by-1 array of its records |
| TestData.GetData | src/test/java/com/hcl/utils/DynamicDataProvider.java:45-56 | a method without the annotation is refused with the unwrapped "Missing @TestDataFile" error; otherwise it succeeds exactly when loading the annotated file does, fails with the load's error text, or returns an n-by-1 array of the loaded records |
| Text.Trim | src/test/java/com/hcl/utils/DynamicDataProvider.java:83-84 | `trim()` leaves no character <= ' ' at either end and leaves a trimmed string as it is |
| Text.TrimIdempotent | src/test/java/com/hcl/utils/DynamicDataProvider.java:83-84 | trimming twice equals trimming once |
| Text.TrimStartCutsBlanks | src/test/java/com/hcl/utils/DynamicDataProvider.java:83-84 | the leading cut of `trim()` removes blanks only |
| Text.TrimEndCutsBlanks | src/test/java/com/hcl/utils/DynamicDataProvider.java:83-84 | the trailing cut of `trim()` removes blanks only |
| Text.ToLower | src/test/java/com/hcl/utils/ExtentLogger.java:24-27 | lower-casing keeps the length, maps each letter, and leaves a lower-case string as it is |
| Text.ContainsIff | src/test/java/com/hcl/base/PageBase.java:1105 | `contains` holds exactly when the substring occurs at some index |
| Text.ParseInt | src/test/java/com/hcl/base/PageBase.java:591-593 | `parseInt` only ever yields a 32-bit value |
| Text.ParseIntRoundTrip | src/test/java/com/hcl/base/PageBase.java:591-593 | `parseInt` reads back the decimal rendering of every 32-bit int |
| Text.DigitsOfIntToString | src/test/java/com/hcl/base/PageBase.java:591-593 | the decimal rendering of a natural number is a non-empty run of digits with that value |
| Lifecycle.Resolve | src/test/java/com/hcl/base/TestBase.java:165-175 | browser, headless and URL each take the thread's override, else the configuration entry, else "chrome", false or null; the first lookup fails when no configuration is loaded |
| Lifecycle.BrowserLaunch | src/test/java/com/hcl/base/TestBase.java:186-192 | headless is passed through, and `--headless=new` is the only extra argument, present exactly when headless |
| Lifecycle.LaunchTable | src/test/java/com/hcl/base/TestBase.java:194-210 | ignoring case, firefox launches Firefox, edge launches Chromium on channel msedge, chromium launches plain Chromium, and anything else launches Chromium on channel chrome |
| Lifecycle.LaunchIgnoresCase | src/test/java/com/hcl/base/TestBase.java:194 | the browser kind is compared without regard to letter case |
| Lifecycle.VideosDir | src/test/java/com/hcl/base/TestBase.java:119 | the videos folder lies under "target/videos/" and ends in "/" |
| Lifecycle.TracesDir | src/test/java/com/hcl/base/TestBase.java:120 | the traces folder lies under "target/traces/" and ends in "/" |
| Lifecycle.ArtifactName | src/test/java/com/hcl/base/TestBase.java:278 | a trace file (line 278), a video folder (line 213) and a renamed video (line 393) are named by the folder, the test name, "_", the timestamp and the ending ("_trace.zip", none, ".webm"); length, prefix, middle slice and suffix pin the value |
| Lifecycle.ArtifactNamesDistinct | src/test/java/com/hcl/base/TestBase.java:278 | two different tests finishing at the same timestamp never share an artifact name (one test finishing twice in a second does) |
| Lifecycle.NewestIndex | src/test/java/com/hcl/base/TestBase.java:390 | `Stream.max` by modification time: the greatest time, and the first of equal maxima |
| Lifecycle.LatestReport | src/test/java/com/hcl/base/TestBase.java:320-339 | the copied report is a walked ".html" file with the greatest positive modification time, the first of equal maxima; no file is chosen when none has a positive time |
| Lifecycle.VideoToRename | src/test/java/com/hcl/base/TestBase.java:383-393 | nothing is renamed when the listing is null or has no ".webm" file; otherwise the renamed file is a listed video at least as new as every listed video |
| Lifecycle.DayFolderListing | src/test/java/com/hcl/base/TestBase.java:385-386 | as written, the listing holds exactly the files directly in the day's videos folder |
| Lifecycle.RecordedVideoNotListed | src/test/java/com/hcl/base/TestBase.java:213-216 | a video recorded into the test's own directory is never in that listing |
| Lifecycle.OwnFolderListing | src/test/java/com/hcl/base/TestBase.java:213-216 | the corrected listing holds exactly the files directly in the test's own video directory |
| Lifecycle.RecordedVideoListed | src/test/java/com/hcl/base/TestBase.java:383-393 | with the corrected listing, the test's newest video is the one renamed |
| Lifecycle.SetupOutcome | src/test/java/com/hcl/base/TestBase.java:160-240 | setup succeeds exactly when the configuration is loaded, the report exists and every library step works; it fails with the logger's initialisation Error without a configuration, the wrapped null dereference without a report, else the library's exception; the handles are registered exactly when the launch worked, even if tracing or navigation then fails, with no cleanup; before that only the logger's test binding changes; other threads and the overrides are untouched |
| Lifecycle.Completed | src/test/java/com/hcl/base/TestBase.java:278-288 | the steps that ran all worked, and the step after them failed |
| Lifecycle.RunSteps | src/test/java/com/hcl/base/TestBase.java:278-285 | the try block completes exactly `Completed` steps |
| Lifecycle.TearDownClears | src/test/java/com/hcl/base/TestBase.java:289-299 | whatever the library does, the thread is left with no handles and an empty registry entry; the logger bindings go only when the report object exists, otherwise the call throws; the overrides stay; other threads are untouched |
| Lifecycle.TearDownOrder | src/test/java/com/hcl/base/TestBase.java:278-288 | the steps run as trace stop, context, browser, engine; the first failure is the last step attempted and is swallowed; the trace archive `tracesDir + name + "_" + time + "_trace.zip"` is written exactly when the trace stop worked; the video is renamed, under a second clock reading, only when all four worked |
| Lifecycle.SessionLeavesNothing | src/test/java/com/hcl/base/TestBase.java:160-299 | after a successful setup and a teardown with the report present, the thread holds nothing but its overrides and every other thread is as before |
| Lifecycle.TestBase.constructor | src/test/java/com/hcl/base/TestBase.java:42-62 | all thread-local slots start empty and there is no report object |
| Lifecycle.TestBase.BeforeSuite | src/test/java/com/hcl/base/TestBase.java:110-123 | loads the configuration, then obtains the report with the configuration present, then fixes the two folders; it succeeds exactly when the file loads and the report exists or is created without an IOException; a failure leaves the later fields as they were |
| Lifecycle.TestBase.SetBrowser | src/test/java/com/hcl/base/TestBase.java:68-70 | only the thread's browser override changes |
| Lifecycle.TestBase.SetHeadless | src/test/java/com/hcl/base/TestBase.java:126-128 | only the thread's headless override changes |
| Lifecycle.TestBase.SetUrl | src/test/java/com/hcl/base/TestBase.java:131-133 | only the thread's URL override changes |
| Lifecycle.TestBase.GetHeadless | src/test/java/com/hcl/base/TestBase.java:136-138 | the thread's headless override, or null |
| Lifecycle.TestBase.GetUrl | src/test/java/com/hcl/base/TestBase.java:141-143 | the thread's URL override, or null |
| Lifecycle.TestBase.GetPlaywright | src/test/java/com/hcl/base/TestBase.java:405-407 | the thread's engine handle, or null |
| Lifecycle.TestBase.GetBrowser | src/test/java/com/hcl/base/TestBase.java:410-412 | the thread's browser, or null |
| Lifecycle.TestBase.GetContext | src/test/java/com/hcl/base/TestBase.java:415-417 | the thread's context, or null |
| Lifecycle.TestBase.GetPage | src/test/java/com/hcl/base/TestBase.java:420-422 | the thread's page, or null |
| Lifecycle.TestBase.Setup | src/test/java/com/hcl/base/TestBase.java:160-240 | the new state and the result are `SetupStep` |
| Lifecycle.TestBase.Launch | src/test/java/com/hcl/base/TestBase.java:180-233 | binds the test, then registers the handles if the launch worked, and fails if tracing or navigation fails |
| Lifecycle.TestBase.TearDown | src/test/java/com/hcl/base/TestBase.java:257-303 | the new state and the report are `TearDownStep` |
| Lifecycle.TestBase.Finally | src/test/java/com/hcl/base/TestBase.java:289-299 | clears the four slots and the registry entry, then throws with no report object, or else removes both logger bindings |
| Pages.CurrentPage | src/test/java/com/hcl/base/PageBase.java:55-59 | the registry's page, or "Page is not initialized in ThreadLocal!" exactly when there is none |
| Pages.TitleIndex | src/test/java/com/hcl/base/PageBase.java:849-863 | the first window whose title equals the argument, or none when no title matches |
| Pages.UrlIndex | src/test/java/com/hcl/base/PageBase.java:870-884 | the first window whose URL contains the argument, or none when no URL does |
| Pages.UrlFindsExactMatch | src/test/java/com/hcl/base/PageBase.java:870-884 | a window whose URL equals the argument is always found, at or before its own position |
| Pages.CheckIndex | src/test/java/com/hcl/base/PageBase.java:913-915 | an index passes exactly when 0 <= index < count, otherwise "Invalid window index: " and the index |
| Pages.ClickDispatch | src/test/java/com/hcl/base/PageBase.java:1050-1073 | an unknown type is refused with "Invalid click type: " and the type as given; "index" carries the index |
| Pages.ClickTable | src/test/java/com/hcl/base/PageBase.java:1052-1073 | ignoring case, click, doubleclick, rightclick and index each select their own action, and every other type is refused |
| Pages.Check | src/test/java/com/hcl/base/PageBase.java:755-766 | afterwards the box is checked; it is clicked exactly when it was unchecked |
| Pages.Uncheck | src/test/java/com/hcl/base/PageBase.java:771-782 | afterwards the box is unchecked; it is clicked exactly when it was checked |
| Pages.CheckIdempotent | src/test/java/com/hcl/base/PageBase.java:755-782 | a second check, or a second uncheck, issues no click and changes nothing |
| Pages.VerifyTextEquals | src/test/java/com/hcl/base/PageBase.java:1088-1095 | fails with "Text verification failed" exactly when the texts differ |
| Pages.VerifyTextContains | src/test/java/com/hcl/base/PageBase.java:1103-1110 | fails with "Text verification failed" exactly when the expected text occurs at no position |
| Pages.EqualsPassesContains | src/test/java/com/hcl/base/PageBase.java:1088-1110 | a text that passes the equality check passes the containment check |
| Pages.AlphabetIsAlphanumeric | src/test/java/com/hcl/base/PageBase.java:1136 | the 62-character alphabet holds only ASCII letters and digits, and every one of them |
| Pages.RandomText | src/test/java/com/hcl/base/PageBase.java:1135-1143 | a negative length throws; otherwise the result has the requested length, and character i is the drawn alphabet entry, a letter or digit |
| Pages.RandomEmail | src/test/java/com/hcl/base/PageBase.java:1150-1152 | "auto_", then 8 letters or digits, then "@testmail.com" |
| Pages.RandomNumber | src/test/java/com/hcl/base/PageBase.java:1160-1167 | a negative count throws; otherwise exactly `digits` decimal digits, the drawn ones, leading zeros kept |
| Pages.DigitStringBelow | src/test/java/com/hcl/base/PageBase.java:1160-1167 | read as a number, a random digit string of length d is below 10^d |
| Pages.DefaultTimeout | src/test/java/com/hcl/base/PageBase.java:591-593 | without a configuration it fails; an absent entry gives 5000; a present one succeeds exactly when it parses as a 32-bit int, and the result is the parsed value |
| Pages.DefaultTimeoutReadsBack | src/test/java/com/hcl/base/PageBase.java:591-593 | a wait written as a 32-bit int is read back unchanged |
| Pages.PageBase.constructor | src/test/java/com/hcl/base/PageBase.java:43-45 | the page object works through the shared registry and configuration |
| Pages.PageBase.GetPage | src/test/java/com/hcl/base/PageBase.java:55-59 | answers `CurrentPage` of the registry |
| Pages.PageBase.SwitchToDefaultFrame | src/test/java/com/hcl/base/PageBase.java:391-394 | the registry's frame is cleared, so `getFrame()` falls back to the page's main frame |
| Pages.PageBase.SwitchToWindowByTitle | src/test/java/com/hcl/base/PageBase.java:849-863 | with a current page, the first window with that title becomes the registry's page; with no match it fails with "Window not found with title: " and the registry is unchanged |
| Pages.PageBase.SwitchToWindowByUrl | src/test/java/com/hcl/base/PageBase.java:870-884 | likewise for the first window whose URL contains the argument |
| Pages.PageBase.SwitchToWindowByIndex | src/test/java/com/hcl/base/PageBase.java:911-918 | succeeds exactly when a page is current and the index is in range, making that window the registry's page; any failure leaves the registry unchanged |
| Pages.PageBase.CloseWindowByIndex | src/test/java/com/hcl/base/PageBase.java:925-932 | the same guard and bounds check, then selects the window to close; the registry is not touched |
| Pages.PageBase.GetDefaultTimeout | src/test/java/com/hcl/base/PageBase.java:591-593 | answers `DefaultTimeout` of the shared configuration |

## Left out

- The table `Properties.load` builds from `config.properties` (complete, or partly filled when loading throws) is an input of `Config.ConfigReader.LoadProperties`; the parsing of the properties format itself is not modelled.
- In setup and teardown every Playwright call is an abstract step whose success or failure is an input. This covers launch, context and page creation, tracing, navigation and closing.
- In `PageBase`, element state and text, the list of open pages and their titles and URLs are inputs, and the library calls that produce them or act on them are taken not to throw. The model does not capture a failure of `waitForSelector` (the presence wait in `getLocator`, whose timeout `getDefaultTimeout` supplies), `isChecked`, `check`, `uncheck`, `innerText`, `evaluate` (behind `executeJS`), `context().pages()`, `title()` or `url()`. This affects `Pages.Check`, `Pages.Uncheck`, `Pages.VerifyTextEquals`, `Pages.VerifyTextContains`, `Pages.ClickDispatch` and the `SwitchToWindowBy*` methods.
- ExtentReports calls are not modelled: creating tests, logging to them, flushing, and rendering and theming the report. Only the identity of the report object and its path are.
- Console logging and the suite and class banner hooks (`beforeTestClass`, `afterTestClass`) print only.
- The hidden-context screenshot machinery is not modelled. This is `initHiddenContext`, `closeHiddenContext` and the flicker-free branch of `attachScreenshotToTest`, which are library calls on static handles. The `FULL_PAGE` flag is only passed to the library.
- `ExtentLogger.attachScreenshot` is not a separate member: it is `ScreenshotFile` with the thread's test binding. The screenshot that `tearDown` attaches on failure, and the test-status logging before the close steps, are log output and are left out.
- File-system work is given as input: creating directories, walking and listing folders, modification times, copying and renaming. `TearDown`'s `listing` parameter stands for what `listFiles` returned.
- Clock readings and date formatting are given as timestamp strings. `tearDown` reads the clock twice, and the model takes both readings as separate inputs: `traceTime` for the trace name (line 278) and `timestamp` for the video name (line 393).
- `SecureRandom` draws are parameters of the random-data methods.
- Third-party file readers are not modelled. The spreadsheet, JSON and XML readers give records, and the CSV tokeniser gives rows of non-null cells, so the tokeniser's null-to-"" handling is not modelled.
- Real thread-local semantics and `synchronized` are not modelled. Threads are explicit ids, and calls are sequential in any interleaving.
- `Text.ToLower`: `toLowerCase` and `equalsIgnoreCase` are modelled on ASCII letters only.
- `Text.ParseInt`: decimal digits are ASCII only.
- The texts of exceptions raised by the JVM are approximations: the null dereference without the JVM's detail text, the negative buffer size, the number format, and the class-initialisation Error. The latter is an `ExceptionInInitializerError` the first time and a `NoClassDefFoundError` on later calls, and the model uses the first.
- A setup failure is rethrown as `new RuntimeException(e)`, whose message is the cause's `toString()`. The library errors in `Lifecycle.SetupWorld` stand for that text. The null dereference is modelled by its class name.
- `closeAllOtherWindows` and `getAllWindowHandles` only forward to the library. The JavaScript strings that `clickWithType` runs are not modelled; only the dispatch is.
- `getTodayFolder` is read twice in the source, once by `ExtentManager` and once by `beforeSuiteSetup`. The model takes one reading for each.
- The author lookup and the `createTest` call in `setup` are part of the report node, which is an input.

## Findings

| source | as written | input that shows it | evidently intended | confidence | as-written member | corrected member |
|---|---|---|---|---|---|---|
| src/test/java/com/hcl/base/TestBase.java:383-393 | `renameLatestVideo` lists the ".webm" files directly in the day's `videosDir`. But `setup` records each test's video into its own subdirectory, `videosDir + name + "_" + timestamp` (line 213). | Any test run. Its video lies at `videosDir/<name>_<time>/<id>.webm`, which is not directly in `videosDir`, so it is never listed or renamed. | List the test's own video directory, so that its newest video is renamed. | high, not executed | Lifecycle.RecordedVideoNotListed | Lifecycle.RecordedVideoListed |
