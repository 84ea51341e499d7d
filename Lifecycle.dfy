/** TestBase.java: the per-test browser session around every test method. Setup resolves
    the browser, headless flag and URL, launches a browser and registers its handles in
    per-thread slots; teardown closes everything in a fixed order and clears the slots
    whatever happens. The library calls (launch, close, tracing, navigation), the clock
    and the file system are abstract steps whose outcomes are given. */
module Lifecycle {
  import opened Common
  import opened Text
  import opened Config
  import Registry
  import Reports
  import Logging
  import TL = ThreadLocals

  // ---------------------------------------------------------------------------------
  // Which browser, headless or not, which URL

  /** The per-thread overrides a test may set before setup (null when unset). */
  datatype Overrides = Overrides(browser: Option<string>, headless: Option<bool>, url: Option<string>)

  /** The effective choices of one setup; the URL is null when neither an override nor
      the configuration gives one. */
  datatype Settings = Settings(browser: string, headless: bool, url: Option<string>)

  /** The resolution in `setup`: every choice takes the thread's override when there is
      one, else the configuration entry, else the built-in default ("chrome", false, null).
      The first lookup throws while the configuration is not loaded. */
  function Resolve(o: Overrides, prop: Option<Properties>): (r: Result<Settings>)
    ensures r.Err? <==> prop.None?
    ensures r.Err? ==> r.error == NotLoadedMessage
    ensures r.Ok? && o.browser.Some? ==> r.value.browser == o.browser.value
    ensures r.Ok? && o.browser.None? && "browser" in prop.value ==> r.value.browser == prop.value["browser"]
    ensures r.Ok? && o.browser.None? && "browser" !in prop.value ==> r.value.browser == "chrome"
    ensures r.Ok? && o.headless.Some? ==> r.value.headless == o.headless.value
    ensures r.Ok? && o.headless.None? && "headless" in prop.value ==>
              r.value.headless == ParseBoolean(prop.value["headless"])
    ensures r.Ok? && o.headless.None? && "headless" !in prop.value ==> !r.value.headless
    ensures r.Ok? && o.url.Some? ==> r.value.url == o.url
    ensures r.Ok? && o.url.None? && "baseUrl" in prop.value ==> r.value.url == Some(prop.value["baseUrl"])
    ensures r.Ok? && o.url.None? && "baseUrl" !in prop.value ==> r.value.url == None
  {
    if prop.None? then Err(NotLoadedMessage)
    else
      var baseUrl := Lookup(prop, "baseUrl").value;
      var configBrowser := LookupOr(prop, "browser", "chrome").value;
      var configHeadless := LookupOr(prop, "headless", "false").value;
      assert ToLower("false") != ToLower("true") by {
        assert |ToLower("false")| != |ToLower("true")|;
      }
      Ok(Settings(o.browser.GetOr(configBrowser),
                  o.headless.GetOr(ParseBoolean(configHeadless)),
                  if o.url.Some? then o.url else baseUrl))
  }

  /** The two browser engines the harness launches. */
  datatype Engine = Chromium | Firefox

  /** The launch options: engine, release channel, headless flag and extra arguments. */
  datatype Launch = Launch(engine: Engine, channel: Option<string>, headless: bool, args: seq<string>)

  const HeadlessArg := "--headless=new"

  /** The browser switch of `setup`, on the lower-cased browser kind. */
  function BrowserLaunch(browser: string, headless: bool): (r: Launch)
    ensures r.headless == headless
    ensures (HeadlessArg in r.args <==> headless) && |r.args| <= 1
  {
    var args := if headless then [HeadlessArg] else [];
    match ToLower(browser)
    case "firefox" => Launch(Firefox, None, headless, args)
    case "edge" => Launch(Chromium, Some("msedge"), headless, args)
    case "chromium" => Launch(Chromium, None, headless, args)
    case _ => Launch(Chromium, Some("chrome"), headless, args)
  }

  /** The switch as a table, ignoring letter case: firefox runs Firefox, edge runs
      Chromium on the msedge channel, chromium runs plain Chromium, and "chrome" or
      anything else runs Chromium on the chrome channel. */
  lemma LaunchTable(browser: string, headless: bool)
    ensures var l := BrowserLaunch(browser, headless);
      && (EqualsIgnoreCase(browser, "firefox") ==> l.engine == Firefox && l.channel == None)
      && (EqualsIgnoreCase(browser, "edge") ==> l.engine == Chromium && l.channel == Some("msedge"))
      && (EqualsIgnoreCase(browser, "chromium") ==> l.engine == Chromium && l.channel == None)
      && ((!EqualsIgnoreCase(browser, "firefox") && !EqualsIgnoreCase(browser, "edge")
           && !EqualsIgnoreCase(browser, "chromium")) ==> l.engine == Chromium && l.channel == Some("chrome"))
  {
    assert IsLower("firefox") && IsLower("edge") && IsLower("chromium");
  }

  /** The browser kind is compared without regard to letter case. */
  lemma LaunchIgnoresCase(browser: string, headless: bool)
    ensures BrowserLaunch(browser, headless) == BrowserLaunch(ToLower(browser), headless)
  {
    assert ToLower(ToLower(browser)) == ToLower(browser);
  }

  // ---------------------------------------------------------------------------------
  // Artifact names

  const VideosRoot := "target/videos/"
  const TracesRoot := "target/traces/"

  /** `videosDir` and `tracesDir`, fixed in `beforeSuiteSetup` from the day folder. */
  function VideosDir(today: string): (r: string)
    ensures StartsWith(r, VideosRoot) && EndsWith(r, "/")
  {
    var r := VideosRoot + today + "/";
    assert r[..|VideosRoot|] == VideosRoot;
    r
  }

  function TracesDir(today: string): (r: string)
    ensures StartsWith(r, TracesRoot) && EndsWith(r, "/")
  {
    var r := TracesRoot + today + "/";
    assert r[..|TracesRoot|] == TracesRoot;
    r
  }

  /** The names a test's artifacts get: the folder, the test name, an underscore, the
      timestamp and a fixed ending. The contract pins every piece, so the value. */
  function ArtifactName(dir: string, testName: string, timestamp: string, ending: string): (r: string)
    ensures |r| == |dir| + |testName| + 1 + |timestamp| + |ending|
    ensures StartsWith(r, dir + testName + "_")
    ensures r[|dir| + |testName| + 1..|r| - |ending|] == timestamp
    ensures EndsWith(r, ending)
  {
    var r := dir + testName + "_" + timestamp + ending;
    assert r[..|dir + testName + "_"|] == dir + testName + "_";
    assert r[|dir| + |testName| + 1..|r| - |ending|] == timestamp;
    assert r[|r| - |ending|..] == ending;
    r
  }

  /** The directory `setup` records a test's video into. */
  function VideoDir(videosDir: string, testName: string, timestamp: string): string {
    ArtifactName(videosDir, testName, timestamp, "")
  }

  /** The trace archive `tearDown` writes when tracing stops. */
  function TraceFile(tracesDir: string, testName: string, timestamp: string): string {
    ArtifactName(tracesDir, testName, timestamp, "_trace.zip")
  }

  /** The name `renameLatestVideo` gives the newest video. */
  function VideoName(videosDir: string, testName: string, timestamp: string): string {
    ArtifactName(videosDir, testName, timestamp, ".webm")
  }

  /** Two different tests finishing at the same timestamp never share an artifact name.
      The names are not unique beyond that: the iterations of one data-driven test that
      finish within the same second get the same trace file, and the later overwrites
      the earlier. */
  lemma ArtifactNamesDistinct(dir: string, a: string, b: string, timestamp: string, ending: string)
    requires a != b
    ensures ArtifactName(dir, a, timestamp, ending) != ArtifactName(dir, b, timestamp, ending)
  {
    var tail := "_" + timestamp + ending;
    assert ArtifactName(dir, a, timestamp, ending) == dir + a + tail;
    assert ArtifactName(dir, b, timestamp, ending) == dir + b + tail;
    if |a| == |b| {
      var k :| 0 <= k < |a| && a[k] != b[k];
      assert (dir + a + tail)[|dir| + k] == a[k];
      assert (dir + b + tail)[|dir| + k] == b[k];
    }
  }

  // ---------------------------------------------------------------------------------
  // Picking the newest file

  /** A file and its modification time (`lastModified()`, 0 when unknown). */
  datatype FileInfo = FileInfo(path: string, mtime: int)

  /** The files whose name ends with the suffix, in listing order. */
  function WithSuffix(fs: seq<FileInfo>, suffix: string): (r: seq<FileInfo>)
    ensures forall f :: f in r <==> f in fs && EndsWith(f.path, suffix)
    ensures |r| <= |fs|
  {
    if fs == [] then []
    else (if EndsWith(fs[0].path, suffix) then [fs[0]] else []) + WithSuffix(fs[1..], suffix)
  }

  /** `Stream.max` by modification time: the maximum, and of equal maxima the first,
      because the pairwise reduction keeps the left operand on a tie. */
  function NewestIndex(fs: seq<FileInfo>): (i: nat)
    requires |fs| > 0
    ensures i < |fs|
    ensures forall j | 0 <= j < |fs| :: fs[j].mtime <= fs[i].mtime
    ensures forall j | 0 <= j < i :: fs[j].mtime < fs[i].mtime
    decreases |fs|
  {
    if |fs| == 1 then 0
    else
      var k := NewestIndex(fs[..|fs| - 1]);
      if fs[k].mtime >= fs[|fs| - 1].mtime then k else |fs| - 1
  }

  /** The report `afterSuiteTearDown` copies: among the files found under the reports
      folder that end in ".html", the first with the greatest modification time, if
      that time is positive (the search starts from 0 with a strict comparison). */
  function LatestReportOf(walked: seq<FileInfo>): Option<FileInfo> {
    var reports := WithSuffix(walked, ".html");
    if forall f | f in reports :: f.mtime <= 0 then None
    else Some(reports[NewestIndex(reports)])
  }

  const LatestReportDir := "target/reports/LatestReport"
  const LatestReportFile := "target/reports/LatestReport/ExtentReport.html"

  /** The selection loop of `afterSuiteTearDown` over the walked files. */
  method LatestReport(walked: seq<FileInfo>) returns (latest: Option<FileInfo>)
    ensures latest == LatestReportOf(walked)
    ensures latest.Some? ==> latest.value in walked && EndsWith(latest.value.path, ".html") && latest.value.mtime > 0
  {
    var reports := WithSuffix(walked, ".html");
    var latestTime := 0;
    latest := None;
    for k := 0 to |reports|
      invariant latest.None? ==> latestTime == 0 && forall j | 0 <= j < k :: reports[j].mtime <= 0
      invariant latest.Some? ==> 0 < k && latest == Some(reports[NewestIndex(reports[..k])])
      invariant latest.Some? ==> latestTime == latest.value.mtime > 0
    {
      assert reports[..k + 1][..k] == reports[..k];
      if reports[k].mtime > latestTime {
        latestTime := reports[k].mtime;
        latest := Some(reports[k]);
      }
    }
    assert reports[..|reports|] == reports;
    if latest.None? {
      assert forall f | f in reports :: f.mtime <= 0;
    }
  }

  /** Which file `renameLatestVideo` renames: of the listed files ending in ".webm", the
      first newest; nothing when the listing failed (null) or has no video. */
  function VideoToRename(listing: Option<seq<FileInfo>>): (r: Option<FileInfo>)
    ensures r.None? <==> listing.None? || forall f | f in listing.value :: !EndsWith(f.path, ".webm")
    ensures r.Some? ==> r.value in listing.value && EndsWith(r.value.path, ".webm")
    ensures r.Some? ==> forall f | f in listing.value && EndsWith(f.path, ".webm") :: f.mtime <= r.value.mtime
  {
    if listing.None? then None
    else
      var videos := WithSuffix(listing.value, ".webm");
      if videos == [] then None
      else
        var i := NewestIndex(videos);
        assert videos[i] in videos;
        Some(videos[i])
  }

  // ---------------------------------------------------------------------------------
  // Where the video is looked for

  /** The files of a listing that lie directly in the directory `dir` (`dir` ends with
      "/"): what `File.listFiles` returns for it. */
  predicate DirectlyIn(path: string, dir: string) {
    StartsWith(path, dir) && forall i | |dir| <= i < |path| :: path[i] != '/'
  }

  /** As written, `renameLatestVideo` lists `videosDir` itself. */
  function DayFolderListing(files: seq<FileInfo>, videosDir: string): (r: seq<FileInfo>)
    ensures forall f :: f in r <==> f in files && DirectlyIn(f.path, videosDir)
  {
    if files == [] then []
    else (if DirectlyIn(files[0].path, videosDir) then [files[0]] else []) + DayFolderListing(files[1..], videosDir)
  }

  /** The recorder writes the video into the per-test directory created by `setup`, so
      as written the video of the finishing test is never among the files listed: no
      file recorded by setup's context is ever renamed. */
  lemma RecordedVideoNotListed(files: seq<FileInfo>, videosDir: string, testName: string, timestamp: string, base: string, mtime: int)
    ensures FileInfo(VideoDir(videosDir, testName, timestamp) + "/" + base, mtime) !in DayFolderListing(files, videosDir)
  {
    var p := VideoDir(videosDir, testName, timestamp) + "/" + base;
    var d := VideoDir(videosDir, testName, timestamp);
    assert p[|d|] == '/';
    assert |videosDir| <= |d|;
  }

  /** The evident intent: list the directory the test's video was recorded into. */
  function OwnFolderListing(files: seq<FileInfo>, videoDir: string): (r: seq<FileInfo>)
    ensures forall f :: f in r <==> f in files && DirectlyIn(f.path, videoDir + "/")
  {
    DayFolderListing(files, videoDir + "/")
  }

  /** Listing the test's own directory finds its video, and renames it when it is the
      newest video there. */
  lemma RecordedVideoListed(files: seq<FileInfo>, videosDir: string, testName: string, timestamp: string, base: string, mtime: int)
    requires forall i | 0 <= i < |base| :: base[i] != '/'
    requires EndsWith(base, ".webm")
    requires FileInfo(VideoDir(videosDir, testName, timestamp) + "/" + base, mtime) in files
    requires forall f | f in files && f != FileInfo(VideoDir(videosDir, testName, timestamp) + "/" + base, mtime) ::
               DirectlyIn(f.path, VideoDir(videosDir, testName, timestamp) + "/") ==> f.mtime < mtime
    ensures VideoToRename(Some(OwnFolderListing(files, VideoDir(videosDir, testName, timestamp))))
            == Some(FileInfo(VideoDir(videosDir, testName, timestamp) + "/" + base, mtime))
  {
    var d := VideoDir(videosDir, testName, timestamp) + "/";
    var v := FileInfo(d + base, mtime);
    OwnVideoShape(d, base);
    var listing := OwnFolderListing(files, VideoDir(videosDir, testName, timestamp));
    assert v in listing;
  }

  /** A file named `base` (no '/') and ending in ".webm" inside directory `d`. */
  lemma OwnVideoShape(d: string, base: string)
    requires forall i | 0 <= i < |base| :: base[i] != '/'
    requires EndsWith(base, ".webm")
    ensures DirectlyIn(d + base, d) && EndsWith(d + base, ".webm")
  {
    assert (d + base)[..|d|] == d;
    assert forall i | |d| <= i < |d + base| :: (d + base)[i] == base[i - |d|];
    assert (d + base)[|d + base| - 5..] == base[|base| - 5..];
  }

  // ---------------------------------------------------------------------------------
  // Setup and teardown

  /** Everything the session hooks read or write: the four handle slots, the three
      override slots, the page registry and the logger's two bindings. */
  datatype Harness = Harness(
    pw: map<ThreadId, Playwright>,
    br: map<ThreadId, Browser>,
    ctx: map<ThreadId, BrowserContext>,
    page: map<ThreadId, Page>,
    browserOverride: map<ThreadId, string>,
    headlessOverride: map<ThreadId, bool>,
    urlOverride: map<ThreadId, string>,
    registry: Registry.Slots,
    loggerTest: map<ThreadId, ExtentTest>,
    loggerPage: map<ThreadId, Page>)

  /** What one thread sees of the harness. */
  datatype ThreadView = ThreadView(
    pw: Option<Playwright>, br: Option<Browser>, ctx: Option<BrowserContext>, page: Option<Page>,
    overrides: Overrides, slot: Registry.Slot, test: Option<ExtentTest>, loggedPage: Option<Page>)

  function View(h: Harness, t: ThreadId): ThreadView {
    ThreadView(TL.Get(h.pw, t), TL.Get(h.br, t), TL.Get(h.ctx, t), TL.Get(h.page, t),
               OverridesOf(h, t), Registry.SlotOf(h.registry, t),
               TL.Get(h.loggerTest, t), TL.Get(h.loggerPage, t))
  }

  function OverridesOf(h: Harness, t: ThreadId): Overrides {
    Overrides(TL.Get(h.browserOverride, t), TL.Get(h.headlessOverride, t), TL.Get(h.urlOverride, t))
  }

  /** The four handle slots are filled together and emptied together. */
  predicate SameThreads(h: Harness) {
    h.pw.Keys == h.br.Keys == h.ctx.Keys == h.page.Keys
  }

  /** What the library does during one setup: the report node it creates, the launch
      (engine start, browser launch, context and page creation, any of which may throw)
      and the steps after registration (tracing start and navigation). An error stands
      for the `toString()` of the exception thrown, which is the message `setup` rethrows
      it under. */
  datatype Launched = Launched(pw: Playwright, br: Browser, ctx: BrowserContext, page: Page)
  datatype SetupWorld = SetupWorld(test: ExtentTest, launch: Result<Launched>, startAndNavigate: Result<()>)

  /** What a successful setup ran with. */
  datatype Session = Session(settings: Settings, launch: Launch)

  const NullPointer := "java.lang.NullPointerException"

  /** The first statement of `setup` logs through ExtentLogger, whose class initialisation
      reads the configuration; without one it fails with an Error, which the
      `catch (Exception e)` of `setup` does not catch. */
  const LoggerInitError := "java.lang.ExceptionInInitializerError"

  /** Lines 222-228: the handles go into their slots, the page into the registry and the
      logger. */
  function Register(h: Harness, t: ThreadId, l: Launched): Harness {
    h.(pw := h.pw[t := l.pw], br := h.br[t := l.br], ctx := h.ctx[t := l.ctx], page := h.page[t := l.page],
       registry := Registry.WithPage(h.registry, t, l.page), loggerPage := h.loggerPage[t := l.page])
  }

  /** `setup` on thread `t`, with the configuration table, the suite's report object and
      the library's behaviour. A failure is rethrown after logging and undoes nothing. */
  function SetupStep(h: Harness, t: ThreadId, prop: Option<Properties>, extent: Option<ExtentReports>, w: SetupWorld): (Harness, Result<Session>) {
    if prop.None? then (h, Err(LoggerInitError))
    else
      var s := Resolve(OverridesOf(h, t), prop).value;
      if extent.None? then (h, Err(NullPointer))
      else
        var h1 := h.(loggerTest := h.loggerTest[t := w.test]);
        match w.launch
        case Err(e) => (h1, Err(e))
        case Ok(l) =>
          var h2 := Register(h1, t, l);
          match w.startAndNavigate
          case Err(e) => (h2, Err(e))
          case Ok(_) => (h2, Ok(Session(s, BrowserLaunch(s.browser, s.headless))))
  }

  /** Binding the report node changes only the thread's logger test entry. */
  lemma BindTestView(h: Harness, t: ThreadId, test: ExtentTest)
    ensures var h' := h.(loggerTest := h.loggerTest[t := test]);
      && View(h', t) == View(h, t).(test := Some(test))
      && (forall u | u != t :: View(h', u) == View(h, u))
      && (SameThreads(h) ==> SameThreads(h'))
  {
  }

  /** Registration fills the thread's handle slots, registry page and logger page, and
      nothing else. */
  lemma RegisterView(h: Harness, t: ThreadId, l: Launched)
    ensures var h' := Register(h, t, l);
      && View(h', t) == View(h, t).(pw := Some(l.pw), br := Some(l.br), ctx := Some(l.ctx), page := Some(l.page),
                                    slot := Registry.Slot(Some(l.page), None), loggedPage := Some(l.page))
      && (forall u | u != t :: View(h', u) == View(h, u))
      && (SameThreads(h) ==> SameThreads(h'))
  {
    var h' := Register(h, t, l);
    assert Registry.SlotOf(h'.registry, t) == Registry.Slot(Some(l.page), None);
    forall u | u != t
      ensures View(h', u) == View(h, u)
    {
      assert Registry.SlotOf(h'.registry, u) == Registry.SlotOf(h.registry, u);
    }
  }

  /** How far setup gets: it succeeds exactly when the configuration is loaded, the
      report exists and every library step works; the handles are registered exactly
      when the launch worked, even if tracing or navigation then failed; before that
      point only the logger's test binding may have changed. A failure leaves with the
      logger's initialisation Error when there is no configuration, the wrapped null
      dereference when there is no report, and otherwise the library's exception. Only
      the thread itself is affected, its overrides stay, and the handle slots stay in
      step. */
  lemma SetupOutcome(h: Harness, t: ThreadId, prop: Option<Properties>, extent: Option<ExtentReports>, w: SetupWorld)
    ensures var (h', r) := SetupStep(h, t, prop, extent, w);
      && (r.Ok? <==> prop.Some? && extent.Some? && w.launch.Ok? && w.startAndNavigate.Ok?)
      && (r.Ok? ==> r.value.settings == Resolve(OverridesOf(h, t), prop).value)
      && (prop.None? ==> r == Err(LoggerInitError))
      && (prop.Some? && extent.None? ==> r == Err(NullPointer))
      && (prop.Some? && extent.Some? && w.launch.Err? ==> r == Err(w.launch.error))
      && (prop.Some? && extent.Some? && w.launch.Ok? && w.startAndNavigate.Err? ==> r == Err(w.startAndNavigate.error))
      && (prop.Some? && extent.Some? && w.launch.Ok? ==>
            var l := w.launch.value;
            View(h', t) == ThreadView(Some(l.pw), Some(l.br), Some(l.ctx), Some(l.page), OverridesOf(h, t),
                                      Registry.Slot(Some(l.page), None), Some(w.test), Some(l.page)))
      && (prop.Some? && extent.Some? && w.launch.Err? ==> View(h', t) == View(h, t).(test := Some(w.test)))
      && (prop.None? || extent.None? ==> h' == h)
      && (forall u | u != t :: View(h', u) == View(h, u))
      && (SameThreads(h) ==> SameThreads(h'))
  {
    if prop.Some? && extent.Some? {
      var h1 := h.(loggerTest := h.loggerTest[t := w.test]);
      BindTestView(h, t, w.test);
      if w.launch.Ok? {
        RegisterView(h1, t, w.launch.value);
      }
    }
  }

  /** The teardown steps inside the try block, in their order. */
  datatype Step = StopTrace | CloseContext | CloseBrowser | ClosePlaywright

  const CloseOrder: seq<Step> := [StopTrace, CloseContext, CloseBrowser, ClosePlaywright]

  /** What the library does in one teardown, step by step. */
  datatype TearDownWorld = TearDownWorld(stopTrace: Result<()>, closeContext: Result<()>, closeBrowser: Result<()>, closePlaywright: Result<()>)

  /** A step works when the handle it dereferences is there (else it throws a
      NullPointerException) and the library call does not throw. */
  predicate StepWorks(v: ThreadView, w: TearDownWorld, s: Step) {
    match s
    case StopTrace => v.ctx.Some? && w.stopTrace.Ok?
    case CloseContext => v.ctx.Some? && w.closeContext.Ok?
    case CloseBrowser => v.br.Some? && w.closeBrowser.Ok?
    case ClosePlaywright => v.pw.Some? && w.closePlaywright.Ok?
  }

  /** How many of the steps run to completion: they run in order and the first one
      that throws ends the try block. */
  function Completed(v: ThreadView, w: TearDownWorld, steps: seq<Step>): (n: nat)
    ensures n <= |steps|
    ensures forall j | 0 <= j < n :: StepWorks(v, w, steps[j])
    ensures n < |steps| ==> !StepWorks(v, w, steps[n])
  {
    if steps == [] || !StepWorks(v, w, steps[0]) then 0
    else 1 + Completed(v, w, steps[1..])
  }

  /** The try block of `tearDown`: the steps in order until one throws. */
  method RunSteps(v: ThreadView, w: TearDownWorld) returns (n: nat)
    ensures n == Completed(v, w, CloseOrder)
  {
    n := 0;
    while n < |CloseOrder| && StepWorks(v, w, CloseOrder[n])
      invariant n <= |CloseOrder|
      invariant Completed(v, w, CloseOrder) == n + Completed(v, w, CloseOrder[n..])
      decreases |CloseOrder| - n
    {
      assert CloseOrder[n..][1..] == CloseOrder[n + 1..];
      n := n + 1;
    }
  }

  /** What teardown did besides clearing the slots: the steps completed, the failing
      one (logged, not rethrown), the trace archive written, the video renamed and its
      new name, and whether the finally block itself threw (on a missing report object). */
  datatype TearDownReport = TearDownReport(
    completed: seq<Step>, failed: Option<Step>, trace: Option<string>,
    renamed: Option<(FileInfo, string)>, result: Result<()>)

  /** `tearDown` on thread `t`. `listing` is what listing the video folder returned
      (None for null); `traceTime` and `timestamp` are the two clock readings of this
      call, for the trace archive and for the video's new name. */
  function TearDownStep(h: Harness, t: ThreadId, extent: Option<ExtentReports>, w: TearDownWorld,
                        tracesDir: string, traceTime: string,
                        videosDir: string, testName: string, timestamp: string,
                        listing: Option<seq<FileInfo>>): (Harness, TearDownReport)
  {
    var n := Completed(View(h, t), w, CloseOrder);
    var trace := if n == 0 then None else Some(TraceFile(tracesDir, testName, traceTime));
    var renamed :=
      if n < |CloseOrder| then None
      else match VideoToRename(listing)
        case None => None
        case Some(f) => Some((f, VideoName(videosDir, testName, timestamp)));
    var cleared := h.(pw := h.pw - {t}, br := h.br - {t}, ctx := h.ctx - {t}, page := h.page - {t},
                      registry := Registry.Unloaded(h.registry, t));
    if extent.None? then
      (cleared, TearDownReport(CloseOrder[..n], if n < |CloseOrder| then Some(CloseOrder[n]) else None, trace, renamed, Err(NullPointer)))
    else
      (cleared.(loggerTest := cleared.loggerTest - {t}, loggerPage := cleared.loggerPage - {t}),
       TearDownReport(CloseOrder[..n], if n < |CloseOrder| then Some(CloseOrder[n]) else None, trace, renamed, Ok(())))
  }

  /** Whatever the library does, teardown leaves the thread with no handles and an empty
      registry entry; the logger's bindings go only when the report object exists
      (otherwise the finally block throws before removing them); the overrides stay;
      other threads are untouched; the handle slots stay in step. */
  lemma TearDownClears(h: Harness, t: ThreadId, extent: Option<ExtentReports>, w: TearDownWorld,
                       tracesDir: string, traceTime: string, videosDir: string, testName: string, timestamp: string,
                       listing: Option<seq<FileInfo>>)
    ensures var (h', rep) := TearDownStep(h, t, extent, w, tracesDir, traceTime, videosDir, testName, timestamp, listing);
      && View(h', t) == ThreadView(None, None, None, None, OverridesOf(h, t), Registry.Slot(None, None),
                                   if extent.Some? then None else TL.Get(h.loggerTest, t),
                                   if extent.Some? then None else TL.Get(h.loggerPage, t))
      && (rep.result.Ok? <==> extent.Some?)
      && (forall u | u != t :: View(h', u) == View(h, u))
      && (SameThreads(h) ==> SameThreads(h'))
  {
  }

  /** The steps run in the order trace stop, context, browser, engine; the first that
      fails is the last attempted; the trace archive is written, under the test's name
      and the first clock reading, exactly when the trace stop worked; the video is
      renamed, under the test's name and the second reading, only when all four worked
      and a video was listed. */
  lemma TearDownOrder(h: Harness, t: ThreadId, extent: Option<ExtentReports>, w: TearDownWorld,
                      tracesDir: string, traceTime: string, videosDir: string, testName: string, timestamp: string,
                      listing: Option<seq<FileInfo>>)
    ensures var rep := TearDownStep(h, t, extent, w, tracesDir, traceTime, videosDir, testName, timestamp, listing).1;
      && rep.completed <= CloseOrder
      && (forall s | s in rep.completed :: StepWorks(View(h, t), w, s))
      && (rep.failed.Some? <==> |rep.completed| < 4)
      && (rep.failed.Some? ==> rep.failed.value == CloseOrder[|rep.completed|] && !StepWorks(View(h, t), w, rep.failed.value))
      && (rep.trace.Some? <==> StepWorks(View(h, t), w, StopTrace))
      && (rep.trace.Some? ==> rep.trace.value == TraceFile(tracesDir, testName, traceTime))
      && (rep.renamed.Some? <==> rep.failed.None? && VideoToRename(listing).Some?)
      && (rep.renamed.Some? ==> rep.renamed.value == (VideoToRename(listing).value, VideoName(videosDir, testName, timestamp)))
  {
  }

  /** A full session: after a setup that worked and a teardown with the report present,
      the thread holds nothing any more (its overrides aside) and every other thread is
      as it was before the setup. */
  lemma SessionLeavesNothing(h: Harness, t: ThreadId, prop: Option<Properties>, e: ExtentReports, sw: SetupWorld,
                             tw: TearDownWorld, tracesDir: string, traceTime: string,
                             videosDir: string, testName: string, timestamp: string,
                             listing: Option<seq<FileInfo>>)
    requires SetupStep(h, t, prop, Some(e), sw).1.Ok?
    ensures var h1 := SetupStep(h, t, prop, Some(e), sw).0;
      var h2 := TearDownStep(h1, t, Some(e), tw, tracesDir, traceTime, videosDir, testName, timestamp, listing).0;
      && View(h2, t) == ThreadView(None, None, None, None, OverridesOf(h, t), Registry.Slot(None, None), None, None)
      && (forall u | u != t :: View(h2, u) == View(h, u))
  {
    var h1 := SetupStep(h, t, prop, Some(e), sw).0;
    SetupOutcome(h, t, prop, Some(e), sw);
    TearDownClears(h1, t, Some(e), tw, tracesDir, traceTime, videosDir, testName, timestamp, listing);
  }

  // ---------------------------------------------------------------------------------
  // The class

  /** The static state of TestBase, with the registry, logger, configuration and
      report manager it works through. */
  class TestBase {
    var tlPlaywright: map<ThreadId, Playwright>
    var tlBrowser: map<ThreadId, Browser>
    var tlContext: map<ThreadId, BrowserContext>
    var tlPage: map<ThreadId, Page>
    var browserTypeTL: map<ThreadId, string>
    var headlessTL: map<ThreadId, bool>
    var urlTL: map<ThreadId, string>
    var extent: Option<ExtentReports>
    var videosDir: string
    var tracesDir: string
    const registry: Registry.PageManager
    const logger: Logging.ExtentLogger
    const config: ConfigReader
    const manager: Reports.ExtentManager

    function State(): Harness
      reads this, registry, logger
    {
      Harness(tlPlaywright, tlBrowser, tlContext, tlPage, browserTypeTL, headlessTL, urlTL,
              registry.State(), logger.testThread, logger.pageThread)
    }

    constructor (registry: Registry.PageManager, logger: Logging.ExtentLogger, config: ConfigReader, manager: Reports.ExtentManager)
      ensures this.registry == registry && this.logger == logger && this.config == config && this.manager == manager
      ensures tlPlaywright == map[] && tlBrowser == map[] && tlContext == map[] && tlPage == map[]
      ensures browserTypeTL == map[] && headlessTL == map[] && urlTL == map[]
      ensures extent == None
    {
      this.registry, this.logger, this.config, this.manager := registry, logger, config, manager;
      tlPlaywright, tlBrowser, tlContext, tlPage := map[], map[], map[], map[];
      browserTypeTL, headlessTL, urlTL := map[], map[], map[];
      extent := None;
      videosDir, tracesDir := "", "";
    }

    /** `beforeSuiteSetup`: load the configuration, obtain the report, fix the artifact
        directories from the day folder. A failing load or report creation throws out
        of the hook, leaving the later fields as they were. The report is only asked for
        after a successful load, so its creation always finds the configuration; `newId`
        and `io` are what that creation meets. */
    method BeforeSuite(file: FileRead, reportFolder: string, reportTimestamp: string, newId: nat, io: Result<()>, today: string)
      returns (r: Result<()>)
      modifies this, config, manager
      ensures config.prop == TableAfterLoad(old(config.prop), file)
      ensures var step := Reports.GetInstanceStep(old(manager.extent), Reports.Attempt(newId, io, true),
                                                  Reports.ReportPath(reportFolder, reportTimestamp));
        && (file.Loaded? ==> manager.extent == step.0)
        && (!file.Loaded? ==> manager.extent == old(manager.extent))
        && (r.Ok? <==> file.Loaded? && step.1.Ok?)
        && (r.Ok? ==> extent == Some(step.1.value) && videosDir == VideosDir(today) && tracesDir == TracesDir(today))
        && (r.Err? ==> extent == old(extent) && videosDir == old(videosDir) && tracesDir == old(tracesDir))
      ensures r.Ok? <==> file.Loaded? && (old(manager.extent).Some? || io.Ok?)
      ensures State() == old(State())
    {
      var loaded := config.LoadProperties(file);
      if loaded.Err? {
        return Err(loaded.error);
      }
      var got := manager.GetInstance(reportFolder, reportTimestamp, Reports.Attempt(newId, io, config.prop.Some?));
      if got.Err? {
        return Err(got.error);
      }
      extent := Some(got.value);
      videosDir := VideosDir(today);
      tracesDir := TracesDir(today);
      r := Ok(());
    }

    method SetBrowser(t: ThreadId, browser: string)
      modifies this
      ensures State() == old(State()).(browserOverride := TL.Put(old(browserTypeTL), TL.Write(t, Some(browser))))
      ensures extent == old(extent) && videosDir == old(videosDir) && tracesDir == old(tracesDir)
    {
      browserTypeTL := browserTypeTL[t := browser];
    }

    method SetHeadless(t: ThreadId, headless: bool)
      modifies this
      ensures State() == old(State()).(headlessOverride := TL.Put(old(headlessTL), TL.Write(t, Some(headless))))
      ensures extent == old(extent) && videosDir == old(videosDir) && tracesDir == old(tracesDir)
    {
      headlessTL := headlessTL[t := headless];
    }

    method SetUrl(t: ThreadId, url: string)
      modifies this
      ensures State() == old(State()).(urlOverride := TL.Put(old(urlTL), TL.Write(t, Some(url))))
      ensures extent == old(extent) && videosDir == old(videosDir) && tracesDir == old(tracesDir)
    {
      urlTL := urlTL[t := url];
    }

    method GetHeadless(t: ThreadId) returns (headless: Option<bool>)
      ensures headless == OverridesOf(State(), t).headless
    {
      headless := if t in headlessTL then Some(headlessTL[t]) else None;
    }

    method GetUrl(t: ThreadId) returns (url: Option<string>)
      ensures url == OverridesOf(State(), t).url
    {
      url := if t in urlTL then Some(urlTL[t]) else None;
    }

    method GetPlaywright(t: ThreadId) returns (pw: Option<Playwright>)
      ensures pw == View(State(), t).pw
    {
      pw := if t in tlPlaywright then Some(tlPlaywright[t]) else None;
    }

    method GetBrowser(t: ThreadId) returns (br: Option<Browser>)
      ensures br == View(State(), t).br
    {
      br := if t in tlBrowser then Some(tlBrowser[t]) else None;
    }

    method GetContext(t: ThreadId) returns (ctx: Option<BrowserContext>)
      ensures ctx == View(State(), t).ctx
    {
      ctx := if t in tlContext then Some(tlContext[t]) else None;
    }

    method GetPage(t: ThreadId) returns (page: Option<Page>)
      ensures page == View(State(), t).page
    {
      page := if t in tlPage then Some(tlPage[t]) else None;
    }

    /** `setup` for thread `t`. */
    method Setup(t: ThreadId, w: SetupWorld) returns (r: Result<Session>)
      modifies this, registry, logger
      ensures (State(), r) == SetupStep(old(State()), t, config.prop, extent, w)
      ensures extent == old(extent) && videosDir == old(videosDir) && tracesDir == old(tracesDir)
    {
      if config.prop.None? {
        return Err(LoggerInitError);
      }
      var settings := Resolve(OverridesOf(State(), t), config.prop).value;
      if extent.None? {
        return Err(NullPointer);
      }
      r := Launch(t, w, settings);
    }

    /** The part of `setup` after the report node is created. */
    method Launch(t: ThreadId, w: SetupWorld, settings: Settings) returns (r: Result<Session>)
      modifies this, registry, logger
      ensures var h1 := old(State()).(loggerTest := old(State()).loggerTest[t := w.test]);
        match w.launch
        case Err(e) => State() == h1 && r == Err(e)
        case Ok(l) =>
          && State() == Register(h1, t, l)
          && r == if w.startAndNavigate.Err? then Err(w.startAndNavigate.error)
                  else Ok(Session(settings, BrowserLaunch(settings.browser, settings.headless)))
      ensures extent == old(extent) && videosDir == old(videosDir) && tracesDir == old(tracesDir)
    {
      logger.SetTest(t, w.test);
      if w.launch.Err? {
        return Err(w.launch.error);
      }
      var l := w.launch.value;
      tlPlaywright := tlPlaywright[t := l.pw];
      tlBrowser := tlBrowser[t := l.br];
      tlContext := tlContext[t := l.ctx];
      tlPage := tlPage[t := l.page];
      registry.SetPage(t, l.page);
      logger.SetPage(t, l.page);
      if w.startAndNavigate.Err? {
        return Err(w.startAndNavigate.error);
      }
      r := Ok(Session(settings, BrowserLaunch(settings.browser, settings.headless)));
    }

    /** `tearDown` for thread `t`. */
    method TearDown(t: ThreadId, w: TearDownWorld, testName: string, traceTime: string, timestamp: string,
                    listing: Option<seq<FileInfo>>)
      returns (rep: TearDownReport)
      modifies this, registry, logger
      ensures (State(), rep) == TearDownStep(old(State()), t, extent, w, tracesDir, traceTime, videosDir, testName, timestamp, listing)
      ensures extent == old(extent) && videosDir == old(videosDir) && tracesDir == old(tracesDir)
    {
      var n := RunSteps(View(State(), t), w);
      var trace := if n == 0 then None else Some(TraceFile(tracesDir, testName, traceTime));
      var renamed := None;
      if n == |CloseOrder| {
        var video := VideoToRename(listing);
        if video.Some? {
          renamed := Some((video.value, VideoName(videosDir, testName, timestamp)));
        }
      }
      var failed := if n < |CloseOrder| then Some(CloseOrder[n]) else None;
      var result := Finally(t);
      rep := TearDownReport(CloseOrder[..n], failed, trace, renamed, result);
    }

    /** The finally block of `tearDown`. */
    method Finally(t: ThreadId) returns (r: Result<()>)
      modifies this, registry, logger
      ensures var cleared := old(State()).(pw := old(tlPlaywright) - {t}, br := old(tlBrowser) - {t},
                                           ctx := old(tlContext) - {t}, page := old(tlPage) - {t},
                                           registry := Registry.Unloaded(old(registry.State()), t));
        && (extent.None? ==> State() == cleared && r == Err(NullPointer))
        && (extent.Some? ==> State() == cleared.(loggerTest := cleared.loggerTest - {t}, loggerPage := cleared.loggerPage - {t})
                             && r == Ok(()))
      ensures extent == old(extent) && videosDir == old(videosDir) && tracesDir == old(tracesDir)
    {
      tlPage := tlPage - {t};
      tlContext := tlContext - {t};
      tlBrowser := tlBrowser - {t};
      tlPlaywright := tlPlaywright - {t};
      registry.Unload(t);
      if extent.None? {
        return Err(NullPointer);
      }
      logger.RemoveTest(t);
      logger.RemovePage(t);
      r := Ok(());
    }
  }
}
