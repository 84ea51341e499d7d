/** ExtentLogger.java: when a log event gets a screenshot, and the per-thread bindings of
    the report test node and the page to photograph. Taking the picture, writing files
    and the hidden-page machinery are library and file-system work outside this model. */
module Logging {
  import opened Common
  import opened Text
  import opened Config
  import TL = ThreadLocals

  const ModeKey := "reporting.screenshots"

  /** The static `screenshotMode`: the configured value (default "Failed"), trimmed and
      lower-cased. Reading it before the configuration is loaded fails the class
      initialisation. */
  function ScreenshotMode(prop: Option<Properties>): (r: Result<string>)
    ensures r.Err? <==> prop.None?
    ensures r.Ok? ==> IsTrimmed(r.value) && IsLower(r.value)
    ensures r.Ok? && ModeKey !in prop.value ==> r.value == "failed"
    ensures r.Ok? && ModeKey in prop.value ==> r.value == ToLower(Trim(prop.value[ModeKey]))
  {
    match LookupOr(prop, ModeKey, "Failed")
    case Err(e) => Err(e)
    case Ok(v) =>
      var m := ToLower(Trim(v));
      LowerKeepsTrimmed(Trim(v));
      DefaultModeIsFailed();
      Ok(m)
  }

  lemma DefaultModeIsFailed()
    ensures ToLower(Trim("Failed")) == "failed"
  {
    assert IsTrimmed("Failed");
    var l := ToLower("Failed");
    assert l[0] == 'f';
    assert l == "failed";
  }

  lemma LowerKeepsTrimmed(s: string)
    requires IsTrimmed(s)
    ensures IsTrimmed(ToLower(s))
  {
  }

  /** `shouldAttach(event)` for the configured mode. */
  predicate ShouldAttach(mode: string, event: string) {
    match mode
    case "all" => true
    case "failed" => EqualsIgnoreCase(event, "fail")
    case "passed" => EqualsIgnoreCase(event, "pass")
    case _ => false
  }

  /** The four logging entry points and the event name each passes to `shouldAttach`. */
  datatype Level = Info | Pass | Fail | Warning

  function EventName(level: Level): string {
    match level
    case Info => "info"
    case Pass => "pass"
    case Fail => "fail"
    case Warning => "warning"
  }

  /** The name each entry point gives its screenshot: its event name with a capital
      first letter. */
  function ShotName(level: Level): (r: string)
    ensures |r| > 0 && 'A' <= r[0] <= 'Z'
    ensures ToLower(r) == EventName(level)
  {
    match level
    case Info => "Info"
    case Pass => "Pass"
    case Fail => "Fail"
    case Warning => "Warning"
  }

  /** The policy as a table: mode "all" photographs every event, "failed" only failures,
      "passed" only passes, and any other mode (including "none") nothing; info and
      warning events therefore get a screenshot only in mode "all". */
  lemma AttachTable(mode: string, level: Level)
    ensures ShouldAttach(mode, EventName(level)) <==>
              || mode == "all"
              || (mode == "failed" && level == Fail)
              || (mode == "passed" && level == Pass)
  {
    var e := ToLower(EventName(level));
    assert ToLower("fail") == "fail" && ToLower("pass") == "pass";
    match level
    case Info => assert e[0] == 'i';
    case Pass => assert e[0] == 'p' && e == "pass";
    case Fail => assert e[0] == 'f' && e == "fail";
    case Warning => assert |e| == 7;
  }

  /** `shouldAttach` ignores the letter case of the event. */
  lemma AttachIgnoresEventCase(mode: string, event: string)
    ensures ShouldAttach(mode, event) == ShouldAttach(mode, ToLower(event))
  {
    assert ToLower(ToLower(event)) == ToLower(event);
  }

  /** `attachScreenshotToTest`: nothing happens without both a test node and a page;
      otherwise the picture is filed as `name_HH_mm_ss.png`. */
  function ScreenshotFile(test: Option<ExtentTest>, page: Option<Page>, name: string, timestamp: string): (r: Option<string>)
    ensures r.Some? <==> test.Some? && page.Some?
    ensures r.Some? ==> StartsWith(r.value, name + "_") && EndsWith(r.value, ".png")
    ensures r.Some? ==> |r.value| == |name| + |timestamp| + 5
    ensures r.Some? ==> r.value[|name| + 1..|r.value| - 4] == timestamp
  {
    if test.None? || page.None? then None
    else
      var f := name + "_" + timestamp + ".png";
      assert f[..|name| + 1] == name + "_";
      assert f[|f| - 4..] == ".png";
      assert f[|name| + 1..|f| - 4] == timestamp;
      Some(f)
  }

  /** Two screenshots of one name taken at different times never overwrite each other. */
  lemma ScreenshotFilesDistinct(test: Option<ExtentTest>, page: Option<Page>, name: string, t1: string, t2: string)
    requires test.Some? && page.Some? && t1 != t2
    ensures ScreenshotFile(test, page, name, t1) != ScreenshotFile(test, page, name, t2)
  {
    var f1, f2 := ScreenshotFile(test, page, name, t1).value, ScreenshotFile(test, page, name, t2).value;
    assert f1[|name| + 1..|f1| - 4] == t1;
  }

  /** What one logging call leaves behind: an entry in the test node (when there is
      one) and the name of the screenshot it attaches, if any. */
  datatype LogRecord = LogRecord(reported: bool, screenshot: Option<string>)

  /** `info`/`pass`/`fail`/`warning` with the thread's current bindings. */
  function LogEvent(mode: string, level: Level, test: Option<ExtentTest>, page: Option<Page>, timestamp: string): (r: LogRecord)
    ensures r.reported <==> test.Some?
    ensures r.screenshot.Some? <==> ShouldAttach(mode, EventName(level)) && test.Some? && page.Some?
    ensures r.screenshot.Some? ==> r.screenshot == ScreenshotFile(test, page, ShotName(level), timestamp)
  {
    LogRecord(test.Some?,
              if ShouldAttach(mode, EventName(level)) then ScreenshotFile(test, page, ShotName(level), timestamp) else None)
  }

  /** The static state of ExtentLogger: the mode fixed at class initialisation and the
      two per-thread bindings. */
  class ExtentLogger {
    const mode: string
    var testThread: map<ThreadId, ExtentTest>
    var pageThread: map<ThreadId, Page>

    /** Class initialisation; it needs a loaded configuration. */
    constructor (prop: Option<Properties>)
      requires prop.Some?
      ensures mode == ScreenshotMode(prop).value
      ensures testThread == map[] && pageThread == map[]
    {
      mode := ScreenshotMode(prop).value;
      testThread, pageThread := map[], map[];
    }

    method SetTest(t: ThreadId, test: ExtentTest)
      modifies this
      ensures testThread == TL.Put(old(testThread), TL.Write(t, Some(test)))
      ensures pageThread == old(pageThread)
    {
      testThread := testThread[t := test];
    }

    method GetTest(t: ThreadId) returns (test: Option<ExtentTest>)
      ensures test == TL.Get(testThread, t)
    {
      test := if t in testThread then Some(testThread[t]) else None;
    }

    method RemoveTest(t: ThreadId)
      modifies this
      ensures testThread == TL.Put(old(testThread), TL.Write(t, None))
      ensures pageThread == old(pageThread)
    {
      testThread := testThread - {t};
    }

    method SetPage(t: ThreadId, page: Page)
      modifies this
      ensures pageThread == TL.Put(old(pageThread), TL.Write(t, Some(page)))
      ensures testThread == old(testThread)
    {
      pageThread := pageThread[t := page];
    }

    method GetPage(t: ThreadId) returns (page: Option<Page>)
      ensures page == TL.Get(pageThread, t)
    {
      page := if t in pageThread then Some(pageThread[t]) else None;
    }

    method RemovePage(t: ThreadId)
      modifies this
      ensures pageThread == TL.Put(old(pageThread), TL.Write(t, None))
      ensures testThread == old(testThread)
    {
      pageThread := pageThread - {t};
    }

    /** A logging call on thread `t`, at the given HH_mm_ss time. */
    method Log(t: ThreadId, level: Level, timestamp: string) returns (r: LogRecord)
      ensures r == LogEvent(mode, level, TL.Get(testThread, t), TL.Get(pageThread, t), timestamp)
    {
      var test := GetTest(t);
      var page := GetPage(t);
      var file := None;
      if ShouldAttach(mode, EventName(level)) {
        file := ScreenshotFile(test, page, ShotName(level), timestamp);
      }
      r := LogRecord(test.Some?, file);
    }
  }
}
