/** Shared vocabulary of the model: the failure-compatible wrappers that stand for Java's
    null and exceptions, the identity of a test thread, and the library handles (pages,
    frames, browsers, ...) that the harness only passes around and never looks into. */
module Common {

  /** A Java reference that may be null. */
  datatype Option<+T> = None | Some(value: T) {
    function GetOr(default: T): T {
      match this
      case Some(v) => v
      case None => default
    }
  }

  /** A Java call that either returns a value or throws an exception with a message. */
  datatype Result<+T> = Ok(value: T) | Err(error: string) {
    predicate IsFailure() { Err? }

    function PropagateFailure<U>(): Result<U>
      requires Err?
    {
      Err(error)
    }

    function Extract(): T
      requires Ok?
    {
      value
    }
  }

  /** The executing thread; every ThreadLocal of the source is a map keyed by it. */
  type ThreadId = nat

  /** A frame of a page, as handed out by the browser-automation library. */
  datatype Frame = Frame(id: nat)

  /** A page (tab or window) handle; `mainFrame` is what the library's `mainFrame()` returns. */
  datatype Page = Page(id: nat, mainFrame: Frame)

  /** The other library handles the harness stores per thread, all opaque. */
  datatype Playwright = Playwright(id: nat)
  datatype Browser = Browser(id: nat)
  datatype BrowserContext = BrowserContext(id: nat)

  /** A test node of the reporting library and the report object itself. */
  datatype ExtentTest = ExtentTest(id: nat)
  datatype ExtentReports = ExtentReports(id: nat, reportPath: string)
}
