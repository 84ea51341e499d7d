/** ExtentManager.java: the lazily created report object and the path of its HTML file.
    The clock readings (day folder and timestamp) are parameters. */
module Reports {
  import opened Common
  import opened Text
  import Config

  const ReportsDir := "target/reports/"
  const FilePrefix := "ExtentReport_"
  const CreateFailedMessage := "Failed to create ExtentReports instance"

  /** `generateReportPath()`: the report lives in the day folder, its name is the prefix,
      the timestamp with every underscore turned into a space, and ".html". */
  function ReportPath(folder: string, timestamp: string): (r: string)
    ensures var dir := ReportsDir + folder + "/" + FilePrefix;
      && |r| == |dir| + |timestamp| + 5
      && r[..|dir|] == dir
      && r[|dir| + |timestamp|..] == ".html"
      && forall i | 0 <= i < |timestamp| ::
           && r[|dir| + i] != '_'
           && (timestamp[i] == '_' ==> r[|dir| + i] == ' ')
           && (timestamp[i] != '_' ==> r[|dir| + i] == timestamp[i])
  {
    var dir := ReportsDir + folder + "/" + FilePrefix;
    var stamp := ReplaceChar(timestamp, '_', ' ');
    var r := dir + stamp + ".html";
    assert r[..|dir|] == dir;
    assert r[|dir| + |timestamp|..] == ".html";
    r
  }

  /** What one call of `getInstance()` meets when it has to create the report: the
      identity of the new object, whether creating the folder and loading the optional
      XML settings threw an IOException, and whether the configuration is loaded (the
      system information is read from it after the object is already stored). */
  datatype Attempt = Attempt(newId: nat, io: Result<()>, configLoaded: bool)

  /** One call of `getInstance()`: the stored instance afterwards and what the call returns. */
  function GetInstanceStep(extent: Option<ExtentReports>, a: Attempt, path: string): (r: (Option<ExtentReports>, Result<ExtentReports>))
    ensures extent.Some? ==> r == (extent, Ok(extent.value))
    ensures extent.None? && a.io.Err? ==> r == (None, Err(CreateFailedMessage))
    ensures extent.None? && a.io.Ok? ==> r.0 == Some(ExtentReports(a.newId, path))
    ensures extent.None? && a.io.Ok? ==>
              r.1 == if a.configLoaded then Ok(ExtentReports(a.newId, path)) else Err(Config.NotLoadedMessage)
  {
    if extent.Some? then (extent, Ok(extent.value))
    else if a.io.Err? then (None, Err(CreateFailedMessage))
    else
      var created := ExtentReports(a.newId, path);
      (Some(created), if a.configLoaded then Ok(created) else Err(Config.NotLoadedMessage))
  }

  /** The results of a series of calls, and the instance stored after them. */
  function Results(extent: Option<ExtentReports>, attempts: seq<Attempt>, path: string): (rs: seq<Result<ExtentReports>>)
    ensures |rs| == |attempts|
    decreases |attempts|
  {
    if attempts == [] then []
    else
      var step := GetInstanceStep(extent, attempts[0], path);
      [step.1] + Results(step.0, attempts[1..], path)
  }

  function Final(extent: Option<ExtentReports>, attempts: seq<Attempt>, path: string): Option<ExtentReports>
    decreases |attempts|
  {
    if attempts == [] then extent
    else Final(GetInstanceStep(extent, attempts[0], path).0, attempts[1..], path)
  }

  /** Once the instance exists every later call returns that same object and it is
      never replaced. */
  lemma {:induction false} InstanceIsStable(e: ExtentReports, attempts: seq<Attempt>, path: string)
    ensures Final(Some(e), attempts, path) == Some(e)
    ensures forall i | 0 <= i < |attempts| :: Results(Some(e), attempts, path)[i] == Ok(e)
    decreases |attempts|
  {
    if attempts != [] {
      InstanceIsStable(e, attempts[1..], path);
    }
  }

  /** Created exactly once: all calls that succeed, in any series, return one and the
      same object; a call that failed with an IOException left nothing behind, so a
      later call could still create it. */
  lemma {:induction false} AllSuccessesAgree(extent: Option<ExtentReports>, attempts: seq<Attempt>, path: string, i: nat, j: nat)
    requires i < |attempts| && j < |attempts|
    requires Results(extent, attempts, path)[i].Ok? && Results(extent, attempts, path)[j].Ok?
    ensures Results(extent, attempts, path)[i] == Results(extent, attempts, path)[j]
    decreases |attempts|
  {
    var step := GetInstanceStep(extent, attempts[0], path);
    var rest := attempts[1..];
    if i > 0 && j > 0 {
      AllSuccessesAgree(step.0, rest, path, i - 1, j - 1);
    } else if i == 0 && j == 0 {
    } else {
      // The first call succeeded, so the instance exists from then on.
      assert step.1.Ok?;
      assert step.0 == Some(step.1.value);
      InstanceIsStable(step.1.value, rest, path);
    }
  }

  /** The static `extent` field. */
  class ExtentManager {
    var extent: Option<ExtentReports>

    constructor ()
      ensures extent == None
    {
      extent := None;
    }

    /** `getInstance()` with the day folder and timestamp of this call's clock reading. */
    method GetInstance(folder: string, timestamp: string, a: Attempt) returns (r: Result<ExtentReports>)
      modifies this
      ensures (extent, r) == GetInstanceStep(old(extent), a, ReportPath(folder, timestamp))
      ensures old(extent).Some? ==> extent == old(extent) && r == Ok(old(extent).value)
    {
      if extent.None? {
        if a.io.Err? {
          return Err(CreateFailedMessage);
        }
        extent := Some(ExtentReports(a.newId, ReportPath(folder, timestamp)));
        if !a.configLoaded {
          return Err(Config.NotLoadedMessage);
        }
      }
      r := Ok(extent.value);
    }
  }
}
