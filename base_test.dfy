/**
 * The per-test lifecycle controller (PlaywrightBaseTest): suite start works out the
 * browser mode and labels and takes the report sink; each test start opens one report
 * node; each test end maps the outcome to report entries and, on failure, tries to
 * capture a screenshot; suite end flushes the report.
 */
module BaseClass {
  import opened Wrappers
  import opened Strings
  import opened Clock
  import opened Paths
  import opened Playwright
  import Extent

  /** The resolved configuration; how it is read from its file is not modelled. */
  datatype TestProfile = TestProfile(
    environment: string,
    baseUrl: string,
    browser: string,
    userName: string,
    password: string,
    headless: Option<bool>)

  /** NUnit's TestStatus. */
  datatype TestStatus = Inconclusive | Skipped | Passed | Warning | Failed

  /** How a status value prints in an interpolated string. */
  function StatusName(s: TestStatus): string {
    match s
    case Inconclusive => "Inconclusive"
    case Skipped => "Skipped"
    case Passed => "Passed"
    case Warning => "Warning"
    case Failed => "Failed"
  }

  /** The running test's short name and fully qualified name. */
  datatype TestInfo = TestInfo(name: string, fullName: string)

  /** The test's result as the framework reports it after the body has run. */
  datatype TestResult = TestResult(status: TestStatus, message: string, stackTrace: string)

  // Suite start

  /** `!(Headless ?? true)`. */
  function IsHeaded(headless: Option<bool>): bool {
    !headless.GetOr(true)
  }

  function ModeText(headed: bool): string {
    if headed then "HEADED" else "HEADLESS"
  }

  /** How a `bool?` prints in an interpolated string: null prints as nothing. */
  function NullableBoolText(b: Option<bool>): string {
    match b
    case None => ""
    case Some(true) => "True"
    case Some(false) => "False"
  }

  /** SetEnvironmentVariable treats an empty value, or one that starts with U+0000, as a request to delete. */
  predicate DeletesVariable(value: string) {
    value == "" || value[0] == '\0'
  }

  /** `Environment.SetEnvironmentVariable(name, value)` on a process environment. */
  function SetVariable(env: map<string, string>, name: string, value: string): (e: map<string, string>)
    ensures DeletesVariable(value) ==> name !in e
    ensures !DeletesVariable(value) ==> name in e && e[name] == value
    ensures forall k :: k != name ==> (k in e <==> k in env)
    ensures forall k :: k in e && k != name ==> e[k] == env[k]
  {
    if DeletesVariable(value) then env - {name} else env[name := value]
  }

  /**
   * The process environment after suite start: BROWSER holds the browser, or is removed
   * when the browser is empty; HEADED is "1" in headed mode and untouched otherwise.
   */
  function SetupEnvironment(env: map<string, string>, browser: string, headed: bool): (e: map<string, string>)
    ensures DeletesVariable(browser) ==> "BROWSER" !in e
    ensures !DeletesVariable(browser) ==> "BROWSER" in e && e["BROWSER"] == browser
    ensures headed ==> "HEADED" in e && e["HEADED"] == "1"
    ensures !headed ==> ("HEADED" in e <==> "HEADED" in env)
    ensures !headed && "HEADED" in env ==> e["HEADED"] == env["HEADED"]
    ensures forall k :: k in env && k != "BROWSER" ==> k in e
    ensures forall k :: k in e && k != "BROWSER" && k != "HEADED" ==> k in env && e[k] == env[k]
  {
    var withBrowser := SetVariable(env, "BROWSER", browser);
    if headed then SetVariable(withBrowser, "HEADED", "1") else withBrowser
  }

  /** An empty configured browser leaves no BROWSER variable, even one the shell had set. */
  lemma EmptyBrowserClearsVariable(env: map<string, string>, headed: bool)
    ensures "BROWSER" !in SetupEnvironment(env, "", headed)
    ensures "BROWSER" in env ==> SetupEnvironment(env, "", headed).Keys < env.Keys + {"HEADED"}
  {
  }

  const HeadedNotice := "[GlobalSetup] Setting HEADED=1 (headed mode enabled)"

  /** The lines suite start writes to the console. */
  function GlobalSetupConsole(environment: string, baseUrl: string, browser: string, headless: Option<bool>): seq<string> {
    (if IsHeaded(headless) then [HeadedNotice] else [])
    + [ "[GlobalSetup] Setting BROWSER=" + browser,
        "[OneTimeSetUp] ========== TEST EXECUTION STARTED ==========",
        "[OneTimeSetUp] Environment: " + environment,
        "[OneTimeSetUp] Base URL: " + baseUrl,
        "[OneTimeSetUp] Browser: " + ToUpper(browser),
        "[OneTimeSetUp] Headless: " + NullableBoolText(headless),
        "[OneTimeSetUp] Mode: " + ModeText(IsHeaded(headless)),
        "[OneTimeSetUp] =========================================" ]
  }

  /** A missing Headless setting means headless: the run is headed only when Headless is false. */
  lemma HeadedOnlyWhenHeadlessIsFalse(headless: Option<bool>)
    ensures IsHeaded(headless) <==> headless == Some(false)
    ensures ModeText(IsHeaded(headless)) == "HEADED" <==> headless == Some(false)
  {
  }

  /** The console opens with the HEADED notice exactly in headed mode, and its Mode line agrees. */
  lemma GlobalSetupConsoleMode(environment: string, baseUrl: string, browser: string, headless: Option<bool>)
    ensures var lines := GlobalSetupConsole(environment, baseUrl, browser, headless);
      && |lines| == (if IsHeaded(headless) then 9 else 8)
      && (lines[0] == HeadedNotice <==> IsHeaded(headless))
      && lines[|lines| - 2] == "[OneTimeSetUp] Mode: " + ModeText(IsHeaded(headless))
  {
    var first := "[GlobalSetup] Setting BROWSER=" + browser;
    assert first[22] == 'B' && HeadedNotice[22] == 'H';
  }

  // Test start

  /** The Info entry a new node starts with. */
  function StartEntry(browser: string, headless: Option<bool>): Extent.Entry {
    Extent.Info(Extent.Text("Browser " + ToUpper(browser) + " initialized - Mode: " + ModeText(IsHeaded(headless))))
  }

  // Test end

  const PassedEntry := Extent.Pass(Extent.Label("PASSED", Extent.Green))
  const SkippedEntry := Extent.Skip(Extent.Label("SKIPPED / INCONCLUSIVE", Extent.Orange))
  const ScreenshotFailedPrefix := "Failed to take screenshot: "

  /** The three entries a failed test gets, in order: message, stack trace, red label. */
  function FailedEntries(message: string, stackTrace: string): seq<Extent.Entry> {
    [ Extent.Fail(Extent.Text(message)),
      Extent.Fail(Extent.Text(stackTrace)),
      Extent.Fail(Extent.Label("FAILED", Extent.Red)) ]
  }

  /** `{testMethodName}_{yyyyMMdd_HHmmss}.png`. */
  function ScreenshotFile(testName: string, now: DateTime): string {
    testName + "_" + FormatStamp(now) + ".png"
  }

  /** `{projectRoot}/Reports/Screenshots`. */
  function ScreenshotDir(p: Platform, projectRoot: string): string {
    Combine(p, Combine(p, projectRoot, "Reports"), "Screenshots")
  }

  function ScreenshotPath(p: Platform, projectRoot: string, file: string): string {
    Combine(p, ScreenshotDir(p, projectRoot), file)
  }

  /** The path put in the report: `Screenshots/{file}` with every backslash turned into '/'. */
  function RelativePath(p: Platform, file: string): string {
    ReplaceChar(Combine(p, "Screenshots", file), '\\', '/')
  }

  function FinishedLine(name: string, status: TestStatus): string {
    "Test finished: " + name + " with status " + StatusName(status)
  }

  /** What one test end does: entries added to the node, calls made on the page, log lines. */
  datatype TearDownEffects = TearDownEffects(entries: seq<Extent.Entry>, actions: seq<Action>, logs: seq<string>)

  /** The guarded capture of the failed branch: create the directory, take the screenshot, attach it. */
  function CaptureEffects(p: Platform, projectRoot: string, name: string, now: DateTime,
                          mkdir: Attempt, shot: Attempt): TearDownEffects
  {
    match mkdir
    case Threw(m) => TearDownEffects([], [], [ScreenshotFailedPrefix + m])
    case Done =>
      var file := ScreenshotFile(name, now);
      var path := ScreenshotPath(p, projectRoot, file);
      match shot
      case Threw(m) => TearDownEffects([], [Captured(path)], [ScreenshotFailedPrefix + m])
      case Done =>
        TearDownEffects([Extent.ScreenCapture(RelativePath(p, file))], [Captured(path)],
                        ["Screenshot saved to: " + path])
  }

  /**
   * Test end, as a function of the outcome, the time, whether the screenshot directory
   * can be created (`mkdir`) and whether the page's screenshot throws (`shot`).
   */
  function TearDownSpec(p: Platform, projectRoot: string, info: TestInfo, result: TestResult,
                        now: DateTime, mkdir: Attempt, shot: Attempt): TearDownEffects
  {
    var branch :=
      match result.status
      case Passed => TearDownEffects([PassedEntry], [], [])
      case Failed =>
        var c := CaptureEffects(p, projectRoot, info.name, now, mkdir, shot);
        TearDownEffects(FailedEntries(result.message, result.stackTrace) + c.entries, c.actions, c.logs)
      case _ => TearDownEffects([SkippedEntry], [], []);
    TearDownEffects(branch.entries, branch.actions, branch.logs + [FinishedLine(info.name, result.status)])
  }

  /** Every status has exactly one branch: Passed gets the green label, Failed the three fail entries, the rest the orange label. */
  lemma OutcomeMappingIsTotal(p: Platform, projectRoot: string, info: TestInfo, result: TestResult,
                              now: DateTime, mkdir: Attempt, shot: Attempt)
    ensures var e := TearDownSpec(p, projectRoot, info, result, now, mkdir, shot);
      && (e.entries == [PassedEntry] <==> result.status == Passed)
      && ((|e.entries| >= 3 && e.entries[..3] == FailedEntries(result.message, result.stackTrace))
          <==> result.status == Failed)
      && (e.entries == [SkippedEntry] <==> result.status in {Inconclusive, Skipped, Warning})
  {
    var e := TearDownSpec(p, projectRoot, info, result, now, mkdir, shot);
    if result.status == Failed {
      assert e.entries[..3] == FailedEntries(result.message, result.stackTrace);
    }
  }

  /** The page is asked for a screenshot only on the failed branch, and there exactly when the directory exists. */
  lemma CaptureOnlyWhenFailed(p: Platform, projectRoot: string, info: TestInfo, result: TestResult,
                              now: DateTime, mkdir: Attempt, shot: Attempt)
    ensures var e := TearDownSpec(p, projectRoot, info, result, now, mkdir, shot);
      && (e.actions != [] ==> result.status == Failed)
      && (result.status == Failed && mkdir.Done? ==>
            e.actions == [Captured(ScreenshotPath(p, projectRoot, ScreenshotFile(info.name, now)))])
      && (mkdir.Threw? ==> e.actions == [])
  {
  }

  /** An image is attached exactly after a successful capture, right after the three fail entries, with the relative path. */
  lemma ImageOnlyAfterSuccessfulCapture(p: Platform, projectRoot: string, info: TestInfo, result: TestResult,
                                        now: DateTime, mkdir: Attempt, shot: Attempt)
    ensures var e := TearDownSpec(p, projectRoot, info, result, now, mkdir, shot);
      && ((exists i :: 0 <= i < |e.entries| && e.entries[i].ScreenCapture?)
          <==> result.status == Failed && mkdir.Done? && shot.Done?)
      && (forall i :: 0 <= i < |e.entries| && e.entries[i].ScreenCapture? ==>
            i == 3 && e.entries[i].path == RelativePath(p, ScreenshotFile(info.name, now)))
  {
    var e := TearDownSpec(p, projectRoot, info, result, now, mkdir, shot);
    if result.status == Failed {
      var f := FailedEntries(result.message, result.stackTrace);
      var c := CaptureEffects(p, projectRoot, info.name, now, mkdir, shot);
      assert e.entries == f + c.entries;
      assert forall i :: 0 <= i < 3 ==> !e.entries[i].ScreenCapture?;
      assert forall i :: 3 <= i < |e.entries| ==> e.entries[i] == c.entries[i - 3];
      if mkdir.Done? && shot.Done? {
        assert e.entries[3].ScreenCapture?;
      }
    }
  }

  /** A capture that throws leaves exactly the three fail entries a successful one would precede, and logs why. */
  lemma CaptureFailureKeepsReport(p: Platform, projectRoot: string, info: TestInfo, result: TestResult,
                                  now: DateTime, mkdir: Attempt, shot: Attempt)
    requires result.status == Failed
    requires mkdir.Threw? || shot.Threw?
    ensures var e := TearDownSpec(p, projectRoot, info, result, now, mkdir, shot);
      && e.entries == FailedEntries(result.message, result.stackTrace)
      && e.entries == TearDownSpec(p, projectRoot, info, result, now, Done, Done).entries[..3]
      && e.logs == [ScreenshotFailedPrefix + (if mkdir.Threw? then mkdir.message else shot.message),
                    FinishedLine(info.name, result.status)]
  {
    var ok := TearDownSpec(p, projectRoot, info, result, now, Done, Done);
    assert ok.entries[..3] == FailedEntries(result.message, result.stackTrace);
  }

  /** Every branch logs, last, the finished line naming the test and its status. */
  lemma TearDownEndsWithFinishedLine(p: Platform, projectRoot: string, info: TestInfo, result: TestResult,
                                     now: DateTime, mkdir: Attempt, shot: Attempt)
    ensures var e := TearDownSpec(p, projectRoot, info, result, now, mkdir, shot);
      && |e.logs| == (if result.status == Failed then 2 else 1)
      && e.logs[|e.logs| - 1] == FinishedLine(info.name, result.status)
  {
  }

  /** The file name is the test name, '_', a 15-character stamp and ".png". */
  lemma ScreenshotFileShape(name: string, now: DateTime)
    ensures var f := ScreenshotFile(name, now);
      && |f| == |name| + 20
      && StartsWith(f, name + "_")
      && EndsWith(f, ".png")
      && f[|name| + 1..|name| + 16] == FormatStamp(now)
      && IsStampShaped(f[|name| + 1..|name| + 16])
  {
    var f := ScreenshotFile(name, now);
    assert f == (name + "_") + FormatStamp(now) + ".png";
    assert f[..|name| + 1] == name + "_";
  }

  /** Two failures of the same test at different seconds get different files. */
  lemma ScreenshotFilesDistinct(name: string, t1: DateTime, t2: DateTime)
    requires t1 != t2
    ensures ScreenshotFile(name, t1) != ScreenshotFile(name, t2)
  {
    if ScreenshotFile(name, t1) == ScreenshotFile(name, t2) {
      ScreenshotFileShape(name, t1);
      ScreenshotFileShape(name, t2);
      StampInjective(t1, t2);
    }
  }

  /** A stamp holds only digits and '_'. */
  lemma NoBackslashInStamp(now: DateTime)
    ensures '\\' !in FormatStamp(now)
  {
    var s := FormatStamp(now);
    forall i | 0 <= i < |s| ensures s[i] != '\\' {
      if i != 8 {
        assert IsDigit(s[i]);
      }
    }
  }

  /** The reported path never holds a backslash and ends with the (normalised) file name. */
  lemma RelativePathEndsWithFile(p: Platform, file: string)
    ensures var rel := RelativePath(p, file);
      '\\' !in rel && EndsWith(rel, ReplaceChar(file, '\\', '/'))
  {
    var c := Combine(p, "Screenshots", file);
    CombineKeepsParts(p, "Screenshots", file);
    var head := c[..|c| - |file|];
    assert c == head + file;
    ReplaceCharAppend(head, file, '\\', '/');
  }

  /** For a file name that is not itself rooted, the reported path is "Screenshots/" and the normalised name, on either platform. */
  lemma RelativePathOfUnrootedFile(p: Platform, file: string)
    requires |file| > 0 && !IsPathRooted(p, file)
    ensures RelativePath(p, file) == "Screenshots/" + ReplaceChar(file, '\\', '/')
    ensures '\\' !in file ==> RelativePath(p, file) == "Screenshots/" + file
  {
    assert Combine(p, "Screenshots", file) == "Screenshots" + [DirectorySeparator(p)] + file;
    ReplaceCharAppend("Screenshots" + [DirectorySeparator(p)], file, '\\', '/');
    ReplaceCharAppend("Screenshots", [DirectorySeparator(p)], '\\', '/');
    ReplaceCharAbsent("Screenshots", '\\', '/');
    assert ReplaceChar([DirectorySeparator(p)], '\\', '/') == "/";
    if '\\' !in file {
      ReplaceCharAbsent(file, '\\', '/');
    }
  }

  /** A name that starts like an identifier, followed by anything that starts with '_', is not rooted. */
  lemma NameLedPathUnrooted(p: Platform, name: string, tail: string)
    requires |name| > 0 && (IsAsciiLetter(name[0]) || name[0] == '_')
    requires |name| < 2 || name[1] != ':'
    requires |tail| > 0 && tail[0] == '_'
    ensures !IsPathRooted(p, name + tail)
  {
    var path := name + tail;
    assert path[0] == name[0];
    assert path[1] == if |name| == 1 then tail[0] else name[1];
  }

  /** A test name that starts like an identifier gives a file name that is not rooted on either platform. */
  lemma TestNameFileUnrooted(p: Platform, name: string, now: DateTime)
    requires |name| > 0 && (IsAsciiLetter(name[0]) || name[0] == '_')
    requires |name| < 2 || name[1] != ':'
    ensures |ScreenshotFile(name, now)| > 0 && !IsPathRooted(p, ScreenshotFile(name, now))
  {
    var stamp := FormatStamp(now);
    var tail := "_" + stamp + ".png";
    assert name + "_" + stamp + ".png" == name + tail;
    NameLedPathUnrooted(p, name, tail);
  }

  /** The stamp and the extension add no backslash to the file name. */
  lemma NoBackslashInFile(name: string, now: DateTime)
    requires '\\' !in name
    ensures '\\' !in ScreenshotFile(name, now)
  {
    NoBackslashInStamp(now);
    assert ScreenshotFile(name, now) == name + "_" + FormatStamp(now) + ".png";
  }

  /** A test name that starts like an identifier, and carries no backslash, gives a screenshot reported as "Screenshots/" + file. */
  lemma RelativePathOfTestName(p: Platform, name: string, now: DateTime)
    requires |name| > 0 && (IsAsciiLetter(name[0]) || name[0] == '_')
    requires |name| < 2 || name[1] != ':'
    requires '\\' !in name
    ensures RelativePath(p, ScreenshotFile(name, now)) == "Screenshots/" + ScreenshotFile(name, now)
  {
    TestNameFileUnrooted(p, name, now);
    NoBackslashInFile(name, now);
    RelativePathOfUnrootedFile(p, ScreenshotFile(name, now));
  }

  /**
   * On Unix a backslash is an ordinary file-name character: the screenshot is saved under
   * a name that keeps it, while the report's path has '/' in its place, so the two differ.
   */
  lemma UnixBackslashNameReportedElsewhere(projectRoot: string, file: string)
    requires |file| > 0 && file[0] != '/' && '\\' in file
    ensures EndsWith(ScreenshotPath(Unix, projectRoot, file), file)
    ensures RelativePath(Unix, file) == "Screenshots/" + ReplaceChar(file, '\\', '/')
    ensures RelativePath(Unix, file) != "Screenshots/" + file
  {
    CombineKeepsParts(Unix, ScreenshotDir(Unix, projectRoot), file);
    RelativePathOfUnrootedFile(Unix, file);
    var i :| 0 <= i < |file| && file[i] == '\\';
    assert ("Screenshots/" + file)[12 + i] == '\\';
  }

  /** The test fixture: configuration read once, the report sink and node, and what it has written. */
  class PlaywrightBaseTest {
    const environment: string
    const browser: string
    const baseUrl: string
    const userName: string
    const password: string
    const headless: Option<bool>
    const platform: Platform
    const projectRoot: string
    const page: Page
    var extent: Extent.ExtentReports?
    var test: Extent.ExtentTest?
    var reportKey: Option<(string, string)>
    var env: map<string, string>
    var console: seq<string>
    var log: seq<string>

    /** Field initialisers: the configured browser is kept lower-cased. */
    constructor (config: TestProfile, page: Page, platform: Platform, projectRoot: string, env: map<string, string>)
      ensures environment == config.environment && browser == ToLower(config.browser)
      ensures baseUrl == config.baseUrl && userName == config.userName && password == config.password
      ensures headless == config.headless && this.page == page
      ensures this.platform == platform && this.projectRoot == projectRoot
      ensures extent == null && test == null && reportKey == None
      ensures this.env == env && console == [] && log == []
    {
      environment := config.environment;
      browser := ToLower(config.browser);
      baseUrl := config.baseUrl;
      userName := config.userName;
      password := config.password;
      headless := config.headless;
      this.page := page;
      this.platform := platform;
      this.projectRoot := projectRoot;
      extent := null;
      test := null;
      reportKey := None;
      this.env := env;
      console := [];
      log := [];
    }

    /** The current node, when there is one, is a node of the sink. */
    predicate NodeInSink()
      reads this, extent
    {
      test != null ==> extent != null && test in extent.tests
    }

    /** The Log helper; its wall-clock prefix is not modelled. */
    method Log(message: string)
      modifies this`log
      ensures log == old(log) + [message]
    {
      log := log + [message];
    }

    /**
     * Suite start: BROWSER (and, headed, HEADED) set, the banner written, and the sink
     * taken that the report manager hands out for (upper-cased browser, environment).
     */
    method GlobalSetup(instance: Extent.ExtentReports)
      modifies this`env, this`console, this`extent, this`reportKey
      ensures env == SetupEnvironment(old(env), browser, IsHeaded(headless))
      ensures console == old(console) + GlobalSetupConsole(environment, baseUrl, browser, headless)
      ensures extent == instance && reportKey == Some((ToUpper(browser), environment))
    {
      env := SetVariable(env, "BROWSER", browser);
      var isHeaded := !headless.GetOr(true);
      if isHeaded {
        env := SetVariable(env, "HEADED", "1");
        console := console + [HeadedNotice];
      }
      console := console + [
        "[GlobalSetup] Setting BROWSER=" + browser,
        "[OneTimeSetUp] ========== TEST EXECUTION STARTED ==========",
        "[OneTimeSetUp] Environment: " + environment,
        "[OneTimeSetUp] Base URL: " + baseUrl,
        "[OneTimeSetUp] Browser: " + ToUpper(browser),
        "[OneTimeSetUp] Headless: " + NullableBoolText(headless),
        "[OneTimeSetUp] Mode: " + ModeText(isHeaded),
        "[OneTimeSetUp] ========================================="];
      extent := instance;
      reportKey := Some((ToUpper(browser), environment));
    }

    /** Test start: one fresh node titled with the full name, when there is a sink; the start is logged either way. */
    method Setup(info: TestInfo)
      modifies this`test, this`log, extent
      ensures extent == old(extent)
      ensures old(extent) == null ==> test == null
      ensures old(extent) != null ==>
        && test != null && fresh(test) && test.name == info.fullName
        && test.entries == [StartEntry(browser, headless)]
        && extent.tests == old(extent.tests) + [test]
        && extent.flushCount == old(extent.flushCount)
      ensures log == old(log) + ["Test started: " + info.name]
      ensures NodeInSink()
    {
      if extent != null {
        test := extent.CreateTest(info.fullName);
      } else {
        test := null;
      }
      var isHeaded := !headless.GetOr(true);
      Log("Test started: " + info.name);
      if test != null {
        test.Log(Extent.Info(Extent.Text("Browser " + ToUpper(browser) + " initialized - Mode: " + ModeText(isHeaded))));
      }
    }

    /**
     * Test end. Without a node every report call is skipped, but the page and the log
     * see the same calls and lines; nothing is thrown whatever the capture does.
     */
    method TearDown(info: TestInfo, result: TestResult, now: DateTime, mkdir: Attempt)
      modifies this`log, test, page
      ensures test == old(test)
      ensures old(NodeInSink()) ==> NodeInSink()
      ensures var e := TearDownSpec(platform, projectRoot, info, result, now, mkdir, page.view.ScreenshotResult());
        && (test != null ==> test.entries == old(test.entries) + e.entries)
        && page.actions == old(page.actions) + e.actions
        && log == old(log) + e.logs
    {
      match result.status {
        case Passed =>
          if test != null {
            test.Log(PassedEntry);
          }
        case Failed =>
          if test != null {
            test.Log(Extent.Fail(Extent.Text(result.message)));
            test.Log(Extent.Fail(Extent.Text(result.stackTrace)));
            test.Log(Extent.Fail(Extent.Label("FAILED", Extent.Red)));
            assert test.entries == old(test.entries) + FailedEntries(result.message, result.stackTrace);
          }
          ghost var reported := if test != null then test.entries else [];
          TryCaptureScreenshot(info.name, now, mkdir);
          ghost var c := CaptureEffects(platform, projectRoot, info.name, now, mkdir, page.view.ScreenshotResult());
          assert test != null ==> test.entries == reported + c.entries;
        case _ =>
          if test != null {
            test.Log(SkippedEntry);
          }
      }
      Log(FinishedLine(info.name, result.status));
    }

    /** The try block of the failed branch: whatever the capture throws is caught and logged. */
    method TryCaptureScreenshot(name: string, now: DateTime, mkdir: Attempt)
      modifies this`log, test, page
      ensures test == old(test)
      ensures var c := CaptureEffects(platform, projectRoot, name, now, mkdir, page.view.ScreenshotResult());
        && (test != null ==> test.entries == old(test.entries) + c.entries)
        && page.actions == old(page.actions) + c.actions
        && log == old(log) + c.logs
    {
      if mkdir.Threw? {
        Log(ScreenshotFailedPrefix + mkdir.message);
      } else {
        var file := ScreenshotFile(name, now);
        var path := Combine(platform, ScreenshotDir(platform, projectRoot), file);
        var shot := page.Screenshot(path);
        if shot.Threw? {
          Log(ScreenshotFailedPrefix + shot.message);
        } else {
          Log("Screenshot saved to: " + path);
          var relative := ReplaceChar(Combine(platform, "Screenshots", file), '\\', '/');
          if test != null {
            test.Log(Extent.ScreenCapture(relative));
          }
        }
      }
    }

    /** Suite end: the sink is flushed once more and the end is logged and printed. */
    method OneTimeTearDown()
      modifies this`log, this`console, extent
      ensures extent == old(extent)
      ensures extent != null ==> extent.tests == old(extent.tests) && extent.flushCount == old(extent.flushCount) + 1
      ensures old(NodeInSink()) ==> NodeInSink()
      ensures log == old(log) + ["ExtentReports flushed"]
      ensures console == old(console) + ["[OneTimeTearDown] ========== TEST EXECUTION COMPLETED =========="]
    {
      if extent != null {
        extent.Flush();
      }
      Log("ExtentReports flushed");
      console := console + ["[OneTimeTearDown] ========== TEST EXECUTION COMPLETED =========="];
    }
  }

  /**
   * One suite holding one test, in NUnit's order: suite start, test start, test end,
   * suite end. The sink ends with one node, titled with the test's full name, holding
   * the start entry and then exactly the test-end entries, and it was flushed once.
   */
  method SingleTestSuite(f: PlaywrightBaseTest, instance: Extent.ExtentReports, info: TestInfo,
                         result: TestResult, now: DateTime, mkdir: Attempt)
    requires f.extent == null && f.test == null
    requires instance.tests == [] && instance.flushCount == 0
    modifies f, f.page, instance
    ensures var e := TearDownSpec(f.platform, f.projectRoot, info, result, now, mkdir, f.page.view.ScreenshotResult());
      && f.test != null && instance.tests == [f.test] && f.extent == instance && instance.flushCount == 1
      && f.test.name == info.fullName
      && f.test.entries == [StartEntry(f.browser, f.headless)] + e.entries
      && f.page.actions == old(f.page.actions) + e.actions
      && f.log == old(f.log) + ["Test started: " + info.name] + e.logs + ["ExtentReports flushed"]
  {
    f.GlobalSetup(instance);
    f.Setup(info);
    f.TearDown(info, result, now, mkdir);
    f.OneTimeTearDown();
  }
}
