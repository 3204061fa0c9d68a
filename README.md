# Playwright/NUnit test harness — a Dafny model

This project models the logic of a C# UI-test harness built on Playwright, NUnit and
ExtentReports:

- the per-test lifecycle controller `PlaywrightBaseTest`:
  - suite start: the headed/headless mode, the BROWSER/HEADED environment variables, the console banner, and taking the report sink;
  - test start: one report node per test;
  - test end: the outcome switch, the guarded screenshot capture with its file name and relative path, and the closing log line;
  - suite end: the flush;
- the page objects `LoginPage` (action order and the post-login dashboard check) and `RegisterPage` (fixed URL, case-insensitive gender dispatch, first hobby checkbox);
- the smoke test `TestPlaywright.test` (login-URL join, visibility fallback to placeholder inputs, fill-target choice, warning on a fill error, conditional submit).

The browser is not modelled. A page is a fixed `PageView` that answers every question the harness asks:

- which selectors are visible, and how many elements each one matches;
- the text content of each selector;
- which actions throw, and with what message.

A `Page` object records every call made on it, in order, in its `actions` sequence. The report is an abstract entry log:

- an `ExtentTest` node holds a sequence of `Entry` values;
- an `ExtentReports` sink holds its nodes and counts its flushes.

The fixture's console output and `Log` lines are plain sequences of strings.

The fixture (`BaseClass.PlaywrightBaseTest`) and the page objects are classes whose methods change that state. Each method is proved against a specification function of its inputs:

| method | specification function |
|---|---|
| `TearDown` | `TearDownSpec` |
| `Login` | `LoginRun` |
| `SelectGender` | `SelectGenderRun` |
| `Test` | `TestBody` |

What the source promises is then proved as lemmas about those functions.

Modules, one file each: `Wrappers`, `Strings`, `Clock`, `Paths`, `Extent`, `Playwright`, `BaseClass`, `Login`, `Register`, `LoginForm`.

## Model

| member | source | states |
|---|---|---|
| Strings.ToLower | BaseClass/PlaywrightBaseTest.cs:25 | the configured browser is kept lower-cased: same length, no upper-case letter left |
| Strings.ToUpper | BaseClass/PlaywrightBaseTest.cs:75 | the label browser is upper-cased: same length, no lower-case letter left |
| Strings.UpperOfLower | BaseClass/PlaywrightBaseTest.cs:25-75 | upper-casing the lower-cased browser gives the upper-cased configured value; lower-casing twice changes nothing |
| Strings.EqualsIgnoreCaseIsUpperEquality | PlaywrightPages/RegisterPage.cs:133-137 | the OrdinalIgnoreCase comparison holds exactly when the upper-cased strings are equal (both directions) |
| Strings.EqualsIgnoreCase | PlaywrightPages/RegisterPage.cs:133-137 | definition of the OrdinalIgnoreCase comparison; its properties are in Strings.EqualsIgnoreCaseIsUpperEquality |
| Strings.Contains | PlaywrightPages/LoginPage.cs:60 | definition of the ordinal `Contains`; its properties are in Strings.ContainsIffOccurs |
| Strings.EndsWith | Tests/Playwright/TestPlaywright.cs:19 | definition of an ordinal suffix test; its properties are in LoginForm.LoginUrlShape |
| Strings.ContainsIffOccurs | PlaywrightPages/LoginPage.cs:60 | `Contains` holds exactly when the substring occurs at some index |
| Strings.ReplaceChar | BaseClass/PlaywrightBaseTest.cs:143 | `Replace("\\", "/")` keeps the length and leaves no backslash |
| Strings.ReplaceCharAppend | BaseClass/PlaywrightBaseTest.cs:143 | replacing within a concatenation is the concatenation of the replaced parts |
| Strings.ReplaceCharAbsent | BaseClass/PlaywrightBaseTest.cs:143 | a string without a backslash is left unchanged |
| Strings.PadDigits | BaseClass/PlaywrightBaseTest.cs:136 | a zero-padded field has exactly the requested width and only digits |
| Strings.PadDigitsValue | BaseClass/PlaywrightBaseTest.cs:136 | reading a zero-padded field back gives the number, whenever it fits in the width |
| Clock.FormatStamp | BaseClass/PlaywrightBaseTest.cs:136 | `yyyyMMdd_HHmmss` is eight digits, '_', six digits |
| Clock.FormatStampFields | BaseClass/PlaywrightBaseTest.cs:136 | each date and time field sits at its fixed position in the stamp |
| Clock.StampRoundTrip | BaseClass/PlaywrightBaseTest.cs:136 | the stamp parses back to the same date and time |
| Clock.StampInjective | BaseClass/PlaywrightBaseTest.cs:136 | times that differ at the second or above never render to the same stamp |
| Paths.IsPathRooted | BaseClass/PlaywrightBaseTest.cs:138-143 | definition of .NET Core's `Path.IsPathRooted` on Windows and Unix; its properties are in BaseClass.NameLedPathUnrooted and BaseClass.TestNameFileUnrooted |
| Paths.Combine | BaseClass/PlaywrightBaseTest.cs:133-143 | definition of two-part `Path.Combine`; its properties are in Paths.CombineKeepsParts and BaseClass.RelativePathOfUnrootedFile |
| Paths.CombineKeepsParts | BaseClass/PlaywrightBaseTest.cs:133-143 | Path.Combine ends with its second part, and starts with its first part unless the second is rooted |
| Extent.ExtentTest.Log | BaseClass/PlaywrightBaseTest.cs:120-153 | a report call appends exactly its entry to the node |
| Extent.ExtentReports.CreateTest | BaseClass/PlaywrightBaseTest.cs:94 | a fresh, empty node with the given title is added after the existing ones |
| Extent.ExtentReports.Flush | BaseClass/PlaywrightBaseTest.cs:167 | the flush count goes up by one and the nodes are untouched |
| Playwright.Page.Goto | PlaywrightPages/LoginPage.cs:43 | a navigation is recorded with its URL; the result is the page's navigation answer |
| Playwright.Page.Fill | PlaywrightPages/LoginPage.cs:51-52 | a fill is recorded with its target and value; it throws exactly when the target faults |
| Playwright.Page.Click | PlaywrightPages/LoginPage.cs:53 | a click is recorded; it throws exactly when the target faults |
| Playwright.Page.WaitForVisible | PlaywrightPages/LoginPage.cs:56 | a wait is recorded with its timeout; it fails unless the target is visible |
| Playwright.Page.TextContent | PlaywrightPages/LoginPage.cs:59 | a text read is recorded; a missing text is null |
| Playwright.Page.IsVisible | Tests/Playwright/TestPlaywright.cs:25-36 | a visibility probe is recorded and answers the page's visibility |
| Playwright.Page.Count | Tests/Playwright/TestPlaywright.cs:45-69 | a count is recorded and answers the page's match count |
| Playwright.Page.ClickFirst | Tests/Playwright/TestPlaywright.cs:71 | a click on the first match is recorded |
| Playwright.Page.CheckFirst | PlaywrightPages/RegisterPage.cs:153 | checking the first match is recorded |
| Playwright.Page.Screenshot | BaseClass/PlaywrightBaseTest.cs:140 | a capture is recorded with its path; the result is the page's screenshot answer |
| BaseClass.DeletesVariable | BaseClass/PlaywrightBaseTest.cs:55 | definition: `SetEnvironmentVariable` deletes the variable for an empty value or one that starts with U+0000; used by BaseClass.SetVariable |
| BaseClass.SetVariable | BaseClass/PlaywrightBaseTest.cs:55-60 | a deleting value removes the variable and any other value sets it; every other variable is unchanged |
| BaseClass.SetupEnvironment | BaseClass/PlaywrightBaseTest.cs:55-61 | BROWSER holds the lower-cased browser, or is removed when that value is empty or starts with U+0000; HEADED is "1" when headed and untouched otherwise; no other variable changes |
| BaseClass.EmptyBrowserClearsVariable | BaseClass/PlaywrightBaseTest.cs:25-55 | an empty configured browser leaves no BROWSER variable, even one set before suite start |
| BaseClass.IsHeaded | BaseClass/PlaywrightBaseTest.cs:58 | definition of `!(Headless ?? true)`; its properties are in BaseClass.HeadedOnlyWhenHeadlessIsFalse |
| BaseClass.ModeText | BaseClass/PlaywrightBaseTest.cs:71-99 | definition: "HEADED" or "HEADLESS"; its properties are in BaseClass.HeadedOnlyWhenHeadlessIsFalse and BaseClass.GlobalSetupConsoleMode |
| BaseClass.NullableBoolText | BaseClass/PlaywrightBaseTest.cs:70 | definition of how `Config.Headless` prints: "True", "False", or nothing for null; used by BaseClass.GlobalSetupConsole |
| BaseClass.GlobalSetupConsole | BaseClass/PlaywrightBaseTest.cs:59-71 | definition of the suite-start console lines, opening with the constant `HeadedNotice` (line 62) in headed mode; its properties are in BaseClass.GlobalSetupConsoleMode |
| BaseClass.StartEntry | BaseClass/PlaywrightBaseTest.cs:99 | definition of the "Browser … initialized - Mode: …" entry; used by PlaywrightBaseTest.Setup and BaseClass.SingleTestSuite |
| BaseClass.HeadedOnlyWhenHeadlessIsFalse | BaseClass/PlaywrightBaseTest.cs:58 | `!(Headless ?? true)`: the run is headed exactly when Headless is false, so a missing setting means headless |
| BaseClass.GlobalSetupConsoleMode | BaseClass/PlaywrightBaseTest.cs:59-71 | the banner starts with the HEADED notice exactly in headed mode, has 9 or 8 lines, and its Mode line agrees |
| BaseClass.FailedEntries | BaseClass/PlaywrightBaseTest.cs:125-128 | definition of the three fail entries in order: message, stack trace, red "FAILED" label; used by BaseClass.TearDownSpec and its lemmas |
| BaseClass.StatusName | BaseClass/PlaywrightBaseTest.cs:158 | definition of how a status prints; used by BaseClass.FinishedLine |
| BaseClass.FinishedLine | BaseClass/PlaywrightBaseTest.cs:158 | definition of "Test finished: {name} with status {status}"; its properties are in BaseClass.TearDownEndsWithFinishedLine |
| BaseClass.CaptureEffects | BaseClass/PlaywrightBaseTest.cs:130-149 | definition of the guarded capture; its properties are in BaseClass.ImageOnlyAfterSuccessfulCapture and BaseClass.CaptureFailureKeepsReport, and PlaywrightBaseTest.TryCaptureScreenshot follows it |
| BaseClass.TearDownSpec | BaseClass/PlaywrightBaseTest.cs:112-158 | definition of test end, with the constant entries `PassedEntry` (green "PASSED" label, lines 120-121) and `SkippedEntry` (orange "SKIPPED / INCONCLUSIVE" label, lines 153-154); its properties are in BaseClass.OutcomeMappingIsTotal, CaptureOnlyWhenFailed, ImageOnlyAfterSuccessfulCapture, CaptureFailureKeepsReport and TearDownEndsWithFinishedLine, and PlaywrightBaseTest.TearDown follows it |
| BaseClass.OutcomeMappingIsTotal | BaseClass/PlaywrightBaseTest.cs:117-156 | every status takes exactly one branch: Passed gives the one green label, Failed gives the three fail entries first, every other status gives the one orange label (each an if-and-only-if) |
| BaseClass.CaptureOnlyWhenFailed | BaseClass/PlaywrightBaseTest.cs:119-155 | the page is asked for a screenshot only on the Failed branch, exactly once, with the full path, and never when the directory cannot be created |
| BaseClass.ImageOnlyAfterSuccessfulCapture | BaseClass/PlaywrightBaseTest.cs:130-149 | an image is attached if and only if the test failed and both the directory and the capture succeeded; it comes right after the three fail entries and carries the relative path |
| BaseClass.CaptureFailureKeepsReport | BaseClass/PlaywrightBaseTest.cs:125-149 | when the capture throws, the node holds exactly the three fail entries a successful capture would precede, with no image; the log reads "Failed to take screenshot: " + message, then the finished line |
| BaseClass.TearDownEndsWithFinishedLine | BaseClass/PlaywrightBaseTest.cs:158 | every branch logs "Test finished: {name} with status {outcome}" last |
| BaseClass.ScreenshotFile | BaseClass/PlaywrightBaseTest.cs:136-137 | definition of `{name}_{stamp}.png`; its properties are in BaseClass.ScreenshotFileShape and BaseClass.ScreenshotFilesDistinct |
| BaseClass.ScreenshotDir | BaseClass/PlaywrightBaseTest.cs:133 | definition of `{root}/Reports/Screenshots`; used by BaseClass.ScreenshotPath |
| BaseClass.ScreenshotPath | BaseClass/PlaywrightBaseTest.cs:138 | definition of the full capture path; its properties are in BaseClass.CaptureOnlyWhenFailed and BaseClass.UnixBackslashNameReportedElsewhere |
| BaseClass.RelativePath | BaseClass/PlaywrightBaseTest.cs:143 | definition of the reported path; its properties are in BaseClass.RelativePathEndsWithFile and BaseClass.RelativePathOfUnrootedFile |
| BaseClass.ScreenshotFileShape | BaseClass/PlaywrightBaseTest.cs:136-137 | the file name is the test name, '_', a stamp-shaped 15 characters and ".png" |
| BaseClass.ScreenshotFilesDistinct | BaseClass/PlaywrightBaseTest.cs:136-137 | two captures of one test at different seconds get different file names |
| BaseClass.NoBackslashInStamp | BaseClass/PlaywrightBaseTest.cs:136 | a stamp holds no backslash |
| BaseClass.RelativePathEndsWithFile | BaseClass/PlaywrightBaseTest.cs:143 | the reported path holds no backslash and ends with the file name, with its backslashes turned into '/' |
| BaseClass.RelativePathOfUnrootedFile | BaseClass/PlaywrightBaseTest.cs:143 | for an unrooted file name the reported path is "Screenshots/" followed by the normalised name, on either platform |
| BaseClass.TestNameFileUnrooted | BaseClass/PlaywrightBaseTest.cs:137 | a name that starts like an identifier gives an unrooted file name |
| BaseClass.RelativePathOfTestName | BaseClass/PlaywrightBaseTest.cs:137-144 | for such a name without backslashes, the attached path is exactly "Screenshots/" + file name |
| BaseClass.UnixBackslashNameReportedElsewhere | BaseClass/PlaywrightBaseTest.cs:137-143 | on Unix, a file name holding a backslash is saved under that name, but the report is given the name with '/' in its place, a different path |
| BaseClass.PlaywrightBaseTest.constructor | BaseClass/PlaywrightBaseTest.cs:18-29 | the configuration is copied, the browser lower-cased; no sink, no node, nothing written yet |
| BaseClass.PlaywrightBaseTest.NodeInSink | BaseClass/PlaywrightBaseTest.cs:19-20 | the current node, when there is one, belongs to the sink; established by Setup and kept by TearDown and OneTimeTearDown |
| BaseClass.PlaywrightBaseTest.Log | BaseClass/PlaywrightBaseTest.cs:175-179 | one line is appended to the log |
| BaseClass.PlaywrightBaseTest.GlobalSetup | BaseClass/PlaywrightBaseTest.cs:51-75 | the environment is exactly SetupEnvironment of the old one; the banner is appended; the sink is the one handed out for (upper-cased browser, environment) |
| BaseClass.PlaywrightBaseTest.Setup | BaseClass/PlaywrightBaseTest.cs:91-104 | with a sink: one fresh node titled with the full name, added to the sink, holding only the "Browser … initialized - Mode: …" entry; without a sink: no node; "Test started: {name}" logged either way; afterwards the node belongs to the sink |
| BaseClass.PlaywrightBaseTest.TearDown | BaseClass/PlaywrightBaseTest.cs:110-159 | the node, page and log change exactly as TearDownSpec says; without a node nothing is reported, but the page calls and log lines are the same; the method never throws; a node that belonged to the sink still does |
| BaseClass.PlaywrightBaseTest.TryCaptureScreenshot | BaseClass/PlaywrightBaseTest.cs:130-149 | the try/catch: the changes are exactly CaptureEffects, and a throw from either step is logged, not passed on |
| BaseClass.PlaywrightBaseTest.OneTimeTearDown | BaseClass/PlaywrightBaseTest.cs:165-170 | the sink is flushed once more, its nodes untouched; "ExtentReports flushed" is logged and the end banner printed; a node that belonged to the sink still does |
| BaseClass.SingleTestSuite | BaseClass/PlaywrightBaseTest.cs:51-170 | a suite of one test, run in NUnit's order: the sink ends with exactly one node, titled with the full name, holding the start entry and then exactly the test-end entries; it was flushed once; the page calls and log lines are those of test start, test end and suite end in order |
| Login.ContainsLifted | PlaywrightPages/LoginPage.cs:60 | definition of `text?.Contains(sub)`: null for a null text; used by Login.DashboardCheckFails |
| Login.NotLifted | PlaywrightPages/LoginPage.cs:60 | definition of `!` on a `bool?`: null stays null; used by Login.DashboardCheckFails |
| Login.DashboardCheckFails | PlaywrightPages/LoginPage.cs:60 | definition of the lifted guard `!text?.Contains("Dashboard") ?? false`; its properties are in Login.DashboardCheckFailsIff |
| Login.LoginSteps | PlaywrightPages/LoginPage.cs:51-59 | definition of the five calls in order; its properties are in Login.LoginFollowsSteps |
| Login.StepAnswers | PlaywrightPages/LoginPage.cs:51-56 | definition of the answers of the four calls before the text read, in call order; used by Login.LoginStopsAtFirstThrow |
| Login.LoginRun | PlaywrightPages/LoginPage.cs:49-64 | definition of LoginAsync against a page; its properties are in Login.LoginFollowsSteps, LoginDashboardOutcome and LoginStopsAtFirstThrow |
| Login.DashboardCheckFailsIff | PlaywrightPages/LoginPage.cs:60 | `!text?.Contains("Dashboard") ?? false` holds exactly for a non-null text with no "Dashboard" in it (case-sensitive); a null text does not throw |
| Login.LoginFollowsSteps | PlaywrightPages/LoginPage.cs:51-59 | the calls are always a non-empty prefix of: fill user name, fill password, click, wait 30000 ms, read text; a completed login made all of them |
| Login.LoginDashboardOutcome | PlaywrightPages/LoginPage.cs:56-63 | once the page calls succeed, the login completes exactly when the text is null or holds "Dashboard", and throws "Dashboard label not found after login" exactly otherwise |
| Login.LoginStopsAtFirstThrow | PlaywrightPages/LoginPage.cs:51-56 | when the first throwing call is the user-name fill, the password fill, the click or the 30000 ms wait, that throw is the outcome and no later call is made |
| Login.LoginPage.OpenLoginPage | PlaywrightPages/LoginPage.cs:41-44 | navigates to exactly the given URL, unmodified |
| Login.LoginPage.Login | PlaywrightPages/LoginPage.cs:49-64 | the page calls and the outcome are exactly LoginRun |
| Register.ChooseGender | PlaywrightPages/RegisterPage.cs:133-144 | definition of the if/else chain; its properties are in Register.ChooseGenderByUpperCase |
| Register.InvalidGenderMessage | PlaywrightPages/RegisterPage.cs:143 | definition of "Invalid gender value: {gender}"; its properties are in Register.SelectGenderClicksAtMostOne |
| Register.SelectGenderRun | PlaywrightPages/RegisterPage.cs:131-145 | definition of SelectGenderAsync against a page; its properties are in Register.SelectGenderClicksAtMostOne |
| Register.ChooseGenderByUpperCase | PlaywrightPages/RegisterPage.cs:133-144 | the Male branch is taken exactly when the upper-cased value is "MALE", Female exactly for "FEMALE", the error otherwise; no value matches both tests |
| Register.SelectGenderClicksAtMostOne | PlaywrightPages/RegisterPage.cs:131-145 | at most one radio is clicked: Male for any casing of "male", the 'FeMale' radio for any casing of "female", none otherwise, and then "Invalid gender value: {gender}" is thrown |
| Register.RegisterPage.Open | PlaywrightPages/RegisterPage.cs:83-86 | always navigates to https://demo.automationtesting.in/Register.html |
| Register.RegisterPage.SelectGender | PlaywrightPages/RegisterPage.cs:131-145 | the page calls and the outcome are exactly SelectGenderRun |
| Register.RegisterPage.CheckHobbiesCheckbox | PlaywrightPages/RegisterPage.cs:150-154 | checks only the first checkbox |
| LoginForm.LoginUrl | Tests/Playwright/TestPlaywright.cs:19 | definition of the login-URL join; its properties are in LoginForm.LoginUrlShape |
| LoginForm.VisibilityProbes | Tests/Playwright/TestPlaywright.cs:25-37 | definition of the visibility probes; its properties are in LoginForm.PlaceholderProbedOnlyWhenHidden |
| LoginForm.FillFieldRun | Tests/Playwright/TestPlaywright.cs:45-52 | definition of one field's fill; its properties are in LoginForm.FillFieldChoosesOneInput |
| LoginForm.FillRun | Tests/Playwright/TestPlaywright.cs:43-62 | definition of the guarded fills; its properties are in LoginForm.FillRunValues |
| LoginForm.SubmitRun | Tests/Playwright/TestPlaywright.cs:68-72 | definition of the conditional submit; its properties are in LoginForm.SubmitClickedOnlyWhenPresent |
| LoginForm.AfterAsserts | Tests/Playwright/TestPlaywright.cs:43-74 | definition of the test after both asserts, closing with the constant `CompletedEntry` "Login form interaction completed" (line 74); its properties are in LoginForm.FillFailureIsOnlyAWarning |
| LoginForm.AfterNavigation | Tests/Playwright/TestPlaywright.cs:25-74 | definition of the test after the navigation; its properties are in LoginForm.AssertionFailsIffFieldHidden |
| LoginForm.TestBody | Tests/Playwright/TestPlaywright.cs:17-74 | definition of the whole test body, opening with the constant `IntroEntry`, the blue "Verify login form fields and attempt submit" label (line 17); its properties are in LoginForm.AssertionFailsIffFieldHidden, FillFailureIsOnlyAWarning, NoClickBeforeSubmit and SubmitClickedOnlyWhenPresent |
| LoginForm.LoginUrlShape | Tests/Playwright/TestPlaywright.cs:19 | the login URL starts with the base URL and ends with "/login"; it is base + "login" exactly when the base ends with '/', and base + "/login" exactly otherwise |
| LoginForm.PlaceholderProbedOnlyWhenHidden | Tests/Playwright/TestPlaywright.cs:25-37 | each placeholder input is probed exactly when its typed input is hidden; 2 to 4 probes in all |
| LoginForm.AssertionFailsIffFieldHidden | Tests/Playwright/TestPlaywright.cs:39-40 | after navigation the test fails by assertion exactly when a field is hidden in both its forms, with the user-name message first |
| LoginForm.FillFieldChoosesOneInput | Tests/Playwright/TestPlaywright.cs:45-61 | at most one input per field is filled: the typed input when it matches, else the placeholder when it matches; a fill happens exactly when one of them matches |
| LoginForm.FillRunValues | Tests/Playwright/TestPlaywright.cs:47-60 | typed inputs get the re-read credential when it is non-null, else the fixture's; placeholder inputs always get the fixture's |
| LoginForm.FillFailureIsOnlyAWarning | Tests/Playwright/TestPlaywright.cs:43-74 | a fill that throws becomes the one Warning entry "Filling inputs failed: {message}", second after the intro entry, and does not decide the result: the body completes unless the submit click throws |
| LoginForm.NoClickBeforeSubmit | Tests/Playwright/TestPlaywright.cs:20-61 | no navigation, probe or fill step clicks the first submit control |
| LoginForm.SubmitClickedOnlyWhenPresent | Tests/Playwright/TestPlaywright.cs:68-72 | the first submit control is clicked exactly when it matches at least one element |
| LoginForm.ProbeFields | Tests/Playwright/TestPlaywright.cs:25-37 | the probes made are VisibilityProbes; each field's flag is "typed or placeholder input visible" |
| LoginForm.FillField | Tests/Playwright/TestPlaywright.cs:45-52 | the page calls and the outcome are exactly FillFieldRun |
| LoginForm.FillFields | Tests/Playwright/TestPlaywright.cs:43-62 | the page calls and the outcome are exactly FillRun |
| LoginForm.FillAndSubmit | Tests/Playwright/TestPlaywright.cs:43-74 | the page calls, entries and result after both asserts are exactly AfterAsserts |
| LoginForm.CheckAndSubmit | Tests/Playwright/TestPlaywright.cs:25-74 | the page calls, entries and result after the navigation are exactly AfterNavigation |
| LoginForm.RunBody | Tests/Playwright/TestPlaywright.cs:17-74 | with a report node, the page calls, entries and result are exactly TestBody |
| LoginForm.Test | Tests/Playwright/TestPlaywright.cs:15-75 | the page calls, entries and result are exactly TestBody; a null node throws a NullReferenceException before anything is done |

## Left out

- The Playwright engine (navigation, locators, waits, screenshots, video recording) is a foreign library. Its answers are the fixed `PageView` oracle. `IsVisibleAsync`, `CountAsync` and `TextContentAsync` are modelled as never throwing.
- Asynchronous scheduling (`async`/`await`) and Playwright's timeouts are left out. A wait succeeds, throws the selector's fault message, or throws the timeout message when the element is not visible.
- ExtentReports rendering is left out.
- `ExtentReportManager` is not part of this model:
  - `GetInstance` is the sink passed to `GlobalSetup`, recorded with its key;
  - the static `Flush` flushes that same sink.
- `ConfigReader` and `TestDataReader` are not part of this model. The resolved configuration is a `TestProfile` input. In the smoke test, the value a re-read of the configuration yields is a `Credentials` input. A re-read that throws is not modelled.
- The test data load (`pd`, BaseClass/PlaywrightBaseTest.cs:83-84) is left out.
- The `TestContext.WriteLine` lines of suite start (BaseClass/PlaywrightBaseTest.cs:77-81) are left out. They repeat most of the console banner.
- `ContextOptions` (BaseClass/PlaywrightBaseTest.cs:34-45) sets `IgnoreHTTPSErrors = true` and the video directory. Both are left out with the engine.
- Project-root resolution (`AppDomain.BaseDirectory`, `GetFullPath`) is filesystem plumbing. The root is a parameter.
- Directory creation is an `Attempt` input.
- `DateTime.Now` is an input. One time value is used for the whole teardown.
- PlaywrightBaseTest.Log: the `HH:mm:ss` clock prefix is left out, and the Console and TestContext copies are one `log` sequence. The suite-start and suite-end banners are kept in a separate `console` sequence, so how the two streams interleave on the one Console is not recorded; in the source, "ExtentReports flushed" (BaseClass/PlaywrightBaseTest.cs:168) comes before the COMPLETED banner (line 169).
- Strings.ToUpper and Strings.ToLower assume an invariant, Gregorian current culture and map ASCII letters only, while the source's `ToLower()`, `ToUpper()` and `DateTime.ToString` use the current culture. Two effects are not modelled:
  - under a Turkish culture `"CHROMIUM".ToLower()` gives a dotless ı and `"chromium".ToUpper()` a dotted İ, so the BROWSER value, the report key and the labels differ (BaseClass/PlaywrightBaseTest.cs:25, 69, 75, 99);
  - under a culture with another calendar, such as th-TH, `yyyy` is that calendar's year (BaseClass/PlaywrightBaseTest.cs:136).
- LoginForm.Test: the model reads `test` at Tests/Playwright/TestPlaywright.cs:17, 65 and 74 as the report node inherited from `PlaywrightBaseTest`. As written, the method declared at line 15 is itself named `test`, and C# member lookup then drops the inherited field, so inside the method `test` names the method group. Lines 17, 65 and 74 are then compile errors (CS0119, CS0023), and the file does not compile as written.
- Strings.EndsWith and LoginForm.LoginUrl: the suffix test is ordinal, while `EndsWith("/")` at Tests/Playwright/TestPlaywright.cs:19 is culture-sensitive and skips ignorable code points such as U+0000 and U+00AD. For a base URL ending in "/" followed by U+00AD the source joins "login" where the model joins "/login".
- Clock.DateTime: the time is kept to the second, because `yyyyMMdd_HHmmss` drops everything finer. Two failures of one test within the same second get the same file name, and the second capture overwrites the first.
- Missing configuration keys are not modelled: every `TestProfile` string is present. In the source, a missing Browser makes the field initialiser `Config.Browser!.ToLower()` (BaseClass/PlaywrightBaseTest.cs:25) throw a NullReferenceException, and a missing BaseUrl makes `baseUrl.EndsWith("/")` (Tests/Playwright/TestPlaywright.cs:19) throw one.
- The OrdinalIgnoreCase comparison and `Contains` are ordinal in the source too. The model folds ASCII letters only, whereas .NET also folds non-ASCII letters.
- BaseClass.SetupEnvironment: variable names are compared exactly, as on Unix. On Windows names are case-insensitive, so an existing `Browser` or `headed` variable would be overwritten rather than kept beside the new one.
- Paths.Combine follows .NET Core's `Path.Combine` rules on Windows and Unix. It does not normalise the path.
- The remaining `RegisterPage` methods (the text fields, the skills dropdown, the password fields and submit) are one-call delegations with no logic. They are left out.
- `PersonalDetailsPage`, the other test scripts, the browser wrapper class and the TypeScript specs are left out. Their outcomes depend only on the live site.
- Assertion failures carry only the assertion's own message. NUnit's added "Expected/But was" text is not modelled.
- LoginForm.FillFieldChoosesOneInput requires the two selectors to differ. This holds for both fields of the script.
