/**
 * The smoke test TestPlaywright.test: go to the login URL derived from the base URL,
 * assert that a user-name and a password field are visible (trying placeholder
 * inputs when the typed inputs are hidden), fill whichever fields exist, reporting a
 * fill failure as a warning only, and click the first submit control if there is one.
 */
module LoginForm {
  import opened Wrappers
  import opened Strings
  import opened Playwright
  import Extent
  import BaseClass

  const EmailInput: Selector := "input[type=\"email\"]"
  const PasswordInput: Selector := "input[type=\"password\"]"
  const UsernamePlaceholder: Selector := "input[placeholder=\"Username\"]"
  const PasswordPlaceholder: Selector := "input[placeholder=\"Password\"]"
  const SubmitControl: Selector := "button[type=submit], input[type=submit]"

  const IntroEntry := Extent.Info(Extent.Label("Verify login form fields and attempt submit", Extent.Blue))
  const CompletedEntry := Extent.Info(Extent.Text("Login form interaction completed"))
  const EmailNotVisible := "Email/username input should be visible on login page"
  const PasswordNotVisible := "Password input should be visible on login page"
  const FillFailedPrefix := "Filling inputs failed: "
  /** The message of the NullReferenceException thrown by a call on a null report node. */
  const NullReference := "Object reference not set to an instance of an object."

  /** The login URL: "login" after a trailing slash, "/login" otherwise. */
  function LoginUrl(baseUrl: string): string {
    if EndsWith(baseUrl, "/") then baseUrl + "login" else baseUrl + "/login"
  }

  /** The URL keeps the base URL as its prefix, ends in "/login", and adds a slash only when the base URL lacks one. */
  lemma LoginUrlShape(baseUrl: string)
    ensures var url := LoginUrl(baseUrl);
      && StartsWith(url, baseUrl)
      && EndsWith(url, "/login")
      && (url == baseUrl + "login" <==> EndsWith(baseUrl, "/"))
      && (url == baseUrl + "/login" <==> !EndsWith(baseUrl, "/"))
      && |url| == |baseUrl| + (if EndsWith(baseUrl, "/") then 5 else 6)
  {
    var url := LoginUrl(baseUrl);
    if EndsWith(baseUrl, "/") {
      assert url[..|baseUrl|] == baseUrl;
      assert url[|url| - 6..] == baseUrl[|baseUrl| - 1..] + "login";
      assert url != baseUrl + "/login";
    } else {
      assert url[..|baseUrl|] == baseUrl;
      assert url[|url| - 6..] == "/login";
      assert url != baseUrl + "login";
    }
  }

  /** A field counts as visible when its typed input or its placeholder input is. */
  predicate FieldVisible(v: PageView, primary: Selector, placeholder: Selector) {
    primary in v.visible || placeholder in v.visible
  }

  /** The visibility probes: both typed inputs, then the placeholder of each one that is hidden. */
  function VisibilityProbes(v: PageView): seq<Action> {
    [ProbedVisible(EmailInput), ProbedVisible(PasswordInput)]
    + (if EmailInput in v.visible then [] else [ProbedVisible(UsernamePlaceholder)])
    + (if PasswordInput in v.visible then [] else [ProbedVisible(PasswordPlaceholder)])
  }

  /** A placeholder input is probed exactly when the typed input it stands in for is hidden. */
  lemma PlaceholderProbedOnlyWhenHidden(v: PageView)
    ensures ProbedVisible(UsernamePlaceholder) in VisibilityProbes(v) <==> EmailInput !in v.visible
    ensures ProbedVisible(PasswordPlaceholder) in VisibilityProbes(v) <==> PasswordInput !in v.visible
    ensures 2 <= |VisibilityProbes(v)| <= 4
  {
    var probes := VisibilityProbes(v);
    if EmailInput !in v.visible {
      assert probes[2] == ProbedVisible(UsernamePlaceholder);
    }
    if PasswordInput !in v.visible {
      assert probes[|probes| - 1] == ProbedVisible(PasswordPlaceholder);
    }
  }

  /** The values ConfigReader.Load() yields for the credentials when the test body re-reads it; None stands for null. */
  datatype Credentials = Credentials(userName: Option<string>, password: Option<string>)

  /** Filling one field: the typed input if it matches anything, else the placeholder input if it does, else nothing. */
  function FillFieldRun(v: PageView, primary: Selector, placeholder: Selector, primaryValue: string, placeholderValue: string): Run {
    if v.CountOf(primary) > 0 then
      Run([Counted(primary), Filled(primary, primaryValue)], v.ActOn(primary))
    else if v.CountOf(placeholder) > 0 then
      Run([Counted(primary), Counted(placeholder), Filled(placeholder, placeholderValue)], v.ActOn(placeholder))
    else
      Run([Counted(primary), Counted(placeholder)], Done)
  }

  /** At most one input of a field is filled: the typed one with its value when it is present, otherwise the placeholder with its value when that is present. */
  lemma FillFieldChoosesOneInput(v: PageView, primary: Selector, placeholder: Selector, primaryValue: string, placeholderValue: string)
    requires primary != placeholder
    ensures var run := FillFieldRun(v, primary, placeholder, primaryValue, placeholderValue);
      && (forall i :: 0 <= i < |run.actions| && run.actions[i].Filled? ==>
            || (run.actions[i] == Filled(primary, primaryValue) && v.CountOf(primary) > 0)
            || (run.actions[i] == Filled(placeholder, placeholderValue) && v.CountOf(primary) == 0 && v.CountOf(placeholder) > 0))
      && ((exists i :: 0 <= i < |run.actions| && run.actions[i].Filled?) <==> v.CountOf(primary) > 0 || v.CountOf(placeholder) > 0)
      && (run.outcome.Threw? ==> exists i :: 0 <= i < |run.actions| && run.actions[i].Filled?)
  {
    var run := FillFieldRun(v, primary, placeholder, primaryValue, placeholderValue);
    if v.CountOf(primary) > 0 {
      assert run.actions[1].Filled?;
    } else if v.CountOf(placeholder) > 0 {
      assert run.actions[2].Filled?;
    }
  }

  /** The fill part of the try block: the password field is tried only if the user-name fill did not throw. */
  function FillRun(v: PageView, userName: string, password: string, reloaded: Credentials): Run {
    var user := FillFieldRun(v, EmailInput, UsernamePlaceholder, reloaded.userName.GetOr(userName), userName);
    if user.outcome.Threw? then user
    else
      var pass := FillFieldRun(v, PasswordInput, PasswordPlaceholder, reloaded.password.GetOr(password), password);
      Run(user.actions + pass.actions, pass.outcome)
  }

  /** The typed inputs get the re-read credentials when they are non-null, else the fixture's; the placeholder inputs always get the fixture's. */
  lemma FillRunValues(v: PageView, userName: string, password: string, reloaded: Credentials)
    ensures var run := FillRun(v, userName, password, reloaded);
      && (forall i :: 0 <= i < |run.actions| && run.actions[i].Filled? && run.actions[i].target == EmailInput ==>
            run.actions[i].value == reloaded.userName.GetOr(userName))
      && (forall i :: 0 <= i < |run.actions| && run.actions[i].Filled? && run.actions[i].target == UsernamePlaceholder ==>
            run.actions[i].value == userName)
      && (forall i :: 0 <= i < |run.actions| && run.actions[i].Filled? && run.actions[i].target == PasswordInput ==>
            run.actions[i].value == reloaded.password.GetOr(password))
      && (forall i :: 0 <= i < |run.actions| && run.actions[i].Filled? && run.actions[i].target == PasswordPlaceholder ==>
            run.actions[i].value == password)
  {
    var user := FillFieldRun(v, EmailInput, UsernamePlaceholder, reloaded.userName.GetOr(userName), userName);
    FillFieldChoosesOneInput(v, EmailInput, UsernamePlaceholder, reloaded.userName.GetOr(userName), userName);
    var pass := FillFieldRun(v, PasswordInput, PasswordPlaceholder, reloaded.password.GetOr(password), password);
    FillFieldChoosesOneInput(v, PasswordInput, PasswordPlaceholder, reloaded.password.GetOr(password), password);
    if !user.outcome.Threw? {
      var run := user.actions + pass.actions;
      forall i | 0 <= i < |run| && run[i].Filled?
        ensures run[i] in [Filled(EmailInput, reloaded.userName.GetOr(userName)), Filled(UsernamePlaceholder, userName),
                           Filled(PasswordInput, reloaded.password.GetOr(password)), Filled(PasswordPlaceholder, password)]
      {
        if i < |user.actions| {
          assert run[i] == user.actions[i];
        } else {
          assert run[i] == pass.actions[i - |user.actions|];
        }
      }
    }
  }

  /** The submit step: the first matching control is clicked only when there is one. */
  function SubmitRun(v: PageView): Run {
    if v.CountOf(SubmitControl) > 0 then
      Run([Counted(SubmitControl), ClickedFirst(SubmitControl)], v.ActOn(SubmitControl))
    else
      Run([Counted(SubmitControl)], Done)
  }

  /** How the test body ends: normally, by a failed assertion, or by an exception that escapes it. */
  datatype BodyResult = Completed | AssertionFailed(message: string) | Errored(message: string)

  /** The calls the body makes on the page, the entries it adds to its report node, and how it ends. */
  datatype BodyRun = BodyRun(actions: seq<Action>, entries: seq<Extent.Entry>, result: BodyResult)

  /** The test body against a page, given whether the fixture has a report node and what the credentials re-read yields. */
  function TestBody(v: PageView, hasNode: bool, baseUrl: string, userName: string, password: string, reloaded: Credentials): BodyRun {
    if !hasNode then BodyRun([], [], Errored(NullReference))
    else
      var navigated := [Navigated(LoginUrl(baseUrl))];
      match v.NavigationResult()
      case Threw(m) => BodyRun(navigated, [IntroEntry], Errored(m))
      case Done =>
        var rest := AfterNavigation(v, userName, password, reloaded);
        BodyRun(navigated + rest.actions, [IntroEntry] + rest.entries, rest.result)
  }

  /** The part of the body after the navigation: the probes, the two asserts, and what follows them. */
  function AfterNavigation(v: PageView, userName: string, password: string, reloaded: Credentials): BodyRun {
    var probes := VisibilityProbes(v);
    if !FieldVisible(v, EmailInput, UsernamePlaceholder) then
      BodyRun(probes, [], AssertionFailed(EmailNotVisible))
    else if !FieldVisible(v, PasswordInput, PasswordPlaceholder) then
      BodyRun(probes, [], AssertionFailed(PasswordNotVisible))
    else
      var rest := AfterAsserts(v, userName, password, reloaded);
      BodyRun(probes + rest.actions, rest.entries, rest.result)
  }

  /**
   * The part of the body after both asserts: the try block, whose exception becomes a
   * warning entry, then the submit click, whose exception escapes, then the closing entry.
   */
  function AfterAsserts(v: PageView, userName: string, password: string, reloaded: Credentials): BodyRun {
    var fill := FillRun(v, userName, password, reloaded);
    var warning := if fill.outcome.Threw? then [Extent.Warning(Extent.Text(FillFailedPrefix + fill.outcome.message))] else [];
    var submit := SubmitRun(v);
    match submit.outcome
    case Threw(m) => BodyRun(fill.actions + submit.actions, warning, Errored(m))
    case Done => BodyRun(fill.actions + submit.actions, warning + [CompletedEntry], Completed)
  }

  /** After a successful navigation the body fails an assertion exactly when a field is hidden in both its forms, user name first. */
  lemma AssertionFailsIffFieldHidden(v: PageView, baseUrl: string, userName: string, password: string, reloaded: Credentials)
    requires v.NavigationResult().Done?
    ensures var body := TestBody(v, true, baseUrl, userName, password, reloaded);
      && (body.result.AssertionFailed? <==>
            !FieldVisible(v, EmailInput, UsernamePlaceholder) || !FieldVisible(v, PasswordInput, PasswordPlaceholder))
      && (body.result == AssertionFailed(EmailNotVisible) <==> !FieldVisible(v, EmailInput, UsernamePlaceholder))
      && (body.result == AssertionFailed(PasswordNotVisible) <==>
            FieldVisible(v, EmailInput, UsernamePlaceholder) && !FieldVisible(v, PasswordInput, PasswordPlaceholder))
      && (body.result.AssertionFailed? ==> body.actions == [Navigated(LoginUrl(baseUrl))] + VisibilityProbes(v))
  {
  }

  /** A fill that throws is logged as one warning and does not decide the result: the body still completes unless the submit click throws. */
  lemma FillFailureIsOnlyAWarning(v: PageView, baseUrl: string, userName: string, password: string, reloaded: Credentials)
    requires v.NavigationResult().Done?
    requires FieldVisible(v, EmailInput, UsernamePlaceholder) && FieldVisible(v, PasswordInput, PasswordPlaceholder)
    ensures var body := TestBody(v, true, baseUrl, userName, password, reloaded);
      var fill := FillRun(v, userName, password, reloaded);
      && (body.result == Completed <==> SubmitRun(v).outcome.Done?)
      && (fill.outcome.Threw? ==> body.entries[1] == Extent.Warning(Extent.Text(FillFailedPrefix + fill.outcome.message)))
      && (fill.outcome.Threw? ==> forall i :: 0 <= i < |body.entries| && body.entries[i].Warning? ==> i == 1)
      && (fill.outcome.Done? ==> forall i :: 0 <= i < |body.entries| ==> !body.entries[i].Warning?)
      && body.entries[0] == IntroEntry
      && (body.result == Completed ==> body.entries[|body.entries| - 1] == CompletedEntry)
  {
  }

  /** No fill or visibility step clicks anything. */
  lemma NoClickBeforeSubmit(v: PageView, baseUrl: string, userName: string, password: string, reloaded: Credentials)
    ensures var before := [Navigated(LoginUrl(baseUrl))] + VisibilityProbes(v) + FillRun(v, userName, password, reloaded).actions;
      forall i :: 0 <= i < |before| ==> !before[i].ClickedFirst?
  {
    var user := FillFieldRun(v, EmailInput, UsernamePlaceholder, reloaded.userName.GetOr(userName), userName);
    var pass := FillFieldRun(v, PasswordInput, PasswordPlaceholder, reloaded.password.GetOr(password), password);
    var probed := [Navigated(LoginUrl(baseUrl))] + VisibilityProbes(v);
    var fill := FillRun(v, userName, password, reloaded);
    assert fill.actions == user.actions || fill.actions == user.actions + pass.actions;
    var before := probed + fill.actions;
    forall i | 0 <= i < |before|
      ensures !before[i].ClickedFirst?
    {
      if i < |probed| {
        assert before[i] == probed[i];
      } else if i < |probed| + |user.actions| {
        assert before[i] == user.actions[i - |probed|];
      } else {
        assert before[i] == pass.actions[i - |probed| - |user.actions|];
      }
    }
  }

  /** Once both fields are visible, the submit control is clicked exactly when it matches at least one element. */
  lemma SubmitClickedOnlyWhenPresent(v: PageView, baseUrl: string, userName: string, password: string, reloaded: Credentials)
    requires v.NavigationResult().Done?
    requires FieldVisible(v, EmailInput, UsernamePlaceholder) && FieldVisible(v, PasswordInput, PasswordPlaceholder)
    ensures var body := TestBody(v, true, baseUrl, userName, password, reloaded);
      (ClickedFirst(SubmitControl) in body.actions <==> v.CountOf(SubmitControl) > 0)
  {
    var before := [Navigated(LoginUrl(baseUrl))] + VisibilityProbes(v) + FillRun(v, userName, password, reloaded).actions;
    NoClickBeforeSubmit(v, baseUrl, userName, password, reloaded);
    var body := TestBody(v, true, baseUrl, userName, password, reloaded);
    assert body.actions == before + SubmitRun(v).actions;
    if v.CountOf(SubmitControl) > 0 {
      assert body.actions[|body.actions| - 1] == ClickedFirst(SubmitControl);
    } else {
      forall i | 0 <= i < |body.actions|
        ensures body.actions[i] != ClickedFirst(SubmitControl)
      {
        if i < |before| {
          assert body.actions[i] == before[i];
        }
      }
    }
  }

  lemma AppendAssociates<T>(a: seq<T>, b: seq<T>, c: seq<T>)
    ensures a + b + c == a + (b + c)
  {
  }

  /** Fill one field (one if/else-if of the try block). */
  method FillField(page: Page, primary: Selector, placeholder: Selector, primaryValue: string, placeholderValue: string)
    returns (r: Attempt)
    modifies page
    ensures var run := FillFieldRun(page.view, primary, placeholder, primaryValue, placeholderValue);
      page.actions == old(page.actions) + run.actions && r == run.outcome
  {
    var n := page.Count(primary);
    if n > 0 {
      r := page.Fill(primary, primaryValue);
    } else {
      n := page.Count(placeholder);
      if n > 0 {
        r := page.Fill(placeholder, placeholderValue);
      } else {
        r := Done;
      }
    }
  }

  /** The try block: both fields, stopping at the first throw. */
  method FillFields(page: Page, userName: string, password: string, reloaded: Credentials) returns (r: Attempt)
    modifies page
    ensures var run := FillRun(page.view, userName, password, reloaded);
      page.actions == old(page.actions) + run.actions && r == run.outcome
  {
    r := FillField(page, EmailInput, UsernamePlaceholder, reloaded.userName.GetOr(userName), userName);
    if r.Done? {
      r := FillField(page, PasswordInput, PasswordPlaceholder, reloaded.password.GetOr(password), password);
    }
  }

  /** The four visibility probes with the placeholder fallbacks. */
  method ProbeFields(page: Page) returns (emailVisible: bool, passVisible: bool)
    modifies page
    ensures page.actions == old(page.actions) + VisibilityProbes(page.view)
    ensures emailVisible == FieldVisible(page.view, EmailInput, UsernamePlaceholder)
    ensures passVisible == FieldVisible(page.view, PasswordInput, PasswordPlaceholder)
  {
    emailVisible := page.IsVisible(EmailInput);
    passVisible := page.IsVisible(PasswordInput);
    if !emailVisible {
      emailVisible := page.IsVisible(UsernamePlaceholder);
    }
    if !passVisible {
      passVisible := page.IsVisible(PasswordPlaceholder);
    }
  }

  /** TestPlaywright.test on a fixture whose setup has run; `reloaded` is what ConfigReader.Load() returns inside the body. */
  method Test(fixture: BaseClass.PlaywrightBaseTest, reloaded: Credentials) returns (r: BodyResult)
    modifies fixture.test, fixture.page
    ensures var body := TestBody(fixture.page.view, fixture.test != null, fixture.baseUrl, fixture.userName, fixture.password, reloaded);
      && r == body.result
      && fixture.page.actions == old(fixture.page.actions) + body.actions
      && (fixture.test != null ==> fixture.test.entries == old(fixture.test.entries) + body.entries)
  {
    if fixture.test == null {
      return Errored(NullReference);
    }
    r := RunBody(fixture.test, fixture.page, fixture.baseUrl, fixture.userName, fixture.password, reloaded);
  }

  /** The body once the report node is known to be there. */
  method RunBody(node: Extent.ExtentTest, page: Page, baseUrl: string, userName: string, password: string, reloaded: Credentials)
    returns (r: BodyResult)
    modifies node, page
    ensures var body := TestBody(page.view, true, baseUrl, userName, password, reloaded);
      && r == body.result
      && page.actions == old(page.actions) + body.actions
      && node.entries == old(node.entries) + body.entries
  {
    node.Log(IntroEntry);
    assert page.actions == old(page.actions);
    var loginUrl := if EndsWith(baseUrl, "/") then baseUrl + "login" else baseUrl + "/login";
    var navigated := page.Goto(loginUrl);
    assert node.entries == old(node.entries) + [IntroEntry];
    if navigated.Threw? {
      return Errored(navigated.message);
    }
    ghost var navigatedActions := page.actions;
    ghost var introduced := node.entries;
    r := CheckAndSubmit(node, page, userName, password, reloaded);
    ghost var rest := AfterNavigation(page.view, userName, password, reloaded);
    ghost var body := TestBody(page.view, true, baseUrl, userName, password, reloaded);
    assert body == BodyRun([Navigated(loginUrl)] + rest.actions, [IntroEntry] + rest.entries, rest.result);
    assert page.actions == navigatedActions + rest.actions;
    AppendAssociates(old(page.actions), [Navigated(loginUrl)], rest.actions);
    assert node.entries == introduced + rest.entries;
    AppendAssociates(old(node.entries), [IntroEntry], rest.entries);
  }

  /** AfterNavigation on the fixture's page and report node. */
  method CheckAndSubmit(node: Extent.ExtentTest, page: Page, userName: string, password: string, reloaded: Credentials)
    returns (r: BodyResult)
    modifies node, page
    ensures var rest := AfterNavigation(page.view, userName, password, reloaded);
      && page.actions == old(page.actions) + rest.actions
      && node.entries == old(node.entries) + rest.entries
      && r == rest.result
  {
    var emailVisible, passVisible := ProbeFields(page);
    if !emailVisible {
      return AssertionFailed(EmailNotVisible);
    }
    if !passVisible {
      return AssertionFailed(PasswordNotVisible);
    }
    r := FillAndSubmit(node, page, userName, password, reloaded);
  }

  /** AfterAsserts on the fixture's page and report node. */
  method FillAndSubmit(node: Extent.ExtentTest, page: Page, userName: string, password: string, reloaded: Credentials)
    returns (r: BodyResult)
    modifies node, page
    ensures var rest := AfterAsserts(page.view, userName, password, reloaded);
      && page.actions == old(page.actions) + rest.actions
      && node.entries == old(node.entries) + rest.entries
      && r == rest.result
  {
    var filled := FillFields(page, userName, password, reloaded);
    if filled.Threw? {
      node.Log(Extent.Warning(Extent.Text(FillFailedPrefix + filled.message)));
    }
    var count := page.Count(SubmitControl);
    if count > 0 {
      var clicked := page.ClickFirst(SubmitControl);
      if clicked.Threw? {
        return Errored(clicked.message);
      }
    }
    node.Log(CompletedEntry);
    r := Completed;
  }
}
