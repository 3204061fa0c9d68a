/**
 * The login page object (LoginPage): open a URL, and log in by filling the two
 * fields, clicking the button, waiting for the dashboard header and checking its text.
 */
module Login {
  import opened Wrappers
  import opened Strings
  import opened Playwright

  const UserNameTxt: Selector := "//input[@placeholder='Username']"
  const PasswordTxt: Selector := "//input[@placeholder='Password']"
  const LoginBtn: Selector := "//button[@type='submit']"
  const DashboardLbl: Selector := "//h6[@class='oxd-text oxd-text--h6 oxd-topbar-header-breadcrumb-module']"
  const DashboardTimeoutMs: nat := 30000
  const DashboardMissing := "Dashboard label not found after login"

  /** `text?.Contains(sub)`: null when the text is null. */
  function ContainsLifted(text: Option<string>, sub: string): Option<bool> {
    match text
    case None => None
    case Some(t) => Some(Contains(t, sub))
  }

  /** `!b` on a `bool?`: null stays null. */
  function NotLifted(b: Option<bool>): Option<bool> {
    match b
    case None => None
    case Some(x) => Some(!x)
  }

  /** The guard `!dashboardText?.Contains("Dashboard") ?? false`, evaluated the way C# lifts it. */
  function DashboardCheckFails(text: Option<string>): bool {
    NotLifted(ContainsLifted(text, "Dashboard")).GetOr(false)
  }

  /** The guard throws exactly for a non-null text in which "Dashboard" occurs nowhere; a null text passes. */
  lemma DashboardCheckFailsIff(text: Option<string>)
    ensures DashboardCheckFails(text) <==> text.Some? && !Contains(text.value, "Dashboard")
    ensures DashboardCheckFails(text) <==> text.Some? && forall i :: !OccursAt(text.value, "Dashboard", i)
    ensures !DashboardCheckFails(None)
  {
    if text.Some? {
      ContainsIffOccurs(text.value, "Dashboard");
    }
  }

  /** The calls LoginAsync makes when none of them throws, in order. */
  function LoginSteps(userName: string, password: string): seq<Action> {
    [ Filled(UserNameTxt, userName),
      Filled(PasswordTxt, password),
      Clicked(LoginBtn),
      Waited(DashboardLbl, DashboardTimeoutMs),
      ReadText(DashboardLbl) ]
  }

  /** LoginAsync against a page: it stops at the first call that throws, then applies the dashboard guard. */
  function LoginRun(v: PageView, userName: string, password: string): Run {
    var steps := LoginSteps(userName, password);
    if v.ActOn(UserNameTxt).Threw? then Run(steps[..1], v.ActOn(UserNameTxt))
    else if v.ActOn(PasswordTxt).Threw? then Run(steps[..2], v.ActOn(PasswordTxt))
    else if v.ActOn(LoginBtn).Threw? then Run(steps[..3], v.ActOn(LoginBtn))
    else if v.WaitOn(DashboardLbl).Threw? then Run(steps[..4], v.WaitOn(DashboardLbl))
    else if DashboardCheckFails(v.TextOf(DashboardLbl)) then Run(steps, Threw(DashboardMissing))
    else Run(steps, Done)
  }

  /** What happens is always a non-empty prefix of the four actions and the text read, in that order; a completed login made all of them. */
  lemma LoginFollowsSteps(v: PageView, userName: string, password: string)
    ensures var run := LoginRun(v, userName, password);
      && 1 <= |run.actions| <= 5
      && run.actions == LoginSteps(userName, password)[..|run.actions|]
      && (run.outcome.Done? ==> run.actions == LoginSteps(userName, password))
  {
  }

  /** Once the page actions succeed, the login completes exactly when the header text is null or holds "Dashboard". */
  lemma LoginDashboardOutcome(v: PageView, userName: string, password: string)
    requires v.ActOn(UserNameTxt).Done? && v.ActOn(PasswordTxt).Done? && v.ActOn(LoginBtn).Done?
    requires v.WaitOn(DashboardLbl).Done?
    ensures var run := LoginRun(v, userName, password);
      var text := v.TextOf(DashboardLbl);
      && run.actions == LoginSteps(userName, password)
      && (run.outcome == Done <==> text.None? || Contains(text.value, "Dashboard"))
      && (run.outcome == Threw(DashboardMissing) <==> text.Some? && !Contains(text.value, "Dashboard"))
  {
    DashboardCheckFailsIff(v.TextOf(DashboardLbl));
  }

  /** The answers of the four calls made before the header is read, in call order. */
  function StepAnswers(v: PageView): seq<Attempt> {
    [v.ActOn(UserNameTxt), v.ActOn(PasswordTxt), v.ActOn(LoginBtn), v.WaitOn(DashboardLbl)]
  }

  /** A throw from any call before the header is read is passed on unchanged, and nothing after that call is done. */
  lemma LoginStopsAtFirstThrow(v: PageView, userName: string, password: string, k: nat)
    requires k < 4
    requires StepAnswers(v)[k].Threw?
    requires forall j :: 0 <= j < k ==> StepAnswers(v)[j].Done?
    ensures LoginRun(v, userName, password) == Run(LoginSteps(userName, password)[..k + 1], StepAnswers(v)[k])
  {
    var at := StepAnswers(v);
    if k >= 1 { assert at[0].Done?; }
    if k >= 2 { assert at[1].Done?; }
    if k >= 3 { assert at[2].Done?; }
  }

  class LoginPage {
    const page: Page

    constructor (page: Page)
      ensures this.page == page
    {
      this.page := page;
    }

    /** OpenLoginPageAsync: navigate to exactly the given URL. */
    method OpenLoginPage(url: string) returns (r: Attempt)
      modifies page
      ensures page.actions == old(page.actions) + [Navigated(url)]
      ensures r == page.view.NavigationResult()
    {
      r := page.Goto(url);
    }

    /** LoginAsync. */
    method Login(userName: string, password: string) returns (r: Attempt)
      modifies page
      ensures var run := LoginRun(page.view, userName, password);
        page.actions == old(page.actions) + run.actions && r == run.outcome
    {
      ghost var steps := LoginSteps(userName, password);
      r := page.Fill(UserNameTxt, userName);
      if r.Threw? {
        assert page.actions == old(page.actions) + steps[..1];
        return;
      }
      r := page.Fill(PasswordTxt, password);
      if r.Threw? {
        assert page.actions == old(page.actions) + steps[..2];
        return;
      }
      r := page.Click(LoginBtn);
      if r.Threw? {
        assert page.actions == old(page.actions) + steps[..3];
        return;
      }
      r := page.WaitForVisible(DashboardLbl, DashboardTimeoutMs);
      if r.Threw? {
        assert page.actions == old(page.actions) + steps[..4];
        return;
      }
      var dashboardText := page.TextContent(DashboardLbl);
      assert page.actions == old(page.actions) + steps;
      if NotLifted(ContainsLifted(dashboardText, "Dashboard")).GetOr(false) {
        r := Threw(DashboardMissing);
      } else {
        r := Done;
      }
    }
  }
}
