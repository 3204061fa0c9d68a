/**
 * The browser page as the harness sees it. The automation engine is not modelled:
 * what the live page would answer is a fixed PageView, and every call the harness
 * makes on the page is recorded, in order, in `actions`.
 */
module Playwright {
  import opened Wrappers

  /** A locator's selector text. */
  type Selector = string

  /** How a call into the engine (or the filesystem) ends: normally, or by throwing with a message. */
  datatype Attempt = Done | Threw(message: string)

  /** One call made on the page. */
  datatype Action =
    | Navigated(url: string)
    | Filled(target: Selector, value: string)
    | Clicked(target: Selector)
    | ClickedFirst(target: Selector)
    | CheckedFirst(target: Selector)
    | Waited(target: Selector, timeoutMs: nat)
    | ProbedVisible(target: Selector)
    | Counted(target: Selector)
    | ReadText(target: Selector)
    | Captured(path: string)

  /** A sequence of calls and how the last of them ended. */
  datatype Run = Run(actions: seq<Action>, outcome: Attempt)

  /**
   * What the page answers: which selectors are visible, how many elements each matches,
   * the text content of each (missing means null), the selectors whose actions throw and
   * with what message, and whether navigation or a screenshot throws.
   */
  datatype PageView = PageView(
    visible: set<Selector>,
    counts: map<Selector, nat>,
    texts: map<Selector, string>,
    faults: map<Selector, string>,
    navigationFault: Option<string>,
    screenshotFault: Option<string>,
    timeoutMessage: string)
  {
    function CountOf(s: Selector): nat {
      if s in counts then counts[s] else 0
    }

    function TextOf(s: Selector): Option<string> {
      if s in texts then Some(texts[s]) else None
    }

    /** A fill, click or check on `s`. */
    function ActOn(s: Selector): Attempt {
      if s in faults then Threw(faults[s]) else Done
    }

    /** Waiting for `s` to be visible: it throws when the action faults or the element never shows. */
    function WaitOn(s: Selector): Attempt {
      if s in faults then Threw(faults[s])
      else if s in visible then Done
      else Threw(timeoutMessage)
    }

    function NavigationResult(): Attempt {
      match navigationFault
      case Some(m) => Threw(m)
      case None => Done
    }

    function ScreenshotResult(): Attempt {
      match screenshotFault
      case Some(m) => Threw(m)
      case None => Done
    }
  }

  class Page {
    const view: PageView
    var actions: seq<Action>

    constructor (view: PageView)
      ensures this.view == view && actions == []
    {
      this.view := view;
      actions := [];
    }

    /** GotoAsync(url). */
    method Goto(url: string) returns (r: Attempt)
      modifies this
      ensures actions == old(actions) + [Navigated(url)] && r == view.NavigationResult()
    {
      actions := actions + [Navigated(url)];
      r := view.NavigationResult();
    }

    /** Locator(s).FillAsync(value). */
    method Fill(s: Selector, value: string) returns (r: Attempt)
      modifies this
      ensures actions == old(actions) + [Filled(s, value)] && r == view.ActOn(s)
    {
      actions := actions + [Filled(s, value)];
      r := view.ActOn(s);
    }

    /** Locator(s).ClickAsync(). */
    method Click(s: Selector) returns (r: Attempt)
      modifies this
      ensures actions == old(actions) + [Clicked(s)] && r == view.ActOn(s)
    {
      actions := actions + [Clicked(s)];
      r := view.ActOn(s);
    }

    /** Locator(s).First.ClickAsync(). */
    method ClickFirst(s: Selector) returns (r: Attempt)
      modifies this
      ensures actions == old(actions) + [ClickedFirst(s)] && r == view.ActOn(s)
    {
      actions := actions + [ClickedFirst(s)];
      r := view.ActOn(s);
    }

    /** Locator(s).First.CheckAsync(). */
    method CheckFirst(s: Selector) returns (r: Attempt)
      modifies this
      ensures actions == old(actions) + [CheckedFirst(s)] && r == view.ActOn(s)
    {
      actions := actions + [CheckedFirst(s)];
      r := view.ActOn(s);
    }

    /** Locator(s).WaitForAsync with State = Visible and the given timeout. */
    method WaitForVisible(s: Selector, timeoutMs: nat) returns (r: Attempt)
      modifies this
      ensures actions == old(actions) + [Waited(s, timeoutMs)] && r == view.WaitOn(s)
    {
      actions := actions + [Waited(s, timeoutMs)];
      r := view.WaitOn(s);
    }

    /** Locator(s).IsVisibleAsync(). */
    method IsVisible(s: Selector) returns (b: bool)
      modifies this
      ensures actions == old(actions) + [ProbedVisible(s)] && b == (s in view.visible)
    {
      actions := actions + [ProbedVisible(s)];
      b := s in view.visible;
    }

    /** Locator(s).CountAsync(). */
    method Count(s: Selector) returns (n: nat)
      modifies this
      ensures actions == old(actions) + [Counted(s)] && n == view.CountOf(s)
    {
      actions := actions + [Counted(s)];
      n := view.CountOf(s);
    }

    /** Locator(s).TextContentAsync(); None stands for null. */
    method TextContent(s: Selector) returns (t: Option<string>)
      modifies this
      ensures actions == old(actions) + [ReadText(s)] && t == view.TextOf(s)
    {
      actions := actions + [ReadText(s)];
      t := view.TextOf(s);
    }

    /** ScreenshotAsync(new() { Path = path }). */
    method Screenshot(path: string) returns (r: Attempt)
      modifies this
      ensures actions == old(actions) + [Captured(path)] && r == view.ScreenshotResult()
    {
      actions := actions + [Captured(path)];
      r := view.ScreenshotResult();
    }
  }
}
