/**
 * An abstract model of the Selenium WebDriver that the command provider drives.
 * Only the state the core reads or changes is kept: the open windows, the
 * current window, the window geometry, cookies, the frame context, whether a
 * modal dialog is open, and a DOM lookup from selectors to element ids.
 * Commands whose effect on the page is not modelled (pointer sequences,
 * option selection, alert buttons) and window switches are appended to `log`.
 */
module Browser {
  import opened Wrappers

  type Handle = string
  type ElementId = nat

  datatype Window = Window(handle: Handle, title: string, url: string)
  datatype Size = Size(width: int, height: int)
  datatype Point = Point(x: int, y: int)
  datatype Cookie = Cookie(name: string, value: string)

  /** What `SwitchTo().Frame(...)` / `DefaultContent()` selected last. */
  datatype FrameContext = DefaultContent | FrameByElement(element: ElementId) | FrameByName(name: string)

  /** One step of a Selenium `Actions` chain. */
  datatype PointerStep =
    | MoveToElement(target: ElementId, offset: Point)  // move to the element's position plus `offset`
    | MoveByOffset(offset: Point)                      // move relative to the current pointer position
    | MouseClick
    | MouseDoubleClick
    | MouseContextClick
    | MouseDown                                        // ClickAndHold
    | MouseUp                                          // Release

  /** How `SelectElement` picks an option. */
  datatype OptionKey = ByText(text: string) | ByValue(value: string) | ByIndex(index: int)

  datatype Command =
    | Perform(steps: seq<PointerStep>)
    | DeselectAll(control: ElementId)
    | SelectOption(control: ElementId, key: OptionKey)
    | SwitchWindow(handle: Handle)
    | AcceptAlert
    | DismissAlert
    | SendAlertKeys(text: string)

  /** Exceptions the driver itself raises. */
  datatype DriverFault = NoSuchElement | NoSuchFrame | NoAlertPresent | UnhandledAlert

  datatype BrowserState = BrowserState(
    windows: seq<Window>,
    current: Handle,
    size: Size,
    maximized: bool,
    screen: Size,                        // the size a maximized window takes
    cookies: set<Cookie>,
    implicitWait: nat,                   // seconds
    frame: FrameContext,
    alertPresent: bool,
    alertText: string,
    dom: map<string, seq<ElementId>>,    // selector -> matches, in document order
    positions: map<ElementId, Point>,    // top-left corner of each element
    multiSelects: set<ElementId>,        // select controls with the `multiple` attribute
    frameNames: set<string>,             // the names and ids `SwitchTo().Frame(string)` accepts
    frameElements: set<ElementId>,       // the frame and iframe elements `SwitchTo().Frame(element)` accepts
    keysAccept: bool,                    // typing into a dialog also closes it, as some drivers do
    log: seq<Command>)

  function HandlesOf(ws: seq<Window>): (hs: seq<Handle>)
    ensures |hs| == |ws| && forall k :: 0 <= k < |ws| ==> hs[k] == ws[k].handle
  {
    seq(|ws|, k requires 0 <= k < |ws| => ws[k].handle)
  }

  predicate DistinctHandles(ws: seq<Window>) {
    forall i, j :: 0 <= i < j < |ws| ==> ws[i].handle != ws[j].handle
  }

  /** The elements `selector` matches; an unknown selector matches nothing. */
  function Matches(dom: map<string, seq<ElementId>>, selector: string): seq<ElementId> {
    if selector in dom then dom[selector] else []
  }

  /**
   * A live session: at least one window, window handles are unique, the
   * current handle is one of them, and every element the DOM can return has a
   * position.
   */
  predicate WellFormed(s: BrowserState) {
    && |s.windows| > 0
    && DistinctHandles(s.windows)
    && s.current in HandlesOf(s.windows)
    && forall sel, k :: sel in s.dom && 0 <= k < |s.dom[sel]| ==> s.dom[sel][k] in s.positions
  }

  /** The first window in `ws` whose handle is `h`. */
  function Lookup(ws: seq<Window>, h: Handle): Option<Window> {
    if ws == [] then None
    else if ws[0].handle == h then Some(ws[0])
    else Lookup(ws[1..], h)
  }

  /** With unique handles, looking up a window's handle finds that very window. */
  lemma {:induction false} LookupDistinct(ws: seq<Window>, i: nat)
    requires DistinctHandles(ws) && i < |ws|
    ensures Lookup(ws, ws[i].handle) == Some(ws[i])
  {
    if i > 0 {
      assert DistinctHandles(ws[1..]) by {
        forall a, b | 0 <= a < b < |ws| - 1 ensures ws[1..][a].handle != ws[1..][b].handle {
          assert ws[1..][a] == ws[a + 1] && ws[1..][b] == ws[b + 1];
        }
      }
      assert ws[1..][i - 1] == ws[i];
      LookupDistinct(ws[1..], i - 1);
    }
  }

  /** Where a `MoveToElement` step puts the pointer, in page coordinates. */
  function Landing(positions: map<ElementId, Point>, target: ElementId, offset: Point): Point
    requires target in positions
  {
    Point(positions[target].x + offset.x, positions[target].y + offset.y)
  }

  class WebDriver {
    var windows: seq<Window>
    var current: Handle
    var size: Size
    var maximized: bool
    var screen: Size
    var cookies: set<Cookie>
    var implicitWait: nat
    var frame: FrameContext
    var alertPresent: bool
    var alertText: string
    var dom: map<string, seq<ElementId>>
    var positions: map<ElementId, Point>
    var multiSelects: set<ElementId>
    const frameNames: set<string>
    const frameElements: set<ElementId>
    const keysAccept: bool
    var log: seq<Command>

    function State(): BrowserState
      reads this
    {
      BrowserState(windows, current, size, maximized, screen, cookies, implicitWait, frame,
                   alertPresent, alertText, dom, positions, multiSelects, frameNames, frameElements, keysAccept, log)
    }

    predicate Valid()
      reads this
    {
      WellFormed(State())
    }

    constructor (s: BrowserState)
      requires WellFormed(s)
      ensures State() == s && Valid()
    {
      windows, current, size, maximized, screen := s.windows, s.current, s.size, s.maximized, s.screen;
      cookies, implicitWait, frame := s.cookies, s.implicitWait, s.frame;
      alertPresent, alertText := s.alertPresent, s.alertText;
      dom, positions, multiSelects, log := s.dom, s.positions, s.multiSelects, s.log;
      frameNames, frameElements, keysAccept := s.frameNames, s.frameElements, s.keysAccept;
    }

    function Handles(): seq<Handle>
      reads this
    {
      HandlesOf(windows)
    }

    /** `Title` of the window the driver is switched to. */
    function Title(): string
      reads this
    {
      match Lookup(windows, current)
      case Some(w) => w.title
      case None => ""
    }

    /** `Url` of the window the driver is switched to. */
    function Url(): string
      reads this
    {
      match Lookup(windows, current)
      case Some(w) => w.url
      case None => ""
    }

    method DeleteAllCookies()
      modifies this
      ensures State() == old(State()).(cookies := {})
    {
      cookies := {};
    }

    method ImplicitlyWait(seconds: nat)
      modifies this
      ensures State() == old(State()).(implicitWait := seconds)
    {
      implicitWait := seconds;
    }

    /** Reading the window size while a dialog is open raises UnhandledAlertException. */
    method GetSize() returns (r: Result<Size, DriverFault>)
      ensures r == if alertPresent then Failure(UnhandledAlert) else Success(size)
    {
      if alertPresent {
        r := Failure(UnhandledAlert);
      } else {
        r := Success(size);
      }
    }

    method SetSize(s: Size) returns (r: Outcome<DriverFault>)
      modifies this
      ensures old(alertPresent) ==> r == Fail(UnhandledAlert) && State() == old(State())
      ensures !old(alertPresent) ==> r == Pass && State() == old(State()).(size := s, maximized := false)
    {
      if alertPresent {
        r := Fail(UnhandledAlert);
      } else {
        size, maximized := s, false;
        r := Pass;
      }
    }

    method Maximize() returns (r: Outcome<DriverFault>)
      modifies this
      ensures old(alertPresent) ==> r == Fail(UnhandledAlert) && State() == old(State())
      ensures !old(alertPresent) ==> r == Pass && State() == old(State()).(size := screen, maximized := true)
    {
      if alertPresent {
        r := Fail(UnhandledAlert);
      } else {
        size, maximized := screen, true;
        r := Pass;
      }
    }

    method SwitchToWindow(h: Handle)
      requires h in Handles()
      modifies this
      ensures State() == old(State()).(current := h, log := old(log) + [SwitchWindow(h)])
    {
      current := h;
      log := log + [SwitchWindow(h)];
    }

    /** `FindElement`: the first match in document order. */
    method FindElement(selector: string) returns (r: Result<ElementId, DriverFault>)
      ensures var m := Matches(dom, selector);
              r == if m == [] then Failure(NoSuchElement) else Success(m[0])
    {
      var m := Matches(dom, selector);
      if m == [] {
        r := Failure(NoSuchElement);
      } else {
        r := Success(m[0]);
      }
    }

    /** `FindElements`: every match, in document order. */
    method FindElements(selector: string) returns (m: seq<ElementId>)
      ensures m == Matches(dom, selector)
    {
      m := Matches(dom, selector);
    }

    method SwitchToDefaultContent()
      modifies this
      ensures State() == old(State()).(frame := DefaultContent)
    {
      frame := DefaultContent;
    }

    /** `SwitchTo().Frame(element)`: raises NoSuchFrameException when the element is not a frame or iframe. */
    method SwitchToFrameElement(e: ElementId) returns (r: Outcome<DriverFault>)
      modifies this
      ensures e in frameElements ==> r == Pass && State() == old(State()).(frame := FrameByElement(e))
      ensures e !in frameElements ==> r == Fail(NoSuchFrame) && State() == old(State())
    {
      if e in frameElements {
        frame := FrameByElement(e);
        r := Pass;
      } else {
        r := Fail(NoSuchFrame);
      }
    }

    /** `SwitchTo().Frame(name)`: raises NoSuchFrameException when no frame has that name or id. */
    method SwitchToFrameName(name: string) returns (r: Outcome<DriverFault>)
      modifies this
      ensures name in frameNames ==> r == Pass && State() == old(State()).(frame := FrameByName(name))
      ensures name !in frameNames ==> r == Fail(NoSuchFrame) && State() == old(State())
    {
      if name in frameNames {
        frame := FrameByName(name);
        r := Pass;
      } else {
        r := Fail(NoSuchFrame);
      }
    }

    /** `SwitchTo().Alert()`: succeeds only while a dialog is open. */
    method SwitchToAlert() returns (r: Outcome<DriverFault>)
      ensures r == if alertPresent then Pass else Fail(NoAlertPresent)
    {
      r := if alertPresent then Pass else Fail(NoAlertPresent);
    }

    method ReadAlertText() returns (r: Result<string, DriverFault>)
      ensures r == if alertPresent then Success(alertText) else Failure(NoAlertPresent)
    {
      r := if alertPresent then Success(alertText) else Failure(NoAlertPresent);
    }

    method Accept() returns (r: Outcome<DriverFault>)
      modifies this
      ensures old(alertPresent) ==> r == Pass && State() == old(State()).(alertPresent := false, log := old(log) + [AcceptAlert])
      ensures !old(alertPresent) ==> r == Fail(NoAlertPresent) && State() == old(State())
    {
      if alertPresent {
        alertPresent := false;
        log := log + [AcceptAlert];
        r := Pass;
      } else {
        r := Fail(NoAlertPresent);
      }
    }

    method Dismiss() returns (r: Outcome<DriverFault>)
      modifies this
      ensures old(alertPresent) ==> r == Pass && State() == old(State()).(alertPresent := false, log := old(log) + [DismissAlert])
      ensures !old(alertPresent) ==> r == Fail(NoAlertPresent) && State() == old(State())
    {
      if alertPresent {
        alertPresent := false;
        log := log + [DismissAlert];
        r := Pass;
      } else {
        r := Fail(NoAlertPresent);
      }
    }

    /** Typing into the open dialog; on a driver where `keysAccept` holds, this also closes it. */
    method SendKeysToAlert(text: string) returns (r: Outcome<DriverFault>)
      modifies this
      ensures old(alertPresent) ==> r == Pass && State() == old(State()).(alertPresent := !keysAccept,
                                                                            log := old(log) + [SendAlertKeys(text)])
      ensures !old(alertPresent) ==> r == Fail(NoAlertPresent) && State() == old(State())
    {
      if alertPresent {
        log := log + [SendAlertKeys(text)];
        alertPresent := !keysAccept;
        r := Pass;
      } else {
        r := Fail(NoAlertPresent);
      }
    }

    /** `Actions.Perform()` of a built chain. */
    method PerformActions(steps: seq<PointerStep>)
      modifies this
      ensures State() == old(State()).(log := old(log) + [Perform(steps)])
    {
      log := log + [Perform(steps)];
    }

    method Deselect(control: ElementId)
      modifies this
      ensures State() == old(State()).(log := old(log) + [DeselectAll(control)])
    {
      log := log + [DeselectAll(control)];
    }

    method Select(control: ElementId, key: OptionKey)
      modifies this
      ensures State() == old(State()).(log := old(log) + [SelectOption(control, key)])
    {
      log := log + [SelectOption(control, key)];
    }
  }
}
