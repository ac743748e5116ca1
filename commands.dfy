/**
 * The Selenium command provider: element lookup, pointer actions at page
 * coordinates, option selection, and switching between windows, frames and
 * the active alert. `Act` runs each operation directly: an error returned
 * here is the exception the operation throws.
 */
module Commands {
  import opened Wrappers
  import opened Browser
  import opened Settings
  import opened Session

  /** The exceptions the provider lets reach its caller. */
  datatype Error =
    | ElementNotFound(selector: string)   // FluentElementNotFoundException
    | NoMatchingWindow(name: string)      // FluentException naming the requested window
    | Wrapped(cause: DriverFault)         // FluentException wrapping a driver exception
    | Unwrapped(cause: DriverFault)       // a driver exception passed on as it is

  /** A found element, remembering the selector that found it. */
  datatype Element = Element(id: ElementId, selector: string)

  /** A proxy made by `Find`: it resolves its selector when an action uses it. */
  datatype ElementProxy = ElementProxy(selector: string)

  /** The slot's content: empty, or the alert of the driver that filled it. */
  datatype AlertState = NoAlert | ActiveAlert(owner: WebDriver)

  /** The button `AlertClick` is asked for; every accessor but OK dismisses. */
  datatype AlertAccessor = OK | Cancel

  /** The process-wide `ActiveAlert` slot, shared by every provider. */
  class AlertSlot {
    var state: AlertState

    constructor ()
      ensures state == NoAlert
    {
      state := NoAlert;
    }
  }

  const BodySelector := "body"

  /** What a `Find` proxy resolves to in browser state `s`. */
  function Resolution(s: BrowserState, selector: string): (r: Result<Element, Error>)
    ensures r.Failure? <==> Matches(s.dom, selector) == []
    ensures r.Failure? ==> r.error == ElementNotFound(selector)
    ensures r.Success? ==> r.value == Element(Matches(s.dom, selector)[0], selector)
  {
    var m := Matches(s.dom, selector);
    if m == [] then Failure(ElementNotFound(selector)) else Success(Element(m[0], selector))
  }

  /** The offset from `origin` to the page point (x, y). */
  function OffsetFrom(origin: Point, x: int, y: int): (d: Point)
    ensures origin.x + d.x == x && origin.y + d.y == y
  {
    Point(x - origin.x, y - origin.y)
  }

  /**
   * The pointer move that an absolute-coordinate action starts with: to the
   * document body, offset so that the pointer lands on page point (x, y).
   */
  function BodyMove(s: BrowserState, x: int, y: int): (r: Result<PointerStep, Error>)
    requires WellFormed(s)
    ensures r.Failure? <==> Matches(s.dom, BodySelector) == []
    ensures r.Failure? ==> r.error == ElementNotFound(BodySelector)
    ensures r.Success? ==> && r.value.MoveToElement?
                           && r.value.target == Matches(s.dom, BodySelector)[0]
                           && r.value.target in s.positions
                           && Landing(s.positions, r.value.target, r.value.offset) == Point(x, y)
  {
    match Resolution(s, BodySelector)
    case Failure(e) => Failure(e)
    case Success(body) => Success(MoveToElement(body.id, OffsetFrom(s.positions[body.id], x, y)))
  }

  /** `s.EndsWith(suffix)`, compared character by character. */
  predicate EndsWith(s: string, suffix: string) {
    |suffix| <= |s| && s[|s| - |suffix|..] == suffix
  }

  predicate WindowMatches(w: Window, name: string) {
    w.title == name || EndsWith(w.url, name)
  }

  /** The index of the first window, in enumeration order, whose title is `name` or whose URL ends with it. */
  function FirstMatch(ws: seq<Window>, name: string): (r: Option<nat>)
    ensures r.Some? ==> && r.value < |ws| && WindowMatches(ws[r.value], name)
                        && forall k :: 0 <= k < r.value ==> !WindowMatches(ws[k], name)
    ensures r.None? ==> forall k :: 0 <= k < |ws| ==> !WindowMatches(ws[k], name)
  {
    if ws == [] then None
    else if WindowMatches(ws[0], name) then Some(0)
    else match FirstMatch(ws[1..], name)
      case Some(i) => Some(i + 1)
      case None => None
  }

  /** The window switches made while visiting `ws` in order. */
  function Trail(ws: seq<Window>): (t: seq<Command>)
    ensures |t| == |ws| && forall k :: 0 <= k < |ws| ==> t[k] == SwitchWindow(ws[k].handle)
  {
    seq(|ws|, k requires 0 <= k < |ws| => SwitchWindow(ws[k].handle))
  }

  /** The browser state after switching to each of the first `i` windows of `s` in turn. */
  function Visited(s: BrowserState, i: nat): (v: BrowserState)
    requires i <= |s.windows|
    ensures i > 0 ==> v.current == s.windows[i - 1].handle
  {
    s.(current := if i == 0 then s.current else s.windows[i - 1].handle,
       log := s.log + Trail(s.windows[..i]))
  }

  /** Visiting one more window appends its switch to the trail. */
  lemma VisitNext(s: BrowserState, i: nat)
    requires i < |s.windows|
    ensures Visited(s, i + 1) == Visited(s, i).(current := s.windows[i].handle,
                                                log := Visited(s, i).log + [SwitchWindow(s.windows[i].handle)])
  {
    assert Trail(s.windows[..i + 1]) == Trail(s.windows[..i]) + [SwitchWindow(s.windows[i].handle)];
  }

  /** Switching between the windows of a well-formed state keeps it well formed. */
  lemma VisitedWellFormed(s: BrowserState, i: nat)
    requires WellFormed(s) && i <= |s.windows|
    ensures WellFormed(Visited(s, i))
  {
    if i > 0 {
      assert HandlesOf(s.windows)[i - 1] == s.windows[i - 1].handle;
    }
  }

  /** A matching window with no match before it is the first match. */
  lemma FirstMatchIs(ws: seq<Window>, name: string, i: nat)
    requires i < |ws| && WindowMatches(ws[i], name)
    requires forall k :: 0 <= k < i ==> !WindowMatches(ws[k], name)
    ensures FirstMatch(ws, name) == Some(i)
  {
  }

  /** The option selections sent for `keys`, one per key, in order. */
  function OptionCommands(control: ElementId, keys: seq<OptionKey>): (cs: seq<Command>)
    ensures |cs| == |keys| && forall k :: 0 <= k < |keys| ==> cs[k] == SelectOption(control, keys[k])
  {
    seq(|keys|, k requires 0 <= k < |keys| => SelectOption(control, keys[k]))
  }

  /** The commands a selection sends: deselect everything first on a multiple select, then each option in order. */
  function SelectionCommands(control: ElementId, multiple: bool, keys: seq<OptionKey>): (cs: seq<Command>)
    ensures |cs| == |keys| + (if multiple then 1 else 0)
  {
    (if multiple then [DeselectAll(control)] else []) + OptionCommands(control, keys)
  }

  /**
   * A selection on a multiple control starts by deselecting everything; then
   * the requested options follow, one command each, in the order given.
   */
  lemma SelectionOrder(control: ElementId, multiple: bool, keys: seq<OptionKey>)
    ensures var cs := SelectionCommands(control, multiple, keys);
            var first := if multiple then 1 else 0;
            && (multiple ==> cs[0] == DeselectAll(control))
            && forall k :: 0 <= k < |keys| ==> cs[first + k] == SelectOption(control, keys[k])
  {
  }

  /** Appending to the command log keeps a browser state well formed. */
  lemma LogOnly(s: BrowserState, log: seq<Command>)
    requires WellFormed(s)
    ensures WellFormed(s.(log := log))
  {
  }

  /** Selecting one more option appends exactly its selection. */
  lemma SelectionCommandsNext(control: ElementId, multiple: bool, keys: seq<OptionKey>, i: nat)
    requires i < |keys|
    ensures SelectionCommands(control, multiple, keys[..i + 1])
            == SelectionCommands(control, multiple, keys[..i]) + [SelectOption(control, keys[i])]
  {
    assert OptionCommands(control, keys[..i + 1]) == OptionCommands(control, keys[..i]) + [SelectOption(control, keys[i])];
  }

  /** Before and after a selection through proxy `selector`, with outcome `r`. */
  predicate SelectOutcome(before: BrowserState, after: BrowserState, selector: string, keys: seq<OptionKey>, r: Outcome<Error>) {
    match Resolution(before, selector)
    case Failure(e) => r == Fail(e) && after == before
    case Success(e) =>
      r == Pass && after == before.(log := before.log + SelectionCommands(e.id, e.id in before.multiSelects, keys))
  }

  /** Before and after an element-anchored pointer action through `selector`, performing `build(element)`. */
  predicate PointerOutcome(before: BrowserState, after: BrowserState, selector: string,
                           build: ElementId -> seq<PointerStep>, r: Outcome<Error>) {
    match Resolution(before, selector)
    case Failure(e) => r == Fail(e) && after == before
    case Success(e) => r == Pass && after == before.(log := before.log + [Perform(build(e.id))])
  }

  /** Before and after an absolute-coordinate action that performs `move` followed by `tail`. */
  predicate AbsoluteOutcome(before: BrowserState, after: BrowserState, x: int, y: int,
                            tail: seq<PointerStep>, r: Outcome<Error>)
    requires WellFormed(before)
  {
    match BodyMove(before, x, y)
    case Failure(e) => r == Fail(e) && after == before
    case Success(move) => r == Pass && after == before.(log := before.log + [Perform([move] + tail)])
  }

  class CommandProvider {
    var settings: FluentSettings
    const driver: WebDriver
    const mainWindowHandle: Handle
    const alerts: AlertSlot

    /** The driver is live and the main window captured at start-up is still one of its windows. */
    ghost predicate Valid()
      reads this, driver
    {
      driver.Valid() && mainWindowHandle in driver.Handles()
    }

    constructor (session: Started, settings: FluentSettings, alerts: AlertSlot)
      requires session.driver.Valid() && session.mainWindowHandle == session.driver.current
      ensures Valid()
      ensures driver == session.driver && mainWindowHandle == session.mainWindowHandle
      ensures this.settings == settings && this.alerts == alerts
    {
      this.settings, this.alerts := settings, alerts;
      driver, mainWindowHandle := session.driver, session.mainWindowHandle;
    }

    /**
     * `WithConfig`: apply the incoming settings' geometry, writing the size
     * before maximizing into the outgoing settings, then adopt `incoming`.
     */
    method WithConfig(incoming: FluentSettings) returns (self: CommandProvider)
      requires Valid()
      modifies this`settings, driver, settings`windowWidth, settings`windowHeight
      ensures Valid() && self == this && settings == incoming
      ensures Normalized(old(settings).Window(), driver.State())
              == Reconfigure(old(settings.Window()), old(incoming.Window()), old(driver.State()))
    {
      if incoming.windowMaximized {
        var size := driver.GetSize();
        if size.Success? {
          if settings.windowWidth.None? {
            settings.windowWidth := Some(size.value.width);
          }
          if settings.windowHeight.None? {
            settings.windowHeight := Some(size.value.height);
          }
          var ignored := driver.Maximize();
        }
      } else if incoming.windowWidth.Some? && incoming.windowHeight.Some? {
        var ignored := driver.SetSize(Size(incoming.windowWidth.value, incoming.windowHeight.value));
      }
      settings := incoming;
      self := this;
    }

    /** Resolving a `Find(selector)` proxy: the first match, or not-found carrying the selector. */
    method Find(selector: string) returns (r: Result<Element, Error>)
      ensures r == Resolution(driver.State(), selector)
    {
      var found := driver.FindElement(selector);
      if found.Failure? {
        r := Failure(ElementNotFound(selector));
      } else {
        r := Success(Element(found.value, selector));
      }
    }

    /** Expanding a `FindMultiple(selector)` proxy: one element per match, in document order. */
    method FindMultiple(selector: string) returns (r: Result<seq<Element>, Error>)
      ensures var m := Matches(driver.dom, selector);
              && (r.Failure? <==> m == [])
              && (r.Failure? ==> r.error == ElementNotFound(selector))
              && (r.Success? ==> |r.value| == |m| && forall k :: 0 <= k < |m| ==> r.value[k] == Element(m[k], selector))
    {
      var found := driver.FindElements(selector);
      if |found| == 0 {
        return Failure(ElementNotFound(selector));
      }
      var elements: seq<Element> := [];
      var i := 0;
      while i < |found|
        invariant 0 <= i <= |found|
        invariant |elements| == i
        invariant forall k :: 0 <= k < i ==> elements[k] == Element(found[k], selector)
      {
        elements := elements + [Element(found[i], selector)];
        i := i + 1;
      }
      r := Success(elements);
    }

    /** The body move for page point (x, y). */
    method BodyAnchor(x: int, y: int) returns (r: Result<PointerStep, Error>)
      requires Valid()
      ensures r == BodyMove(driver.State(), x, y)
    {
      var body := Find(BodySelector);
      if body.Failure? {
        return Failure(body.error);
      }
      r := Success(MoveToElement(body.value.id, OffsetFrom(driver.positions[body.value.id], x, y)));
    }

    /** Performs `[anchor] + tail` after a successful body lookup. */
    method PerformAnchored(x: int, y: int, tail: seq<PointerStep>) returns (r: Outcome<Error>)
      requires Valid()
      modifies driver
      ensures Valid()
      ensures AbsoluteOutcome(old(driver.State()), driver.State(), x, y, tail, r)
    {
      var anchor := BodyAnchor(x, y);
      if anchor.Failure? {
        return Fail(anchor.error);
      }
      driver.PerformActions([anchor.value] + tail);
      r := Pass;
    }

    /** `Click(x, y)` at page coordinates. */
    method Click(x: int, y: int) returns (r: Outcome<Error>)
      requires Valid()
      modifies driver
      ensures Valid()
      ensures AbsoluteOutcome(old(driver.State()), driver.State(), x, y, [MouseClick], r)
    {
      r := PerformAnchored(x, y, [MouseClick]);
    }

    /** `DoubleClick(x, y)` at page coordinates. */
    method DoubleClick(x: int, y: int) returns (r: Outcome<Error>)
      requires Valid()
      modifies driver
      ensures Valid()
      ensures AbsoluteOutcome(old(driver.State()), driver.State(), x, y, [MouseDoubleClick], r)
    {
      r := PerformAnchored(x, y, [MouseDoubleClick]);
    }

    /** `RightClick(x, y)` at page coordinates. */
    method RightClick(x: int, y: int) returns (r: Outcome<Error>)
      requires Valid()
      modifies driver
      ensures Valid()
      ensures AbsoluteOutcome(old(driver.State()), driver.State(), x, y, [MouseContextClick], r)
    {
      r := PerformAnchored(x, y, [MouseContextClick]);
    }

    /** `Hover(x, y)` at page coordinates. */
    method Hover(x: int, y: int) returns (r: Outcome<Error>)
      requires Valid()
      modifies driver
      ensures Valid()
      ensures AbsoluteOutcome(old(driver.State()), driver.State(), x, y, [], r)
    {
      r := PerformAnchored(x, y, []);
    }

    /** `DragAndDrop` between two page points, both measured from one body lookup. */
    method DragAndDrop(sourceX: int, sourceY: int, destinationX: int, destinationY: int) returns (r: Outcome<Error>)
      requires Valid()
      modifies driver
      ensures Valid()
      ensures var s := old(driver.State());
              match (BodyMove(s, sourceX, sourceY), BodyMove(s, destinationX, destinationY))
              case (Success(from), Success(to)) =>
                r == Pass && driver.State() == s.(log := s.log + [Perform([from, MouseDown, to, MouseUp])])
              case _ => r == Fail(ElementNotFound(BodySelector)) && driver.State() == s
    {
      var body := Find(BodySelector);
      if body.Failure? {
        return Fail(body.error);
      }
      var origin := driver.positions[body.value.id];
      driver.PerformActions([MoveToElement(body.value.id, OffsetFrom(origin, sourceX, sourceY)), MouseDown,
                             MoveToElement(body.value.id, OffsetFrom(origin, destinationX, destinationY)), MouseUp]);
      r := Pass;
    }

    /** Resolves `p` and performs `build(element)`. */
    method PerformOnElement(p: ElementProxy, build: ElementId -> seq<PointerStep>) returns (r: Outcome<Error>)
      requires Valid()
      modifies driver
      ensures Valid()
      ensures PointerOutcome(old(driver.State()), driver.State(), p.selector, build, r)
    {
      var e := Find(p.selector);
      if e.Failure? {
        return Fail(e.error);
      }
      driver.PerformActions(build(e.value.id));
      r := Pass;
    }

    /** `Click(element, x, y)`: resolves the element, then clicks at an offset from the pointer's current position. */
    method ClickElementAt(p: ElementProxy, x: int, y: int) returns (r: Outcome<Error>)
      requires Valid()
      modifies driver
      ensures Valid()
      ensures PointerOutcome(old(driver.State()), driver.State(), p.selector,
                             _ => [MoveByOffset(Point(x, y)), MouseClick], r)
    {
      r := PerformOnElement(p, _ => [MoveByOffset(Point(x, y)), MouseClick]);
    }

    /** `DoubleClick(element, x, y)`: at offset (x, y) from the element. */
    method DoubleClickElementAt(p: ElementProxy, x: int, y: int) returns (r: Outcome<Error>)
      requires Valid()
      modifies driver
      ensures Valid()
      ensures PointerOutcome(old(driver.State()), driver.State(), p.selector,
                             (e: ElementId) => [MoveToElement(e, Point(x, y)), MouseDoubleClick], r)
    {
      r := PerformOnElement(p, (e: ElementId) => [MoveToElement(e, Point(x, y)), MouseDoubleClick]);
    }

    /** `RightClick(element, x, y)`: at offset (x, y) from the element. */
    method RightClickElementAt(p: ElementProxy, x: int, y: int) returns (r: Outcome<Error>)
      requires Valid()
      modifies driver
      ensures Valid()
      ensures PointerOutcome(old(driver.State()), driver.State(), p.selector,
                             (e: ElementId) => [MoveToElement(e, Point(x, y)), MouseContextClick], r)
    {
      r := PerformOnElement(p, (e: ElementId) => [MoveToElement(e, Point(x, y)), MouseContextClick]);
    }

    /** `Hover(element, x, y)`: to offset (x, y) from the element. */
    method HoverElementAt(p: ElementProxy, x: int, y: int) returns (r: Outcome<Error>)
      requires Valid()
      modifies driver
      ensures Valid()
      ensures PointerOutcome(old(driver.State()), driver.State(), p.selector,
                             (e: ElementId) => [MoveToElement(e, Point(x, y))], r)
    {
      r := PerformOnElement(p, (e: ElementId) => [MoveToElement(e, Point(x, y))]);
    }

    /** `DragAndDrop(source, x, y, target, x, y)`: press at an offset from the source, release at one from the target. */
    method DragAndDropElementsAt(source: ElementProxy, sourceOffsetX: int, sourceOffsetY: int,
                                 target: ElementProxy, targetOffsetX: int, targetOffsetY: int)
      returns (r: Outcome<Error>)
      requires Valid()
      modifies driver
      ensures Valid()
      ensures var s := old(driver.State());
              match (Resolution(s, source.selector), Resolution(s, target.selector))
              case (Failure(e), _) => r == Fail(e) && driver.State() == s
              case (Success(_), Failure(e)) => r == Fail(e) && driver.State() == s
              case (Success(from), Success(to)) =>
                r == Pass && driver.State() == s.(log := s.log + [Perform([
                  MoveToElement(from.id, Point(sourceOffsetX, sourceOffsetY)), MouseDown,
                  MoveToElement(to.id, Point(targetOffsetX, targetOffsetY)), MouseUp])])
    {
      var from := Find(source.selector);
      if from.Failure? {
        return Fail(from.error);
      }
      var to := Find(target.selector);
      if to.Failure? {
        return Fail(to.error);
      }
      driver.PerformActions([MoveToElement(from.value.id, Point(sourceOffsetX, sourceOffsetY)), MouseDown,
                             MoveToElement(to.value.id, Point(targetOffsetX, targetOffsetY)), MouseUp]);
      r := Pass;
    }

    /** The select-control operations: deselect all on a multiple select, then select each option in order. */
    method SelectOptions(p: ElementProxy, keys: seq<OptionKey>) returns (r: Outcome<Error>)
      requires Valid()
      modifies driver
      ensures Valid()
      ensures SelectOutcome(old(driver.State()), driver.State(), p.selector, keys, r)
    {
      var e := Find(p.selector);
      if e.Failure? {
        return Fail(e.error);
      }
      ghost var s := driver.State();
      ApplySelection(e.value.id, e.value.id in driver.multiSelects, keys);
      LogOnly(s, driver.log);
      r := Pass;
    }

    /** Deselect all on a multiple control, then select each key in turn. */
    method ApplySelection(control: ElementId, multiple: bool, keys: seq<OptionKey>)
      modifies driver
      ensures driver.State() == old(driver.State()).(log := old(driver.log) + SelectionCommands(control, multiple, keys))
    {
      if multiple {
        driver.Deselect(control);
      }
      var i := 0;
      while i < |keys|
        invariant 0 <= i <= |keys|
        invariant driver.State() == old(driver.State()).(log := old(driver.log) + SelectionCommands(control, multiple, keys[..i]))
      {
        driver.Select(control, keys[i]);
        SelectionCommandsNext(control, multiple, keys, i);
        i := i + 1;
      }
      assert keys[..i] == keys;
    }

    method SelectText(p: ElementProxy, optionText: string) returns (r: Outcome<Error>)
      requires Valid()
      modifies driver
      ensures Valid()
      ensures SelectOutcome(old(driver.State()), driver.State(), p.selector, [ByText(optionText)], r)
    {
      r := SelectOptions(p, [ByText(optionText)]);
    }

    method SelectValue(p: ElementProxy, optionValue: string) returns (r: Outcome<Error>)
      requires Valid()
      modifies driver
      ensures Valid()
      ensures SelectOutcome(old(driver.State()), driver.State(), p.selector, [ByValue(optionValue)], r)
    {
      r := SelectOptions(p, [ByValue(optionValue)]);
    }

    method SelectIndex(p: ElementProxy, optionIndex: int) returns (r: Outcome<Error>)
      requires Valid()
      modifies driver
      ensures Valid()
      ensures SelectOutcome(old(driver.State()), driver.State(), p.selector, [ByIndex(optionIndex)], r)
    {
      r := SelectOptions(p, [ByIndex(optionIndex)]);
    }

    method MultiSelectText(p: ElementProxy, optionTexts: seq<string>) returns (r: Outcome<Error>)
      requires Valid()
      modifies driver
      ensures Valid()
      ensures SelectOutcome(old(driver.State()), driver.State(), p.selector,
                            seq(|optionTexts|, k requires 0 <= k < |optionTexts| => ByText(optionTexts[k])), r)
    {
      r := SelectOptions(p, seq(|optionTexts|, k requires 0 <= k < |optionTexts| => ByText(optionTexts[k])));
    }

    method MultiSelectValue(p: ElementProxy, optionValues: seq<string>) returns (r: Outcome<Error>)
      requires Valid()
      modifies driver
      ensures Valid()
      ensures SelectOutcome(old(driver.State()), driver.State(), p.selector,
                            seq(|optionValues|, k requires 0 <= k < |optionValues| => ByValue(optionValues[k])), r)
    {
      r := SelectOptions(p, seq(|optionValues|, k requires 0 <= k < |optionValues| => ByValue(optionValues[k])));
    }

    method MultiSelectIndex(p: ElementProxy, optionIndices: seq<int>) returns (r: Outcome<Error>)
      requires Valid()
      modifies driver
      ensures Valid()
      ensures SelectOutcome(old(driver.State()), driver.State(), p.selector,
                            seq(|optionIndices|, k requires 0 <= k < |optionIndices| => ByIndex(optionIndices[k])), r)
    {
      r := SelectOptions(p, seq(|optionIndices|, k requires 0 <= k < |optionIndices| => ByIndex(optionIndices[k])));
    }

    /**
     * `SwitchToWindow`: the empty name returns to the main window; any other
     * name visits the windows in enumeration order and stops at the first
     * whose title is the name or whose URL ends with it. When none matches,
     * every window has been visited and the driver is left on the last one.
     */
    method SwitchToWindow(name: string) returns (r: Outcome<Error>)
      requires Valid()
      modifies driver
      ensures Valid()
      ensures var s := old(driver.State());
              if name == "" then
                r == Pass && driver.State() == s.(current := mainWindowHandle, log := s.log + [SwitchWindow(mainWindowHandle)])
              else match FirstMatch(s.windows, name)
                case Some(i) => r == Pass && driver.State() == Visited(s, i + 1)
                case None => r == Fail(NoMatchingWindow(name)) && driver.State() == Visited(s, |s.windows|)
    {
      if name == "" {
        driver.SwitchToWindow(mainWindowHandle);
        return Pass;
      }
      ghost var s := driver.State();
      var found := ScanWindows(name);
      VisitedWellFormed(s, if found.Some? then found.value + 1 else |s.windows|);
      r := if found.Some? then Pass else Fail(NoMatchingWindow(name));
    }

    /**
     * The scan behind a non-empty window name: it finds the first matching
     * window and stops right after switching to it, or visits them all.
     */
    method ScanWindows(name: string) returns (found: Option<nat>)
      requires WellFormed(driver.State())
      modifies driver
      ensures found == FirstMatch(old(driver.windows), name)
      ensures driver.State() == Visited(old(driver.State()), if found.Some? then found.value + 1 else |old(driver.windows)|)
    {
      ghost var s := driver.State();
      var ws := driver.windows;
      var i := 0;
      found := None;
      while i < |ws| && found.None?
        invariant 0 <= i <= |ws| && ws == s.windows
        invariant found.None? ==> forall k :: 0 <= k < i ==> !WindowMatches(ws[k], name)
        invariant found.Some? ==> found == FirstMatch(ws, name) && i == found.value + 1
        invariant driver.State() == Visited(s, i)
      {
        var matched := Visit(s, i, name);
        if matched {
          FirstMatchIs(ws, name, i);
          found := Some(i);
        }
        i := i + 1;
      }
    }

    /** One step of the window scan: switch to window `i` and compare its title and URL with `name`. */
    method Visit(ghost s: BrowserState, i: nat, name: string) returns (matched: bool)
      requires WellFormed(s) && i < |s.windows| && driver.State() == Visited(s, i)
      modifies driver
      ensures driver.State() == Visited(s, i + 1)
      ensures matched == WindowMatches(s.windows[i], name)
    {
      VisitNext(s, i);
      driver.SwitchToWindow(driver.windows[i].handle);
      LookupDistinct(driver.windows, i);
      matched := driver.Title() == name || EndsWith(driver.Url(), name);
    }

    /**
     * `SwitchToFrame(nameOrSelector)`: the empty string selects the default
     * content; otherwise the frame the selector finds, or, when it finds
     * nothing, the frame the driver knows by that name. The driver's
     * NoSuchFrameException reaches the caller when the element found is not a
     * frame (the name is then not tried) or when no frame has that name.
     */
    method SwitchToFrame(nameOrSelector: string) returns (r: Outcome<Error>)
      requires Valid()
      modifies driver
      ensures Valid()
      ensures var s := old(driver.State());
              var m := Matches(s.dom, nameOrSelector);
              if nameOrSelector == "" then
                r == Pass && driver.State() == s.(frame := DefaultContent)
              else if m != [] && m[0] in s.frameElements then
                r == Pass && driver.State() == s.(frame := FrameByElement(m[0]))
              else if m != [] then
                r == Fail(Unwrapped(NoSuchFrame)) && driver.State() == s
              else if nameOrSelector in s.frameNames then
                r == Pass && driver.State() == s.(frame := FrameByName(nameOrSelector))
              else
                r == Fail(Unwrapped(NoSuchFrame)) && driver.State() == s
    {
      if nameOrSelector == "" {
        driver.SwitchToDefaultContent();
        return Pass;
      }
      var bySelector := driver.FindElement(nameOrSelector);
      var switched: Outcome<DriverFault>;
      if bySelector.Failure? {
        switched := driver.SwitchToFrameName(nameOrSelector);
      } else {
        switched := driver.SwitchToFrameElement(bySelector.value);
      }
      r := if switched.Fail? then Fail(Unwrapped(switched.error)) else Pass;
    }

    /**
     * `SwitchToFrame(frameElement)`: the frame the proxy resolves to; the
     * driver's NoSuchFrameException when that element is not a frame.
     */
    method SwitchToFrameElement(p: ElementProxy) returns (r: Outcome<Error>)
      requires Valid()
      modifies driver
      ensures Valid()
      ensures var s := old(driver.State());
              match Resolution(s, p.selector)
              case Failure(e) => r == Fail(e) && driver.State() == s
              case Success(e) =>
                if e.id in s.frameElements then r == Pass && driver.State() == s.(frame := FrameByElement(e.id))
                else r == Fail(Unwrapped(NoSuchFrame)) && driver.State() == s
    {
      var e := Find(p.selector);
      if e.Failure? {
        return Fail(e.error);
      }
      var switched := driver.SwitchToFrameElement(e.value.id);
      r := if switched.Fail? then Fail(Unwrapped(switched.error)) else Pass;
    }

    /**
     * The driver whose dialog the slot's alert is bound to: the one that
     * filled the slot, or this provider's driver while the slot is empty.
     */
    function AlertHolder(): WebDriver
      reads this, alerts
    {
      if alerts.state.ActiveAlert? then alerts.state.owner else driver
    }

    /**
     * `SetActiveAlert`: while the slot is empty, it is filled with this
     * provider's open dialog; a filled slot is kept, whichever driver filled it.
     */
    method SetActiveAlert() returns (r: Outcome<Error>)
      modifies alerts
      ensures old(alerts.state).ActiveAlert? ==> r == Pass && alerts.state == old(alerts.state)
      ensures old(alerts.state) == NoAlert && driver.alertPresent ==> r == Pass && alerts.state == ActiveAlert(driver)
      ensures old(alerts.state) == NoAlert && !driver.alertPresent ==>
                r == Fail(Wrapped(NoAlertPresent)) && alerts.state == NoAlert
    {
      if alerts.state == NoAlert {
        var switched := driver.SwitchToAlert();
        if switched.Fail? {
          return Fail(Wrapped(switched.error));
        }
        alerts.state := ActiveAlert(driver);
      }
      r := Pass;
    }

    /**
     * `AlertClick`: OK accepts, anything else dismisses, on the dialog the
     * slot holds. The slot is empty afterwards whatever happened; with no
     * dialog open on its driver the call fails.
     */
    method AlertClick(accessor: AlertAccessor) returns (r: Outcome<Error>)
      requires Valid()
      modifies alerts, AlertHolder()
      ensures Valid()
      ensures alerts.state == NoAlert
      ensures var h := old(AlertHolder());
              var s := old(h.State());
              && (if s.alertPresent then
                    r == Pass && h.State() == s.(alertPresent := false,
                                                 log := s.log + [if accessor == OK then AcceptAlert else DismissAlert])
                  else
                    r == Fail(Wrapped(NoAlertPresent)) && h.State() == s)
              && (h != driver ==> driver.State() == old(driver.State()))
    {
      r := SetActiveAlert();
      if r.Fail? {
        return;
      }
      var holder := alerts.state.owner;
      var clicked: Outcome<DriverFault>;
      if accessor == OK {
        clicked := holder.Accept();
      } else {
        clicked := holder.Dismiss();
      }
      // finally
      alerts.state := NoAlert;
      if clicked.Fail? {
        r := Fail(Wrapped(clicked.error));
      }
    }

    /** `AlertText`: the text of the dialog the slot holds, handed to the caller's match function. */
    method AlertText() returns (r: Result<string, Error>)
      modifies alerts
      ensures var h := old(AlertHolder());
              && (old(alerts.state) == NoAlert && !driver.alertPresent ==>
                    r == Failure(Wrapped(NoAlertPresent)) && alerts.state == NoAlert)
              && (old(alerts.state).ActiveAlert? && !h.alertPresent ==>
                    r == Failure(Unwrapped(NoAlertPresent)) && alerts.state == old(alerts.state))
              && (h.alertPresent ==> r == Success(h.alertText) && alerts.state == ActiveAlert(h))
    {
      var slot := SetActiveAlert();
      if slot.Fail? {
        return Failure(slot.error);
      }
      var text := alerts.state.owner.ReadAlertText();
      if text.Failure? {
        return Failure(Unwrapped(text.error));
      }
      r := Success(text.value);
    }

    /**
     * `AlertEnterText`: types into the dialog the slot holds, then accepts
     * it, ignoring any failure of the accept (the dialog is already gone on a
     * driver whose typing closes it). The slot is left as it is.
     */
    method AlertEnterText(text: string) returns (r: Outcome<Error>)
      requires Valid()
      modifies alerts, AlertHolder()
      ensures Valid()
      ensures var h := old(AlertHolder());
              var s := old(h.State());
              && (if s.alertPresent then
                    && r == Pass && alerts.state == ActiveAlert(h)
                    && h.State() == s.(alertPresent := false,
                                       log := s.log + [SendAlertKeys(text)] + (if s.keysAccept then [] else [AcceptAlert]))
                  else
                    && r == Fail(if old(alerts.state) == NoAlert then Wrapped(NoAlertPresent) else Unwrapped(NoAlertPresent))
                    && alerts.state == old(alerts.state) && h.State() == s)
              && (h != driver ==> driver.State() == old(driver.State()))
    {
      r := SetActiveAlert();
      if r.Fail? {
        return;
      }
      var holder := alerts.state.owner;
      var typed := holder.SendKeysToAlert(text);
      if typed.Fail? {
        return Fail(Unwrapped(typed.error));
      }
      var ignored := holder.Accept();
    }
  }

  /**
   * The slot is shared: once one provider has taken its open dialog into the
   * slot, another provider's `AlertClick(OK)` accepts that dialog, not one of
   * its own driver.
   */
  method AcceptThroughSharedSlot(p1: CommandProvider, p2: CommandProvider)
    returns (text: Result<string, Error>, clicked: Outcome<Error>)
    requires p1.Valid() && p2.Valid() && p1.alerts == p2.alerts && p1.alerts.state == NoAlert
    requires p1.driver.alertPresent
    modifies p1.alerts, p1.driver
    ensures text == Success(old(p1.driver.alertText)) && clicked == Pass
    ensures !p1.driver.alertPresent && p1.driver.log == old(p1.driver.log) + [AcceptAlert]
    ensures p1.alerts.state == NoAlert
    ensures p1.driver != p2.driver ==> p2.driver.State() == old(p2.driver.State())
  {
    text := p1.AlertText();
    clicked := p2.AlertClick(OK);
  }

  /**
   * The provider's constructor: start a session, then keep the driver and
   * the main window handle captured at start-up.
   */
  method NewCommandProvider(startup: Startup, grid: RemoteGrid, settings: FluentSettings, alerts: AlertSlot)
    returns (r: Result<CommandProvider, StartupFault>)
    requires startup.Valid() && grid.Valid()
    modifies startup, grid, settings`windowWidth, settings`windowHeight
    ensures var run := Initialize(old(startup.faults), old(grid.faults), grid.configured, OuterRetries);
            && (r.Failure? <==> run.total.outcome.Failure?)
            && (r.Failure? ==> r.error == run.total.outcome.error)
            // the session is on the remote driver exactly when start-up rebuilt it
            && (r.Success? ==> Normalized(settings.Window(), r.value.driver.State())
                               == Normalize(old(settings.Window()), if run.total.outcome.value then grid.initial else startup.initial))
    ensures r.Failure? ==> settings.Window() == old(settings.Window())
    ensures r.Success? ==> && fresh(r.value) && fresh(r.value.driver) && r.value.Valid()
                           && r.value.settings == settings && r.value.alerts == alerts
                           && r.value.mainWindowHandle == r.value.driver.current
                           && r.value.driver.cookies == {}
  {
    ghost var attempts;
    var session;
    session, attempts := InitializeWebDriver(startup, grid, settings);
    if session.Failure? {
      return Failure(session.error);
    }
    var provider := new CommandProvider(session.value, settings, alerts);
    r := Success(provider);
  }
}
