/**
 * Session start-up and recovery of the Selenium command provider
 * (`InitializeWebDriver` and `WebDriverFactoryMethod`).
 *
 * The driver factory, the remote grid and Polly's retry policies are replaced
 * by attempt counting: every run of the start-up body raises the next fault
 * of a script, or succeeds once the script is used up, and a policy
 * `WaitAndRetry(n)` runs its body at most n + 1 times. The waits between runs
 * are dropped.
 */
module Session {
  import opened Wrappers
  import opened Browser
  import opened Settings

  /** The exception classes the start-up policies tell apart. */
  datatype StartupFault = InvalidOperation | OtherFailure

  /** Which exceptions a policy retries: `Handle<InvalidOperationException>` or `Handle<Exception>`. */
  datatype Handling = InvalidOperationOnly | AnyException

  predicate Catches(h: Handling, f: StartupFault) {
    h == AnyException || f == InvalidOperation
  }

  const OuterRetries: nat := 5         // InitializeWebDriver's policy
  const InnerRetries: nat := 4         // the policy around the start-up body
  const RemoteRetries: nat := 4        // the policy around building a remote driver
  const ImplicitWaitSeconds: nat := 10

  /** How a policy ended: how many times it ran its body, and the fault it let through, if any. */
  datatype PolicyRun = PolicyRun(runs: nat, fault: Option<StartupFault>)

  /**
   * `WaitAndRetry(retries)` over a body whose runs raise `faults` in order and
   * then succeed: a fault the policy does not handle escapes at once, a
   * handled one is retried until the retries are used up.
   */
  function Policy(faults: seq<StartupFault>, retries: nat, h: Handling): (r: PolicyRun)
    ensures 1 <= r.runs <= retries + 1
    ensures r.fault.None? ==> r.runs == |faults| + 1
    ensures r.fault.Some? ==> r.runs <= |faults| && r.fault.value == faults[r.runs - 1]
    ensures forall k :: 0 <= k < r.runs - 1 ==> Catches(h, faults[k])
    ensures r.fault.Some? && Catches(h, r.fault.value) ==> r.runs == retries + 1
    decreases retries
  {
    if faults == [] then PolicyRun(1, None)
    else if !Catches(h, faults[0]) || retries == 0 then PolicyRun(1, Some(faults[0]))
    else
      var rest := Policy(faults[1..], retries - 1, h);
      PolicyRun(rest.runs + 1, rest.fault)
  }

  /** A policy succeeds exactly when the script holds at most `retries` faults, all of them handled. */
  lemma {:induction false} PolicySucceedsIff(faults: seq<StartupFault>, retries: nat, h: Handling)
    ensures Policy(faults, retries, h).fault.None? <==>
            |faults| <= retries && forall k :: 0 <= k < |faults| ==> Catches(h, faults[k])
  {
    if faults != [] && Catches(h, faults[0]) && retries > 0 {
      PolicySucceedsIff(faults[1..], retries - 1, h);
      assert forall k :: 1 <= k < |faults| ==> faults[k] == faults[1..][k - 1];
    }
  }

  /** How many scripted faults a policy run used up. */
  function Consumed(r: PolicyRun): nat
    requires r.runs >= 1
  {
    if r.fault.None? then r.runs - 1 else r.runs
  }

  /**
   * The driver factory and the start-up steps that follow it. Each run of
   * the start-up body raises the next scripted fault; once the script is used
   * up, runs succeed, and a new local driver shows `initial`.
   */
  class Startup {
    var faults: seq<StartupFault>
    const initial: BrowserState

    predicate Valid()
      reads this
    {
      WellFormed(initial)
    }

    constructor (faults: seq<StartupFault>, initial: BrowserState)
      requires WellFormed(initial)
      ensures Valid() && this.faults == faults && this.initial == initial
    {
      this.faults, this.initial := faults, initial;
    }

    method NextRun() returns (f: Option<StartupFault>)
      modifies this
      ensures old(faults) == [] ==> f == None && faults == []
      ensures old(faults) != [] ==> f == Some(old(faults)[0]) && faults == old(faults)[1..]
    {
      if faults == [] {
        f := None;
      } else {
        f := Some(faults[0]);
        faults := faults[1..];
      }
    }
  }

  /**
   * The remote endpoint a broken session is rebuilt against.
   * `configured` says whether `WbTstr.Configure()` yields a WbTstr carrying
   * the remote address and capabilities.
   */
  class RemoteGrid {
    const configured: bool
    var faults: seq<StartupFault>
    var connects: nat      // EnhancedRemoteWebDriver constructions attempted
    var sessions: nat      // remote drivers built
    const initial: BrowserState

    predicate Valid()
      reads this
    {
      WellFormed(initial)
    }

    constructor (configured: bool, faults: seq<StartupFault>, initial: BrowserState)
      requires WellFormed(initial)
      ensures Valid() && this.configured == configured && this.faults == faults && this.initial == initial
      ensures connects == 0 && sessions == 0
    {
      this.configured, this.faults, this.initial := configured, faults, initial;
      connects, sessions := 0, 0;
    }

    method Connect() returns (r: Result<WebDriver, StartupFault>)
      requires Valid()
      modifies this
      ensures connects == old(connects) + 1
      ensures old(faults) != [] ==> r == Failure(old(faults)[0]) && faults == old(faults)[1..] && sessions == old(sessions)
      ensures old(faults) == [] ==> r.Success? && fresh(r.value) && r.value.Valid() && r.value.State() == initial
                                    && faults == [] && sessions == old(sessions) + 1
    {
      connects := connects + 1;
      if faults != [] {
        r := Failure(faults[0]);
        faults := faults[1..];
      } else {
        var d := new WebDriver(initial);
        sessions := sessions + 1;
        r := Success(d);
      }
    }
  }

  /** The settings' window options and the browser, side by side. */
  datatype Normalized = Normalized(options: WindowOptions, state: BrowserState)

  /**
   * What one successful run of the start-up body does to the settings'
   * window options and to the new browser: cookies cleared, the implicit wait
   * set, and then one of three geometry rules, all skipped while a dialog
   * blocks the window size.
   */
  function Normalize(w: WindowOptions, s: BrowserState): (n: Normalized)
    ensures n.state.cookies == {} && n.state.implicitWait == ImplicitWaitSeconds
    ensures n.state == s.(cookies := {}, implicitWait := ImplicitWaitSeconds, size := n.state.size, maximized := n.state.maximized)
    ensures n.options.maximized == w.maximized
    ensures s.alertPresent ==> n.options == w && n.state.size == s.size && n.state.maximized == s.maximized
    // maximize, first remembering the size before maximizing for each unset dimension
    ensures !s.alertPresent && w.maximized ==>
      && n.state.maximized && n.state.size == s.screen
      && n.options.width == (if w.width.Some? then w.width else Some(s.size.width))
      && n.options.height == (if w.height.Some? then w.height else Some(s.size.height))
    // both dimensions given: the window takes exactly that size and the settings stay as they are
    ensures !s.alertPresent && !w.maximized && w.width.Some? && w.height.Some? ==>
      n.options == w && n.state.size == Size(w.width.value, w.height.value) && !n.state.maximized
    // otherwise the settings adopt the window's current size
    ensures !s.alertPresent && !w.maximized && !(w.width.Some? && w.height.Some?) ==>
      n.options.width == Some(s.size.width) && n.options.height == Some(s.size.height)
      && n.state.size == s.size && n.state.maximized == s.maximized
  {
    var cleared := s.(cookies := {}, implicitWait := ImplicitWaitSeconds);
    if s.alertPresent then
      Normalized(w, cleared)
    else if w.maximized then
      var width := if w.width.None? then Some(s.size.width) else w.width;
      var height := if w.height.None? then Some(s.size.height) else w.height;
      Normalized(w.(width := width, height := height), cleared.(size := s.screen, maximized := true))
    else if w.height.Some? && w.width.Some? then
      Normalized(w, cleared.(size := Size(w.width.value, w.height.value), maximized := false))
    else
      Normalized(w.(width := Some(s.size.width), height := Some(s.size.height)), cleared)
  }

  /**
   * Unless a dialog blocks the window, start-up leaves both dimensions set.
   * Normalising any other dialog-free browser with the settings it produced,
   * as a rebuilt session does, keeps the settings as they are: a maximizing
   * configuration maximizes again, and any other one gives the new window the
   * same size as the first. (Whether the first window is maximized is not
   * carried over: a window already maximized when its size was adopted is
   * resized, un-maximized, the second time.)
   */
  lemma NormalizeSettles(w: WindowOptions, s: BrowserState, s2: BrowserState)
    requires !s.alertPresent && !s2.alertPresent
    ensures var n := Normalize(w, s);
            var n2 := Normalize(n.options, s2);
            && n.options.width.Some? && n.options.height.Some?
            && n2.options == n.options
            && (w.maximized ==> n.state.maximized && n2.state.maximized && n2.state.size == s2.screen)
            && (!w.maximized ==> n.state.size == n2.state.size == Size(n.options.width.value, n.options.height.value)
                                 && !n2.state.maximized)
  {
  }

  /**
   * `WithConfig`'s effect on the outgoing settings' window options and on the
   * browser when `incoming` replaces `outgoing`: maximizing first copies the
   * current size into each unset dimension of the outgoing settings; an exact
   * size is applied only when the incoming settings carry both dimensions.
   */
  function Reconfigure(outgoing: WindowOptions, incoming: WindowOptions, s: BrowserState): (n: Normalized)
    ensures n.state == s.(size := n.state.size, maximized := n.state.maximized)
    ensures n.options.maximized == outgoing.maximized
    ensures s.alertPresent ==> n == Normalized(outgoing, s)
    ensures !s.alertPresent && incoming.maximized ==>
      && n.state.maximized && n.state.size == s.screen
      && n.options.width == (if outgoing.width.Some? then outgoing.width else Some(s.size.width))
      && n.options.height == (if outgoing.height.Some? then outgoing.height else Some(s.size.height))
    ensures !s.alertPresent && !incoming.maximized ==> n.options == outgoing
    ensures !s.alertPresent && !incoming.maximized && incoming.width.Some? && incoming.height.Some? ==>
      n.state.size == Size(incoming.width.value, incoming.height.value) && !n.state.maximized
    ensures !incoming.maximized && !(incoming.width.Some? && incoming.height.Some?) ==> n == Normalized(outgoing, s)
  {
    if s.alertPresent then
      Normalized(outgoing, s)
    else if incoming.maximized then
      var width := if outgoing.width.None? then Some(s.size.width) else outgoing.width;
      var height := if outgoing.height.None? then Some(s.size.height) else outgoing.height;
      Normalized(outgoing.(width := width, height := height), s.(size := s.screen, maximized := true))
    else if incoming.width.Some? && incoming.height.Some? then
      Normalized(outgoing, s.(size := Size(incoming.width.value, incoming.height.value), maximized := false))
    else
      Normalized(outgoing, s)
  }

  /**
   * The "undo" that `WithConfig` prepares: switching from settings without a
   * size to maximized ones, and then back to the outgoing settings (which
   * have now captured the size), restores the window's earlier size.
   */
  lemma ReconfigureUndo(outgoing: WindowOptions, incoming: WindowOptions, s: BrowserState)
    requires !s.alertPresent && incoming.maximized
    requires !outgoing.maximized && outgoing.width.None? && outgoing.height.None?
    ensures var there := Reconfigure(outgoing, incoming, s);
            var back := Reconfigure(incoming, there.options, there.state);
            back.state.size == s.size && !back.state.maximized
  {
  }

  /** A started session: its driver, the main window handle captured at start-up, and whether the driver was rebuilt remotely. */
  datatype Started = Started(driver: WebDriver, mainWindowHandle: Handle, rebuilt: bool)

  /** `session` is what normalising a browser that started as `s0` gives, with settings going from `before` to `after`. */
  ghost predicate Ready(session: Started, before: WindowOptions, after: WindowOptions, s0: BrowserState)
    reads session.driver
  {
    && session.driver.Valid()
    && Normalized(after, session.driver.State()) == Normalize(before, s0)
    && session.mainWindowHandle == session.driver.current
  }

  /** One successful run of the start-up body on driver `d`; returns the main window handle. */
  method StartSession(d: WebDriver, settings: FluentSettings) returns (mainHandle: Handle)
    requires d.Valid()
    modifies d, settings`windowWidth, settings`windowHeight
    ensures d.Valid()
    ensures Normalized(settings.Window(), d.State()) == Normalize(old(settings.Window()), old(d.State()))
    ensures mainHandle == d.current
  {
    d.DeleteAllCookies();
    d.ImplicitlyWait(ImplicitWaitSeconds);
    // touching the window size while a dialog is open raises UnhandledAlertException, which is swallowed
    if settings.windowMaximized {
      var size := d.GetSize();
      if size.Success? {
        if settings.windowWidth.None? {
          settings.windowWidth := Some(size.value.width);
        }
        if settings.windowHeight.None? {
          settings.windowHeight := Some(size.value.height);
        }
        var ignored := d.Maximize();
      }
    } else if settings.windowHeight.Some? && settings.windowWidth.Some? {
      var ignored := d.SetSize(Size(settings.windowWidth.value, settings.windowHeight.value));
    } else {
      var size := d.GetSize();
      if size.Success? {
        settings.windowHeight := Some(size.value.height);
        settings.windowWidth := Some(size.value.width);
      }
    }
    mainHandle := d.current;
  }

  /** The start-up body once its run succeeds: on `recreated` when there is one, otherwise on a new local driver. */
  method StartOn(startup: Startup, settings: FluentSettings, recreated: WebDriver?) returns (session: Started)
    requires recreated != null ==> recreated.Valid()
    requires WellFormed(startup.initial)
    modifies settings`windowWidth, settings`windowHeight, recreated
    ensures Ready(session, old(settings.Window()), settings.Window(),
                  if recreated != null then old(recreated.State()) else startup.initial)
    ensures recreated != null ==> session.driver == recreated && session.rebuilt
    ensures recreated == null ==> fresh(session.driver) && !session.rebuilt
  {
    var d: WebDriver;
    if recreated != null {
      d := recreated;
    } else {
      d := new WebDriver(startup.initial);
    }
    var main := StartSession(d, settings);
    session := Started(d, main, recreated != null);
  }

  /**
   * The inner policy: the start-up body under `WaitAndRetry(4)` for
   * InvalidOperationException. The body uses `recreated` when there is one,
   * and a new local driver otherwise.
   */
  method StartWithRetries(startup: Startup, settings: FluentSettings, recreated: WebDriver?)
    returns (r: Result<Started, StartupFault>)
    requires startup.Valid() && (recreated != null ==> recreated.Valid())
    modifies startup, settings`windowWidth, settings`windowHeight, recreated
    ensures var p := Policy(old(startup.faults), InnerRetries, InvalidOperationOnly);
            && Consumed(p) <= |old(startup.faults)|
            && startup.faults == old(startup.faults)[Consumed(p)..]
            && (r.Failure? <==> p.fault.Some?)
            && (r.Failure? ==> r.error == p.fault.value)
    ensures r.Failure? ==> settings.Window() == old(settings.Window())
    ensures r.Failure? && recreated != null ==> recreated.State() == old(recreated.State())
    ensures r.Success? ==> Ready(r.value, old(settings.Window()), settings.Window(),
                                 if recreated != null then old(recreated.State()) else startup.initial)
    ensures r.Success? && recreated != null ==> r.value.driver == recreated && r.value.rebuilt
    ensures r.Success? && recreated == null ==> fresh(r.value.driver) && !r.value.rebuilt
  {
    var fault := InnerPolicy(startup);
    if fault.Some? {
      return Failure(fault.value);
    }
    var session := StartOn(startup, settings, recreated);
    r := Success(session);
  }

  /**
   * The runs of the inner policy up to its outcome: each run draws the next
   * scripted fault, until a run succeeds or a fault escapes the policy.
   */
  method InnerPolicy(startup: Startup) returns (fault: Option<StartupFault>)
    modifies startup
    ensures var p := Policy(old(startup.faults), InnerRetries, InvalidOperationOnly);
            && Consumed(p) <= |old(startup.faults)|
            && startup.faults == old(startup.faults)[Consumed(p)..]
            && fault == p.fault
  {
    ghost var script := startup.faults;
    var runs: nat := 0;
    while true
      invariant runs <= InnerRetries && runs <= |script|
      invariant startup.faults == script[runs..]
      invariant Policy(script, InnerRetries, InvalidOperationOnly)
                == var rest := Policy(script[runs..], InnerRetries - runs, InvalidOperationOnly);
                   PolicyRun(rest.runs + runs, rest.fault)
      decreases InnerRetries - runs
    {
      fault := startup.NextRun();
      if fault.None? || !Catches(InvalidOperationOnly, fault.value) || runs == InnerRetries {
        return;
      }
      assert script[runs..][1..] == script[runs + 1..];
      runs := runs + 1;
    }
  }

  /** The remote policy: building a remote driver under `WaitAndRetry(4)` for every exception. */
  method ConnectWithRetries(grid: RemoteGrid) returns (r: Result<WebDriver, StartupFault>)
    requires grid.Valid()
    modifies grid
    ensures var p := Policy(old(grid.faults), RemoteRetries, AnyException);
            && Consumed(p) <= |old(grid.faults)|
            && grid.faults == old(grid.faults)[Consumed(p)..]
            && grid.connects == old(grid.connects) + p.runs
            && (r.Failure? <==> p.fault.Some?)
            && (r.Failure? ==> r.error == p.fault.value && grid.sessions == old(grid.sessions))
    ensures r.Success? ==> fresh(r.value) && r.value.Valid() && r.value.State() == grid.initial
                           && grid.sessions == old(grid.sessions) + 1
  {
    ghost var script := grid.faults;
    var runs: nat := 0;
    while true
      invariant runs <= RemoteRetries && runs <= |script|
      invariant grid.faults == script[runs..]
      invariant grid.connects == old(grid.connects) + runs && grid.sessions == old(grid.sessions)
      invariant Policy(script, RemoteRetries, AnyException)
                == var rest := Policy(script[runs..], RemoteRetries - runs, AnyException);
                   PolicyRun(rest.runs + runs, rest.fault)
      decreases RemoteRetries - runs
    {
      r := grid.Connect();
      if r.Success? || runs == RemoteRetries {
        return;
      }
      assert script[runs..][1..] == script[runs + 1..];
      runs := runs + 1;
    }
  }

  /**
   * What a run of start-up code did: the factory-method calls it took
   * (nested ones included), how many faults of the start-up and the remote
   * script it used up, the remote connection attempts and sessions, and the
   * outcome; on success, whether the session runs on a rebuilt remote driver.
   */
  datatype Recovery = Recovery(calls: nat, used: nat, gridUsed: nat,
                               connects: nat, sessions: nat, outcome: Result<bool, StartupFault>)

  /**
   * One `WebDriverFactoryMethod` call, as the code is written. The inner
   * policy runs first; an InvalidOperationException that escapes it is
   * rethrown when the call was made with a rebuilt driver, and handed to the
   * recovery `RebuildRun` describes otherwise.
   */
  function FactoryRun(faults: seq<StartupFault>, gridFaults: seq<StartupFault>, configured: bool, recreated: bool)
    : (r: Recovery)
    ensures r.calls >= 1 && r.used <= |faults| && r.gridUsed <= |gridFaults|
    // a call made with a rebuilt driver never rebuilds again
    ensures recreated ==> r.calls == 1 && r.gridUsed == 0 && r.connects == 0 && r.sessions == 0
    ensures recreated && r.outcome.Success? ==> r.outcome.value
    // with a remote configuration: at most one rebuild, of at most RemoteRetries + 1 connection attempts
    ensures configured ==> r.calls <= 2 && r.sessions <= 1 && r.connects <= RemoteRetries + 1
    ensures !recreated && r.outcome.Success? ==> r.sessions == (if r.outcome.value then 1 else 0)
    // without one: never rebuilt, and an InvalidOperationException never escapes
    ensures !configured && !recreated ==>
              && r.gridUsed == 0 && r.connects == 0 && r.sessions == 0
              && r.outcome != Failure(InvalidOperation) && r.outcome != Success(true)
    decreases |faults|, 1
  {
    var p := Policy(faults, InnerRetries, InvalidOperationOnly);
    if p.fault.None? then
      Recovery(1, Consumed(p), 0, 0, 0, Success(recreated))
    else if p.fault.value != InvalidOperation || recreated then
      Recovery(1, Consumed(p), 0, 0, 0, Failure(p.fault.value))
    else
      var next := RebuildRun(faults[Consumed(p)..], gridFaults, configured);
      next.(calls := next.calls + 1, used := Consumed(p) + next.used)
  }

  /**
   * The recovery in `WebDriverFactoryMethod`'s handler, on a call made
   * without a rebuilt driver: with a remote configuration, a remote driver
   * is built under the remote policy and the method runs again on it;
   * without one, the method runs again on a new local driver. `calls` counts
   * the nested factory-method calls.
   */
  function RebuildRun(faults: seq<StartupFault>, gridFaults: seq<StartupFault>, configured: bool): (r: Recovery)
    ensures r.used <= |faults| && r.gridUsed <= |gridFaults|
    ensures r.outcome.Success? ==> r.sessions == (if r.outcome.value then 1 else 0)
    ensures configured ==> && r.calls <= 1 && r.sessions <= 1 && r.connects <= RemoteRetries + 1
                           && (r.outcome.Success? ==> r.outcome.value)
    ensures !configured ==> && r.calls >= 1 && r.gridUsed == 0 && r.connects == 0 && r.sessions == 0
                            && r.outcome != Failure(InvalidOperation) && r.outcome != Success(true)
    decreases |faults|, 2
  {
    if !configured then FactoryRun(faults, gridFaults, configured, false)
    else
      var c := Policy(gridFaults, RemoteRetries, AnyException);
      if c.fault.Some? then
        Recovery(0, 0, Consumed(c), c.runs, 0, Failure(c.fault.value))
      else
        var next := FactoryRun(faults, gridFaults[Consumed(c)..], configured, true);
        next.(gridUsed := Consumed(c), connects := c.runs, sessions := 1)
  }

  predicate AllInvalidOperation(faults: seq<StartupFault>) {
    forall k :: 0 <= k < |faults| ==> faults[k] == InvalidOperation
  }

  /**
   * With a remote configuration, one factory-method call succeeds exactly when every
   * scripted local fault is an InvalidOperationException, there are at most
   * InnerRetries + 1 + InnerRetries of them, and, when the first inner policy
   * gave up, the remote script holds at most RemoteRetries faults. The
   * session is rebuilt exactly when the first inner policy gave up.
   */
  lemma {:induction false} ConfiguredRecoveryIff(faults: seq<StartupFault>, gridFaults: seq<StartupFault>)
    ensures var r := FactoryRun(faults, gridFaults, true, false);
            && (r.outcome.Success? <==>
                  && AllInvalidOperation(faults) && |faults| <= 2 * InnerRetries + 1
                  && (|faults| > InnerRetries ==> |gridFaults| <= RemoteRetries))
            && (r.outcome.Success? ==> (r.outcome.value <==> |faults| > InnerRetries))
  {
    var p := Policy(faults, InnerRetries, InvalidOperationOnly);
    PolicySucceedsIff(faults, InnerRetries, InvalidOperationOnly);
    if p.fault == Some(InvalidOperation) {
      assert p.runs == InnerRetries + 1 && Consumed(p) == InnerRetries + 1;
      var left := faults[InnerRetries + 1..];
      assert FactoryRun(faults, gridFaults, true, false).outcome == RebuildRun(left, gridFaults, true).outcome;
      RebuildSucceedsIff(left, gridFaults);
      assert AllInvalidOperation(faults) <==> AllInvalidOperation(left) by {
        if AllInvalidOperation(left) {
          forall k | 0 <= k < |faults| ensures faults[k] == InvalidOperation {
            if k > InnerRetries {
              assert faults[k] == left[k - InnerRetries - 1];
            }
          }
        }
      }
    } else if p.fault.Some? {
      assert faults[p.runs - 1] == OtherFailure;
    }
  }

  /**
   * A rebuild with a remote configuration succeeds exactly when the remote
   * script holds at most RemoteRetries faults and the rest of the local
   * script at most InnerRetries faults, all InvalidOperationExceptions; its
   * session is then the rebuilt one.
   */
  lemma RebuildSucceedsIff(faults: seq<StartupFault>, gridFaults: seq<StartupFault>)
    ensures var r := RebuildRun(faults, gridFaults, true);
            && (r.outcome.Success? <==>
                  |gridFaults| <= RemoteRetries && |faults| <= InnerRetries && AllInvalidOperation(faults))
            && (r.outcome.Success? ==> r.outcome.value)
  {
    var c := Policy(gridFaults, RemoteRetries, AnyException);
    PolicySucceedsIff(gridFaults, RemoteRetries, AnyException);
    assert c.fault.None? <==> |gridFaults| <= RemoteRetries;
    if c.fault.None? {
      var left := gridFaults[Consumed(c)..];
      assert RebuildRun(faults, gridFaults, true).outcome == FactoryRun(faults, left, true, true).outcome;
      PolicySucceedsIff(faults, InnerRetries, InvalidOperationOnly);
      assert Policy(faults, InnerRetries, InvalidOperationOnly).fault.None? <==>
               |faults| <= InnerRetries && AllInvalidOperation(faults);
    }
  }

  /**
   * Without a remote configuration, as written: a local factory whose runs
   * raise only InvalidOperationExceptions makes one more nested
   * factory-method call for every InnerRetries + 1 of them, so the number of
   * calls has no bound, and it ends on a local session.
   */
  lemma {:induction false} UnconfiguredRecoveryRepeats(faults: seq<StartupFault>, gridFaults: seq<StartupFault>)
    requires AllInvalidOperation(faults)
    ensures var r := FactoryRun(faults, gridFaults, false, false);
            r.calls == |faults| / (InnerRetries + 1) + 1 && r.outcome == Success(false)
    decreases |faults|
  {
    var p := Policy(faults, InnerRetries, InvalidOperationOnly);
    PolicySucceedsIff(faults, InnerRetries, InvalidOperationOnly);
    if p.fault.Some? {
      var left := faults[InnerRetries + 1..];
      assert AllInvalidOperation(left);
      UnconfiguredRecoveryRepeats(left, gridFaults);
    }
  }

  /**
   * The recovery the guard on a rebuilt driver evidently intends: at most one
   * fallback per call. Without a remote configuration there is nothing to
   * rebuild with, so the inner policy's exception is rethrown.
   */
  function IntendedFactoryRun(faults: seq<StartupFault>, gridFaults: seq<StartupFault>, configured: bool, recreated: bool)
    : (r: Recovery)
    ensures 1 <= r.calls <= 2 && r.used <= |faults|
    ensures recreated ==> r.calls == 1
    ensures !configured && !recreated ==>
              r.calls == 1 && r.connects == 0 && r.sessions == 0
              && (r.outcome.Success? <==> Policy(faults, InnerRetries, InvalidOperationOnly).fault.None?)
  {
    if configured || recreated then FactoryRun(faults, gridFaults, configured, recreated)
    else
      var p := Policy(faults, InnerRetries, InvalidOperationOnly);
      Recovery(1, Consumed(p), 0, 0, 0, if p.fault.None? then Success(false) else Failure(p.fault.value))
  }

  /** A local factory that keeps raising InvalidOperationException is given up after one call by the intended recovery. */
  lemma {:induction false} IntendedRecoveryStops(faults: seq<StartupFault>, gridFaults: seq<StartupFault>)
    requires AllInvalidOperation(faults) && |faults| > InnerRetries
    ensures IntendedFactoryRun(faults, gridFaults, false, false) ==
            Recovery(1, InnerRetries + 1, 0, 0, 0, Failure(InvalidOperation))
  {
    PolicySucceedsIff(faults, InnerRetries, InvalidOperationOnly);
  }

  /** How construction ended: the calls the outer policy made, and the totals over all of them. */
  datatype Initialization = Initialization(attempts: nat, total: Recovery)

  /** `later` preceded by `earlier`: the counts add up, and the outcome is the later one. */
  function Plus(earlier: Recovery, later: Recovery): Recovery {
    later.(calls := earlier.calls + later.calls, used := earlier.used + later.used,
           gridUsed := earlier.gridUsed + later.gridUsed, connects := earlier.connects + later.connects,
           sessions := earlier.sessions + later.sessions)
  }

  /** The retries an outer policy has left after one more attempt. */
  function Remaining(retries: nat): (left: nat)
    requires retries > 0
    ensures left + 1 == retries
  {
    retries - 1
  }

  /**
   * `InitializeWebDriver`'s outer policy with `retries` retries left: the
   * factory method runs again only after it threw an
   * InvalidOperationException; any other outcome ends construction at once.
   */
  function Initialize(faults: seq<StartupFault>, gridFaults: seq<StartupFault>, configured: bool, retries: nat)
    : (r: Initialization)
    ensures 1 <= r.attempts <= retries + 1 && r.total.calls >= r.attempts
    ensures r.total.used <= |faults| && r.total.gridUsed <= |gridFaults|
    ensures r.total.outcome == Failure(InvalidOperation) ==> r.attempts == retries + 1
    ensures configured ==> r.total.sessions <= r.attempts
    ensures !configured ==> r.attempts == 1 && r.total.sessions == 0 && r.total.connects == 0
    ensures r.total.outcome.Success? ==> r.total.sessions >= (if r.total.outcome.value then 1 else 0)
    decreases retries
  {
    var first := FactoryRun(faults, gridFaults, configured, false);
    if first.outcome != Failure(InvalidOperation) || retries == 0 then Initialization(1, first)
    else
      var rest := Initialize(faults[first.used..], gridFaults[first.gridUsed..], configured, Remaining(retries));
      Initialization(rest.attempts + 1, Plus(first, rest.total))
  }

  /** Any outcome of the first call but an InvalidOperationException ends construction with that call. */
  lemma InitializeStopsAtOnce(faults: seq<StartupFault>, gridFaults: seq<StartupFault>, configured: bool, retries: nat)
    requires FactoryRun(faults, gridFaults, configured, false).outcome != Failure(InvalidOperation) || retries == 0
    ensures Initialize(faults, gridFaults, configured, retries) == Initialization(1, FactoryRun(faults, gridFaults, configured, false))
  {
  }

  /**
   * The factory method runs again exactly when its call threw an
   * InvalidOperationException and retries are left: any other outcome ends
   * construction with that call.
   */
  lemma InitializeRetriesOnlyInvalidOperation(faults: seq<StartupFault>, gridFaults: seq<StartupFault>, configured: bool, retries: nat)
    ensures var r := Initialize(faults, gridFaults, configured, retries);
            var first := FactoryRun(faults, gridFaults, configured, false);
            && (r.attempts > 1 <==> retries > 0 && first.outcome == Failure(InvalidOperation))
            && (r.attempts == 1 ==> r.total == first)
  {
  }

  /**
   * Construction makes at most OuterRetries + 1 factory-method calls of its
   * own, so it builds at most that many remote sessions and makes at most
   * (OuterRetries + 1) * (RemoteRetries + 1) connection attempts.
   */
  lemma {:induction false} InitializeBounds(faults: seq<StartupFault>, gridFaults: seq<StartupFault>, configured: bool, retries: nat)
    ensures var r := Initialize(faults, gridFaults, configured, retries);
            && r.total.sessions <= r.attempts <= retries + 1
            && r.total.connects <= r.attempts * (RemoteRetries + 1)
    decreases retries
  {
    var first := FactoryRun(faults, gridFaults, configured, false);
    if first.outcome == Failure(InvalidOperation) && retries > 0 {
      var rest := Initialize(faults[first.used..], gridFaults[first.gridUsed..], configured, Remaining(retries));
      InitializeBounds(faults[first.used..], gridFaults[first.gridUsed..], configured, Remaining(retries));
      assert first.connects <= RemoteRetries + 1;
      assert (rest.attempts + 1) * (RemoteRetries + 1) == rest.attempts * (RemoteRetries + 1) + (RemoteRetries + 1);
    }
  }

  /** A failed first call with retries left is followed by the remaining retries on what is left of both scripts. */
  lemma InitializeUnfold(faults: seq<StartupFault>, gridFaults: seq<StartupFault>, configured: bool, retries: nat)
    requires retries > 0
    requires FactoryRun(faults, gridFaults, configured, false).outcome == Failure(InvalidOperation)
    ensures var first := FactoryRun(faults, gridFaults, configured, false);
            var rest := Initialize(faults[first.used..], gridFaults[first.gridUsed..], configured, Remaining(retries));
            Initialize(faults, gridFaults, configured, retries) == Initialization(rest.attempts + 1, Plus(first, rest.total))
  {
  }

  /** Dropping `i` and then `j` faults from a script drops `i + j`. */
  lemma DropTwice(s: seq<StartupFault>, i: nat, j: nat)
    requires i <= |s| && j <= |s| - i
    ensures s[i..][j..] == s[i + j..]
  {
  }

  /**
   * `WebDriverFactoryMethod`: the inner policy, and on an
   * InvalidOperationException the handler: rethrow on a rebuilt driver,
   * `Rebuild` otherwise. `calls` counts this call and the nested ones.
   */
  method WebDriverFactoryMethod(startup: Startup, grid: RemoteGrid, settings: FluentSettings, recreated: WebDriver?)
    returns (r: Result<Started, StartupFault>, ghost calls: nat)
    requires startup.Valid() && grid.Valid() && (recreated != null ==> recreated.Valid())
    modifies startup, grid, settings`windowWidth, settings`windowHeight, recreated
    decreases |startup.faults|, 1
    ensures var run := FactoryRun(old(startup.faults), old(grid.faults), grid.configured, recreated != null);
            && calls == run.calls
            && startup.faults == old(startup.faults)[run.used..] && grid.faults == old(grid.faults)[run.gridUsed..]
            && grid.connects == old(grid.connects) + run.connects
            && grid.sessions == old(grid.sessions) + run.sessions
            && (r.Failure? <==> run.outcome.Failure?)
            && (r.Failure? ==> r.error == run.outcome.error)
            && (r.Success? ==> r.value.rebuilt == run.outcome.value)
    ensures r.Failure? ==> settings.Window() == old(settings.Window())
    ensures r.Success? ==> Ready(r.value, old(settings.Window()), settings.Window(),
                                 if recreated != null then old(recreated.State())
                                 else if r.value.rebuilt then grid.initial
                                 else startup.initial)
    ensures r.Success? && recreated != null ==> r.value.driver == recreated
    ensures r.Success? && recreated == null ==> fresh(r.value.driver)
  {
    ghost var faults := startup.faults;
    r := StartWithRetries(startup, settings, recreated);
    calls := 1;
    if r.Success? || r.error != InvalidOperation || recreated != null {
      return;
    }
    ghost var used := |faults| - |startup.faults|;
    ghost var next := RebuildRun(startup.faults, grid.faults, grid.configured);
    assert faults[used..][next.used..] == faults[used + next.used..];
    r, calls := Rebuild(startup, grid, settings);
    calls := calls + 1;
  }

  /**
   * The handler's recovery on a call made without a rebuilt driver, as
   * `RebuildRun` describes. `Dispose()` before it does nothing, since the
   * provider holds no driver yet.
   */
  method Rebuild(startup: Startup, grid: RemoteGrid, settings: FluentSettings)
    returns (r: Result<Started, StartupFault>, ghost calls: nat)
    requires startup.Valid() && grid.Valid()
    modifies startup, grid, settings`windowWidth, settings`windowHeight
    decreases |startup.faults|, 2
    ensures var run := RebuildRun(old(startup.faults), old(grid.faults), grid.configured);
            && calls == run.calls
            && startup.faults == old(startup.faults)[run.used..] && grid.faults == old(grid.faults)[run.gridUsed..]
            && grid.connects == old(grid.connects) + run.connects
            && grid.sessions == old(grid.sessions) + run.sessions
            && (r.Failure? <==> run.outcome.Failure?)
            && (r.Failure? ==> r.error == run.outcome.error)
            && (r.Success? ==> r.value.rebuilt == run.outcome.value)
    ensures r.Failure? ==> settings.Window() == old(settings.Window())
    ensures r.Success? ==> fresh(r.value.driver)
    ensures r.Success? ==> Ready(r.value, old(settings.Window()), settings.Window(),
                                 if r.value.rebuilt then grid.initial else startup.initial)
  {
    var rebuilt: WebDriver? := null;
    if grid.configured {
      var connected := ConnectWithRetries(grid);
      if connected.Failure? {
        return Failure(connected.error), 0;
      }
      rebuilt := connected.value;
    }
    r, calls := WebDriverFactoryMethod(startup, grid, settings, rebuilt);
  }

  /**
   * `InitializeWebDriver`: the outer policy, `WaitAndRetry(5)` for
   * InvalidOperationException around `WebDriverFactoryMethod`.
   */
  method InitializeWebDriver(startup: Startup, grid: RemoteGrid, settings: FluentSettings)
    returns (r: Result<Started, StartupFault>, ghost attempts: nat)
    requires startup.Valid() && grid.Valid()
    modifies startup, grid, settings`windowWidth, settings`windowHeight
    ensures var run := Initialize(old(startup.faults), old(grid.faults), grid.configured, OuterRetries);
            && attempts == run.attempts
            && startup.faults == old(startup.faults)[run.total.used..]
            && grid.faults == old(grid.faults)[run.total.gridUsed..]
            && grid.connects == old(grid.connects) + run.total.connects
            && grid.sessions == old(grid.sessions) + run.total.sessions
            && (r.Failure? <==> run.total.outcome.Failure?)
            && (r.Failure? ==> r.error == run.total.outcome.error)
            && (r.Success? ==> r.value.rebuilt == run.total.outcome.value)
    ensures r.Failure? ==> settings.Window() == old(settings.Window())
    ensures r.Success? ==> fresh(r.value.driver)
    ensures r.Success? ==> Ready(r.value, old(settings.Window()), settings.Window(),
                                 if r.value.rebuilt then grid.initial else startup.initial)
  {
    ghost var run;
    r, attempts, run := OuterPolicy(startup, grid, settings, OuterRetries);
  }

  /**
   * The outer policy with `retries` retries left; `run` is what `Initialize`
   * says of the scripts as they stood, and `attempts` counts the
   * factory-method calls made here.
   */
  method OuterPolicy(startup: Startup, grid: RemoteGrid, settings: FluentSettings, retries: nat)
    returns (r: Result<Started, StartupFault>, ghost attempts: nat, ghost run: Initialization)
    requires startup.Valid() && grid.Valid()
    modifies startup, grid, settings`windowWidth, settings`windowHeight
    decreases retries, 1
    ensures run == Initialize(old(startup.faults), old(grid.faults), grid.configured, retries)
    ensures attempts == run.attempts
    ensures startup.faults == old(startup.faults)[run.total.used..]
    ensures grid.faults == old(grid.faults)[run.total.gridUsed..]
    ensures grid.connects == old(grid.connects) + run.total.connects
    ensures grid.sessions == old(grid.sessions) + run.total.sessions
    ensures r.Failure? <==> run.total.outcome.Failure?
    ensures r.Failure? ==> r.error == run.total.outcome.error
    ensures r.Success? ==> r.value.rebuilt == run.total.outcome.value
    ensures r.Failure? ==> settings.Window() == old(settings.Window())
    ensures r.Success? ==> fresh(r.value.driver)
    ensures r.Success? ==> Ready(r.value, old(settings.Window()), settings.Window(),
                                 if r.value.rebuilt then grid.initial else startup.initial)
  {
    ghost var faults, gridFaults := startup.faults, grid.faults;
    ghost var connects, sessions := grid.connects, grid.sessions;
    ghost var first := FactoryRun(faults, gridFaults, grid.configured, false);
    ghost var calls;
    r, calls := WebDriverFactoryMethod(startup, grid, settings, null);
    if r.Success? || r.error != InvalidOperation || retries == 0 {
      InitializeStopsAtOnce(faults, gridFaults, grid.configured, retries);
      attempts, run := 1, Initialization(1, first);
      return;
    }
    r, attempts, run := RetryAfterInvalidOperation(startup, grid, settings, retries, faults, gridFaults, connects, sessions);
  }

  /**
   * The rest of the outer policy once the first call, on the scripts
   * `faults` and `gridFaults`, threw an InvalidOperationException and a retry
   * is left.
   */
  method RetryAfterInvalidOperation(startup: Startup, grid: RemoteGrid, settings: FluentSettings, retries: nat,
                                    ghost faults: seq<StartupFault>, ghost gridFaults: seq<StartupFault>,
                                    ghost connects: nat, ghost sessions: nat)
    returns (r: Result<Started, StartupFault>, ghost attempts: nat, ghost run: Initialization)
    requires startup.Valid() && grid.Valid() && retries > 0
    requires var first := FactoryRun(faults, gridFaults, grid.configured, false);
             && first.outcome == Failure(InvalidOperation)
             && first.used <= |faults| && startup.faults == faults[first.used..]
             && first.gridUsed <= |gridFaults| && grid.faults == gridFaults[first.gridUsed..]
             && grid.connects == connects + first.connects
             && grid.sessions == sessions + first.sessions
    modifies startup, grid, settings`windowWidth, settings`windowHeight
    decreases retries, 0
    ensures run == Initialize(faults, gridFaults, grid.configured, retries)
    ensures attempts == run.attempts
    ensures startup.faults == faults[run.total.used..]
    ensures grid.faults == gridFaults[run.total.gridUsed..]
    ensures grid.connects == connects + run.total.connects
    ensures grid.sessions == sessions + run.total.sessions
    ensures r.Failure? <==> run.total.outcome.Failure?
    ensures r.Failure? ==> r.error == run.total.outcome.error
    ensures r.Success? ==> r.value.rebuilt == run.total.outcome.value
    ensures r.Failure? ==> settings.Window() == old(settings.Window())
    ensures r.Success? ==> fresh(r.value.driver)
    ensures r.Success? ==> Ready(r.value, old(settings.Window()), settings.Window(),
                                 if r.value.rebuilt then grid.initial else startup.initial)
  {
    ghost var first := FactoryRun(faults, gridFaults, grid.configured, false);
    ghost var mid, midGrid := startup.faults, grid.faults;
    ghost var rest;
    r, attempts, rest := OuterPolicy(startup, grid, settings, Remaining(retries));
    assert rest == Initialize(faults[first.used..], gridFaults[first.gridUsed..], grid.configured, Remaining(retries)) by {
      assert rest == Initialize(mid, midGrid, grid.configured, Remaining(retries));
    }
    assert Initialize(faults, gridFaults, grid.configured, retries) == Initialization(rest.attempts + 1, Plus(first, rest.total)) by {
      InitializeUnfold(faults, gridFaults, grid.configured, retries);
    }
    assert startup.faults == faults[first.used + rest.total.used..] by {
      DropTwice(faults, first.used, rest.total.used);
    }
    assert grid.faults == gridFaults[first.gridUsed + rest.total.gridUsed..] by {
      DropTwice(gridFaults, first.gridUsed, rest.total.gridUsed);
    }
    attempts, run := attempts + 1, Initialization(rest.attempts + 1, Plus(first, rest.total));
  }
}
