/**
 * The dry-run gate in front of the select syntax: every selection is logged,
 * and it reaches the underlying select provider only when the current
 * settings are not in dry-run mode.
 */
module SelectSyntax {
  import opened Wrappers
  import opened Settings

  /** The resolved element behind a proxy, as far as the gate looks at it: its selector, which may be null. */
  datatype ElementView = ElementView(selector: Option<string>)

  /**
   * What reading a proxy's `Element` gives: the first matching element (which
   * may be null), or no match for the selector the proxy was built from, in
   * which case the read throws FluentElementNotFoundException.
   */
  datatype ElementRead = Matched(element: Option<ElementView>) | NoMatch(selector: string)

  /** A reference to an element proxy: null, or a proxy and what reading its `Element` gives. */
  datatype ProxyRef = NullProxy | Proxy(read: ElementRead)

  /** The exceptions that escape the gate. */
  datatype GateError =
    | SelectorNotFound(selector: string)  // FluentElementNotFoundException, thrown while the selector to log is computed
    | DelegateFailed                      // whatever the underlying select provider throws

  const UnknownSelector := "?"
  const SelectionPrefix := "Perform selection in element with selector: "

  /**
   * The selector written to the log for `p`: its element's selector when there
   * is one and `"?"` otherwise; reading the element of a proxy with no match fails.
   */
  function LoggedSelector(p: ProxyRef): (r: Result<string, GateError>)
    ensures r.Failure? <==> p.Proxy? && p.read.NoMatch?
    ensures r.Failure? ==> r.error == SelectorNotFound(p.read.selector)
    ensures p.Proxy? && p.read.Matched? && p.read.element.Some? && p.read.element.value.selector.Some? ==>
              r == Success(p.read.element.value.selector.value)
    ensures p.NullProxy? || (p.read.Matched? && (p.read.element.None? || p.read.element.value.selector.None?)) ==>
              r == Success(UnknownSelector)
  {
    match p
    case NullProxy => Success(UnknownSelector)
    case Proxy(NoMatch(selector)) => Failure(SelectorNotFound(selector))
    case Proxy(Matched(Some(ElementView(Some(selector))))) => Success(selector)
    case Proxy(Matched(_)) => Success(UnknownSelector)
  }

  /** The log line for a selection with `selector` logged; the selector can be read back from it. */
  function SelectionMessage(selector: string): (m: string)
    ensures |m| >= |SelectionPrefix| && m[..|SelectionPrefix|] == SelectionPrefix
    ensures m[|SelectionPrefix|..] == selector
  {
    SelectionPrefix + selector
  }

  /** The process-wide `FluentSettings.Current`. */
  class CurrentSettings {
    var current: FluentSettings

    constructor (settings: FluentSettings)
      ensures current == settings
    {
      current := settings;
    }
  }

  class Logger {
    var messages: seq<string>

    constructor ()
      ensures messages == []
    {
      messages := [];
    }

    method LogMessage(message: string)
      modifies this
      ensures messages == old(messages) + [message]
    {
      messages := messages + [message];
    }
  }

  /**
   * The underlying select provider the gate delegates to; it remembers every
   * element it was handed, and `throws` says for which of them it then throws.
   */
  class SelectProvider {
    var received: seq<ProxyRef>
    const throws: ProxyRef -> bool

    constructor (throws: ProxyRef -> bool)
      ensures received == [] && this.throws == throws
    {
      received := [];
      this.throws := throws;
    }

    method From(element: ProxyRef) returns (r: Outcome<GateError>)
      modifies this
      ensures received == old(received) + [element]
      ensures r == if throws(element) then Fail(DelegateFailed) else Pass
    {
      received := received + [element];
      r := if throws(element) then Fail(DelegateFailed) else Pass;
    }
  }

  /** The action syntax provider; its `Find` turns a selector into a proxy as `lookup` says. */
  class ActionSyntaxProvider {
    const lookup: string -> ProxyRef

    constructor (lookup: string -> ProxyRef)
      ensures this.lookup == lookup
    {
      this.lookup := lookup;
    }

    method Find(selector: string) returns (p: ProxyRef)
      ensures p == lookup(selector)
    {
      p := lookup(selector);
    }
  }

  class WbTstrSelectSyntaxProvider {
    const actions: ActionSyntaxProvider
    const inner: SelectProvider
    const logger: Logger
    const settings: CurrentSettings

    constructor (actions: ActionSyntaxProvider, inner: SelectProvider, logger: Logger, settings: CurrentSettings)
      ensures this.actions == actions && this.inner == inner && this.logger == logger && this.settings == settings
    {
      this.actions, this.inner, this.logger, this.settings := actions, inner, logger, settings;
    }

    /** Dry-run mode is whatever the current settings say at the moment of asking. */
    predicate IsInDryRunMode()
      reads this, settings, settings.current
    {
      settings.current.isDryRun
    }

    /**
     * `From(element)`: compute the selector to log, log the selection, pass
     * the element on unless in dry-run mode, and hand back the action
     * provider. When the proxy matches nothing, computing the selector throws
     * before anything is logged or passed on, in dry-run mode as well. An
     * exception from the underlying provider escapes after the log line.
     */
    method From(element: ProxyRef) returns (r: Result<ActionSyntaxProvider, GateError>)
      modifies logger, inner
      ensures LoggedSelector(element).Failure? ==>
                && r == Failure(LoggedSelector(element).error)
                && logger.messages == old(logger.messages)
                && inner.received == old(inner.received)
      ensures LoggedSelector(element).Success? ==>
                logger.messages == old(logger.messages) + [SelectionMessage(LoggedSelector(element).value)]
      ensures LoggedSelector(element).Success? && old(IsInDryRunMode()) ==>
                r == Success(actions) && inner.received == old(inner.received)
      ensures LoggedSelector(element).Success? && !old(IsInDryRunMode()) ==>
                && inner.received == old(inner.received) + [element]
                && r == if inner.throws(element) then Failure(DelegateFailed) else Success(actions)
    {
      var selector := LoggedSelector(element);
      if selector.Failure? {
        return Failure(selector.error);
      }
      logger.LogMessage(SelectionPrefix + selector.value);
      if !IsInDryRunMode() {
        var delegated := inner.From(element);
        if delegated.Fail? {
          return Failure(delegated.error);
        }
      }
      r := Success(actions);
    }

    /** `From(selector)`: the same as `From` on the proxy the action provider finds for `selector`. */
    method FromSelector(selector: string) returns (r: Result<ActionSyntaxProvider, GateError>)
      modifies logger, inner
      ensures var p := actions.lookup(selector);
              && (LoggedSelector(p).Failure? ==>
                    && r == Failure(LoggedSelector(p).error)
                    && logger.messages == old(logger.messages)
                    && inner.received == old(inner.received))
              && (LoggedSelector(p).Success? ==>
                    logger.messages == old(logger.messages) + [SelectionMessage(LoggedSelector(p).value)])
              && (LoggedSelector(p).Success? && old(IsInDryRunMode()) ==>
                    r == Success(actions) && inner.received == old(inner.received))
              && (LoggedSelector(p).Success? && !old(IsInDryRunMode()) ==>
                    && inner.received == old(inner.received) + [p]
                    && r == if inner.throws(p) then Failure(DelegateFailed) else Success(actions))
    {
      var element := actions.Find(selector);
      r := From(element);
    }
  }

  /**
   * Dry-run mode is read when a selection is made, not when the gate is
   * built: once `FluentSettings.Current` has been replaced, the gate logs and
   * delegates as the new settings say.
   */
  method DryRunFollowsCurrentSettings(gate: WbTstrSelectSyntaxProvider, next: FluentSettings, element: ProxyRef)
    returns (r: Result<ActionSyntaxProvider, GateError>)
    modifies gate.settings, gate.logger, gate.inner
    ensures gate.IsInDryRunMode() == next.isDryRun
    ensures LoggedSelector(element).Success? && next.isDryRun ==>
              r == Success(gate.actions) && gate.inner.received == old(gate.inner.received)
    ensures LoggedSelector(element).Success? && !next.isDryRun ==>
              && gate.inner.received == old(gate.inner.received) + [element]
              && r == if gate.inner.throws(element) then Failure(DelegateFailed) else Success(gate.actions)
  {
    gate.settings.current := next;
    r := gate.From(element);
  }
}
