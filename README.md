# WbTstr.Net command layer in Dafny

This project models the parts of WbTstr.Net (a FluentAutomation fork) that behave like small state machines. The browser driver is replaced by an abstract Selenium `WebDriver`, and properties are proved about the logic around it:

- **Session start-up and recovery** (`CommandProvider` construction). The provider starts a driver under nested Polly retry policies. It clears cookies and sets the implicit wait. It applies one of three window-geometry rules, each of which writes back into `FluentSettings`. It then captures the main window handle. An `InvalidOperationException` that survives the retries rebuilds a remote driver at most once per factory call. Without a remote configuration, the factory method instead calls itself again on a new local driver, with no bound (see Findings).
- **`WithConfig`**: the size before maximizing is stored into the outgoing settings, so the change can be undone later.
- **Element lookup and pointer arithmetic**:
  - `Find` and `FindMultiple`.
  - The absolute-coordinate actions, which translate page coordinates into an offset from the document body.
  - The element-anchored actions.
- **Option selection.** On a multiple select control, all options are deselected first. The requested options are then selected in order.
- **Context switching**:
  - the first-match window scan;
  - the three-way frame choice;
  - the process-wide alert slot, which is set lazily and cleared in a `finally`. The slot holds the alert of the driver that filled it, and every provider acts on that driver's dialog.
- **The dry-run gate** (`WbTstrSelectSyntaxProvider`). It reads the proxy's element to find the selector to log, which throws when nothing matches. Otherwise it logs, and it delegates only outside dry-run mode.
- **The WatiN provider** (`AutomationProvider`). The browser type can change only until the first `Navigate` creates the browser. Only Internet Explorer can be created.

Layout:

| file | module | contents |
|---|---|---|
| `wrappers.dfy` | `Wrappers` | `Option`, `Result`, `Outcome` |
| `browser.dfy` | `Browser` | the abstract driver: `BrowserState` and the `WebDriver` class whose methods the provider calls. A driver knows its frame names, and whether typing into a dialog closes it (`keysAccept`). |
| `settings.dfy` | `Settings` | the `FluentSettings` class, which is shared and updated in place |
| `session.dfy` | `Session` | retry policies, the fault script, geometry normalisation, start-up and recovery |
| `commands.dfy` | `Commands` | the `CommandProvider` class and the specification functions its methods are proved against |
| `select_syntax.dfy` | `SelectSyntax` | the dry-run gate |
| `watin.dfy` | `WatiN` | the WatiN `AutomationProvider` |

### How failures are modelled

- **Start-up faults.** A `Startup` object (the local driver factory) or a `RemoteGrid` object (the remote endpoint) holds a script of faults. Each run of a policy's body raises the next scripted fault. Once the script is used up, runs succeed.
- **Retry policies.** Polly's `WaitAndRetry(n)` runs its body at most `n + 1` times and retries only the exceptions it handles. This is the function `Session.Policy`. The budgets are 5 (outer), 4 (inner) and 4 (remote).
- **Exceptions.** An exception reaching the caller is a `Failure`/`Fail` value.
- **`BaseCommandProvider.Act`.** `Act` is not part of this model (see Left out). Every operation is run directly, and its errors propagate.

### Behaviour of the code worth knowing

- **`FindMultiple`**: each entry it yields captures the element matched during expansion. Reading an entry does not re-resolve the selector.
- **The alert slot**: `ActiveAlert` is static, so it is shared by every provider. A slot filled by one provider is used as it is by the others. `AlertClick`, `AlertText` and `AlertEnterText` then act on the dialog of the driver that filled it, not on their own driver's.
- **`AlertEnterText`**: the alert slot is not cleared after the follow-up accept. The slot stays `ActiveAlert`. On a driver whose typing already closed the dialog, the accept fails and the failure is ignored.
- **`SwitchToFrame(nameOrSelector)`**: a string that selects no element is handed to the driver as a frame name. When no frame has that name, the driver's `NoSuchFrameException` reaches the caller. A string that selects an element that is not a frame also fails that way, and the name is then not tried.
- **Recovery**: a rebuilt driver that fails again rethrows its `InvalidOperationException` from `WebDriverFactoryMethod`. The outer `WaitAndRetry(5)` in `InitializeWebDriver` handles it and calls the factory again, which may rebuild again. So there is at most one rebuild per factory call. Construction makes at most 6 factory calls, so at most 6 remote sessions and 30 connection attempts.
- **Recovery without a remote configuration**: the handler calls `WebDriverFactoryMethod` again with a null driver. That call builds a new local driver, and its own handler can do the same again. The guard that rethrows on a rebuilt driver never fires, so an `InvalidOperationException` never escapes and the nested calls have no bound.

## Model

| member | source | states |
|---|---|---|
| Session.Policy | FluentAutomation.SeleniumWebDriver/CommandProvider.cs:39-40 | A `WaitAndRetry(retries)` run executes its body at least once and at most `retries + 1` times. Only handled faults are retried. Success happens exactly after every scripted fault was consumed. A handled fault escapes only once the retries are exhausted. |
| Session.PolicySucceedsIff | FluentAutomation.SeleniumWebDriver/CommandProvider.cs:47-48 | A policy succeeds if and only if the script holds no more faults than retries and every one of them is handled. |
| Session.Normalize | FluentAutomation.SeleniumWebDriver/CommandProvider.cs:57-87 | Start-up clears cookies and sets a 10 s implicit wait. When maximizing, each unset dimension is first filled with the pre-maximize size. Both dimensions given means the window gets exactly that size and the settings are unchanged. Otherwise the settings adopt the current size. An open dialog skips all geometry. |
| Session.NormalizeSettles | FluentAutomation.SeleniumWebDriver/CommandProvider.cs:63-82 | Without a dialog, start-up leaves both dimensions set. Starting any other dialog-free browser with the settings it produced keeps those settings. A maximizing configuration maximizes the new window to its screen. Any other gives the new window exactly the first window's size, not maximized. |
| Session.StartSession | FluentAutomation.SeleniumWebDriver/CommandProvider.cs:51-90 | One successful start-up run leaves settings and browser exactly as `Normalize` says. The returned main handle is the current window. |
| Session.StartWithRetries | FluentAutomation.SeleniumWebDriver/CommandProvider.cs:47-91 | The inner policy consumes the script as `Policy(faults, 4, InvalidOperation)` says, and fails with that policy's fault. On failure neither the settings nor a rebuilt driver are touched. On success the session is normalised from a new local driver, or from the rebuilt one when it is given. |
| Session.InnerPolicy | FluentAutomation.SeleniumWebDriver/CommandProvider.cs:47-48 | The inner policy uses up exactly the faults `Policy(faults, 4, InvalidOperation)` consumes. It ends with that policy's outcome. |
| Session.StartOn | FluentAutomation.SeleniumWebDriver/CommandProvider.cs:51-90 | A clean run of the start-up body normalises the rebuilt driver when there is one, and a new local driver otherwise. Only a rebuilt driver marks the session as rebuilt. |
| Session.ConnectWithRetries | FluentAutomation.SeleniumWebDriver/CommandProvider.cs:116-117 | Building a remote driver retries every fault up to 4 times. The number of connection attempts equals the policy's runs. At most one session is opened, and only on success. |
| Session.FactoryRun | FluentAutomation.SeleniumWebDriver/CommandProvider.cs:43-128 | One factory call makes at least one call in all. With a rebuilt driver it makes exactly one, touches no remote driver, and a success is on the rebuilt driver. With a remote configuration it makes at most two calls, one session and 5 connection attempts. Without one, no remote driver is used and an `InvalidOperationException` never escapes. A success opened a session exactly when it is rebuilt. |
| Session.RebuildRun | FluentAutomation.SeleniumWebDriver/CommandProvider.cs:105-126 | With a remote configuration the rebuild makes at most one nested call, one session and 5 connection attempts, and a success is on the rebuilt driver. Without one it calls the factory method again on a new local driver and never uses the remote endpoint. |
| Session.ConfiguredRecoveryIff | FluentAutomation.SeleniumWebDriver/CommandProvider.cs:43-126 | With a remote configuration, one factory-method call succeeds if and only if every local fault is an `InvalidOperationException`, there are at most 9 of them, and the remote script holds at most 4 faults whenever there are more than 4 local ones. The session is rebuilt exactly when there are more than 4. (Construction as a whole can still succeed where one call fails, since the outer policy retries on what is left of the scripts.) |
| Session.RebuildSucceedsIff | FluentAutomation.SeleniumWebDriver/CommandProvider.cs:105-126 | A configured rebuild succeeds if and only if the remote script holds at most 4 faults and the remaining local script at most 4, all of them `InvalidOperationException`. The session is then the rebuilt one. |
| Session.UnconfiguredRecoveryRepeats | FluentAutomation.SeleniumWebDriver/CommandProvider.cs:93-126 | Without a remote configuration, a factory that raises only `InvalidOperationException` makes one nested call per 5 faults, plus one. The count grows with the script, and the call ends on a local session. |
| Session.IntendedFactoryRun | FluentAutomation.SeleniumWebDriver/CommandProvider.cs:93-126 | The corrected recovery makes at most two calls per factory call. Without a remote configuration it makes exactly one, and succeeds exactly when the inner policy does. |
| Session.IntendedRecoveryStops | FluentAutomation.SeleniumWebDriver/CommandProvider.cs:93-126 | Under the corrected recovery, a local factory that keeps raising `InvalidOperationException` is given up after one call of 5 runs, with that exception. |
| Session.Rebuild | FluentAutomation.SeleniumWebDriver/CommandProvider.cs:103-126 | Consumes both scripts and counts calls, connection attempts and sessions exactly as `RebuildRun` says. A failure leaves the settings untouched. Success yields a fresh driver normalised from the remote or the local initial state. |
| Session.WebDriverFactoryMethod | FluentAutomation.SeleniumWebDriver/CommandProvider.cs:43-128 | Consumes both scripts and counts calls, connection attempts and sessions exactly as `FactoryRun` says, and ends with its outcome. A failure leaves the settings untouched. Success yields a session normalised from the local, the remote or the given driver. |
| Session.Initialize | FluentAutomation.SeleniumWebDriver/CommandProvider.cs:37-41 | With `retries` retries left, the outer policy makes between 1 and `retries + 1` factory calls (6 with the 5 retries in use). It fails with an `InvalidOperationException` only after all of them. Without a remote configuration it makes exactly one outer attempt, whose nested calls are bounded only by the script (see Findings), and it opens no session. With one, it opens at most one session per call. |
| Session.InitializeRetriesOnlyInvalidOperation | FluentAutomation.SeleniumWebDriver/CommandProvider.cs:39-40 | The outer policy calls the factory again if and only if the first call threw an `InvalidOperationException` and a retry is left. Any other outcome ends construction with exactly that call's result. |
| Session.InitializeBounds | FluentAutomation.SeleniumWebDriver/CommandProvider.cs:37-41 | Construction makes at most `retries + 1` factory calls, opens at most one session per call, and makes at most 5 connection attempts per call: 6 calls, 6 sessions and 30 attempts with the 5 retries in use. |
| Session.InitializeWebDriver | FluentAutomation.SeleniumWebDriver/CommandProvider.cs:37-41 | Consumes both scripts, counts factory calls, connection attempts and sessions, and ends exactly as `Initialize` says with 5 retries. A failure leaves the settings untouched. Success yields a fresh driver normalised from the local or the remote initial state. |
| Session.OuterPolicy | FluentAutomation.SeleniumWebDriver/CommandProvider.cs:39-40 | With any number of retries left, the outer policy behaves exactly as `Initialize` says. |
| Session.RetryAfterInvalidOperation | FluentAutomation.SeleniumWebDriver/CommandProvider.cs:39-40 | After a first call that threw `InvalidOperationException`, with retries left, construction as a whole ends as `Initialize` says for the original scripts. |
| Session.Reconfigure | FluentAutomation.SeleniumWebDriver/CommandProvider.cs:135-156 | When the incoming settings maximize, the outgoing settings get the pre-change size for unset dimensions only, and the window is maximized. Otherwise an exact size is applied only when both incoming dimensions are set. An open dialog leaves everything as it was. |
| Session.ReconfigureUndo | FluentAutomation.SeleniumWebDriver/CommandProvider.cs:137-146 | Switching from size-less settings to maximized ones and back restores the window's earlier size, un-maximized. |
| Commands.NewCommandProvider | FluentAutomation.SeleniumWebDriver/CommandProvider.cs:29-35 | Construction fails exactly when `Initialize` ends in a failure, and with its fault. Otherwise it yields a provider whose main window handle is the current one and whose cookies are cleared. Its geometry is normalised from the remote initial state when `Initialize` ends on a rebuilt session, and from the local one otherwise. A failed construction leaves the settings unchanged. |
| Commands.CommandProvider.WithConfig | FluentAutomation.SeleniumWebDriver/CommandProvider.cs:130-161 | The outgoing settings and the window change as `Reconfigure` says. The provider then holds the incoming settings and returns itself. |
| Commands.Resolution | FluentAutomation.SeleniumWebDriver/CommandProvider.cs:199-207 | A selector resolves to its first match in document order. A selector with no match fails with element-not-found carrying the selector. |
| Commands.CommandProvider.Find | FluentAutomation.SeleniumWebDriver/CommandProvider.cs:195-209 | Resolving a `Find` proxy gives exactly `Resolution` in the current browser state. |
| Commands.CommandProvider.FindMultiple | FluentAutomation.SeleniumWebDriver/CommandProvider.cs:211-231 | Fails with not-found exactly when nothing matches. Otherwise it yields one element per match, in document order, each carrying the selector. |
| Commands.OffsetFrom | FluentAutomation.SeleniumWebDriver/CommandProvider.cs:239-240 | The offset added to the origin gives back the page point. |
| Commands.BodyMove | FluentAutomation.SeleniumWebDriver/CommandProvider.cs:237-244 | The pointer move of an absolute action targets the document body and lands exactly on page point (x, y). A page without a body fails with not-found for "body". |
| Commands.CommandProvider.Click | FluentAutomation.SeleniumWebDriver/CommandProvider.cs:233-247 | Performs the body move, then a click. Without a body nothing is performed. |
| Commands.CommandProvider.DoubleClick | FluentAutomation.SeleniumWebDriver/CommandProvider.cs:272-285 | Performs the body move, then a double click. Without a body nothing is performed. |
| Commands.CommandProvider.RightClick | FluentAutomation.SeleniumWebDriver/CommandProvider.cs:310-323 | Performs the body move, then a context click. Without a body nothing is performed. |
| Commands.CommandProvider.Hover | FluentAutomation.SeleniumWebDriver/CommandProvider.cs:348-360 | Performs only the body move. Without a body nothing is performed. |
| Commands.CommandProvider.DragAndDrop | FluentAutomation.SeleniumWebDriver/CommandProvider.cs:405-424 | Presses at the source point and releases at the destination point. Both are measured from one body lookup. Without a body nothing is performed. |
| Commands.CommandProvider.ClickElementAt | FluentAutomation.SeleniumWebDriver/CommandProvider.cs:249-259 | After resolving the element, moves by (x, y) from the pointer's current position and clicks. The element's position plays no part. A failed resolution performs nothing. |
| Commands.CommandProvider.DoubleClickElementAt | FluentAutomation.SeleniumWebDriver/CommandProvider.cs:287-297 | Moves to offset (x, y) from the resolved element and double-clicks. A failed resolution performs nothing. |
| Commands.CommandProvider.RightClickElementAt | FluentAutomation.SeleniumWebDriver/CommandProvider.cs:325-335 | Moves to offset (x, y) from the resolved element and context-clicks. A failed resolution performs nothing. |
| Commands.CommandProvider.HoverElementAt | FluentAutomation.SeleniumWebDriver/CommandProvider.cs:362-371 | Moves to offset (x, y) from the resolved element. A failed resolution performs nothing. |
| Commands.CommandProvider.DragAndDropElementsAt | FluentAutomation.SeleniumWebDriver/CommandProvider.cs:426-439 | Presses at an offset from the source element and releases at an offset from the target element. The source is resolved first, and a failed resolution performs nothing. |
| Commands.SelectionOrder | FluentAutomation.SeleniumWebDriver/CommandProvider.cs:509-517 | A multiple control is first deselected entirely. Then each requested option is selected once, in the order given, and nothing else is sent. |
| Commands.CommandProvider.SelectOptions | FluentAutomation.SeleniumWebDriver/CommandProvider.cs:505-519 | Sends exactly `SelectionCommands` for the resolved control, and whether it is multiple. A failed resolution changes nothing. |
| Commands.CommandProvider.SelectText | FluentAutomation.SeleniumWebDriver/CommandProvider.cs:493-503 | Selects one option by text, deselecting all first on a multiple control. |
| Commands.CommandProvider.SelectValue | FluentAutomation.SeleniumWebDriver/CommandProvider.cs:553-563 | Selects one option by value, deselecting all first on a multiple control. |
| Commands.CommandProvider.SelectIndex | FluentAutomation.SeleniumWebDriver/CommandProvider.cs:565-575 | Selects one option by index, deselecting all first on a multiple control. |
| Commands.CommandProvider.MultiSelectValue | FluentAutomation.SeleniumWebDriver/CommandProvider.cs:505-519 | Selects every given value in order, after deselecting all on a multiple control. |
| Commands.CommandProvider.MultiSelectIndex | FluentAutomation.SeleniumWebDriver/CommandProvider.cs:521-535 | Selects every given index in order, after deselecting all on a multiple control. |
| Commands.CommandProvider.MultiSelectText | FluentAutomation.SeleniumWebDriver/CommandProvider.cs:537-551 | Selects every given text in order, after deselecting all on a multiple control. |
| Commands.FirstMatch | FluentAutomation.SeleniumWebDriver/CommandProvider.cs:645-653 | Returns the index of the first window whose title equals the name or whose URL ends with it, and no earlier window matches. It returns none only when no window matches. |
| Commands.Trail | FluentAutomation.SeleniumWebDriver/CommandProvider.cs:645-647 | The scan switches to each visited window once, in enumeration order. |
| Commands.Visited | FluentAutomation.SeleniumWebDriver/CommandProvider.cs:645-647 | After visiting i > 0 windows, the current window is the i-th. |
| Commands.VisitNext | FluentAutomation.SeleniumWebDriver/CommandProvider.cs:645-647 | Visiting one more window adds exactly one switch to that window. |
| Commands.CommandProvider.Visit | FluentAutomation.SeleniumWebDriver/CommandProvider.cs:647-649 | Switching to a window makes it current. The title and URL then read are that window's own. |
| Commands.CommandProvider.ScanWindows | FluentAutomation.SeleniumWebDriver/CommandProvider.cs:644-654 | Returns exactly the first matching window. The scan stops right after switching to it; with no match it has visited every window once, in order. |
| Commands.CommandProvider.SwitchToWindow | FluentAutomation.SeleniumWebDriver/CommandProvider.cs:634-661 | The empty name switches to the main window. Otherwise the first matching window becomes current after the scan. With no match the call fails naming the window, after visiting every window. |
| Commands.CommandProvider.SwitchToFrame | FluentAutomation.SeleniumWebDriver/CommandProvider.cs:663-689 | The empty string selects the default content. A selector that finds a frame element selects that frame. One that finds an element that is not a frame fails with the driver's no-such-frame error, without trying the name. A selector that finds nothing selects the frame the driver knows by that name. When there is none, the call fails with no-such-frame. A failure changes nothing. |
| Commands.CommandProvider.SwitchToFrameElement | FluentAutomation.SeleniumWebDriver/CommandProvider.cs:691-697 | Selects the frame the proxy resolves to. An element that is not a frame fails with the driver's no-such-frame error. A failure changes nothing. |
| Commands.CommandProvider.SetActiveAlert | FluentAutomation.SeleniumWebDriver/CommandProvider.cs:699-716 | The driver is queried only when the slot is empty, and then the slot holds this driver's alert. A filled slot is kept as it is, whichever driver filled it. An empty slot with no dialog stays empty and fails with a wrapped no-alert error. |
| Commands.CommandProvider.AlertClick | FluentAutomation.SeleniumWebDriver/CommandProvider.cs:718-745 | Acts on the dialog of the driver whose alert the slot holds, or this provider's driver when the slot is empty. OK accepts and any other accessor dismisses. The slot is empty afterwards whatever happened. When that driver has no dialog open, the call fails with a wrapped no-alert error and no driver changes. |
| Commands.CommandProvider.AlertText | FluentAutomation.SeleniumWebDriver/CommandProvider.cs:747-751 | Yields the text of the dialog the slot holds, of whichever driver filled it. With no dialog it fails: wrapped when the slot was empty, raw when a stale slot was reused. |
| Commands.CommandProvider.AlertEnterText | FluentAutomation.SeleniumWebDriver/CommandProvider.cs:753-764 | Acts on the dialog of the driver whose alert the slot holds. Types the text, after which the dialog is closed. The accept is sent only when typing left the dialog open; its failure on a closed dialog is ignored. The slot remains filled. With no dialog it fails before typing and changes nothing. |
| SelectSyntax.LoggedSelector | FluentAutomation/WbTstrSelectSyntaxProvider.cs:43 | Reading the element of a proxy with no match fails with element-not-found. Otherwise the logged selector is the element's selector when the proxy, its element and its selector are all present, and "?" otherwise. |
| SelectSyntax.SelectionMessage | FluentAutomation/WbTstrSelectSyntaxProvider.cs:44 | The log line is the fixed prefix followed by exactly the given selector. |
| Commands.AcceptThroughSharedSlot | FluentAutomation.SeleniumWebDriver/CommandProvider.cs:699-745 | With one slot shared by two providers, after the first provider reads its open dialog, `AlertClick(OK)` on the second accepts the first provider's dialog. The second provider's own driver is untouched, and the slot ends empty. |
| SelectSyntax.DryRunFollowsCurrentSettings | FluentAutomation/WbTstrSelectSyntaxProvider.cs:25-31 | `IsInDryRunMode` reads `FluentSettings.Current` when a selection is made. After the current settings are replaced, the gate reports their dry-run flag and delegates exactly when that flag is off. |
| SelectSyntax.WbTstrSelectSyntaxProvider.From | FluentAutomation/WbTstrSelectSyntaxProvider.cs:25-54 | When the proxy matches nothing, fails with element-not-found before logging or delegating, in dry-run mode too. Otherwise logs one selection line. In dry-run mode, as the current settings say, the underlying provider receives nothing and the action provider is returned. Outside it, the underlying provider receives the element exactly once. When it throws, the failure escapes after the log line; otherwise the action provider is returned. |
| SelectSyntax.WbTstrSelectSyntaxProvider.FromSelector | FluentAutomation/WbTstrSelectSyntaxProvider.cs:35-38 | Behaves exactly as `From` on the proxy that `Find(selector)` gives, the underlying provider's failure included. |
| WatiN.AutomationProvider.constructor | SourceCode/FluentAutomation.WatiN/AutomationProvider.cs:18-19 | A new provider has no browser and targets Internet Explorer. |
| WatiN.AutomationProvider.SetBrowser | SourceCode/FluentAutomation.WatiN/AutomationProvider.cs:82-90 | Once a browser exists, the call fails and the type is kept. Otherwise the type is recorded. |
| WatiN.CreationFailure | SourceCode/FluentAutomation.WatiN/AutomationProvider.cs:104-115 | Creation fails exactly for types other than Internet Explorer, with Firefox's own message or the generic one. |
| WatiN.AutomationProvider.GetCurrentBrowser | SourceCode/FluentAutomation.WatiN/AutomationProvider.cs:102-118 | Yields a fresh full-screen Internet Explorer exactly when `CreationFailure` reports none. Otherwise it fails with that reason. |
| WatiN.AutomationProvider.Navigate | SourceCode/FluentAutomation.WatiN/AutomationProvider.cs:59-67 | An existing browser is reused and goes to the page. Otherwise a browser is created first. A failed creation leaves the provider without a browser. |
| WatiN.DirectionCalls | SourceCode/FluentAutomation.WatiN/AutomationProvider.cs:71-79 | Back sends exactly one step back, Forward one step forward, and every other direction sends nothing. |
| WatiN.AutomationProvider.NavigateDirection | SourceCode/FluentAutomation.WatiN/AutomationProvider.cs:69-80 | The browser receives exactly `DirectionCalls` of the direction. Back or Forward before any browser exists fails as a null dereference. |
| WatiN.TypeLockedAfterNavigate | SourceCode/FluentAutomation.WatiN/AutomationProvider.cs:61-66 | After a successful navigation the browser type can no longer change. After a failed creation it still can. |

## Left out

- Polly wait durations, `Thread.Sleep` and the WatiN `Wait` overloads: real time. Retry budgets are kept as run counts.
- A failing start-up run is assumed to fail before it touches the driver or the settings. A run that fails halfway, leaving cookies cleared or settings written, is not modelled.
- Fault scripts are finite, so a driver factory that fails forever is not modelled. Without a remote configuration the nested factory calls are bounded only by the script's length (see Findings).
- `FluentTest.ProviderInstance` bookkeeping, the `Console.WriteLine` diagnostics and `Dispose`: test-runner wiring and logging. `Dispose` during recovery has no effect, because the provider holds no driver yet.
- The remote configuration (`WbTstr.Configure()`, capabilities, URI) is reduced to whether it exists.
- `Navigate`, `Url`, `Source`, `UploadFile`, `Press`, `Type`, `TakeScreenshot`, `EnterText`, `AppendText`, `Focus`, `CssPropertyValue`, `Visible` and the other element-only actions of `CommandProvider` are not modelled. They are URI handling, keystroke injection on a background task, file I/O or JavaScript execution.
- The element-only pointer overloads `Click(element)`, `DoubleClick(element)`, `RightClick(element)`, `Hover(element)` and `DragAndDrop(source, target)` are not modelled. They are single `Actions` calls without logic of their own.
- `Sizzle.Find` selector translation is not modelled: the model looks selectors up verbatim in an abstract DOM.
- `SelectElement` internals are not modelled: the tag check, missing options and the `multiple` attribute beyond a set of multiple controls.
- The effect of pointer chains and option selection on the page is not modelled. Only the commands sent are recorded.
- Switching frames does not change the elements a later lookup sees.
- `ElementProxy` internals are not modelled. The proxy is reduced to its selector, and resolution failures happen at resolution time. The gate sees only whether reading the element throws for lack of a match, and whether an element and a selector are present.
- `BaseCommandProvider.Act` is not part of this model, so what it adds around an operation is not modelled. The difference between overloads whose body lookup runs inside `Act` and those whose lookup runs before it is lost: `Commands.CommandProvider.Click` (CommandProvider.cs:237) looks up the body inside `Act`, while `Commands.CommandProvider.DoubleClick`, `Commands.CommandProvider.RightClick`, `Commands.CommandProvider.Hover` and `Commands.CommandProvider.DragAndDrop` (CommandProvider.cs:274, 312, 350, 407) look it up outside.
- Commands.CommandProvider.SwitchToFrame: lookup failures other than no-such-element (an invalid selector, a dialog in the way) escape the call in the code. The model's `FindElement` fails only for lack of a match, so the method does not promise anything about them.
- `Commands.CommandProvider.AlertClick`: the early return when the slot is still empty after `SetActiveAlert` cannot happen here, because `SetActiveAlert` either fills the slot or fails.
- `Commands.AlertAccessor`: the accessors other than OK are collapsed into one value, since they all dismiss.
- `Commands.EndsWith`: the comparison is character by character. Culture-sensitive `String.EndsWith` rules are not modelled.
- The action syntax provider's `Find` is a given lookup function. `WbTstrActionSyntaxProvider` is not part of this model.
- WatiN `Cleanup`, `MouseControl`, the element getters and the SHDocVw full-screen call are native UI automation. Full-screen mode is recorded as a flag.
- The members of the WatiN `BrowserType` enumeration other than Internet Explorer and Firefox are represented by one constructor carrying a name, because the enumeration's definition is not part of this model.

## Findings

| source | as written | input that shows it | evidently intended | confidence | as-written member | corrected member |
|---|---|---|---|---|---|---|
| FluentAutomation.SeleniumWebDriver/CommandProvider.cs:93-126 | When `WbTstr.Configure()` yields no configuration, the handler calls `WebDriverFactoryMethod` again with a null driver. The guard that rethrows on a rebuilt driver therefore never fires, and each `InvalidOperationException` that outlasts the inner policy starts another nested call. | No remote configuration, and a local factory that always throws `InvalidOperationException`: the nested calls never stop. For a script of such faults they number one per 5 faults, plus one. | At most one fallback per call. With nothing to rebuild with, the inner policy's exception is rethrown, so the outer policy's budget of 6 calls applies. | not executed | Session.UnconfiguredRecoveryRepeats | Session.IntendedRecoveryStops |

The methods `WebDriverFactoryMethod`, `Rebuild` and `InitializeWebDriver` follow the code as written (`FactoryRun`). `IntendedFactoryRun` is the corrected recovery.
