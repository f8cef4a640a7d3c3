# WebView bridge tester: a Dafny model of its page state

The bridge-tester page (`src/App.js`) runs inside a React Native WebView. It
keeps four pieces of state: whether the bridge is connected, a rolling log of
at most twenty messages (newest first), the "last received" display slot and
a counter of custom events. On start-up it detects the host's messaging
object and announces itself. Host messages (`userData`, `userIdentity`,
`triggerAction`, `getState`) replace the display or send a reply. Four buttons
send fixed messages. Every send goes through one primitive. That primitive
posts a `{type, payload, timestamp}` envelope when the bridge is present and
logs an error when it is not.

The model has five modules:

- `Wrappers`: `Option`, standing for a JavaScript property that may be absent.
- `Host`: the clock and window readings, passed in as plain values.
- `MessageLog`: log entries and the `addLog` updater `Rolled`. `Newest(h)`
  is an independent definition of "the twenty most recent entries of the
  history `h`, newest first". Lemmas prove that `Rolled` keeps the log equal
  to `Newest` of everything logged so far.
- `Messages`: inbound payloads as datatypes with optional fields, the
  display each handler builds, JavaScript `||` defaulting (`OrElse`), the
  outbound payload catalogue and envelopes, and the decimal text that
  `'test-btn-' + Date.now()` produces, with a round trip through its value.
- `BridgeApp`: the class `BridgePage`. Its fields are the component state.
  A ghost `outbox` records every `postMessage` call, and a ghost `history`
  records every entry ever logged. `Valid()` says the visible log is
  `Newest(history)`. Each handler is a method that states its whole new
  state; its single-field `modifies` clauses state what it leaves alone.

The source makes two different presence checks, and the model keeps both.
Start-up tests only `window.ReactNativeWebView` (line 14). A send also tests
`.postMessage` (line 107). The page therefore has two constructor
parameters, `webViewPresent` and `postMessagePresent`, and
`CanPost()` is their conjunction. When the web view is present but
`postMessage` is missing, start-up marks the page connected, logs the
success note and then logs two send errors. `Mount` states this case.

## Model

| member | source | states |
|---|---|---|
| `MessageLog.Rolled` | src/App.js:98-103 | the new log has length min(old+1, 20); its head is the new entry; its tail is the first min(old, 19) old entries in their original order |
| `MessageLog.Newest` | src/App.js:98-103 | the reference window: as many entries as the history has, at most 20, entry i being the (i+1)-th most recent of the history |
| `MessageLog.Reversed` | src/App.js:98 | reverse order of a history: same length, element i is the (i+1)-th element from the end |
| `MessageLog.RolledNewest` | src/App.js:97-104 | one `addLog` on the window of a history gives the window of that history extended by the new entry |
| `MessageLog.RollAllNewest` | src/App.js:97-104 | any run of `addLog` calls leaves exactly the twenty most recent entries, newest first (a 21st entry pushes out the oldest) |
| `Messages.OrElse` | src/App.js:37-38 | JavaScript or-defaulting: the value when present and non-empty, otherwise the fallback; never empty when the fallback is not |
| `Messages.TriggerActionLogText` | src/App.js:68 | the log line is "Received action: " followed by the action when present, or by "undefined" when absent |
| `Messages.TriggerActionLogTextInjective` | src/App.js:68 | a present action can be read back from the log line: equal lines mean equal actions |
| `Messages.UserDataDisplay` | src/App.js:34-40 | title "User Data"; labels Name, Timestamp in that order; each value is the payload's when truthy, otherwise "N/A"; no value is blank |
| `Messages.UserIdentityDisplay` | src/App.js:46-63 | logged-in title if and only if `isLoggedIn` is truthy and `user` present; then Name, Email, Phone, User ID copied from `user` without defaulting; otherwise the guest title with the single field Guest ID = `guestUserId` |
| `Messages.TriggerActionDisplay` | src/App.js:69-75 | title "Action Triggered"; Action copied without fallback; Promo Code is the payload's when truthy, otherwise "N/A", and never blank |
| `Messages.DecimalText` | src/App.js:132 | the decimal text of a clock reading: at least one digit, only digits, no leading zero |
| `Messages.DecimalRoundTrip` | src/App.js:132 | reading the decimal text back gives the number |
| `Messages.ButtonIdFor` | src/App.js:132 | the button id is "test-btn-" followed by digits with no leading zero that denote the clock reading, so the id string is fixed by the reading |
| `Messages.ButtonIdInjective` | src/App.js:132 | distinct clock readings give distinct button ids |
| `BridgeApp.BridgePage.constructor` | src/App.js:5-8 | initial state: not connected, empty log, no display, count 0; nothing posted or logged |
| `BridgeApp.BridgePage.AddLog` | src/App.js:97-104 | the log becomes `Rolled(entry, old log)`, stays the twenty-entry window of the history, and nothing else changes |
| `BridgeApp.BridgePage.SendToReactNative` | src/App.js:106-118 | with the bridge, exactly one envelope {type, payload, timestamp} is posted and one `sent` entry "Sent to RN: "+type is logged; without it, nothing is posted and one `error` entry "ERROR: Bridge not available" is logged; no other field changes |
| `BridgeApp.BridgePage.InitBridge` | src/App.js:12-27 | web view present: connected, the two sends `__WEBVIEW_READY__` then `webPageLoaded`, and the newest three log entries are the two send entries and the info note; absent: connection unchanged, nothing posted, one `error` entry |
| `BridgeApp.BridgePage.OnUserData` | src/App.js:32-41 | the display becomes `UserDataDisplay(data)` and exactly one `received` entry is logged |
| `BridgeApp.BridgePage.OnUserIdentity` | src/App.js:44-64 | the display becomes `UserIdentityDisplay(data)` and exactly one `received` entry is logged |
| `BridgeApp.BridgePage.OnTriggerAction` | src/App.js:67-76 | the display becomes `TriggerActionDisplay(data)` and exactly one `received` entry, naming the action, is logged |
| `BridgeApp.BridgePage.OnGetState` | src/App.js:79-90 | the display is untouched; one `received` entry, then exactly one `stateResponse` send carrying the window readings; the newest log entry is the send's |
| `BridgeApp.BridgePage.SendCartUpdate` | src/App.js:121-127 | one `webCartUpdated` send with item count 5, the fixed price and the ISO time |
| `BridgeApp.BridgePage.SendButtonClick` | src/App.js:129-134 | one `webButtonClicked` send with the fixed button name and the time-suffixed id |
| `BridgeApp.BridgePage.RequestAppState` | src/App.js:136-140 | one outbound `getState` send carrying the request time |
| `BridgeApp.BridgePage.SendCustomEvent` | src/App.js:142-149 | the count grows by exactly one, and the `customWebEvent` payload carries the new count |
| `BridgeApp.Mount` | src/App.js:10-27 | a freshly mounted page: with a working bridge it is connected, has posted exactly `__WEBVIEW_READY__` then `webPageLoaded`, and its log reads sent `webPageLoaded`, sent `__WEBVIEW_READY__`, info "Bridge initialized successfully"; without a web view it is not connected, has posted nothing and logged exactly one `error` entry |
| `BridgeApp.CustomEventTwice` | src/App.js:142-149 | on a page mounted with a working bridge, two custom events in a row leave it connected with count 2 and send count 1 and then count 2 right after the two start-up notifications |

## Left out

- Rendering (src/App.js:151-219), including the disabled buttons. The model keeps the guard inside the send primitive, which is what happens if a disabled action is invoked anyway.
- React hook mechanics: state batching, effect scheduling and closures. Each handler is one atomic transition. `sendCustomEvent` therefore reads the counter after its own increment, which matches `messageCount + 1` on line 146.
- Host dispatch through `window.onReactNativeMessage`. Registration is the host's business, and each handler is modelled only by its body. When the host is absent, the first registration (line 32) throws, and the other three (lines 44, 67 and 79) are never reached; the model does not capture that.
- Clock and window reads: `Date.now()`, `toISOString`, `toLocaleTimeString`, `location.href`, `scrollY`, `innerWidth`, `innerHeight` and `navigator.userAgent`. They are parameters. One `Instant` stands for every clock read made while handling one event, so log ids and envelope timestamps within one event coincide in the model. Log-entry ids are not claimed to be unique.
- `JSON.stringify`. The envelope posted on line 113 is a datatype value, not its JSON text. The `userData` log line (line 33) takes the payload's JSON text as a parameter.
- The cart price 2499.99 (line 124) is a floating-point number. The model keeps it as the constant 249999 hundredths. The browser gives `scrollY` and the viewport sizes as floating-point numbers, and `scrollY` can be fractional; the model takes these readings as `int`.
- JavaScript truthiness in general. String properties are truthy when present and non-empty. `isLoggedIn` is an optional boolean that is truthy only as `true`. A present `user` object is truthy.
- The query-parameter receiver page. Its source file is not part of this model.
- Non-object payloads. Each inbound payload is always an object in the model. In the source a `null` or `undefined` payload throws: at line 37 after the `userData` entry is queued, at line 46 after the `userIdentity` entry, and at line 68 before any `triggerAction` entry. The model has no such failure.
- JSON `null` properties. An absent property is `None`, and the model has no separate `null`. A `null` action gives "Received action: null" on line 68, which the model cannot state.
- Presence that changes over time. `webViewPresent` and `postMessagePresent` are fixed for the page's lifetime. The source re-reads `window.ReactNativeWebView.postMessage` on every send (line 107), so a bridge that appears or disappears after start-up is not modelled.
