/**
 * The bridge-tester page: its component state and every event that changes it.
 * Each handler is one atomic transition of that state.
 */
module BridgeApp {
  import opened Wrappers
  import opened Host
  import opened MessageLog
  import opened Messages

  const BridgeReadyText := "Bridge initialized successfully"
  const NotInWebViewText := "WARNING: Not running in React Native WebView"
  const BridgeUnavailableText := "ERROR: Bridge not available"

  /** The log entry of one send attempt. */
  function SendLogEntry(canPost: bool, msgType: string, now: Instant): LogEntry
  {
    if canPost then MakeEntry("Sent to RN: " + msgType, Sent, now)
    else MakeEntry(BridgeUnavailableText, Error, now)
  }

  /** What one send attempt adds to the outbox. */
  function Posted(canPost: bool, env: Envelope): seq<Envelope>
  {
    if canPost then [env] else []
  }

  class BridgePage {
    /** `window.ReactNativeWebView` is present. */
    const webViewPresent: bool
    /** `window.ReactNativeWebView.postMessage` is present. */
    const postMessagePresent: bool

    var connected: bool
    /** The message log, newest first. */
    var log: seq<LogEntry>
    var display: Option<DisplayPayload>
    var count: nat

    /** Every envelope handed to `postMessage`, oldest first. */
    ghost var outbox: seq<Envelope>
    /** Every entry ever logged, oldest first. */
    ghost var history: seq<LogEntry>

    /** The log shows the twenty most recent entries ever logged, newest first. */
    ghost predicate Valid()
      reads this
      ensures Valid() ==> |log| <= MaxLog
    {
      log == Newest(history)
    }

    /** The guard of `sendToReactNative`. */
    predicate CanPost()
    {
      webViewPresent && postMessagePresent
    }

    /** The page as first rendered: the initial value of each piece of state. */
    constructor (webViewPresent: bool, postMessagePresent: bool)
      ensures Valid()
      ensures this.webViewPresent == webViewPresent
      ensures this.postMessagePresent == postMessagePresent
      ensures !connected && log == [] && display == None && count == 0
      ensures outbox == [] && history == []
    {
      this.webViewPresent := webViewPresent;
      this.postMessagePresent := postMessagePresent;
      connected := false;
      log := [];
      display := None;
      count := 0;
      outbox := [];
      history := [];
    }

    /** `addLog`: prepend a new entry and keep the first twenty. */
    method AddLog(message: string, kind: LogKind, now: Instant)
      requires Valid()
      modifies this`log, this`history
      ensures Valid()
      ensures history == old(history) + [MakeEntry(message, kind, now)]
      ensures log == Rolled(MakeEntry(message, kind, now), old(log))
      ensures |log| == Min(|old(log)| + 1, MaxLog)
      ensures log[0] == MakeEntry(message, kind, now)
      ensures log[1..] == old(log)[..Min(|old(log)|, MaxLog - 1)]
    {
      var e := MakeEntry(message, kind, now);
      RolledNewest(history, e);
      log := Rolled(e, log);
      history := history + [e];
    }

    /** `sendToReactNative`: post the envelope when the bridge is there, and log the outcome. */
    method SendToReactNative(msgType: string, payload: OutPayload, now: Instant)
      requires Valid()
      modifies this`log, this`history, this`outbox
      ensures Valid()
      ensures CanPost() ==> outbox == old(outbox) + [Envelope(msgType, payload, now.ms)]
      ensures !CanPost() ==> outbox == old(outbox)
      ensures CanPost() ==> history == old(history) + [MakeEntry("Sent to RN: " + msgType, Sent, now)]
      ensures !CanPost() ==> history == old(history) + [MakeEntry(BridgeUnavailableText, Error, now)]
      ensures log == Rolled(SendLogEntry(CanPost(), msgType, now), old(log))
    {
      if CanPost() {
        outbox := outbox + [Envelope(msgType, payload, now.ms)];
        AddLog("Sent to RN: " + msgType, Sent, now);
      } else {
        AddLog(BridgeUnavailableText, Error, now);
      }
    }

    /** `initBridge`: mark the page connected and announce it, or log that there is no web view. */
    method InitBridge(now: Instant, win: WindowInfo)
      requires Valid()
      modifies this`connected, this`log, this`history, this`outbox
      ensures Valid()
      ensures webViewPresent ==> connected
      ensures !webViewPresent ==> connected == old(connected)
      ensures webViewPresent ==>
        && outbox == old(outbox)
             + Posted(CanPost(), Envelope(ReadyType, Ready(true), now.ms))
             + Posted(CanPost(), Envelope(PageLoadedType, PageLoadedPayload(win, now), now.ms))
        && history == old(history) + [
             MakeEntry(BridgeReadyText, Info, now),
             SendLogEntry(CanPost(), ReadyType, now),
             SendLogEntry(CanPost(), PageLoadedType, now)]
        && log[..3] == [
             SendLogEntry(CanPost(), PageLoadedType, now),
             SendLogEntry(CanPost(), ReadyType, now),
             MakeEntry(BridgeReadyText, Info, now)]
      ensures !webViewPresent ==>
        && outbox == old(outbox)
        && history == old(history) + [MakeEntry(NotInWebViewText, Error, now)]
        && log == Rolled(MakeEntry(NotInWebViewText, Error, now), old(log))
    {
      if webViewPresent {
        connected := true;
        AddLog(BridgeReadyText, Info, now);
        SendToReactNative(ReadyType, Ready(true), now);
        SendToReactNative(PageLoadedType, PageLoadedPayload(win, now), now);
      } else {
        AddLog(NotInWebViewText, Error, now);
      }
    }

    /** The `userData` handler; `json` is the payload's JSON text. */
    method OnUserData(data: UserData, json: string, now: Instant)
      requires Valid()
      modifies this`log, this`history, this`display
      ensures Valid()
      ensures display == Some(UserDataDisplay(data))
      ensures history == old(history) + [MakeEntry(UserDataLogText(json), Received, now)]
      ensures log == Rolled(MakeEntry(UserDataLogText(json), Received, now), old(log))
    {
      AddLog(UserDataLogText(json), Received, now);
      display := Some(UserDataDisplay(data));
    }

    /** The `userIdentity` handler. */
    method OnUserIdentity(data: UserIdentity, now: Instant)
      requires Valid()
      modifies this`log, this`history, this`display
      ensures Valid()
      ensures display == Some(UserIdentityDisplay(data))
      ensures history == old(history) + [MakeEntry(UserIdentityLogText, Received, now)]
      ensures log == Rolled(MakeEntry(UserIdentityLogText, Received, now), old(log))
    {
      AddLog(UserIdentityLogText, Received, now);
      display := Some(UserIdentityDisplay(data));
    }

    /** The `triggerAction` handler. */
    method OnTriggerAction(data: TriggerAction, now: Instant)
      requires Valid()
      modifies this`log, this`history, this`display
      ensures Valid()
      ensures display == Some(TriggerActionDisplay(data))
      ensures history == old(history) + [MakeEntry(TriggerActionLogText(data), Received, now)]
      ensures log == Rolled(MakeEntry(TriggerActionLogText(data), Received, now), old(log))
    {
      AddLog(TriggerActionLogText(data), Received, now);
      display := Some(TriggerActionDisplay(data));
    }

    /** The inbound `getState` handler: log the request, then reply; the display is left alone. */
    method OnGetState(now: Instant, win: WindowInfo)
      requires Valid()
      modifies this`log, this`history, this`outbox
      ensures Valid()
      ensures outbox == old(outbox)
        + Posted(CanPost(), Envelope(StateResponseType, StateResponsePayload(win), now.ms))
      ensures history == old(history) + [
        MakeEntry(StateRequestLogText, Received, now),
        SendLogEntry(CanPost(), StateResponseType, now)]
      ensures log[0] == SendLogEntry(CanPost(), StateResponseType, now)
      ensures log == Rolled(SendLogEntry(CanPost(), StateResponseType, now),
                            Rolled(MakeEntry(StateRequestLogText, Received, now), old(log)))
    {
      AddLog(StateRequestLogText, Received, now);
      SendToReactNative(StateResponseType, StateResponsePayload(win), now);
    }

    /** The "Send Cart Update" action. */
    method SendCartUpdate(now: Instant)
      requires Valid()
      modifies this`log, this`history, this`outbox
      ensures Valid()
      ensures outbox == old(outbox) + Posted(CanPost(), Envelope(CartUpdatedType, CartPayload(now), now.ms))
      ensures history == old(history) + [SendLogEntry(CanPost(), CartUpdatedType, now)]
    {
      SendToReactNative(CartUpdatedType, CartPayload(now), now);
    }

    /** The "Send Button Click Event" action. */
    method SendButtonClick(now: Instant)
      requires Valid()
      modifies this`log, this`history, this`outbox
      ensures Valid()
      ensures outbox == old(outbox) + Posted(CanPost(), Envelope(ButtonClickedType, ButtonPayload(now), now.ms))
      ensures history == old(history) + [SendLogEntry(CanPost(), ButtonClickedType, now)]
    {
      SendToReactNative(ButtonClickedType, ButtonPayload(now), now);
    }

    /** The "Request App State" action: an outbound `getState` request. */
    method RequestAppState(now: Instant)
      requires Valid()
      modifies this`log, this`history, this`outbox
      ensures Valid()
      ensures outbox == old(outbox) + Posted(CanPost(), Envelope(StateRequestType, StateRequestPayload(now), now.ms))
      ensures history == old(history) + [SendLogEntry(CanPost(), StateRequestType, now)]
    {
      SendToReactNative(StateRequestType, StateRequestPayload(now), now);
    }

    /** The "Send Custom Event" action: count one more event and send the new count. */
    method SendCustomEvent(now: Instant)
      requires Valid()
      modifies this`count, this`log, this`history, this`outbox
      ensures Valid()
      ensures count == old(count) + 1
      ensures outbox == old(outbox) + Posted(CanPost(), Envelope(CustomEventType, CustomEventPayload(count, now), now.ms))
      ensures history == old(history) + [SendLogEntry(CanPost(), CustomEventType, now)]
    {
      count := count + 1;
      SendToReactNative(CustomEventType, CustomEventPayload(count, now), now);
    }
  }

  /**
   * Mounting the page: first render, then the startup effect. With a working
   * bridge the page is connected, has posted the two startup notifications
   * and logged them above the initialisation note; without a web view it has
   * posted nothing and logged one error.
   */
  method Mount(webViewPresent: bool, postMessagePresent: bool, now: Instant, win: WindowInfo)
    returns (page: BridgePage)
    ensures fresh(page) && page.Valid()
    ensures page.webViewPresent == webViewPresent && page.postMessagePresent == postMessagePresent
    ensures page.display == None && page.count == 0
    ensures page.connected == webViewPresent
    ensures page.CanPost() ==>
      && page.outbox == [Envelope(ReadyType, Ready(true), now.ms),
                         Envelope(PageLoadedType, PageLoadedPayload(win, now), now.ms)]
      && page.log == [MakeEntry("Sent to RN: " + PageLoadedType, Sent, now),
                      MakeEntry("Sent to RN: " + ReadyType, Sent, now),
                      MakeEntry(BridgeReadyText, Info, now)]
    ensures webViewPresent && !postMessagePresent ==>
      && page.outbox == []
      && page.log == [MakeEntry(BridgeUnavailableText, Error, now),
                      MakeEntry(BridgeUnavailableText, Error, now),
                      MakeEntry(BridgeReadyText, Info, now)]
    ensures !webViewPresent ==>
      page.outbox == [] && page.log == [MakeEntry(NotInWebViewText, Error, now)]
  {
    page := new BridgePage(webViewPresent, postMessagePresent);
    page.InitBridge(now, win);
  }

  /**
   * Two custom events in a row on a mounted page with a working bridge send
   * the counts 1 and then 2, after the two start-up notifications.
   */
  method CustomEventTwice(start: Instant, win: WindowInfo, first: Instant, second: Instant)
    returns (page: BridgePage)
    ensures fresh(page) && page.Valid()
    ensures page.connected && page.count == 2
    ensures |page.outbox| == 4
    ensures page.outbox[..2] == [
      Envelope(ReadyType, Ready(true), start.ms),
      Envelope(PageLoadedType, PageLoadedPayload(win, start), start.ms)]
    ensures page.outbox[2..] == [
      Envelope(CustomEventType, CustomEventPayload(1, first), first.ms),
      Envelope(CustomEventType, CustomEventPayload(2, second), second.ms)]
  {
    page := Mount(true, true, start, win);
    page.SendCustomEvent(first);
    page.SendCustomEvent(second);
  }
}
