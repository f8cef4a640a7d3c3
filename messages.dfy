/**
 * The messages the page exchanges with its host: the inbound payloads and
 * the display each handler builds from them, and the outbound envelopes.
 */
module Messages {
  import opened Wrappers
  import opened Host

  // ---------------------------------------------------------------------
  // JavaScript value helpers
  // ---------------------------------------------------------------------

  /** A string property is truthy when it is present and not empty. */
  predicate Truthy(v: Option<string>)
  {
    v.Some? && v.value != ""
  }

  /** `v || fallback` for a string property `v`. */
  function OrElse(v: Option<string>, fallback: string): (r: string)
    ensures Truthy(v) ==> r == v.value
    ensures !Truthy(v) ==> r == fallback
    ensures fallback != "" ==> r != ""
  {
    if Truthy(v) then v.value else fallback
  }

  const NotAvailable := "N/A"

  // ---------------------------------------------------------------------
  // Inbound payloads and the display they produce
  // ---------------------------------------------------------------------

  datatype UserData = UserData(name: Option<string>, timestamp: Option<string>)

  datatype User = User(
    name: Option<string>,
    email: Option<string>,
    phone: Option<string>,
    userId: Option<string>)

  /**
   * `isLoggedIn` is truthy exactly when it is `Some(true)`; `user` is present
   * exactly when it is `Some`.
   */
  datatype UserIdentity = UserIdentity(
    isLoggedIn: Option<bool>,
    user: Option<User>,
    guestUserId: Option<string>)

  datatype TriggerAction = TriggerAction(action: Option<string>, promoCode: Option<string>)

  /** One row of the display; `None` is an `undefined` value. */
  datatype Field = Field(labelText: string, value: Option<string>)

  /** The "last received" display slot. */
  datatype DisplayPayload = DisplayPayload(title: string, content: seq<Field>)

  /** The labels of the display's rows, in order. */
  function Labels(d: DisplayPayload): seq<string>
  {
    seq(|d.content|, i requires 0 <= i < |d.content| => d.content[i].labelText)
  }

  /** The values of the display's rows, in order. */
  function Values(d: DisplayPayload): seq<Option<string>>
  {
    seq(|d.content|, i requires 0 <= i < |d.content| => d.content[i].value)
  }

  /** Every value is present and not empty. */
  predicate NoBlankValue(d: DisplayPayload)
  {
    forall i :: 0 <= i < |d.content| ==> Truthy(d.content[i].value)
  }

  /** The `userData` handler's display: Name and Timestamp, each defaulting to "N/A". */
  function UserDataDisplay(data: UserData): (r: DisplayPayload)
    ensures r.title == "User Data"
    ensures Labels(r) == ["Name", "Timestamp"]
    ensures NoBlankValue(r)
    ensures Truthy(data.name) ==> r.content[0].value == data.name
    ensures !Truthy(data.name) ==> r.content[0].value == Some(NotAvailable)
    ensures Truthy(data.timestamp) ==> r.content[1].value == data.timestamp
    ensures !Truthy(data.timestamp) ==> r.content[1].value == Some(NotAvailable)
  {
    DisplayPayload("User Data", [
      Field("Name", Some(OrElse(data.name, NotAvailable))),
      Field("Timestamp", Some(OrElse(data.timestamp, NotAvailable)))
    ])
  }

  const LoggedInTitle := "User Identity - Logged In"
  const GuestTitle := "User Identity - Guest"

  /** The branch condition `data.isLoggedIn && data.user`. */
  predicate IsLoggedIn(data: UserIdentity)
  {
    data.isLoggedIn == Some(true) && data.user.Some?
  }

  /**
   * The `userIdentity` handler's display: the four user fields, copied without
   * defaulting, when logged in; otherwise the guest identifier alone.
   */
  function UserIdentityDisplay(data: UserIdentity): (r: DisplayPayload)
    ensures r.title == LoggedInTitle <==> IsLoggedIn(data)
    ensures r.title == GuestTitle <==> !IsLoggedIn(data)
    ensures IsLoggedIn(data) ==>
      && Labels(r) == ["Name", "Email", "Phone", "User ID"]
      && Values(r) == [data.user.value.name, data.user.value.email,
                       data.user.value.phone, data.user.value.userId]
    ensures !IsLoggedIn(data) ==>
      Labels(r) == ["Guest ID"] && Values(r) == [data.guestUserId]
  {
    if IsLoggedIn(data) then
      var u := data.user.value;
      DisplayPayload(LoggedInTitle, [
        Field("Name", u.name),
        Field("Email", u.email),
        Field("Phone", u.phone),
        Field("User ID", u.userId)
      ])
    else
      DisplayPayload(GuestTitle, [Field("Guest ID", data.guestUserId)])
  }

  /** The `triggerAction` handler's display: Action as given, Promo Code defaulting to "N/A". */
  function TriggerActionDisplay(data: TriggerAction): (r: DisplayPayload)
    ensures r.title == "Action Triggered"
    ensures Labels(r) == ["Action", "Promo Code"]
    ensures r.content[0].value == data.action
    ensures Truthy(r.content[1].value)
    ensures Truthy(data.promoCode) ==> r.content[1].value == data.promoCode
    ensures !Truthy(data.promoCode) ==> r.content[1].value == Some(NotAvailable)
  {
    DisplayPayload("Action Triggered", [
      Field("Action", data.action),
      Field("Promo Code", Some(OrElse(data.promoCode, NotAvailable)))
    ])
  }

  /** The log line of the `userData` handler, given the payload's JSON text. */
  function UserDataLogText(json: string): string
  {
    "Received userData: " + json
  }

  const UserIdentityLogText := "Received userIdentity"

  const TriggerActionLogPrefix := "Received action: "

  /**
   * The log line of the `triggerAction` handler: the fixed prefix, then the
   * action as text; a present action can be read back from the line.
   */
  function TriggerActionLogText(data: TriggerAction): (r: string)
    ensures |r| >= |TriggerActionLogPrefix| && r[..|TriggerActionLogPrefix|] == TriggerActionLogPrefix
    ensures data.action.Some? ==> r[|TriggerActionLogPrefix|..] == data.action.value
    ensures data.action.None? ==> r[|TriggerActionLogPrefix|..] == "undefined"
  {
    // concatenating an absent property writes "undefined"
    TriggerActionLogPrefix + (match data.action case Some(a) => a case None => "undefined")
  }

  /** Two present actions that give the same log line are the same action. */
  lemma TriggerActionLogTextInjective(a: TriggerAction, b: TriggerAction)
    requires a.action.Some? && b.action.Some?
    requires TriggerActionLogText(a) == TriggerActionLogText(b)
    ensures a.action == b.action
  {
  }

  const StateRequestLogText := "State requested, sending response..."

  // ---------------------------------------------------------------------
  // Decimal text of a number, as `'…' + Date.now()` writes it
  // ---------------------------------------------------------------------

  predicate IsDigit(c: char)
  {
    '0' <= c <= '9'
  }

  predicate AllDigits(s: string)
  {
    forall i :: 0 <= i < |s| ==> IsDigit(s[i])
  }

  function DigitChar(d: nat): (c: char)
    requires d < 10
    ensures IsDigit(c) && (c as int) - ('0' as int) == d
  {
    (('0' as int) + d) as char
  }

  /** The shortest decimal text of `n`. */
  function DecimalText(n: nat): (r: string)
    ensures |r| >= 1 && AllDigits(r)
    ensures |r| > 1 ==> r[0] != '0'
    decreases n
  {
    if n < 10 then [DigitChar(n)] else DecimalText(n / 10) + [DigitChar(n % 10)]
  }

  /** The number a string of decimal digits denotes (the reference reading of `DecimalText`). */
  function DecimalValue(s: string): nat
    requires AllDigits(s)
    decreases |s|
  {
    if s == [] then 0
    else DecimalValue(s[..|s| - 1]) * 10 + ((s[|s| - 1] as int) - ('0' as int))
  }

  lemma {:induction false} DecimalRoundTrip(n: nat)
    ensures DecimalValue(DecimalText(n)) == n
    decreases n
  {
    if n >= 10 {
      var s := DecimalText(n);
      DecimalRoundTrip(n / 10);
      assert s[..|s| - 1] == DecimalText(n / 10);
    }
  }

  /** Distinct clock readings give distinct button identifiers. */
  lemma ButtonIdInjective(a: nat, b: nat)
    requires ButtonIdFor(a) == ButtonIdFor(b)
    ensures a == b
  {
  }

  // ---------------------------------------------------------------------
  // Outbound messages
  // ---------------------------------------------------------------------

  datatype Viewport = Viewport(width: int, height: int)

  /** The payload objects of the outbound message catalogue. */
  datatype OutPayload =
    | Ready(ready: bool)
    | PageLoaded(url: string, timestamp: string)
    | CartUpdated(itemCount: nat, totalPriceCents: nat, timestamp: string)
    | ButtonClicked(buttonName: string, buttonId: string)
    | StateRequest(requestedAt: string)
    | CustomEvent(message: string, count: nat, timestamp: string)
    | StateResponse(currentPage: string, scrollY: int, userAgent: string, viewport: Viewport)

  /** The `{type, payload, timestamp}` object handed to `postMessage`. */
  datatype Envelope = Envelope(msgType: string, payload: OutPayload, timestamp: nat)

  const ReadyType := "__WEBVIEW_READY__"
  const PageLoadedType := "webPageLoaded"
  const CartUpdatedType := "webCartUpdated"
  const ButtonClickedType := "webButtonClicked"
  const StateRequestType := "getState"
  const CustomEventType := "customWebEvent"
  const StateResponseType := "stateResponse"

  const CartItemCount: nat := 5
  /** The fixed cart price 2499.99, in hundredths. */
  const CartPriceCents: nat := 249999
  const TestButtonName := "Test Button"
  const CustomEventGreeting := "Hello from WebView!"

  function PageLoadedPayload(win: WindowInfo, now: Instant): OutPayload
  {
    PageLoaded(win.href, now.iso)
  }

  function CartPayload(now: Instant): OutPayload
  {
    CartUpdated(CartItemCount, CartPriceCents, now.iso)
  }

  /** `'test-btn-' + Date.now()`. */
  function ButtonIdFor(ms: nat): (r: string)
    ensures |r| > |"test-btn-"| && r[..|"test-btn-"|] == "test-btn-"
    ensures AllDigits(r[|"test-btn-"|..])
    ensures |r| > |"test-btn-"| + 1 ==> r[|"test-btn-"|] != '0'
    ensures DecimalValue(r[|"test-btn-"|..]) == ms
  {
    DecimalRoundTrip(ms);
    "test-btn-" + DecimalText(ms)
  }

  function ButtonPayload(now: Instant): OutPayload
  {
    ButtonClicked(TestButtonName, ButtonIdFor(now.ms))
  }

  function StateRequestPayload(now: Instant): OutPayload
  {
    StateRequest(now.iso)
  }

  function CustomEventPayload(count: nat, now: Instant): OutPayload
  {
    CustomEvent(CustomEventGreeting, count, now.iso)
  }

  /** The state-response reply: the window exactly as read. */
  function StateResponsePayload(win: WindowInfo): OutPayload
  {
    StateResponse(win.href, win.scrollY, win.userAgent, Viewport(win.innerWidth, win.innerHeight))
  }
}
