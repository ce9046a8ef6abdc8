/**
 * The checkout side of the gateway: the sandbox/live switch, the billing
 * country check run before payment, and the pieces `process_payment` builds
 * (order description, currency, payload record and redirect URL).
 */
module Checkout {
  import opened Wrappers
  import Text
  import opened TinggConstants

  // ---------------------------------------------------------------------------
  // Settings and gateway mode

  /** The gateway's settings as the shop's option store hands them out.
      `paymentPeriod` is the number of minutes a checkout request stays open. */
  datatype Settings = Settings(
    enabled: string,
    sandbox: string,
    title: string,
    description: string,
    paymentPeriod: int,
    serviceCode: string,
    ivKey: string,
    testIvKey: string,
    secretKey: string,
    accessKey: string)

  const SandboxCheckoutUrl: string := "https://beep2.cellulant.com:9212/checkout/v2/express/"
  const LiveCheckoutUrl: string := "https://mula.africa/v2/express/"

  /** The sandbox checkbox is on only when its option is exactly "yes". */
  predicate IsSandbox(s: Settings) {
    s.sandbox == "yes"
  }

  function CheckoutUrlFor(sandbox: bool): (url: string)
    ensures url == SandboxCheckoutUrl || url == LiveCheckoutUrl
  {
    if sandbox then SandboxCheckoutUrl else LiveCheckoutUrl
  }

  /** The IV seed: the test key in sandbox mode, the live key otherwise. */
  function IvKeyFor(s: Settings): (iv: string)
    ensures iv == s.testIvKey || iv == s.ivKey
  {
    if IsSandbox(s) then s.testIvKey else s.ivKey
  }

  /** The two endpoints differ, so the URL alone tells which mode is on. */
  lemma ModeSelection(s: Settings)
    ensures CheckoutUrlFor(IsSandbox(s)) == SandboxCheckoutUrl <==> s.sandbox == "yes"
    ensures CheckoutUrlFor(IsSandbox(s)) == LiveCheckoutUrl <==> s.sandbox != "yes"
    ensures s.testIvKey != s.ivKey ==> (IvKeyFor(s) == s.testIvKey <==> s.sandbox == "yes")
  {
    assert |SandboxCheckoutUrl| != |LiveCheckoutUrl|;
  }

  // ---------------------------------------------------------------------------
  // Field validation

  const UnsupportedCountryMessage: string :=
    "<strong>Billing Country</strong> is not supported. Please contact support for further assitance"

  /** A message queued for the shopper, with its kind ("error", "notice", ...). */
  datatype Notice = Notice(message: string, kind: string)

  /** The outcome of validating the checkout form: the verdict and the notices added. */
  datatype Validation = Validation(valid: bool, notices: seq<Notice>)

  /** Checkout may go ahead only for a billing country in the table; otherwise
      exactly one error notice is added. */
  function ValidateFields(billingCountry: string): (v: Validation)
    ensures v.valid <==> exists i :: 0 <= i < |Countries| && Countries[i].countryCode == billingCountry
    ensures v.valid ==> v.notices == []
    ensures !v.valid ==> v.notices == [Notice(UnsupportedCountryMessage, "error")]
  {
    if billingCountry in CountryCodes(Countries) then Validation(true, [])
    else Validation(false, [Notice(UnsupportedCountryMessage, "error")])
  }

  // ---------------------------------------------------------------------------
  // Order and description

  /** One order line: the quantity and the product's name. */
  datatype LineItem = LineItem(quantity: int, productName: string)

  /** What the order store reports about an order at checkout. */
  datatype OrderDetails = OrderDetails(
    id: int,
    total: string,
    billingCountry: string,
    billingPhone: string,
    billingEmail: string,
    billingFirstName: string,
    billingLastName: string,
    items: seq<LineItem>,
    orderReceivedUrl: string)

  /** What the host supplies at checkout: the clock, the shop page's URL and the site's URL. */
  datatype HostContext = HostContext(now: int, shopPageUrl: string, siteUrl: string)

  /** One line of the description: "<qty> x <name>" (format "%d x %s"). */
  function ItemLine(item: LineItem): (line: string)
    ensures 0 < |line| && !Text.IsTrimSpace(line[0])
  {
    Text.DecimalString(item.quantity) + " x " + item.productName
  }

  /** The left fold over the items that appends "<qty> x <name>, " per item. */
  function Excerpt(items: seq<LineItem>): (e: string)
    ensures e == "" <==> items == []
    ensures items != [] ==> |e| >= 2 && e[|e| - 2..] == ", "
  {
    if items == [] then ""
    else Excerpt(items[..|items| - 1]) + ItemLine(items[|items| - 1]) + ", "
  }

  /** The item lines joined by ", ": an independent reading of the description. */
  function JoinedLines(items: seq<LineItem>): (s: string)
    requires items != []
    ensures 0 < |s| && !Text.IsTrimSpace(s[0])
  {
    if |items| == 1 then ItemLine(items[0])
    else
      var init := JoinedLines(items[..|items| - 1]);
      init + ", " + ItemLine(items[|items| - 1])
  }

  /** The order description: the excerpt, trimmed, with trailing commas stripped. */
  function Description(items: seq<LineItem>): (d: string)
    ensures |d| == 0 || d[|d| - 1] != ','
  {
    Text.TrimRightChar(Text.Trim(Excerpt(items)), ',')
  }

  /** The excerpt is the joined lines followed by one trailing separator. */
  lemma {:induction false} ExcerptIsJoined(items: seq<LineItem>)
    requires items != []
    ensures Excerpt(items) == JoinedLines(items) + ", "
  {
    var n := |items|;
    var init, line := items[..n - 1], ItemLine(items[n - 1]);
    assert Excerpt(items) == Excerpt(init) + line + ", ";
    if n > 1 {
      ExcerptIsJoined(init);
      assert JoinedLines(items) == JoinedLines(init) + ", " + line;
    } else {
      assert init == [];
      assert Excerpt(init) + line == line;
    }
  }

  /** The joined lines end where the last item's line ends. */
  lemma JoinedLinesEnd(items: seq<LineItem>)
    requires items != []
    ensures var j, line := JoinedLines(items), ItemLine(items[|items| - 1]);
            |line| <= |j| && j[|j| - 1] == line[|line| - 1]
  {
    var n := |items|;
    if n > 1 {
      var line := ItemLine(items[n - 1]);
      assert JoinedLines(items) == JoinedLines(items[..n - 1]) + ", " + line;
    }
  }

  /** The description of a non-empty order is the item lines joined by ", ",
      with trailing commas stripped; unless the last product name itself ends in
      a comma, that is exactly the joined lines. */
  lemma DescriptionOfItems(items: seq<LineItem>)
    requires items != []
    ensures Description(items) == Text.TrimRightChar(JoinedLines(items), ',')
    ensures var last := items[|items| - 1].productName;
            (|last| == 0 || last[|last| - 1] != ',') ==> Description(items) == JoinedLines(items)
  {
    var j := JoinedLines(items);
    ExcerptIsJoined(items);
    Text.TrimSeparator(j);
    var f := j + ",";
    assert f[|f| - 1] == ',' && f[..|f| - 1] == j;
    assert Text.TrimRightChar(f, ',') == Text.TrimRightChar(j, ',');
    var last := items[|items| - 1];
    if |last.productName| == 0 || last.productName[|last.productName| - 1] != ',' {
      JoinedLinesEnd(items);
      var line := ItemLine(last);
      assert line[|line| - 1] != ',';
      assert Text.TrimRightChar(j, ',') == j;
    }
  }

  lemma DescriptionEmpty()
    ensures Description([]) == ""
  {
  }

  /** Two widgets give "2 x Widget". */
  lemma DescriptionOfWidgets()
    ensures Description([LineItem(2, "Widget")]) == "2 x Widget"
  {
    var items := [LineItem(2, "Widget")];
    assert Text.DecimalString(2) == "2";
    assert ItemLine(items[0]) == "2 x Widget";
    assert JoinedLines(items) == "2 x Widget";
    assert "Widget"[5] != ',';
    DescriptionOfItems(items);
  }

  // ---------------------------------------------------------------------------
  // Payload

  /** The record sent, encrypted, to the checkout page. `currencyCode` is
      `None` (a JSON null) when the billing country is not in the table. */
  datatype Payload = Payload(
    accessKey: string,
    accountNumber: int,
    serviceCode: string,
    requestAmount: string,
    msisdn: string,
    merchantTransactionID: int,
    customerEmail: string,
    customerLastName: string,
    customerFirstName: string,
    requestDescription: string,
    currencyCode: Option<string>,
    dueDate: int,
    failRedirectUrl: string,
    successRedirectUrl: string,
    paymentWebhookUrl: string)

  const WebhookPath: string := "/wc-api/tingg_payment_webhook"

  /** The expiry, in seconds, `minutes` after `now`. */
  function DueDate(now: int, minutes: int): (due: int)
    ensures minutes >= 0 ==> due >= now
    ensures due - now == 60 * minutes
  {
    now + 60 * minutes
  }

  function BuildPayload(accessKey: string, serviceCode: string, paymentPeriod: int,
                        order: OrderDetails, host: HostContext): (p: Payload)
    ensures p.accountNumber == order.id && p.merchantTransactionID == order.id
    ensures p.accessKey == accessKey && p.serviceCode == serviceCode
    ensures p.requestAmount == order.total && p.msisdn == order.billingPhone
    ensures p.customerEmail == order.billingEmail
    ensures p.customerFirstName == order.billingFirstName && p.customerLastName == order.billingLastName
    ensures p.requestDescription == Description(order.items)
    ensures p.currencyCode.Some? <==> ValidateFields(order.billingCountry).valid
    ensures forall i :: 0 <= i < |Countries| && Countries[i].countryCode == order.billingCountry ==>
              p.currencyCode == Some(Countries[i].currencyCode)
    ensures p.dueDate == DueDate(host.now, paymentPeriod)
    ensures p.failRedirectUrl == host.shopPageUrl && p.successRedirectUrl == order.orderReceivedUrl
    ensures p.paymentWebhookUrl == host.siteUrl + WebhookPath
  {
    assert forall i :: 0 <= i < |Countries| && Countries[i].countryCode == order.billingCountry ==>
             CurrencyFor(order.billingCountry) == Some(Countries[i].currencyCode) by {
      forall i | 0 <= i < |Countries| && Countries[i].countryCode == order.billingCountry {
        LookupFindsTheRow(i);
      }
    }
    Payload(
      accessKey := accessKey,
      accountNumber := order.id,
      serviceCode := serviceCode,
      requestAmount := order.total,
      msisdn := order.billingPhone,
      merchantTransactionID := order.id,
      customerEmail := order.billingEmail,
      customerLastName := order.billingLastName,
      customerFirstName := order.billingFirstName,
      requestDescription := Description(order.items),
      currencyCode := CurrencyFor(order.billingCountry),
      dueDate := DueDate(host.now, paymentPeriod),
      failRedirectUrl := host.shopPageUrl,
      successRedirectUrl := order.orderReceivedUrl,
      paymentWebhookUrl := host.siteUrl + WebhookPath)
  }

  /** Order 42 from Kenya for two widgets is billed in shillings as "2 x Widget",
      under account and transaction number 42. */
  lemma PayloadForKenyanOrder(accessKey: string, serviceCode: string, paymentPeriod: int,
                              order: OrderDetails, host: HostContext)
    requires order.id == 42 && order.billingCountry == "KE" && order.items == [LineItem(2, "Widget")]
    ensures var p := BuildPayload(accessKey, serviceCode, paymentPeriod, order, host);
            p.requestDescription == "2 x Widget" && p.currencyCode == Some("KES")
            && p.accountNumber == 42 && p.merchantTransactionID == 42
  {
    DescriptionOfWidgets();
    LookupExamples();
  }

  /** A French billing address is turned away with one error notice. */
  lemma ValidationRejectsFrance()
    ensures ValidateFields("FR") == Validation(false, [Notice(UnsupportedCountryMessage, "error")])
  {
    UnsupportedCountry("FR");
  }

  // ---------------------------------------------------------------------------
  // Redirect URL

  /** The checkout URL with its three query parameters, none of them URL-encoded. */
  function RedirectUrl(checkoutUrl: string, params: string, accessKey: string, countryCode: string): (url: string)
    ensures checkoutUrl + "?params=" <= url
    ensures |url| == |checkoutUrl| + |params| + |accessKey| + |countryCode| + 8 + 11 + 13
  {
    checkoutUrl + "?params=" + params + "&accessKey=" + accessKey + "&countryCode=" + countryCode
  }

  /** The redirect URL read right to left, one separator at a time. */
  lemma RedirectUrlNested(checkoutUrl: string, params: string, accessKey: string, countryCode: string)
    ensures RedirectUrl(checkoutUrl, params, accessKey, countryCode)
            == (checkoutUrl + "?params=") + (params + ("&accessKey=" + (accessKey + ("&countryCode=" + countryCode))))
  {
  }

  /** The three query parameter values of a redirect URL. */
  datatype RedirectQuery = RedirectQuery(params: string, accessKey: string, countryCode: string)

  /** Reads the query parameters back out of a redirect URL built on `checkoutUrl`. */
  function ParseRedirect(url: string, checkoutUrl: string): (q: Option<RedirectQuery>)
    ensures q.Some? ==> RedirectUrl(checkoutUrl, q.value.params, q.value.accessKey, q.value.countryCode) == url
  {
    match Text.StripPrefix(url, checkoutUrl + "?params=")
    case None => None
    case Some(rest) =>
      var params := Text.TakeUntil(rest, '&');
      match Text.StripPrefix(rest[|params|..], "&accessKey=")
      case None => None
      case Some(rest2) =>
        var key := Text.TakeUntil(rest2, '&');
        match Text.StripPrefix(rest2[|key|..], "&countryCode=")
        case None => None
        case Some(country) =>
          assert rest2 == key + ("&countryCode=" + country) by {
            assert rest2 == key + rest2[|key|..];
          }
          assert rest == params + ("&accessKey=" + rest2) by {
            assert rest == params + rest[|params|..];
          }
          RedirectUrlNested(checkoutUrl, params, key, country);
          Some(RedirectQuery(params, key, country))
  }

  /** The URL carries its parameters recoverably as long as the encrypted blob
      and the access key contain no '&'. */
  lemma RedirectRoundTrip(checkoutUrl: string, params: string, accessKey: string, countryCode: string)
    requires '&' !in params && '&' !in accessKey
    ensures ParseRedirect(RedirectUrl(checkoutUrl, params, accessKey, countryCode), checkoutUrl)
            == Some(RedirectQuery(params, accessKey, countryCode))
  {
    var head := checkoutUrl + "?params=";
    var tail2 := "&countryCode=" + countryCode;
    var tail1 := "&accessKey=" + (accessKey + tail2);
    RedirectUrlNested(checkoutUrl, params, accessKey, countryCode);
    Text.StripPrefixOf(head, params + tail1);
    Text.TakeUntilPrefix(params, tail1, '&');
    assert (params + tail1)[|params|..] == tail1;
    Text.StripPrefixOf("&accessKey=", accessKey + tail2);
    Text.TakeUntilPrefix(accessKey, tail2, '&');
    assert (accessKey + tail2)[|accessKey|..] == tail2;
    Text.StripPrefixOf("&countryCode=", countryCode);
  }

  /** What `process_payment` hands back to the shop: a result flag and where to send the shopper. */
  datatype PaymentResult = PaymentResult(result: string, redirect: string)
}
