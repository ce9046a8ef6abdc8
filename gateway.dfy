/**
 * The payment gateway object the shop instantiates: its configuration,
 * chosen once at construction, the payment step that sends the shopper to the
 * hosted checkout page, and the webhook that reconciles the order afterwards.
 */
module Gateway {
  import opened Wrappers
  import Text
  import opened TinggConstants
  import opened Checkout
  import opened Notifications

  class TinggGateway {
    var id: string
    var icon: string
    var hasFields: bool
    var methodTitle: string
    var methodDescription: string
    var supports: seq<string>

    var title: string
    var enabled: string
    var description: string
    var sandbox: bool
    var paymentPeriod: int
    var ivKey: string
    var secretKey: string
    var accessKey: string
    var checkoutUrl: string
    var serviceCode: string

    /** Reads the settings; the sandbox switch picks the endpoint and the IV seed. */
    constructor (settings: Settings)
      ensures id == PaymentGateway && icon == "" && hasFields && supports == ["products"]
      ensures methodTitle == Text.Ucfirst(BrandName) && methodDescription == Text.Ucfirst(PaymentGatewayDescription)
      ensures title == settings.title && enabled == settings.enabled && description == settings.description
      ensures sandbox <==> settings.sandbox == "yes"
      ensures checkoutUrl == (if sandbox then SandboxCheckoutUrl else LiveCheckoutUrl)
      ensures ivKey == (if sandbox then settings.testIvKey else settings.ivKey)
      ensures paymentPeriod == settings.paymentPeriod && secretKey == settings.secretKey
      ensures accessKey == settings.accessKey && serviceCode == settings.serviceCode
    {
      icon := "";
      hasFields := true;
      id := PaymentGateway;
      methodTitle := Text.Ucfirst(BrandName);
      methodDescription := Text.Ucfirst(PaymentGatewayDescription);
      supports := ["products"];
      title := settings.title;
      enabled := settings.enabled;
      description := settings.description;
      sandbox := IsSandbox(settings);
      paymentPeriod := settings.paymentPeriod;
      ivKey := IvKeyFor(settings);
      secretKey := settings.secretKey;
      accessKey := settings.accessKey;
      checkoutUrl := CheckoutUrlFor(IsSandbox(settings));
      serviceCode := settings.serviceCode;
    }

    /**
     * Builds the payload for `order`, encrypts it with the IV seed and the
     * secret, and answers with the checkout URL carrying the encrypted blob,
     * the access key and the billing country. `encrypt` stands for the
     * payload cipher. Nothing about the order changes.
     */
    method ProcessPayment(order: OrderDetails, host: HostContext,
                          encrypt: (string, string, Payload) -> string) returns (r: PaymentResult)
      ensures r.result == "success"
      ensures var p := BuildPayload(accessKey, serviceCode, paymentPeriod, order, host);
              var blob := encrypt(ivKey, secretKey, p);
              r.redirect == RedirectUrl(checkoutUrl, blob, accessKey, order.billingCountry)
              && ('&' !in blob && '&' !in accessKey ==>
                    ParseRedirect(r.redirect, checkoutUrl) == Some(RedirectQuery(blob, accessKey, order.billingCountry)))
    {
      var payload := BuildPayload(accessKey, serviceCode, paymentPeriod, order, host);
      var blob := encrypt(ivKey, secretKey, payload);
      var url := RedirectUrl(checkoutUrl, blob, accessKey, order.billingCountry);
      if '&' !in blob && '&' !in accessKey {
        RedirectRoundTrip(checkoutUrl, blob, accessKey, order.billingCountry);
      }
      r := PaymentResult("success", url);
    }

    /**
     * Handles a payment-status notification for `order`: a full payment marks
     * the order paid; both payment codes then reduce stock, add the note and
     * produce the acknowledgement; any other code leaves the order alone and
     * produces nothing.
     */
    method Webhook(n: Notification, order: Order) returns (ack: Option<Ack>)
      modifies order
      ensures !IsHandled(n.requestStatusCode) ==> unchanged(order) && ack == None
      ensures order.calls == old(order.calls) + ExpectedCalls(n)
      ensures order.paid == (old(order.paid) || n.requestStatusCode == PaidInFull)
      ensures order.stockReductions == old(order.stockReductions) + (if IsHandled(n.requestStatusCode) then 1 else 0)
      ensures order.notes == old(order.notes)
                             + (if IsHandled(n.requestStatusCode) then [NoteFor(n.requestStatusCode, n.accountNumber)] else [])
      ensures ack == Acknowledgement(n)
    {
      ack := None;
      var code := n.requestStatusCode;
      if IsHandled(code) {
        if code == PaidInFull {
          order.PaymentComplete();
        }
        order.ReduceOrderStock();
        var note := NoteFor(code, n.accountNumber);
        order.AddOrderNote(note);
        ack := Some(Ack(PaymentAccepted, "Payment accepted", n.accountNumber,
                        n.checkoutRequestID, n.merchantTransactionID));
      }
    }
  }

  /** A full payment for order 42 marks it paid, reduces stock once, notes
      "paid in full" and acknowledges with 183, echoing the request id. */
  method WebhookPaidInFullExample(gateway: TinggGateway)
  {
    var order := new Order();
    var ack := gateway.Webhook(Notification("42", 178, "abc", "42"), order);
    assert order.paid && order.stockReductions == 1;
    assert order.notes == ["Order #" + "42" + (" has been " + "paid in full")];
    assert ack.Some? && ack.value.statusCode == 183 && ack.value.checkoutRequestID == "abc";
    ack := gateway.Webhook(Notification("42", 999, "abc", "42"), order);
    assert ack == None && order.stockReductions == 1;
  }
}
