/**
 * The payment-gateway service of payments/services.py. The gateway library's
 * calls are not modelled: each call's outcome is a parameter (an oracle), and
 * the model states what the service does with it.
 */
module PaymentService {
  import opened Wrappers
  import opened Text
  import opened Decimals

  /** How constructing the gateway client went. */
  datatype ClientConstruction = Constructed | ConstructionFailed(message: string)

  /** How the credential-validating call (listing orders) went. */
  datatype ValidationReply =
    | Reachable
    | ValidationNetworkFailure
    | ValidationBadRequest(message: string)
    | ValidationOtherFailure(message: string)

  /** A constructed service; `hasClient` is false when debug mode carried on past a failed client construction. */
  datatype Service = Service(hasClient: bool)

  /** Python's `not value` for a setting that may be None. */
  predicate Falsy(v: Option<string>) {
    v.None? || v.value == ""
  }

  /**
   * RazorpayService.__init__: Ok(service), or Err(message of the exception raised).
   * In debug mode the validating call is not made.
   */
  function InitService(keyId: Option<string>, keySecret: Option<string>, debug: bool,
                       construction: ClientConstruction, validation: ValidationReply): Result<Service, string>
  {
    if Falsy(keyId) || Falsy(keySecret) then Err("Razorpay credentials are not properly configured")
    else
      var attempt: Result<bool, string> :=
        match construction
        case ConstructionFailed(m) => Err(m)
        case Constructed =>
          if debug then Ok(true)
          else match validation
            case Reachable => Ok(true)
            case ValidationNetworkFailure => Ok(true)
            case ValidationBadRequest(_) => Err("Invalid Razorpay API credentials")
            case ValidationOtherFailure(m) => Err(m);
      match attempt
      case Ok(_) => Ok(Service(true))
      case Err(m) => if debug then Ok(Service(construction.Constructed?)) else Err("Failed to initialize Razorpay client: " + m)
  }

  /** A missing or empty key id or secret raises before any client is built, whatever the client would do. */
  lemma InitRequiresCredentials(keyId: Option<string>, keySecret: Option<string>, debug: bool,
                                construction: ClientConstruction, validation: ValidationReply)
    requires Falsy(keyId) || Falsy(keySecret)
    ensures InitService(keyId, keySecret, debug, construction, validation)
      == Err("Razorpay credentials are not properly configured")
  {
  }

  /** With credentials present, debug mode never raises, and outside debug mode the service is built exactly when the client is and the credentials are not refused. */
  lemma InitWithCredentials(keyId: Option<string>, keySecret: Option<string>, debug: bool,
                            construction: ClientConstruction, validation: ValidationReply)
    requires !Falsy(keyId) && !Falsy(keySecret)
    ensures var r := InitService(keyId, keySecret, debug, construction, validation);
      && (debug ==> r == Ok(Service(construction.Constructed?)))
      && (!debug ==> (r.Ok? <==> construction.Constructed? && (validation.Reachable? || validation.ValidationNetworkFailure?)))
      && (!debug && construction.Constructed? && validation.ValidationBadRequest? ==>
            r == Err("Failed to initialize Razorpay client: " + "Invalid Razorpay API credentials"))
  {
  }

  /** The order request sent to the gateway. */
  datatype OrderRequest = OrderRequest(amount: int, currency: string, paymentCapture: string)

  /** The data dictionary of create_order: the amount in paise, the currency, and automatic capture. */
  function OrderData(amount: Decimal, currency: string := "INR"): (d: OrderRequest)
    ensures d.amount == ToHundredths(amount) && d.currency == currency && d.paymentCapture == "1"
  {
    OrderRequest(ToHundredths(amount), currency, "1")
  }

  /** How the gateway answered the order request. */
  datatype GatewayReply =
    | OrderCreated(orderId: string)
    | ConnectionFailure
    | BadRequest(detail: string)
    | OtherFailure(detail: string)

  datatype Order = Order(id: string, request: OrderRequest)

  /** create_order: the created order, or Err(message of the exception it raises). */
  function CreateOrder(amount: Decimal, reply: GatewayReply, currency: string := "INR"): Result<Order, string> {
    var data := OrderData(amount, currency);
    match reply
    case OrderCreated(id) => Ok(Order(id, data))
    case ConnectionFailure => Err("Network error: Unable to connect to Razorpay")
    case BadRequest(detail) => Err("Razorpay Bad Request: " + detail)
    case OtherFailure(detail) => Err("Order creation failed: " + detail)
  }

  /** The three failure kinds map to three messages; only a connection failure's message is a network error by construction. */
  lemma CreateOrderFailures(amount: Decimal, reply: GatewayReply, currency: string)
    ensures var r := CreateOrder(amount, reply, currency);
      && (reply.OrderCreated? <==> r.Ok?)
      && (reply.OrderCreated? ==> r.value.id == reply.orderId && r.value.request == OrderData(amount, currency))
      && (reply.ConnectionFailure? ==> r.Err? && Contains(r.error, "Network error"))
      && (reply.BadRequest? ==> r.Err? && StartsWith(r.error, "Razorpay Bad Request: "))
      && (reply.OtherFailure? ==> r.Err? && StartsWith(r.error, "Order creation failed: "))
  {
    var r := CreateOrder(amount, reply, currency);
    if reply.ConnectionFailure? {
      assert r.error[..13] == "Network error";
    }
    if reply.BadRequest? {
      assert ("Razorpay Bad Request: " + reply.detail)[..22] == "Razorpay Bad Request: ";
    }
    if reply.OtherFailure? {
      assert ("Order creation failed: " + reply.detail)[..23] == "Order creation failed: ";
    }
  }

  /** A two-decimal price is sent as exactly that many paise: the request for 29.99 carries 2999 and INR. */
  lemma OrderDataExact(amount: Decimal)
    requires amount.exp <= 2
    ensures OrderData(amount).amount * Pow10(amount.exp) == amount.units * 100
    ensures OrderData(amount).currency == "INR"
  {
    ToHundredthsExact(amount);
  }

  /** What the library's signature check did: returned, raised a verification error, or raised something else. */
  datatype SignatureCheck = SignatureValid | SignatureMismatch | CheckRaised(message: string)

  /** verify_payment_signature: false on a verification error, true when nothing is raised; other errors propagate. */
  function VerifyPaymentSignature(check: SignatureCheck): (r: Result<bool, string>)
    ensures r == Ok(false) <==> check.SignatureMismatch?
    ensures r == Ok(true) <==> check.SignatureValid?
    ensures r.Err? <==> check.CheckRaised?
  {
    match check
    case SignatureValid => Ok(true)
    case SignatureMismatch => Ok(false)
    case CheckRaised(m) => Err(m)
  }
}
