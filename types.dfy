/**
 * Values exchanged between the Braintree facade, its gateway collaborator
 * and its listeners.
 */
module Types {

  datatype Option<+T> = None | Some(value: T)

  /** A payment method as the gateway returns it; only its nonce is used here. */
  datatype PaymentMethod = PaymentMethod(nonce: string, description: string)

  /** The unrecoverable failures: a BraintreeException, or a ConfigurationException
      raised while parsing the result of the PayPal flow. */
  datatype Throwable =
    | BraintreeException(message: string)
    | ConfigurationException(message: string)

  /** A validation failure reported by the gateway (ErrorWithResponse). */
  datatype ErrorWithResponse = ErrorWithResponse(statusCode: int, message: string)

  /** What a call into the gateway ended with, as seen by the body of a submitted job:
      it returned a value, threw ErrorWithResponse, threw BraintreeException, or threw
      something neither catch clause names (which leaves the job through its Future). */
  datatype Outcome<+T> =
    | Succeeded(value: T)
    | ValidationFailed(error: ErrorWithResponse)
    | Failed(cause: Throwable)
    | Escaped

  /** The builder the PayPal flow hands back for creating a PayPal account. */
  datatype PayPalAccountBuilder = PayPalAccountBuilder(authorizationCode: string)

  /** What handlePayPalResponse produced: a builder, null, or a ConfigurationException
      with its message. */
  datatype PayPalResponse =
    | Approved(builder: PayPalAccountBuilder)
    | NoAccount
    | Misconfigured(message: string)

  /** Which of the four listener interfaces an observer implements. */
  datatype Capabilities = Capabilities(updated: bool, created: bool, nonce: bool, error: bool)

  /** An observer object: its identity and the interfaces its class implements. */
  datatype Observer = Observer(id: nat, caps: Capabilities)

  /** A ListenerCallback: the result kind and the payload it carries. */
  datatype Pending =
    | PaymentMethodsUpdated(methods: seq<PaymentMethod>)
    | PaymentMethodCreated(created: PaymentMethod)
    | PaymentMethodNonce(nonce: string)
    | UnrecoverableError(cause: Throwable)
    | RecoverableError(error: ErrorWithResponse)

  /** One listener invocation handed to the main thread: who receives which event. */
  datatype Delivery = Delivery(listener: Observer, event: Pending)

  /** True when the observer implements the interface that receives `p`. */
  predicate Accepts(o: Observer, p: Pending) {
    match p
    case PaymentMethodsUpdated(_) => o.caps.updated
    case PaymentMethodCreated(_) => o.caps.created
    case PaymentMethodNonce(_) => o.caps.nonce
    case UnrecoverableError(_) => o.caps.error
    case RecoverableError(_) => o.caps.error
  }
}
