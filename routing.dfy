/**
 * Which listener callbacks the body of each submitted job posts for each outcome of
 * its gateway call, in posting order.
 */
module Routing {
  import opened Types

  /** How many of the callbacks go to onRecoverableError. */
  function Recoverables(ps: seq<Pending>): nat {
    if ps == [] then 0 else (if ps[0].RecoverableError? then 1 else 0) + Recoverables(ps[1..])
  }

  /** How many of the callbacks go to onUnrecoverableError. */
  function Unrecoverables(ps: seq<Pending>): nat {
    if ps == [] then 0 else (if ps[0].UnrecoverableError? then 1 else 0) + Unrecoverables(ps[1..])
  }

  /** An outcome reaches the error listeners the way the catch clauses route it: a validation
      failure once on the recoverable path and never on the other, a BraintreeException once on
      the unrecoverable path and never on the other, anything else on neither. */
  ghost predicate RoutesErrors<T>(o: Outcome<T>, ps: seq<Pending>) {
    && Recoverables(ps) == (if o.ValidationFailed? then 1 else 0)
    && Unrecoverables(ps) == (if o.Failed? then 1 else 0)
    && (o.ValidationFailed? ==> RecoverableError(o.error) in ps)
    && (o.Failed? ==> UnrecoverableError(o.cause) in ps)
  }

  /** The run() body of getPaymentMethodsHelper. */
  function FetchActions(o: Outcome<seq<PaymentMethod>>): (ps: seq<Pending>)
    ensures RoutesErrors(o, ps)
    ensures o.Succeeded? ==> ps == [PaymentMethodsUpdated(o.value)]
    ensures |ps| == if o.Escaped? then 0 else 1
  {
    match o
    case Succeeded(methods) => [PaymentMethodsUpdated(methods)]
    case ValidationFailed(e) => [RecoverableError(e)]
    case Failed(t) => [UnrecoverableError(t)]
    case Escaped => []
  }

  /** The run() body of createHelper: the created method first, then its nonce. */
  function CreateActions(o: Outcome<PaymentMethod>): (ps: seq<Pending>)
    ensures RoutesErrors(o, ps)
    ensures o.Succeeded? ==> ps == [PaymentMethodCreated(o.value), PaymentMethodNonce(o.value.nonce)]
    ensures !o.Succeeded? ==> |ps| == if o.Escaped? then 0 else 1
  {
    match o
    case Succeeded(m) =>
      var ps := [PaymentMethodCreated(m), PaymentMethodNonce(m.nonce)];
      assert ps[1..] == [PaymentMethodNonce(m.nonce)] && ps[1..][1..] == [];
      assert Recoverables(ps[1..]) == 0 && Unrecoverables(ps[1..]) == 0;
      ps
    case ValidationFailed(e) => [RecoverableError(e)]
    case Failed(t) => [UnrecoverableError(t)]
    case Escaped => []
  }

  /** The run() body of tokenizeHelper: only the nonce. */
  function TokenizeActions(o: Outcome<string>): (ps: seq<Pending>)
    ensures RoutesErrors(o, ps)
    ensures o.Succeeded? ==> ps == [PaymentMethodNonce(o.value)]
    ensures |ps| == if o.Escaped? then 0 else 1
  {
    match o
    case Succeeded(nonce) => [PaymentMethodNonce(nonce)]
    case ValidationFailed(e) => [RecoverableError(e)]
    case Failed(t) => [UnrecoverableError(t)]
    case Escaped => []
  }

  /** finishPayWithPayPal posts only when the PayPal response is misconfigured. */
  function PayPalActions(response: PayPalResponse): (ps: seq<Pending>)
    ensures Recoverables(ps) == 0
    ensures Unrecoverables(ps) == if response.Misconfigured? then 1 else 0
    ensures response.Misconfigured? ==> ps == [UnrecoverableError(ConfigurationException(response.message))]
    ensures !response.Misconfigured? ==> ps == []
  {
    if response.Misconfigured? then [UnrecoverableError(ConfigurationException(response.message))] else []
  }

  /** The payment methods getCachedPaymentMethods reports: none while nothing is cached. */
  function CachedOrEmpty(cache: Option<seq<PaymentMethod>>): (c: seq<PaymentMethod>)
    ensures cache.Some? ==> cache == Some(c)
    ensures cache.None? ==> c == []
  {
    if cache.None? then [] else cache.value
  }

  /** The cache after a successful create: the new method in front of whatever was cached. */
  function Prepended(cache: Option<seq<PaymentMethod>>, m: PaymentMethod): (c: Option<seq<PaymentMethod>>)
    ensures c.Some? && |c.value| == |CachedOrEmpty(cache)| + 1
    ensures c.value[0] == m && c.value[1..] == CachedOrEmpty(cache)
  {
    Some([m] + CachedOrEmpty(cache))
  }
}
