/**
 * The four listener sets of a Braintree instance, one per listener interface,
 * and the two registration operations on them.
 */
module Listeners {
  import opened Types

  datatype ListenerSets = ListenerSets(
    updated: set<Observer>,
    created: set<Observer>,
    nonce: set<Observer>,
    errors: set<Observer>)

  const NoListeners := ListenerSets({}, {}, {}, {})

  /** The set a callback of this kind iterates over when it is executed: only registered
      observers, and, in well-typed sets, only ones that implement the callback's interface
      (so the cast in execute() cannot fail). */
  function Audience(p: Pending, r: ListenerSets): (a: set<Observer>)
    ensures forall o :: o in a ==> Registered(r, o)
    ensures WellTyped(r) ==> forall o :: o in a ==> Accepts(o, p)
  {
    match p
    case PaymentMethodsUpdated(_) => r.updated
    case PaymentMethodCreated(_) => r.created
    case PaymentMethodNonce(_) => r.nonce
    case UnrecoverableError(_) => r.errors
    case RecoverableError(_) => r.errors
  }

  /** ListenerCallback.hasListeners(): somebody would hear the callback, and in well-typed
      sets that somebody is a registered observer implementing its interface. */
  predicate HasListeners(p: Pending, r: ListenerSets): (h: bool)
    ensures h <==> exists o :: o in Audience(p, r)
    ensures WellTyped(r) && h ==> exists o :: Registered(r, o) && Accepts(o, p)
  {
    Audience(p, r) != {}
  }

  /** Every member of a set implements that set's interface (the casts of addListener). */
  predicate WellTyped(r: ListenerSets) {
    && (forall o :: o in r.updated ==> o.caps.updated)
    && (forall o :: o in r.created ==> o.caps.created)
    && (forall o :: o in r.nonce ==> o.caps.nonce)
    && (forall o :: o in r.errors ==> o.caps.error)
  }

  /** The observer is a member of at least one set. */
  predicate Registered(r: ListenerSets, o: Observer) {
    o in r.updated || o in r.created || o in r.nonce || o in r.errors
  }

  /** addListener: join every set whose interface the observer implements. */
  function Added(r: ListenerSets, o: Observer): (s: ListenerSets)
    ensures forall p :: Audience(p, s) == if Accepts(o, p) then Audience(p, r) + {o} else Audience(p, r)
    ensures WellTyped(r) ==> WellTyped(s)
  {
    ListenerSets(
      if o.caps.updated then r.updated + {o} else r.updated,
      if o.caps.created then r.created + {o} else r.created,
      if o.caps.nonce then r.nonce + {o} else r.nonce,
      if o.caps.error then r.errors + {o} else r.errors)
  }

  /** removeListener: leave every set whose interface the observer implements. */
  function Removed(r: ListenerSets, o: Observer): (s: ListenerSets)
    ensures forall p :: Audience(p, s) == if Accepts(o, p) then Audience(p, r) - {o} else Audience(p, r)
    ensures WellTyped(r) ==> WellTyped(s) && !Registered(s, o)
  {
    ListenerSets(
      if o.caps.updated then r.updated - {o} else r.updated,
      if o.caps.created then r.created - {o} else r.created,
      if o.caps.nonce then r.nonce - {o} else r.nonce,
      if o.caps.error then r.errors - {o} else r.errors)
  }

  /** Membership is idempotent: adding twice and removing once leaves the observer unregistered,
      and the result is the same as adding once and removing once. */
  lemma AddTwiceRemoveOnce(r: ListenerSets, o: Observer)
    requires WellTyped(r)
    ensures Added(Added(r, o), o) == Added(r, o)
    ensures Removed(Added(Added(r, o), o), o) == Removed(Added(r, o), o)
    ensures !Registered(Removed(Added(Added(r, o), o), o), o)
  {
  }

  /** Removing an observer that was never added changes nothing. */
  lemma RemoveNonMember(r: ListenerSets, o: Observer)
    requires !Registered(r, o)
    ensures Removed(r, o) == r
  {
  }

  /** Adding a new observer and removing it again restores the sets. */
  lemma AddRemoveRoundTrip(r: ListenerSets, o: Observer)
    requires !Registered(r, o)
    ensures Removed(Added(r, o), o) == r
  {
  }

  /** An added observer hears every kind of callback it implements, exactly then. */
  lemma AddedIsAudience(r: ListenerSets, o: Observer, p: Pending)
    requires WellTyped(r)
    ensures o in Audience(p, Added(r, o)) <==> Accepts(o, p)
    ensures Accepts(o, p) ==> HasListeners(p, Added(r, o))
  {
  }
}
