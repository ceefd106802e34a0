/**
 * Whole sequences of calls on the facade and on the instance table, with the state
 * each one ends in.
 */
module Scenarios {
  import opened Types
  import opened Listeners
  import opened Callbacks
  import opened Client
  import opened Instances

  /** A nonce produced while nobody listens for nonces stays queued, and is delivered exactly
      once, to the listener registered afterwards, by the next unlock (the gate was never
      closed). */
  method LateListenerHearsOnUnlock(n: string, o: Observer) returns (b: Braintree)
    requires o.caps.nonce
    ensures b.delivered == [[Delivery(o, PaymentMethodNonce(n))]]
    ensures b.queue == [] && !b.locked
  {
    b := new Braintree();
    var p := PaymentMethodNonce(n);
    b.OnTokenizeCompleted(Succeeded(n));
    assert b.queue == [p] && b.delivered == [] by {
      PostedOne(b.locked, p, NoListeners);
    }
    b.AddListener(o);
    ghost var r := b.Registry();
    assert Audience(p, r) == {o};
    b.UnlockListeners();
    assert b.delivered == [[Delivery(o, p)]] && b.queue == [] by {
      DrainToOne(p, r, o, [], b.delivered);
    }
  }

  /** A nonce produced behind the closed gate reaches the listener registered before the
      gate opens, exactly once, when it opens. */
  method GateReplaysToLateListener(n: string, o: Observer) returns (b: Braintree)
    requires o.caps.nonce
    ensures b.delivered == [[Delivery(o, PaymentMethodNonce(n))]]
    ensures b.queue == [] && !b.locked
  {
    b := new Braintree();
    b.LockListeners();
    var p := PaymentMethodNonce(n);
    b.OnTokenizeCompleted(Succeeded(n));
    assert b.queue == [p] && b.delivered == [] by {
      PostedOne(b.locked, p, NoListeners);
    }
    b.AddListener(o);
    ghost var r := b.Registry();
    assert Audience(p, r) == {o};
    b.UnlockListeners();
    assert b.delivered == [[Delivery(o, p)]] && b.queue == [] by {
      DrainToOne(p, r, o, [], b.delivered);
    }
  }

  /** While the gate is closed, a result is queued even though its listener is registered. */
  method ClosedGateDefers(n: string, o: Observer) returns (b: Braintree)
    requires o.caps.nonce
    ensures b.queue == [PaymentMethodNonce(n)] && b.delivered == []
  {
    b := new Braintree();
    b.AddListener(o);
    b.LockListeners();
    b.OnTokenizeCompleted(Succeeded(n));
  }

  /** Nothing cached at first; a fetch of [x, y] is reported as is, and a later create of z
      puts it in front. */
  method CacheReplaceThenPrepend(x: PaymentMethod, y: PaymentMethod, z: PaymentMethod)
    returns (before: bool, initial: seq<PaymentMethod>, fetched: seq<PaymentMethod>, created: seq<PaymentMethod>)
    ensures !before && initial == []
    ensures fetched == [x, y] && created == [z, x, y]
  {
    var b := new Braintree();
    before := b.HasCachedCards();
    initial := b.GetCachedPaymentMethods();
    b.OnPaymentMethodsFetched(Succeeded([x, y]));
    fetched := b.GetCachedPaymentMethods();
    b.OnCreateCompleted(Succeeded(z));
    created := b.GetCachedPaymentMethods();
  }

  /** Adding an observer twice and removing it once leaves it in none of the sets. */
  method AddTwiceRemoveOnceUnregisters(o: Observer) returns (b: Braintree)
    ensures !Registered(b.Registry(), o) && b.Registry() == NoListeners
  {
    b := new Braintree();
    b.AddListener(o);
    b.AddListener(o);
    b.RemoveListener(o);
    assert b.Registry() == Removed(Added(Added(NoListeners, o), o), o);
    AddTwiceRemoveOnce(NoListeners, o);
    AddRemoveRoundTrip(NoListeners, o);
  }

  /** An instance fetched again by its token still has the listeners registered on it. */
  method ReuseKeepsListeners(o: Observer) returns (b1: Braintree, b2: Braintree)
    ensures b1 == b2 && b2.Registry() == Added(NoListeners, o)
  {
    var registry := new InstanceRegistry();
    b1 := registry.GetInstance("token-x");
    b1.AddListener(o);
    b2 := registry.GetInstance("token-x");
  }

  /** The same token yields the same instance, another token a different one, and after
      reset the first token yields a new instance in the initial state. */
  method InstanceReuse() returns (x1: Braintree, x2: Braintree, y: Braintree, x3: Braintree)
    ensures x1 == x2 && x1 != y && x3 != x1
    ensures x3.Registry() == NoListeners && x3.queue == [] && !x3.locked && x3.cache == None
  {
    var registry := new InstanceRegistry();
    x1 := registry.GetInstance("token-x");
    x2 := registry.GetInstance("token-x");
    y := registry.GetInstance("token-y");
    registry.Reset();
    x3 := registry.GetInstance("token-x");
  }
}
