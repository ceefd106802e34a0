/**
 * The Braintree facade with its threads taken out: the listener sets, the gate and
 * callback queue, the payment-method cache, and the completion of each submitted job
 * as one sequential call. What execute() hands to the main thread is recorded in a
 * ghost log, one batch of deliveries per executed callback.
 */
module Client {
  import opened Types
  import opened Listeners
  import opened Callbacks
  import opened Routing

  class Braintree {
    /** mCallbackQueue */
    var queue: seq<Pending>
    /** mListenersLocked */
    var locked: bool
    /** mUpdatedListeners, mCreatedListeners, mNonceListeners, mErrorListeners */
    var updated: set<Observer>
    var created: set<Observer>
    var nonce: set<Observer>
    var errors: set<Observer>
    /** mCachedPaymentMethods; None is null */
    var cache: Option<seq<PaymentMethod>>
    /** Every listener invocation posted to the main thread, one batch per executed callback. */
    ghost var delivered: seq<seq<Delivery>>

    function Registry(): ListenerSets
      reads this`updated, this`created, this`nonce, this`errors
    {
      ListenerSets(updated, created, nonce, errors)
    }

    ghost predicate Valid()
      reads this`updated, this`created, this`nonce, this`errors
    {
      WellTyped(Registry())
    }

    /** A new instance: no listeners, nothing queued, the gate open, nothing cached. */
    constructor ()
      ensures Valid()
      ensures Registry() == NoListeners && queue == [] && !locked && cache == None
      ensures delivered == []
    {
      queue := [];
      locked := false;
      updated, created, nonce, errors := {}, {}, {}, {};
      cache := None;
      delivered := [];
    }

    /** addListener: the observer joins every set whose interface it implements. */
    method AddListener(o: Observer)
      requires Valid()
      modifies this`updated, this`created, this`nonce, this`errors
      ensures Valid()
      ensures Registry() == Added(old(Registry()), o)
    {
      if o.caps.updated {
        updated := updated + {o};
      }
      if o.caps.created {
        created := created + {o};
      }
      if o.caps.nonce {
        nonce := nonce + {o};
      }
      if o.caps.error {
        errors := errors + {o};
      }
    }

    /** removeListener: the observer leaves every set whose interface it implements. */
    method RemoveListener(o: Observer)
      requires Valid()
      modifies this`updated, this`created, this`nonce, this`errors
      ensures Valid()
      ensures Registry() == Removed(old(Registry()), o)
      ensures !Registered(Registry(), o)
    {
      if o.caps.updated {
        updated := updated - {o};
      }
      if o.caps.created {
        created := created - {o};
      }
      if o.caps.nonce {
        nonce := nonce - {o};
      }
      if o.caps.error {
        errors := errors - {o};
      }
    }

    /** ListenerCallback.execute(): post the event once to each member of the matching set,
        in the set's (unspecified) iteration order. */
    method Execute(p: Pending)
      modifies this`delivered
      ensures Delivers(old(delivered), delivered, [p], Registry())
    {
      var audience := Audience(p, Registry());
      var rest := audience;
      ghost var batch: seq<Delivery> := [];
      while rest != {}
        invariant rest <= audience
        invariant delivered == old(delivered)
        invariant IsBroadcast(batch, p, audience - rest)
        decreases rest
      {
        var listener :| listener in rest;
        BroadcastAppend(batch, p, audience - rest, listener);
        batch := batch + [Delivery(listener, p)];
        assert audience - (rest - {listener}) == audience - rest + {listener};
        rest := rest - {listener};
      }
      assert audience - rest == audience;
      DeliversOne(delivered, batch, p, Registry());
      delivered := delivered + [batch];
    }

    /** The queue and log after posting `ps` one after the other, as postOrQueueCallback
        treats each of them under the current gate and listener sets. */
    twostate predicate PostedAll(ps: seq<Pending>)
      reads this
    {
      Posted(locked, ps, Registry(), old(queue), queue, old(delivered), delivered)
    }

    /** postOrQueueCallback: queue the callback when the gate is locked or nobody would hear
        it; otherwise execute it now. */
    method PostOrQueueCallback(p: Pending)
      modifies this`queue, this`delivered
      ensures locked || !HasListeners(p, Registry()) ==> queue == old(queue) + [p] && delivered == old(delivered)
      ensures !locked && HasListeners(p, Registry()) ==> queue == old(queue) && Delivers(old(delivered), delivered, [p], Registry())
      ensures PostedAll([p])
    {
      if locked || !HasListeners(p, Registry()) {
        queue := queue + [p];
      } else {
        Execute(p);
      }
      PostedOne(locked, p, Registry());
      if !locked && HasListeners(p, Registry()) {
        assert queue == old(queue) + [];
      }
    }

    /** postPaymentMethodsToListeners */
    method PostPaymentMethodsToListeners(methods: seq<PaymentMethod>)
      modifies this`queue, this`delivered
      ensures PostedAll([PaymentMethodsUpdated(methods)])
    {
      PostOrQueueCallback(PaymentMethodsUpdated(methods));
    }

    /** postCreatedMethodToListeners */
    method PostCreatedMethodToListeners(m: PaymentMethod)
      modifies this`queue, this`delivered
      ensures PostedAll([PaymentMethodCreated(m)])
    {
      PostOrQueueCallback(PaymentMethodCreated(m));
    }

    /** postCreatedNonceToListeners */
    method PostCreatedNonceToListeners(n: string)
      modifies this`queue, this`delivered
      ensures PostedAll([PaymentMethodNonce(n)])
    {
      PostOrQueueCallback(PaymentMethodNonce(n));
    }

    /** postUnrecoverableErrorToListeners */
    method PostUnrecoverableErrorToListeners(t: Throwable)
      modifies this`queue, this`delivered
      ensures PostedAll([UnrecoverableError(t)])
    {
      PostOrQueueCallback(UnrecoverableError(t));
    }

    /** postRecoverableErrorToListeners */
    method PostRecoverableErrorToListeners(e: ErrorWithResponse)
      modifies this`queue, this`delivered
      ensures PostedAll([RecoverableError(e)])
    {
      PostOrQueueCallback(RecoverableError(e));
    }

    /** The run() body of getPaymentMethodsHelper, once the gateway call has ended with `o`. */
    method OnPaymentMethodsFetched(o: Outcome<seq<PaymentMethod>>)
      modifies this`cache, this`queue, this`delivered
      ensures cache == if o.Succeeded? then Some(o.value) else old(cache)
      ensures PostedAll(FetchActions(o))
    {
      match o {
        case Succeeded(methods) =>
          cache := Some(methods);
          PostPaymentMethodsToListeners(methods);
        case Failed(t) =>
          PostUnrecoverableErrorToListeners(t);
        case ValidationFailed(e) =>
          PostRecoverableErrorToListeners(e);
        case Escaped =>
          // neither catch clause applies: nothing is posted
      }
    }

    /** The run() body of createHelper, once the gateway call has ended with `o`. */
    method OnCreateCompleted(o: Outcome<PaymentMethod>)
      modifies this`cache, this`queue, this`delivered
      ensures cache == if o.Succeeded? then Prepended(old(cache), o.value) else old(cache)
      ensures PostedAll(CreateActions(o))
    {
      match o {
        case Succeeded(m) =>
          if cache.None? {
            cache := Some([]);
          }
          cache := Some([m] + cache.value);
          ghost var q0, d0 := queue, delivered;
          PostCreatedMethodToListeners(m);
          ghost var q1, d1 := queue, delivered;
          PostCreatedNonceToListeners(m.nonce);
          PostedThen(locked, [PaymentMethodCreated(m)], [PaymentMethodNonce(m.nonce)], Registry(),
                     q0, q1, queue, d0, d1, delivered);
          assert [PaymentMethodCreated(m)] + [PaymentMethodNonce(m.nonce)] == CreateActions(o);
        case Failed(t) =>
          PostUnrecoverableErrorToListeners(t);
        case ValidationFailed(e) =>
          PostRecoverableErrorToListeners(e);
        case Escaped =>
          // neither catch clause applies: nothing is posted
      }
    }

    /** The run() body of tokenizeHelper, once the gateway call has ended with `o`. */
    method OnTokenizeCompleted(o: Outcome<string>)
      modifies this`queue, this`delivered
      ensures PostedAll(TokenizeActions(o))
    {
      match o {
        case Succeeded(n) =>
          PostCreatedNonceToListeners(n);
        case Failed(t) =>
          PostUnrecoverableErrorToListeners(t);
        case ValidationFailed(e) =>
          PostRecoverableErrorToListeners(e);
        case Escaped =>
          // neither catch clause applies: nothing is posted
      }
    }

    /** finishPayWithPayPal, once handlePayPalResponse has produced `response`: a builder is
        handed to create (whose completion is OnCreateCompleted), a ConfigurationException
        is posted as unrecoverable, and a null builder does nothing. */
    method FinishPayWithPayPal(response: PayPalResponse) returns (submitted: Option<PayPalAccountBuilder>)
      modifies this`queue, this`delivered
      ensures submitted == if response.Approved? then Some(response.builder) else None
      ensures PostedAll(PayPalActions(response))
    {
      submitted := None;
      match response {
        case Approved(builder) =>
          submitted := Some(builder);
        case NoAccount =>
          // a null builder: nothing is submitted or posted
        case Misconfigured(message) =>
          PostUnrecoverableErrorToListeners(ConfigurationException(message));
      }
    }

    /** hasCachedCards: a list has been cached, even an empty one. */
    method HasCachedCards() returns (b: bool)
      ensures b <==> cache.Some?
    {
      b := cache.Some?;
    }

    /** getCachedPaymentMethods: the cached list, or an empty one before anything was cached. */
    method GetCachedPaymentMethods() returns (methods: seq<PaymentMethod>)
      ensures cache.None? ==> methods == []
      ensures cache.Some? ==> methods == cache.value
    {
      if cache.None? {
        methods := [];
      } else {
        methods := cache.value;
      }
    }

    /** lockListeners: close the gate and nothing else. */
    method LockListeners()
      modifies this`locked
      ensures locked
    {
      locked := true;
    }

    /** unlockListeners: open the gate, then one pass over a snapshot of the queue that
        executes and removes every callback that now has an audience and keeps the rest. */
    method UnlockListeners()
      modifies this`locked, this`queue, this`delivered
      ensures !locked
      ensures queue == Kept(old(queue), Registry())
      ensures Delivers(old(delivered), delivered, Released(old(queue), Registry()), Registry())
      ensures forall p :: p in queue ==> !HasListeners(p, Registry())
      ensures old(queue) == [] ==> queue == [] && delivered == old(delivered)
    {
      locked := false;
      ghost var snapshot := queue;
      Drain();
      DrainSelects(snapshot, Registry());
    }

    /** The loop of unlockListeners over its copy of the queue. */
    method Drain()
      modifies this`queue, this`delivered
      ensures queue == Kept(old(queue), Registry())
      ensures Delivers(old(delivered), delivered, Released(old(queue), Registry()), Registry())
    {
      var snapshot := queue;
      ghost var r := Registry();
      ghost var kept: seq<Pending> := [];
      ghost var released: seq<Pending> := [];
      var k := 0;
      assert snapshot[..0] == [];
      for i := 0 to |snapshot|
        invariant kept == Kept(snapshot[..i], r) && released == Released(snapshot[..i], r)
        invariant k == |kept| && queue == kept + snapshot[i..]
        invariant Delivers(old(delivered), delivered, released, r)
      {
        var callback := snapshot[i];
        DrainStep(snapshot, i, r);
        DrainPosition(kept, snapshot, i);
        if HasListeners(callback, Registry()) {
          Release(k, old(delivered), released);
          released := released + [callback];
        } else {
          k := k + 1;
          kept := kept + [callback];
        }
      }
      assert snapshot[..|snapshot|] == snapshot && snapshot[|snapshot|..] == [];
    }

    /** One step of the loop of unlockListeners: execute the callback at position `k` of the
        live queue, then remove it there; the log of `released` grows by its broadcast. */
    method Release(k: nat, ghost d0: seq<seq<Delivery>>, ghost released: seq<Pending>)
      requires k < |queue|
      requires Delivers(d0, delivered, released, Registry())
      modifies this`queue, this`delivered
      ensures queue == old(queue[..k] + queue[k + 1..])
      ensures |delivered| == |old(delivered)| + 1 && delivered[..|old(delivered)|] == old(delivered)
      ensures IsBroadcast(delivered[|old(delivered)|], old(queue[k]), Audience(old(queue[k]), Registry()))
      ensures Delivers(d0, delivered, released + [old(queue[k])], Registry())
    {
      var callback := queue[k];
      ghost var before := delivered;
      Execute(callback);
      DeliversExtends(before, delivered, [callback], Registry());
      DeliversStep(d0, before, delivered, released, callback, Registry());
      queue := queue[..k] + queue[k + 1..];
    }
  }
}
