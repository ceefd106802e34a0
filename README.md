# Braintree client facade: a verified Dafny model

This project models the `Braintree` class of the Braintree Android SDK
(`BraintreeApi/src/main/java/com/braintreepayments/api/Braintree.java`) in Dafny:

- the four listener sets, and how `addListener` and `removeListener` maintain them;
- the delivery gate `mListenersLocked` and the callback queue `mCallbackQueue`:
  `postOrQueueCallback`, `lockListeners`, and the single drain pass of `unlockListeners`;
- the five `post*ToListeners` callbacks, whose `execute()` loops over one listener set;
- what the `run()` bodies of `getPaymentMethodsHelper`, `createHelper` and `tokenizeHelper`
  do once the gateway call has ended, including the payment-method cache;
- the routing in `finishPayWithPayPal`;
- `hasCachedCards`, `getCachedPaymentMethods`, `getInstance` and `reset`.

The facade is a class (`Client.Braintree`) whose fields are the Java fields. The queue is a
`seq`, the gate a `bool`, each listener set a `set<Observer>`, and the cache an
`Option<seq<PaymentMethod>>` (`None` is `null`). Every listener invocation that `execute()`
posts to the main thread is recorded in a ghost log, `delivered`. The log holds one batch per
executed callback, and each batch holds one `(listener, event)` record per posted invocation.

The worker threads are taken out. A job's completion is one call of a method such as
`OnCreateCompleted`, and the result of the gateway call is an input of type `Outcome`:
- `Succeeded`: a returned value;
- `ValidationFailed`: `ErrorWithResponse` was thrown;
- `Failed`: `BraintreeException` was thrown;
- `Escaped`: any other exception was thrown.

Module layout:
- `types.dfy`: the values (payment methods, errors, outcomes, observers, pending callbacks).
- `listeners.dfy`: the four listener sets, as a value, and their registration operations.
- `callbacks.dfy`: the drain pass on values (`Kept`, `Released`), broadcasts (`IsBroadcast`),
  the delivery log (`Delivers`), and the effect of posting under a fixed gate (`Queued`,
  `Executed`, `Posted`).
- `routing.dfy`: which callbacks each completion posts, and the prepend on the cache.
- `client.dfy`: the `Braintree` class.
- `instances.dfy`: the static `sInstances` table.
- `scenarios.dfy`: whole call sequences and the states they end in.

Where the code and its documented intent differ, the model follows the code:
- Each `run()` body catches only `BraintreeException` and `ErrorWithResponse`. Any other
  exception leaves the job through its `Future`, and no listener hears of it. This is the
  outcome `Escaped`, which posts nothing. So "every failure reaches an error listener" holds
  only for the two caught exception types. `Routing.RoutesErrors` states exactly that.
- The comment on `unlockListeners` calls it a no-op when the listeners were never locked.
  The code still makes its pass over the queue. Any callback queued earlier for lack of an
  audience is executed when a listener for it has been added since.
  `Scenarios.LateListenerHearsOnUnlock` shows this, and `UnlockListeners` states the no-op
  only for an empty queue.
- Listeners of one set are served in `HashSet` iteration order, not registration order. The
  order is left open (`IsBroadcast`).

## Model

| member | source | states |
|---|---|---|
| Listeners.Added | BraintreeApi/src/main/java/com/braintreepayments/api/Braintree.java:158-174 | after addListener, a set gains the observer exactly when the observer implements that set's interface; no other set changes; the sets stay well typed |
| Listeners.Removed | BraintreeApi/src/main/java/com/braintreepayments/api/Braintree.java:181-197 | after removeListener, a set loses the observer exactly when the observer implements that set's interface; the observer is then in no set |
| Listeners.AddTwiceRemoveOnce | BraintreeApi/src/main/java/com/braintreepayments/api/Braintree.java:158-197 | adding twice equals adding once; adding twice and removing once leaves the observer unregistered |
| Listeners.RemoveNonMember | BraintreeApi/src/main/java/com/braintreepayments/api/Braintree.java:181-197 | removing an observer that is in no set changes nothing |
| Listeners.AddRemoveRoundTrip | BraintreeApi/src/main/java/com/braintreepayments/api/Braintree.java:158-197 | adding a new observer and removing it again restores the sets |
| Listeners.AddedIsAudience | BraintreeApi/src/main/java/com/braintreepayments/api/Braintree.java:158-174 | once added, an observer is in the audience of a callback kind exactly when it implements that kind's interface, and such a callback then has listeners |
| Listeners.Audience | BraintreeApi/src/main/java/com/braintreepayments/api/Braintree.java:442 | the set each execute() loops over holds only registered observers, and in well-typed sets only observers implementing the callback's interface (line 442 and its counterparts 463, 484, 505, 526) |
| Listeners.HasListeners | BraintreeApi/src/main/java/com/braintreepayments/api/Braintree.java:453-455 | hasListeners() (also 474-476, 495-497, 516-518, 537-539) holds exactly when some observer is in the matching set, and such an observer is then registered and implements the interface |
| Client.Braintree.constructor | BraintreeApi/src/main/java/com/braintreepayments/api/Braintree.java:75-83 | a new instance has empty sets, an empty queue, an open gate, no cache and an empty log |
| Client.Braintree.AddListener | BraintreeApi/src/main/java/com/braintreepayments/api/Braintree.java:158-174 | the new sets are Added(old sets, observer); only the four sets may change |
| Client.Braintree.RemoveListener | BraintreeApi/src/main/java/com/braintreepayments/api/Braintree.java:181-197 | the new sets are Removed(old sets, observer), and the observer is registered nowhere |
| Client.Braintree.Execute | BraintreeApi/src/main/java/com/braintreepayments/api/Braintree.java:441-451 | execute(): one new batch in the log, posting the callback's event once to each member of the matching set as it stands now, in some order; nothing else changes |
| Client.Braintree.PostOrQueueCallback | BraintreeApi/src/main/java/com/braintreepayments/api/Braintree.java:543-549 | with the gate closed or no audience, the callback goes to the tail of the queue and the log is untouched; otherwise the queue is untouched and the callback is executed |
| Client.Braintree.PostPaymentMethodsToListeners | BraintreeApi/src/main/java/com/braintreepayments/api/Braintree.java:437-457 | posts one methods-updated callback with the list, under the gate rule |
| Client.Braintree.PostCreatedMethodToListeners | BraintreeApi/src/main/java/com/braintreepayments/api/Braintree.java:459-478 | posts one method-created callback with the payment method, under the gate rule |
| Client.Braintree.PostCreatedNonceToListeners | BraintreeApi/src/main/java/com/braintreepayments/api/Braintree.java:480-499 | posts one nonce callback with the nonce, under the gate rule |
| Client.Braintree.PostUnrecoverableErrorToListeners | BraintreeApi/src/main/java/com/braintreepayments/api/Braintree.java:501-520 | posts one unrecoverable-error callback with the cause, under the gate rule |
| Client.Braintree.PostRecoverableErrorToListeners | BraintreeApi/src/main/java/com/braintreepayments/api/Braintree.java:522-541 | posts one recoverable-error callback with the error, under the gate rule |
| Client.Braintree.OnPaymentMethodsFetched | BraintreeApi/src/main/java/com/braintreepayments/api/Braintree.java:218-228 | a fetched list replaces the cache wholesale; a failure leaves the cache as it was; the callbacks posted are FetchActions(outcome) |
| Client.Braintree.OnCreateCompleted | BraintreeApi/src/main/java/com/braintreepayments/api/Braintree.java:326-341 | a created method is put in front of the cache, which is allocated first if absent; a failure leaves the cache as it was; posting is the same as posting CreateActions(outcome) in order |
| Client.Braintree.OnTokenizeCompleted | BraintreeApi/src/main/java/com/braintreepayments/api/Braintree.java:374-383 | posts TokenizeActions(outcome); the cache cannot change |
| Client.Braintree.FinishPayWithPayPal | BraintreeApi/src/main/java/com/braintreepayments/api/Braintree.java:282-292 | a builder is handed on to create and nothing is posted; a null builder does nothing; a ConfigurationException is posted once as unrecoverable |
| Client.Braintree.HasCachedCards | BraintreeApi/src/main/java/com/braintreepayments/api/Braintree.java:556-558 | true exactly when a list has been cached, even an empty one |
| Client.Braintree.GetCachedPaymentMethods | BraintreeApi/src/main/java/com/braintreepayments/api/Braintree.java:564-569 | the cached list, or the empty list while nothing is cached |
| Client.Braintree.LockListeners | BraintreeApi/src/main/java/com/braintreepayments/api/Braintree.java:581-583 | the gate is closed; the queue, the sets, the cache and the log cannot change |
| Client.Braintree.UnlockListeners | BraintreeApi/src/main/java/com/braintreepayments/api/Braintree.java:590-600 | the gate is open; the queue becomes Kept(old queue), whose callbacks all lack an audience; the log grows by the deliveries of Released(old queue), in FIFO order; with an empty queue nothing but the gate changes |
| Client.Braintree.Release | BraintreeApi/src/main/java/com/braintreepayments/api/Braintree.java:595-597 | one step of that loop: the callback at the live position is executed and then removed there, the rest of the queue keeps its order, and the log grows by exactly its broadcast |
| Client.Braintree.Drain | BraintreeApi/src/main/java/com/braintreepayments/api/Braintree.java:592-599 | the for loop over the snapshot: executes and removes each callback that has an audience when it is visited, and keeps the others in place |
| Callbacks.DrainSelects | BraintreeApi/src/main/java/com/braintreepayments/api/Braintree.java:594-598 | a callback is kept exactly when it is queued without an audience, and executed exactly when it is queued with one; the two counts add up to the queue's length |
| Callbacks.KeptAppend | BraintreeApi/src/main/java/com/braintreepayments/api/Braintree.java:594-598 | what a drain pass keeps from a concatenation is what it keeps from each part, in order |
| Callbacks.ReleasedAppend | BraintreeApi/src/main/java/com/braintreepayments/api/Braintree.java:594-598 | what a drain pass executes from a concatenation is what it executes from each part, in order |
| Callbacks.DrainStep | BraintreeApi/src/main/java/com/braintreepayments/api/Braintree.java:594-598 | visiting one more callback adds it to the executed ones when it has an audience, and to the kept ones otherwise |
| Callbacks.DrainPosition | BraintreeApi/src/main/java/com/braintreepayments/api/Braintree.java:597 | in the live queue, the visited callback sits just past the kept ones, and removing it leaves the kept ones followed by the unvisited rest |
| Callbacks.DrainSplitsQueue | BraintreeApi/src/main/java/com/braintreepayments/api/Braintree.java:590-600 | the queue is an order-preserving interleaving of the kept and the executed callbacks: FIFO for both, and the survivors keep their relative order |
| Callbacks.MergeMultiset | BraintreeApi/src/main/java/com/braintreepayments/api/Braintree.java:590-600 | an interleaving accounts for each element exactly once |
| Callbacks.NoLossNoDuplicate | BraintreeApi/src/main/java/com/braintreepayments/api/Braintree.java:590-600 | every queued callback is either kept or executed, never both and never lost (multiset equality) |
| Callbacks.DrainIdempotent | BraintreeApi/src/main/java/com/braintreepayments/api/Braintree.java:590-600 | with the sets unchanged, a second pass executes nothing and keeps everything |
| Callbacks.BroadcastAppend | BraintreeApi/src/main/java/com/braintreepayments/api/Braintree.java:441-451 | serving one more listener of the set, not yet served, extends a broadcast |
| Callbacks.BroadcastToOne | BraintreeApi/src/main/java/com/braintreepayments/api/Braintree.java:441-451 | with a single listener, a broadcast is exactly one invocation of it |
| Callbacks.BroadcastCount | BraintreeApi/src/main/java/com/braintreepayments/api/Braintree.java:441-451 | a broadcast posts its event exactly once to each member of the audience, and nothing else |
| Callbacks.DeliversExtends | BraintreeApi/src/main/java/com/braintreepayments/api/Braintree.java:443-448 | executing callbacks only appends to the log: the old log is a prefix, with one batch per callback |
| Callbacks.DeliversOne | BraintreeApi/src/main/java/com/braintreepayments/api/Braintree.java:441-451 | one broadcast appended is the log of executing that one callback |
| Callbacks.DeliversThen | BraintreeApi/src/main/java/com/braintreepayments/api/Braintree.java:594-598 | logs of executions one after the other compose into the log of the concatenation |
| Callbacks.DeliversStep | BraintreeApi/src/main/java/com/braintreepayments/api/Braintree.java:595-596 | one more executed callback extends the log of those executed before it |
| Callbacks.DrainToOne | BraintreeApi/src/main/java/com/braintreepayments/api/Braintree.java:590-600 | draining a single queued callback with a single listener delivers exactly one record to it and keeps nothing |
| Callbacks.OccurrencesAppend | BraintreeApi/src/main/java/com/braintreepayments/api/Braintree.java:443-448 | delivery counts add up over a concatenated log |
| Callbacks.DeliveryCount | BraintreeApi/src/main/java/com/braintreepayments/api/Braintree.java:437-456 | no double delivery: after executing a sequence of callbacks, each listener has received each event exactly as many times as it was executed while the listener was in its audience, and no other time |
| Callbacks.PostedOne | BraintreeApi/src/main/java/com/braintreepayments/api/Braintree.java:543-549 | the gate rule on values: queued and not executed exactly when the gate is closed or there is no audience |
| Callbacks.PostedAppend | BraintreeApi/src/main/java/com/braintreepayments/api/Braintree.java:543-549 | posting two sequences one after the other queues and executes what posting their concatenation does |
| Callbacks.PostedThen | BraintreeApi/src/main/java/com/braintreepayments/api/Braintree.java:543-549 | two postings in a row, under the same gate and sets, are one posting of both, in order |
| Callbacks.PostedNoLoss | BraintreeApi/src/main/java/com/braintreepayments/api/Braintree.java:543-549 | every posted callback is either queued or executed, exactly once |
| Routing.FetchActions | BraintreeApi/src/main/java/com/braintreepayments/api/Braintree.java:218-228 | a fetched list posts exactly one methods-updated callback with it; a validation error exactly one recoverable error; a BraintreeException exactly one unrecoverable error; never both error kinds; an uncaught exception nothing |
| Routing.CreateActions | BraintreeApi/src/main/java/com/braintreepayments/api/Braintree.java:326-341 | a created method posts its created callback, then its nonce, in that order; the error cases route as for fetch |
| Routing.TokenizeActions | BraintreeApi/src/main/java/com/braintreepayments/api/Braintree.java:374-383 | a nonce posts only that nonce; the error cases route as for fetch |
| Routing.PayPalActions | BraintreeApi/src/main/java/com/braintreepayments/api/Braintree.java:282-292 | a ConfigurationException posts exactly one unrecoverable error carrying it; a builder or null posts nothing; nothing goes to the recoverable path |
| Routing.CachedOrEmpty | BraintreeApi/src/main/java/com/braintreepayments/api/Braintree.java:565-568 | while a list is cached it is reported as is; while nothing is cached the report is the empty list |
| Routing.Prepended | BraintreeApi/src/main/java/com/braintreepayments/api/Braintree.java:329-332 | the new cache is set, begins with the created method, and continues with the old list (empty when absent) |
| Instances.InstanceRegistry.constructor | BraintreeApi/src/main/java/com/braintreepayments/api/Braintree.java:28 | the instance table starts empty |
| Instances.InstanceRegistry.GetInstance | BraintreeApi/src/main/java/com/braintreepayments/api/Braintree.java:89-97 | a stored token returns its instance and the table is unchanged; every stored instance, and the returned one, is well formed; a new token stores and returns a fresh instance in the initial state; afterwards the token maps to the returned instance |
| Instances.InstanceRegistry.Reset | BraintreeApi/src/main/java/com/braintreepayments/api/Braintree.java:113-115 | the table is empty |
| Scenarios.LateListenerHearsOnUnlock | BraintreeApi/src/main/java/com/braintreepayments/api/Braintree.java:590-600 | a nonce produced with no nonce listener is queued, and is delivered exactly once to a listener added later, by the next unlock, even though the gate never closed |
| Scenarios.GateReplaysToLateListener | BraintreeApi/src/main/java/com/braintreepayments/api/Braintree.java:581-600 | a nonce produced behind the closed gate is delivered exactly once, on unlock, to the listener registered before it |
| Scenarios.ClosedGateDefers | BraintreeApi/src/main/java/com/braintreepayments/api/Braintree.java:543-549 | while the gate is closed, a result is queued even though its listener is registered, and nothing is delivered |
| Scenarios.CacheReplaceThenPrepend | BraintreeApi/src/main/java/com/braintreepayments/api/Braintree.java:556-569 | before anything is cached, hasCachedCards is false and the list is empty; after a fetch of [x, y] the list is [x, y]; after a create of z it is [z, x, y] |
| Scenarios.AddTwiceRemoveOnceUnregisters | BraintreeApi/src/main/java/com/braintreepayments/api/Braintree.java:158-197 | on a new instance, adding an observer twice and removing it once leaves it in no set, and all sets empty |
| Scenarios.ReuseKeepsListeners | BraintreeApi/src/main/java/com/braintreepayments/api/Braintree.java:89-97 | an instance fetched again by its token is the same object, with the listener added to it still registered |
| Scenarios.InstanceReuse | BraintreeApi/src/main/java/com/braintreepayments/api/Braintree.java:89-115 | the same token yields the same instance; another token yields a different one; after reset the first token yields a new instance in the initial state |

## Left out

- The `ExecutorService` and the `Future` returned by the `*Helper` methods: each job's
  completion is one sequential method call. Serial execution order is the order of those calls.
- `synchronized`: the model is single-threaded. The synchronized methods are atomic in the
  source, and the model makes every other method atomic as well.
- Interleaving inside the `run()` bodies: the bodies of `getPaymentMethodsHelper`,
  `createHelper` and `tokenizeHelper` (lines 218-228, 326-341 and 374-383) are not
  synchronized. Only the `post*ToListeners` calls they make take the monitor, and the model
  runs each body as one atomic call. Two behaviours of the source are therefore not
  captured:
  - the unsynchronized cache writes at lines 221 and 329-332 can race with
    `hasCachedCards` and `getCachedPaymentMethods`;
  - a `lockListeners`, `addListener` or `removeListener` can run between the two posts at
    lines 334 and 335, so the created callback may be executed while the nonce callback is
    queued, or the two may reach different listener sets.

  `OnCreateCompleted` states `PostedAll(CreateActions(o))`, one gate and one registry for
  both posts. That holds only because of this atomicity.
- `Handler` and `Looper`: a posted invocation is a record in the ghost log. The listener is
  not actually called on the main thread.
- The `BraintreeApi` calls (`getPaymentMethods`, `create`, `tokenize` and
  `handlePayPalResponse`) are foreign calls. Their results are the `Outcome` and
  `PayPalResponse` inputs.
- The public `getPaymentMethods`, `create`, `tokenize` and `startPayWithPayPal` only submit
  a job or start an activity. What their jobs do on completion is modelled instead.
- `sendAnalyticsEvent`, `collectDeviceData`, `isPayPalEnabled`, `isCvvChallenegePresent` and
  `isPostalCodeChallengePresent` only forward to foreign code and never touch the modelled
  state.
- `HashSet` iteration order: a broadcast may serve the listeners in any order
  (`IsBroadcast`). Delivery counts are stated per listener and event (`DeliveryCount`,
  `BroadcastCount`).
- Aliasing of the cached `List`: the code caches the very list a fetch returned and hands it
  to the listeners. A later create's `add(0, …)` therefore also changes a list still waiting
  in the queue, and any view obtained earlier from `getCachedPaymentMethods`. The model uses
  immutable sequences: a queued callback carries the list as it was fetched.
- `mCallbackQueue.remove(callback)` removes by object identity, and every posted callback is
  a new anonymous object. The model removes the visited callback at its position, so two
  equal pending values are still two callbacks.
- `finishPayWithPayPal(int, Intent)` (lines 255-264) is the same as the `Activity` overload
  with a null activity. The activity is an argument of the foreign call only, so one method
  models both.
- `Collections.unmodifiableList`: `seq` values are already immutable.
- Exceptions other than `ConfigurationException` thrown by `handlePayPalResponse` leave
  `finishPayWithPayPal` for its caller. The model's `PayPalResponse` has no such case, so
  `FinishPayWithPayPal` does not model that exit.
- The Android `Activity`, `Intent` and `Context` types, and the `Context` and client-token
  arguments to the constructor.
- Observer identity: an observer is a value (`id` plus the interfaces it implements), so two
  Java objects that compare equal are the same observer.
