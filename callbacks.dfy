/**
 * The callback queue and the delivery log: which queued callbacks a drain pass
 * executes and which it keeps, and what executing callbacks hands to the main thread.
 */
module Callbacks {
  import opened Types
  import opened Listeners

  /** The callbacks of `q` that a drain pass keeps: those with no audience, in queue order. */
  function Kept(q: seq<Pending>, r: ListenerSets): seq<Pending> {
    if q == [] then []
    else (if HasListeners(q[0], r) then [] else [q[0]]) + Kept(q[1..], r)
  }

  /** The callbacks of `q` that a drain pass executes: those with an audience, in queue order. */
  function Released(q: seq<Pending>, r: ListenerSets): seq<Pending> {
    if q == [] then []
    else (if HasListeners(q[0], r) then [q[0]] else []) + Released(q[1..], r)
  }

  /** A drain pass keeps exactly the queued callbacks that have no audience, and executes
      exactly the queued callbacks that have one. */
  lemma {:induction false} DrainSelects(q: seq<Pending>, r: ListenerSets)
    ensures |Kept(q, r)| + |Released(q, r)| == |q|
    ensures forall p :: p in Kept(q, r) <==> p in q && !HasListeners(p, r)
    ensures forall p :: p in Released(q, r) <==> p in q && HasListeners(p, r)
    decreases |q|
  {
    if q != [] {
      DrainSelects(q[1..], r);
      assert q == [q[0]] + q[1..];
    }
  }

  lemma {:induction false} KeptAppend(a: seq<Pending>, b: seq<Pending>, r: ListenerSets)
    ensures Kept(a + b, r) == Kept(a, r) + Kept(b, r)
  {
    if a != [] {
      assert (a + b)[1..] == a[1..] + b;
      KeptAppend(a[1..], b, r);
    } else {
      assert a + b == b;
    }
  }

  lemma {:induction false} ReleasedAppend(a: seq<Pending>, b: seq<Pending>, r: ListenerSets)
    ensures Released(a + b, r) == Released(a, r) + Released(b, r)
  {
    if a != [] {
      assert (a + b)[1..] == a[1..] + b;
      ReleasedAppend(a[1..], b, r);
    } else {
      assert a + b == b;
    }
  }

  /** One more step of the drain pass over `s`: its i-th callback is either executed or kept. */
  lemma DrainStep(s: seq<Pending>, i: nat, r: ListenerSets)
    requires i < |s|
    ensures HasListeners(s[i], r) ==>
      Kept(s[..i + 1], r) == Kept(s[..i], r) && Released(s[..i + 1], r) == Released(s[..i], r) + [s[i]]
    ensures !HasListeners(s[i], r) ==>
      Kept(s[..i + 1], r) == Kept(s[..i], r) + [s[i]] && Released(s[..i + 1], r) == Released(s[..i], r)
  {
    assert s[..i + 1] == s[..i] + [s[i]];
    assert [s[i]][1..] == [];
    KeptAppend(s[..i], [s[i]], r);
    ReleasedAppend(s[..i], [s[i]], r);
  }

  /** The live queue during the drain holds the kept callbacks followed by the unvisited
      rest of the snapshot `s`; the one at the drain's position is removed or stepped over. */
  lemma DrainPosition(kept: seq<Pending>, s: seq<Pending>, i: nat)
    requires i < |s|
    ensures var q := kept + s[i..];
      && |kept| < |q| && q[|kept|] == s[i]
      && q[..|kept|] + q[|kept| + 1..] == kept + s[i + 1..]
      && q == (kept + [s[i]]) + s[i + 1..]
  {
    var q := kept + s[i..];
    assert q[..|kept|] == kept;
    assert q[|kept| + 1..] == s[i + 1..];
    assert s[i..] == [s[i]] + s[i + 1..];
  }

  /** `q` is an order-preserving interleaving of `a` and `b`: every element of `q`
      goes to exactly one of them, and each keeps the order it had in `q`. */
  ghost predicate IsMerge(q: seq<Pending>, a: seq<Pending>, b: seq<Pending>)
    decreases |q|
  {
    if q == [] then a == [] && b == []
    else
      || (a != [] && a[0] == q[0] && IsMerge(q[1..], a[1..], b))
      || (b != [] && b[0] == q[0] && IsMerge(q[1..], a, b[1..]))
  }

  /** A drain pass splits the queue into the executed and the kept callbacks without losing,
      duplicating or reordering any of them. */
  lemma {:induction false} DrainSplitsQueue(q: seq<Pending>, r: ListenerSets)
    ensures IsMerge(q, Kept(q, r), Released(q, r))
  {
    if q != [] {
      DrainSplitsQueue(q[1..], r);
      if HasListeners(q[0], r) {
        assert Released(q, r) == [q[0]] + Released(q[1..], r);
        assert Released(q, r)[1..] == Released(q[1..], r);
        assert Kept(q, r) == Kept(q[1..], r);
      } else {
        assert Kept(q, r) == [q[0]] + Kept(q[1..], r);
        assert Kept(q, r)[1..] == Kept(q[1..], r);
        assert Released(q, r) == Released(q[1..], r);
      }
    }
  }

  /** An interleaving accounts for every element exactly once. */
  lemma {:induction false} MergeMultiset(q: seq<Pending>, a: seq<Pending>, b: seq<Pending>)
    requires IsMerge(q, a, b)
    ensures multiset(q) == multiset(a) + multiset(b)
    decreases |q|
  {
    if q != [] {
      assert q == [q[0]] + q[1..];
      if a != [] && a[0] == q[0] && IsMerge(q[1..], a[1..], b) {
        MergeMultiset(q[1..], a[1..], b);
        assert a == [a[0]] + a[1..];
      } else {
        MergeMultiset(q[1..], a, b[1..]);
        assert b == [b[0]] + b[1..];
      }
    }
  }

  /** No loss, no duplication: every queued callback is either kept or executed, never both. */
  lemma NoLossNoDuplicate(q: seq<Pending>, r: ListenerSets)
    ensures multiset(q) == multiset(Kept(q, r)) + multiset(Released(q, r))
  {
    DrainSplitsQueue(q, r);
    MergeMultiset(q, Kept(q, r), Released(q, r));
  }

  /** With the listener sets unchanged, a second drain pass executes nothing and keeps everything. */
  lemma {:induction false} DrainIdempotent(q: seq<Pending>, r: ListenerSets)
    ensures Released(Kept(q, r), r) == []
    ensures Kept(Kept(q, r), r) == Kept(q, r)
  {
    if q != [] {
      DrainIdempotent(q[1..], r);
      var head := if HasListeners(q[0], r) then [] else [q[0]];
      KeptAppend(head, Kept(q[1..], r), r);
      ReleasedAppend(head, Kept(q[1..], r), r);
    }
  }

  /** `batch` is what one execution of `p` hands to the main thread while it iterates over
      `audience`: the event goes to some member not yet served, then the rest of the batch
      serves the others. The order is left open (a HashSet's iteration order is unspecified). */
  ghost predicate IsBroadcast(batch: seq<Delivery>, p: Pending, audience: set<Observer>)
    decreases |batch|
  {
    if batch == [] then audience == {}
    else
      && batch[0].event == p
      && batch[0].listener in audience
      && IsBroadcast(batch[1..], p, audience - {batch[0].listener})
  }

  /** Serving one more listener at the end of the iteration. */
  lemma {:induction false} BroadcastAppend(batch: seq<Delivery>, p: Pending, served: set<Observer>, o: Observer)
    requires IsBroadcast(batch, p, served) && o !in served
    ensures IsBroadcast(batch + [Delivery(o, p)], p, served + {o})
    decreases |batch|
  {
    var b := batch + [Delivery(o, p)];
    if batch == [] {
      assert b[1..] == [];
      assert served + {o} - {o} == {};
    } else {
      var l := batch[0].listener;
      BroadcastAppend(batch[1..], p, served - {l}, o);
      assert b[1..] == batch[1..] + [Delivery(o, p)];
      assert served - {l} + {o} == served + {o} - {l};
    }
  }

  /** A callback with a single listener is one invocation of that listener. */
  lemma BroadcastToOne(batch: seq<Delivery>, p: Pending, o: Observer)
    requires IsBroadcast(batch, p, {o})
    ensures batch == [Delivery(o, p)]
  {
  }

  /** Listener `o` receives `q` in a broadcast of `p` to `audience` exactly once if `q` is `p`
      and `o` is in the audience, and otherwise never. */
  lemma {:induction false} BroadcastCount(batch: seq<Delivery>, p: Pending, audience: set<Observer>,
                                          o: Observer, q: Pending)
    requires IsBroadcast(batch, p, audience)
    ensures multiset(batch)[Delivery(o, q)] == if q == p && o in audience then 1 else 0
    decreases |batch|
  {
    if batch != [] {
      BroadcastCount(batch[1..], p, audience - {batch[0].listener}, o, q);
      assert batch == [batch[0]] + batch[1..];
    }
  }

  /** The log `after` is `before` followed by one batch per callback of `ps`, in order,
      each going to that callback's audience in `r`. */
  ghost predicate Delivers(before: seq<seq<Delivery>>, after: seq<seq<Delivery>>,
                           ps: seq<Pending>, r: ListenerSets)
    decreases |ps|
  {
    if ps == [] then after == before
    else
      var p := ps[|ps| - 1];
      && after != []
      && IsBroadcast(after[|after| - 1], p, Audience(p, r))
      && Delivers(before, after[..|after| - 1], ps[..|ps| - 1], r)
  }

  /** The log only grows: the old log is a prefix, with one batch per callback after it. */
  lemma {:induction false} DeliversExtends(before: seq<seq<Delivery>>, after: seq<seq<Delivery>>,
                                           ps: seq<Pending>, r: ListenerSets)
    requires Delivers(before, after, ps, r)
    ensures |after| == |before| + |ps| && after[..|before|] == before
    decreases |ps|
  {
    if ps == [] {
      assert after[..|before|] == after;
    } else {
      var n := |after| - 1;
      DeliversExtends(before, after[..n], ps[..|ps| - 1], r);
      assert after[..|before|] == after[..n][..|before|];
    }
  }

  /** One broadcast appended to the log is the execution of that one callback. */
  lemma DeliversOne(d: seq<seq<Delivery>>, batch: seq<Delivery>, p: Pending, r: ListenerSets)
    requires IsBroadcast(batch, p, Audience(p, r))
    ensures Delivers(d, d + [batch], [p], r)
  {
  }

  /** Executions recorded one after the other compose. */
  lemma {:induction false} DeliversThen(d0: seq<seq<Delivery>>, d1: seq<seq<Delivery>>, d2: seq<seq<Delivery>>,
                                        ps1: seq<Pending>, ps2: seq<Pending>, r: ListenerSets)
    requires Delivers(d0, d1, ps1, r) && Delivers(d1, d2, ps2, r)
    ensures Delivers(d0, d2, ps1 + ps2, r)
    decreases |ps2|
  {
    if ps2 == [] {
      assert ps1 + ps2 == ps1;
    } else {
      var ps := ps1 + ps2;
      var init := ps2[..|ps2| - 1];
      DeliversThen(d0, d1, d2[..|d2| - 1], ps1, init, r);
      assert ps[..|ps| - 1] == ps1 + init;
      assert ps[|ps| - 1] == ps2[|ps2| - 1];
    }
  }

  /** Draining a one-callback queue whose callback has exactly one listener. */
  lemma DrainToOne(p: Pending, r: ListenerSets, o: Observer, d0: seq<seq<Delivery>>, d: seq<seq<Delivery>>)
    requires Audience(p, r) == {o}
    ensures Kept([p], r) == []
    ensures Delivers(d0, d, Released([p], r), r) ==> d == d0 + [[Delivery(o, p)]]
  {
    assert [p][1..] == [];
    assert Released([p], r) == [p];
    if Delivers(d0, d, [p], r) {
      DeliversExtends(d0, d, [p], r);
      BroadcastToOne(d[|d| - 1], p, o);
      assert d == d[..|d| - 1] + [d[|d| - 1]];
    }
  }

  /** One more executed callback extends what the log records. */
  lemma DeliversStep(d0: seq<seq<Delivery>>, d1: seq<seq<Delivery>>, d2: seq<seq<Delivery>>,
                     ps: seq<Pending>, p: Pending, r: ListenerSets)
    ensures Delivers(d0, d1, ps, r) && Delivers(d1, d2, [p], r) ==> Delivers(d0, d2, ps + [p], r)
  {
    if Delivers(d0, d1, ps, r) && Delivers(d1, d2, [p], r) {
      DeliversThen(d0, d1, d2, ps, [p], r);
    }
  }

  /** How often the delivery `d` occurs in all of the log's batches. */
  function Occurrences(log: seq<seq<Delivery>>, d: Delivery): nat {
    if log == [] then 0 else multiset(log[0])[d] + Occurrences(log[1..], d)
  }

  lemma {:induction false} OccurrencesAppend(a: seq<seq<Delivery>>, b: seq<seq<Delivery>>, d: Delivery)
    ensures Occurrences(a + b, d) == Occurrences(a, d) + Occurrences(b, d)
  {
    if a == [] {
      assert a + b == b;
    } else {
      assert (a + b)[1..] == a[1..] + b;
      OccurrencesAppend(a[1..], b, d);
    }
  }

  /** No double delivery: while `ps` are executed, listener `o` receives event `p` exactly once
      per executed copy of `p` when it is in p's audience, and never otherwise. */
  lemma {:induction false} DeliveryCount(before: seq<seq<Delivery>>, after: seq<seq<Delivery>>,
                                         ps: seq<Pending>, r: ListenerSets, o: Observer, p: Pending)
    requires Delivers(before, after, ps, r)
    ensures Occurrences(after, Delivery(o, p))
         == Occurrences(before, Delivery(o, p)) + if o in Audience(p, r) then multiset(ps)[p] else 0
    decreases |ps|
  {
    if ps != [] {
      var n := |after| - 1;
      var last := ps[|ps| - 1];
      var init := ps[..|ps| - 1];
      DeliveryCount(before, after[..n], init, r, o, p);
      assert after == after[..n] + [after[n]];
      OccurrencesAppend(after[..n], [after[n]], Delivery(o, p));
      BroadcastCount(after[n], last, Audience(last, r), o, p);
      assert Occurrences([after[n]], Delivery(o, p)) == multiset(after[n])[Delivery(o, p)];
      assert ps == init + [last];
      assert multiset(ps)[p] == multiset(init)[p] + if p == last then 1 else 0;
    }
  }

  /** What postOrQueueCallback does with the callbacks `ps`, posted one after the other while
      the gate and the listener sets stay as they are: the ones it appends to the queue ... */
  function Queued(locked: bool, ps: seq<Pending>, r: ListenerSets): seq<Pending> {
    if locked then ps else Kept(ps, r)
  }

  /** ... and the ones it executes at once. */
  function Executed(locked: bool, ps: seq<Pending>, r: ListenerSets): seq<Pending> {
    if locked then [] else Released(ps, r)
  }

  /** A single callback is queued, and nothing executed, when the gate is closed or nobody
      would hear it; otherwise it is executed and nothing queued. */
  lemma PostedOne(locked: bool, p: Pending, r: ListenerSets)
    ensures locked || !HasListeners(p, r) ==> Queued(locked, [p], r) == [p] && Executed(locked, [p], r) == []
    ensures !locked && HasListeners(p, r) ==> Queued(locked, [p], r) == [] && Executed(locked, [p], r) == [p]
  {
    assert [p][1..] == [];
    assert Kept([p], r) == (if HasListeners(p, r) then [] else [p]) + Kept([], r);
    assert Released([p], r) == (if HasListeners(p, r) then [p] else []) + Released([], r);
  }

  /** Posting `ps1` and then `ps2` queues and executes what posting `ps1 + ps2` does. */
  lemma PostedAppend(locked: bool, ps1: seq<Pending>, ps2: seq<Pending>, r: ListenerSets)
    ensures Queued(locked, ps1 + ps2, r) == Queued(locked, ps1, r) + Queued(locked, ps2, r)
    ensures Executed(locked, ps1 + ps2, r) == Executed(locked, ps1, r) + Executed(locked, ps2, r)
  {
    KeptAppend(ps1, ps2, r);
    ReleasedAppend(ps1, ps2, r);
  }

  /** The queue went from `q0` to `q` and the log from `d0` to `d` by posting `ps` one after
      the other under a fixed gate and fixed listener sets. */
  ghost predicate Posted(locked: bool, ps: seq<Pending>, r: ListenerSets,
                         q0: seq<Pending>, q: seq<Pending>, d0: seq<seq<Delivery>>, d: seq<seq<Delivery>>) {
    && q == q0 + Queued(locked, ps, r)
    && Delivers(d0, d, Executed(locked, ps, r), r)
  }

  /** Two postings in a row are one posting of both sequences. */
  lemma PostedThen(locked: bool, ps1: seq<Pending>, ps2: seq<Pending>, r: ListenerSets,
                   q0: seq<Pending>, q1: seq<Pending>, q2: seq<Pending>,
                   d0: seq<seq<Delivery>>, d1: seq<seq<Delivery>>, d2: seq<seq<Delivery>>)
    requires Posted(locked, ps1, r, q0, q1, d0, d1) && Posted(locked, ps2, r, q1, q2, d1, d2)
    ensures Posted(locked, ps1 + ps2, r, q0, q2, d0, d2)
  {
    PostedAppend(locked, ps1, ps2, r);
    DeliversThen(d0, d1, d2, Executed(locked, ps1, r), Executed(locked, ps2, r), r);
  }

  /** Every posted callback is either queued or executed, exactly once. */
  lemma PostedNoLoss(locked: bool, ps: seq<Pending>, r: ListenerSets)
    ensures multiset(ps) == multiset(Queued(locked, ps, r)) + multiset(Executed(locked, ps, r))
  {
    NoLossNoDuplicate(ps, r);
  }
}
