/** The order in which a queue is served, and where a drain puts what it gives back. */
module Delivery {
  import opened Events
  import opened Protocol
  import opened ProcessingLists
  import opened Reclaimer

  /** Queues are served from the right end. */
  function DeliveryOrder(q: seq<Payload>): seq<Payload> {
    if q == [] then [] else [Last(q)] + DeliveryOrder(Front(q))
  }

  predicate Subsequence(a: seq<Payload>, b: seq<Payload>)
    decreases |b|
  {
    a == [] || (b != [] && ((Last(a) == Last(b) && Subsequence(Front(a), Front(b))) || Subsequence(a, Front(b))))
  }

  lemma {:induction false} OrderConcat(q: seq<Payload>, back: seq<Payload>)
    ensures DeliveryOrder(q + back) == DeliveryOrder(back) + DeliveryOrder(q)
    decreases |back|
  {
    if back == [] {
      assert q + back == q;
    } else {
      assert Front(q + back) == q + Front(back) && Last(q + back) == Last(back);
      OrderConcat(q, Front(back));
      assert [Last(back)] + (DeliveryOrder(Front(back)) + DeliveryOrder(q)) == DeliveryOrder(back) + DeliveryOrder(q);
    }
  }

  lemma {:induction false} SubsequenceOfAll(a: seq<Payload>)
    ensures Subsequence(a, a)
    decreases |a|
  {
    if a != [] { SubsequenceOfAll(Front(a)); }
  }

  lemma {:induction false} RetriedInOrder(s: State, handled: set<string>, xs: seq<Payload>)
    ensures Subsequence(DeliveryOrder(Retried(s, handled, xs)), xs)
    decreases |xs|
  {
    if xs != [] {
      var x := Last(xs);
      var rest := if x.Garbage? || x.job.key in handled then handled else handled + {x.job.key};
      RetriedInOrder(s, rest, Front(xs));
      if x.Wire? && x.job.key !in handled && Retriable(s, x.job.key) {
        var tail := Retried(s, rest, Front(xs));
        OrderConcat([x], tail);
        assert DeliveryOrder([x]) == [x] by { assert Front([x]) == []; }
        assert Front(DeliveryOrder(tail) + [x]) == DeliveryOrder(tail);
      } else {
        assert Retried(s, handled, xs) == Retried(s, rest, Front(xs));
      }
    }
  }

  predicate HasKeyIn(xs: seq<Payload>, k: string) {
    exists x :: x in xs && HasKey(x, k)
  }

  /** Exactly the retriable keys of the list are put back, each once. */
  lemma {:induction false} RetriedExactly(s: State, handled: set<string>, xs: seq<Payload>, k: string)
    ensures HasKeyIn(Retried(s, handled, xs), k) <==> HasKeyIn(xs, k) && k !in handled && Retriable(s, k)
    ensures forall i, j :: 0 <= i < j < |Retried(s, handled, xs)| && HasKey(Retried(s, handled, xs)[i], k) ==>
              !HasKey(Retried(s, handled, xs)[j], k)
    decreases |xs|
  {
    if xs != [] {
      var x := Last(xs);
      assert xs == Front(xs) + [x];
      assert HasKeyIn(xs, k) <==> HasKeyIn(Front(xs), k) || HasKey(x, k);
      var rest := if x.Garbage? || x.job.key in handled then handled else handled + {x.job.key};
      RetriedExactly(s, rest, Front(xs), k);
      var tail := Retried(s, rest, Front(xs));
      if x.Wire? && x.job.key !in handled && Retriable(s, x.job.key) {
        assert Retried(s, handled, xs) == [x] + tail;
        assert HasKeyIn([x] + tail, k) <==> HasKey(x, k) || HasKeyIn(tail, k);
        forall j | HasKey(x, k) && 1 <= j < |[x] + tail|
          ensures !HasKey(([x] + tail)[j], k)
        {
          assert tail[j - 1] in tail;
        }
      }
    }
  }

  /** `x` is decodable, at place `i`, and no older entry of the list has its key. */
  predicate OldestAt(xs: seq<Payload>, x: Payload, i: nat) {
    i < |xs| && xs[i] == x && x.Wire? && forall j :: i < j < |xs| ==> !HasKey(xs[j], x.job.key)
  }

  ghost predicate OldestCopy(xs: seq<Payload>, x: Payload) {
    exists i :: OldestAt(xs, x, i)
  }

  /** Read from the old end. */
  lemma OldestUnfolds(xs: seq<Payload>, x: Payload)
    requires xs != []
    ensures OldestCopy(xs, x) <==>
              x.Wire? && (x == Last(xs) || (OldestCopy(Front(xs), x) && !HasKey(Last(xs), x.job.key)))
  {
    if i: nat :| OldestAt(xs, x, i) {
      assert i < |xs| - 1 ==> OldestAt(Front(xs), x, i);
    }
    if x.Wire? && x == Last(xs) {
      assert OldestAt(xs, x, |xs| - 1);
    } else if i: nat :| OldestAt(Front(xs), x, i) && !HasKey(Last(xs), x.job.key) {
      assert OldestAt(xs, x, i);
    }
  }

  /** Of several copies of a key it is the oldest that is put back. */
  lemma {:induction false} RetriedIsOldest(s: State, handled: set<string>, xs: seq<Payload>, x: Payload)
    ensures x in Retried(s, handled, xs) <==>
              OldestCopy(xs, x) && x.job.key !in handled && Retriable(s, x.job.key)
    decreases |xs|
  {
    if xs != [] {
      var y := Last(xs);
      OldestUnfolds(xs, x);
      RetriedIsOldest(s, if y.Garbage? || y.job.key in handled then handled else handled + {y.job.key}, Front(xs), x);
    }
  }

  /** The job is that of the oldest copy of its key, which the sweep has not handled before, may not retry, and can
      report. */
  ghost predicate ToReport(s: State, handled: set<string>, xs: seq<Payload>, job: Job) {
    && job.key !in handled && !Retriable(s, job.key) && Named(job)
    && exists x :: x in xs && OldestCopy(xs, x) && x.job == job
  }

  /** And exactly these jobs are reported failed. */
  lemma {:induction false} RefusedExactly(s: State, handled: set<string>, xs: seq<Payload>, job: Job)
    ensures job in Refused(s, handled, xs) <==> ToReport(s, handled, xs, job)
    decreases |xs|
  {
    if xs != [] {
      var y := Last(xs);
      assert xs == Front(xs) + [y];
      RefusedExactly(s, if y.Garbage? || y.job.key in handled then handled else handled + {y.job.key}, Front(xs), job);
      OldestUnfolds(xs, y);
      if x :| x in xs && OldestCopy(xs, x) && x.job == job {
        OldestUnfolds(xs, x);
      }
      if x :| x in Front(xs) && OldestCopy(Front(xs), x) && x.job == job {
        OldestUnfolds(xs, x);
      }
    }
  }

  /** After an undisturbed drain of the list `xs` (newest first) into queue `q`: everything put back is delivered
      before everything that was waiting, and in the list's own order, that is in reverse checkout order. */
  lemma RequeuedFirst(s: State, handled: set<string>, q: seq<Payload>, xs: seq<Payload>)
    ensures var back := DeliveryOrder(Retried(s, handled, xs));
            && DeliveryOrder(q + Retried(s, handled, xs)) == back + DeliveryOrder(q)
            && Subsequence(back, xs)
  {
    OrderConcat(q, Retried(s, handled, xs));
    RetriedInOrder(s, handled, xs);
  }

  /** The same for a whole sweep over several lists: all it gives back to a queue is served before what was waiting. */
  lemma SweepServedFirst(s: State, keys: seq<ListId>, p: Priority, q: seq<Payload>)
    ensures DeliveryOrder(q + Given(s, keys, p)) == DeliveryOrder(Given(s, keys, p)) + DeliveryOrder(q)
  {
    OrderConcat(q, Given(s, keys, p));
  }

  /** Dispatching serves first come first served. */
  lemma DispatchedLast(q: seq<Payload>, x: Payload)
    ensures DeliveryOrder([x] + q) == DeliveryOrder(q) + [x]
  {
    OrderConcat([x], q);
    assert DeliveryOrder([x]) == [x] by { assert Front([x]) == []; }
  }

  // Whole runs --------------------------------------------------------------

  /** The payload that a checkout hands to its worker. */
  function HandedOver(s: State, a: Action): seq<Payload>
    requires Enabled(s, a)
  {
    if a.Move? && s.fleet.nextExec in Apply(s, a).fleet.checkouts
    then [Apply(s, a).fleet.checkouts[s.fleet.nextExec].payload] else []
  }

  /** What has been taken from a queue, in order. */
  function Served(acts: seq<Action>, p: Priority): seq<Payload>
    requires Runs(INITIAL, acts)
  {
    if acts == [] then []
    else Served(Front(acts), p) + ServedBy(After(INITIAL, Front(acts)), Last(acts), p)
  }

  function ServedBy(s: State, a: Action, p: Priority): seq<Payload>
    requires Enabled(s, a)
  {
    if a.Move? && a.priority == p then HandedOver(s, a) else []
  }

  predicate PushesTo(s: State, a: Action, p: Priority)
    requires Enabled(s, a)
  {
    a.Push? && !a.reply.Error? && s.sweeps[a.sweep].hand.priority == p
  }

  /** First come, first served; but what a sweep gives back is next. */
  function Schedule(acts: seq<Action>, p: Priority): (r: seq<Payload>)
    requires Runs(INITIAL, acts)
  {
    if acts == [] then []
    else Reschedule(After(INITIAL, Front(acts)), Last(acts), p, |Served(Front(acts), p)|, Schedule(Front(acts), p))
  }

  function Reschedule(s: State, a: Action, p: Priority, served: nat, schedule: seq<Payload>): seq<Payload>
    requires Enabled(s, a)
  {
    if a.Dispatch? && a.priority == p then schedule + [a.payload]
    else if PushesTo(s, a, p) && served <= |schedule|
    then schedule[..served] + [Held(s, a.sweep)] + schedule[served..]
    else schedule
  }

  /** What one step does to a queue. */
  lemma QueueStep(s: State, a: Action, p: Priority)
    requires Enabled(s, a)
    ensures At(Apply(s, a), Queue(p))
         == if a.Dispatch? && a.priority == p then [a.payload] + At(s, Queue(p))
            else if a.Move? && a.priority == p then Front(At(s, Queue(p)))
            else if PushesTo(s, a, p) then At(s, Queue(p)) + [Held(s, a.sweep)]
            else At(s, Queue(p))
  {
  }

  lemma MoveHandsOver(s: State, a: Action)
    requires Enabled(s, a) && a.Move?
    ensures HandedOver(s, a) == [Last(At(s, Queue(a.priority)))]
  {
  }

  /** In every run, what has been taken from a queue followed by what is still to come is the schedule. */
  lemma {:induction false} ServedAsScheduled(acts: seq<Action>, p: Priority)
    requires Runs(INITIAL, acts)
    ensures Served(acts, p) + DeliveryOrder(At(After(INITIAL, acts), Queue(p))) == Schedule(acts, p)
    decreases |acts|
  {
    if acts != [] {
      ServedAsScheduled(Front(acts), p);
      ServedStep(After(INITIAL, Front(acts)), Last(acts), p, Served(Front(acts), p), Schedule(Front(acts), p));
    }
  }

  lemma ServedStep(s: State, a: Action, p: Priority, served: seq<Payload>, schedule: seq<Payload>)
    requires Enabled(s, a) && served + DeliveryOrder(At(s, Queue(p))) == schedule
    ensures served + ServedBy(s, a, p) + DeliveryOrder(At(Apply(s, a), Queue(p)))
         == Reschedule(s, a, p, |served|, schedule)
  {
    QueueStep(s, a, p);
    var q := At(s, Queue(p));
    assert !(a.Move? && a.priority == p) ==> served + ServedBy(s, a, p) == served;
    if a.Dispatch? && a.priority == p {
      JoinsEnd(served, q, a.payload);
    } else if a.Move? && a.priority == p {
      MoveHandsOver(s, a);
      NextGoes(served, q);
    } else if PushesTo(s, a, p) {
      GivenBackNext(q, Held(s, a.sweep));
      Inserted(served, DeliveryOrder(q), Held(s, a.sweep));
    }
  }

  lemma JoinsEnd(served: seq<Payload>, q: seq<Payload>, x: Payload)
    ensures served + DeliveryOrder([x] + q) == served + DeliveryOrder(q) + [x]
  {
    DispatchedLast(q, x);
  }

  lemma NextGoes(served: seq<Payload>, q: seq<Payload>)
    requires q != []
    ensures served + [Last(q)] + DeliveryOrder(Front(q)) == served + DeliveryOrder(q)
  {
  }

  lemma GivenBackNext(q: seq<Payload>, x: Payload)
    ensures DeliveryOrder(q + [x]) == [x] + DeliveryOrder(q)
  {
    assert Front(q + [x]) == q;
  }

  lemma Inserted(a: seq<Payload>, b: seq<Payload>, x: Payload)
    ensures a + ([x] + b) == (a + b)[..|a|] + [x] + (a + b)[|a|..]
  {
  }

  /** What a worker has checked out into one of its lists, in order. */
  function CheckedOut(acts: seq<Action>, t: ListId): seq<Payload>
    requires Runs(INITIAL, acts)
  {
    if acts == [] then []
    else CheckedOut(Front(acts), t) + CheckedOutBy(After(INITIAL, Front(acts)), Last(acts), t)
  }

  function CheckedOutBy(s: State, a: Action, t: ListId): seq<Payload>
    requires Enabled(s, a)
  {
    if a.Move? && (a.worker, a.priority) == t then HandedOver(s, a) else []
  }

  /** What sweeps have popped from a list, in order. */
  function SweptFrom(acts: seq<Action>, t: ListId): seq<Payload>
    requires Runs(INITIAL, acts)
  {
    if acts == [] then [] else SweptFrom(Front(acts), t) + SweptBy(After(INITIAL, Front(acts)), Last(acts), t)
  }

  function SweptBy(s: State, a: Action, t: ListId): seq<Payload>
    requires Enabled(s, a)
  {
    if a.Pop? && a.list == t then PoppedBy(s, a) else []
  }

  /** What an RPOP takes: it is in the sweep's hand, or its end is recorded. */
  function PoppedBy(s: State, a: Action): seq<Payload>
    requires Enabled(s, a) && a.Pop?
  {
    var s' := Apply(s, a);
    if s'.history.fates != s.history.fates && s'.history.fates != [] then [Last(s'.history.fates).payload]
    else At(s', InHand(a.sweep))
  }

  lemma PopTakes(s: State, r: SweepId, t: ListId, reply: Reply)
    requires Enabled(s, Pop(r, t, reply))
    ensures PoppedBy(s, Pop(r, t, reply)) == [Last(At(s, Processing(t.0, t.1)))]
  {
    assert PoppedBy(s, Pop(r, t, reply)) == if DoPop(s, r, t, reply).history.fates != s.history.fates
                                            then [Last(DoPop(s, r, t, reply).history.fates).payload]
                                            else At(DoPop(s, r, t, reply), InHand(r));
  }

  /** What one step does to a processing list. */
  lemma ListStep(s: State, a: Action, t: ListId)
    requires Enabled(s, a)
    ensures var l := Processing(t.0, t.1);
            At(Apply(s, a), l)
            == if a.Move? && (a.worker, a.priority) == t then HandedOver(s, a) + At(s, l)
               else if a.Pop? && a.list == t then Front(At(s, l))
               else if Acks(s, a, t) then RemoveFirst(At(s, l), s.fleet.checkouts[a.exec].payload)
               else At(s, l)
  {
    if a.Move? {
      MoveHandsOver(s, a);
    } else if !Touches(s, a, t.0, t.1) {
      ListFrame(s, a, t.0, t.1);
    }
  }

  predicate Acks(s: State, a: Action, t: ListId)
    requires Enabled(s, a)
  {
    && a.Remove? && !a.reply.Error?
    && s.fleet.checkouts[a.exec].worker == t.0 && s.fleet.checkouts[a.exec].priority == t.1
  }

  /** In every run a list is drained in the order in which it was filled: what sweeps have popped from it, followed by
      what is left, oldest first, is what was checked out into it, less what was acknowledged. */
  lemma {:induction false} DrainedInCheckoutOrder(acts: seq<Action>, t: ListId)
    requires Runs(INITIAL, acts)
    ensures var list := At(After(INITIAL, acts), Processing(t.0, t.1));
            Subsequence(SweptFrom(acts, t) + DeliveryOrder(list), CheckedOut(acts, t))
    decreases |acts|
  {
    if acts != [] {
      DrainedInCheckoutOrder(Front(acts), t);
      OrderKept(After(INITIAL, Front(acts)), Last(acts), t, SweptFrom(Front(acts), t), CheckedOut(Front(acts), t));
    }
  }

  lemma OrderKept(s: State, a: Action, t: ListId, swept: seq<Payload>, taken: seq<Payload>)
    requires Enabled(s, a) && Subsequence(swept + DeliveryOrder(At(s, Processing(t.0, t.1))), taken)
    ensures var list' := At(Apply(s, a), Processing(t.0, t.1));
            Subsequence(swept + SweptBy(s, a, t) + DeliveryOrder(list'), taken + CheckedOutBy(s, a, t))
  {
    assert !(a.Pop? && a.list == t) ==> swept + SweptBy(s, a, t) == swept;
    assert !(a.Move? && (a.worker, a.priority) == t) ==> taken + CheckedOutBy(s, a, t) == taken;
    var list := At(s, Processing(t.0, t.1));
    ListStep(s, a, t);
    if a.Move? && (a.worker, a.priority) == t {
      MoveHandsOver(s, a);
      Filled(swept, list, Last(At(s, Queue(a.priority))), taken);
    } else if a.Pop? && a.list == t {
      PopTakes(s, a.sweep, t, a.reply);
      NextGoes(swept, list);
    } else if Acks(s, a, t) {
      Shortened(swept, list, s.fleet.checkouts[a.exec].payload, taken);
    }
  }

  lemma Filled(swept: seq<Payload>, list: seq<Payload>, x: Payload, taken: seq<Payload>)
    requires Subsequence(swept + DeliveryOrder(list), taken)
    ensures Subsequence(swept + DeliveryOrder([x] + list), taken + [x])
  {
    JoinsEnd(swept, list, x);
    assert Front(swept + DeliveryOrder(list) + [x]) == swept + DeliveryOrder(list);
    assert Front(taken + [x]) == taken;
  }

  lemma Shortened(swept: seq<Payload>, list: seq<Payload>, x: Payload, taken: seq<Payload>)
    requires Subsequence(swept + DeliveryOrder(list), taken)
    ensures Subsequence(swept + DeliveryOrder(RemoveFirst(list, x)), taken)
  {
    RemovalKeepsOrder(list, x);
    var shorter := DeliveryOrder(RemoveFirst(list, x));
    BehindPrefix(swept, shorter, DeliveryOrder(list));
    SubsequenceTrans(swept + shorter, swept + DeliveryOrder(list), taken);
  }

  lemma {:induction false} BehindPrefix(p: seq<Payload>, a: seq<Payload>, b: seq<Payload>)
    requires Subsequence(a, b)
    ensures Subsequence(p + a, p + b)
    decreases |b|
  {
    if b == [] {
      SubsequenceOfAll(p);
      assert p + a == p && p + b == p;
    } else {
      assert Front(p + b) == p + Front(b);
      if a != [] && Last(a) == Last(b) && Subsequence(Front(a), Front(b)) {
        assert Front(p + a) == p + Front(a);
        BehindPrefix(p, Front(a), Front(b));
      } else {
        BehindPrefix(p, a, Front(b));
      }
    }
  }

  lemma {:induction false} SubsequenceTrans(a: seq<Payload>, b: seq<Payload>, c: seq<Payload>)
    requires Subsequence(a, b) && Subsequence(b, c)
    ensures Subsequence(a, c)
    decreases |c|
  {
    if a != [] {
      if Last(b) == Last(c) && Subsequence(Front(b), Front(c)) {
        if Last(a) == Last(b) && Subsequence(Front(a), Front(b)) {
          SubsequenceTrans(Front(a), Front(b), Front(c));
        } else {
          SubsequenceTrans(a, Front(b), Front(c));
        }
      } else {
        SubsequenceTrans(a, b, Front(c));
      }
    }
  }

  lemma {:induction false} RemovalKeepsOrder(xs: seq<Payload>, x: Payload)
    ensures Subsequence(DeliveryOrder(RemoveFirst(xs, x)), DeliveryOrder(xs))
    decreases |xs|
  {
    if xs != [] {
      var y, rest := xs[0], xs[1..];
      assert xs == [y] + rest;
      DispatchedLast(rest, y);
      var order := DeliveryOrder(rest);
      assert Front(order + [y]) == order;
      if y == x {
        SubsequenceOfAll(order);
      } else {
        RemovalKeepsOrder(rest, x);
        var shorter := RemoveFirst(rest, x);
        DispatchedLast(shorter, y);
        assert Front(DeliveryOrder(shorter) + [y]) == DeliveryOrder(shorter);
      }
    }
  }
}
