/** Accounting of payloads: every payload ever dispatched is in exactly one place or has exactly one
    recorded fate. No assumption is needed: it holds in every run. */
module Conservation {
  import opened Bags
  import opened Protocol
  import opened Frames

  function Payloads(fates: seq<Fate>): (r: seq<Payload>)
    ensures |r| == |fates|
  {
    seq(|fates|, i requires 0 <= i < |fates| => fates[i].payload)
  }

  /** A payload is in hand exactly while the sweep is at some stage with it. */
  predicate HandOk(s: State, r: SweepId) {
    (At(s, InHand(r)) != [] || (r in s.sweeps && s.sweeps[r].Draining? && s.sweeps[r].hand.Holding?)) ==>
      Holds(s, r) && HeldKey(s, r) in s.sweeps[r].handled
  }

  ghost predicate HandsMatch(s: State) {
    forall r :: HandOk(s, r)
  }

  ghost predicate Balanced(s: State) {
    s.history.dispatched == Bag(s.store) + multiset(Payloads(s.history.fates))
  }

  lemma HandOkStep(s: State, a: Action, r: SweepId)
    requires HandOk(s, r) && Enabled(s, a)
    ensures HandOk(Apply(s, a), r)
  {
    if !BySweepAction(a) {
      FleetFrame(s, a);
      assert SameHand(s, Apply(s, a), r);
    } else if a.sweep != r {
      SweepFrame(s, a, r);
    }
  }

  lemma HandsMatchStep(s: State, a: Action)
    requires HandsMatch(s) && Enabled(s, a)
    ensures HandsMatch(Apply(s, a))
  {
    forall r
      ensures HandOk(Apply(s, a), r)
    {
      HandOkStep(s, a, r);
    }
  }

  lemma FateAppended(h: History, x: Payload, how: How)
    ensures multiset(Payloads(AddFate(h, x, how).fates)) == multiset(Payloads(h.fates)) + multiset{x}
  {
    assert Payloads(AddFate(h, x, how).fates) == Payloads(h.fates) + [x];
  }

  lemma LastSplits(xs: seq<Payload>)
    requires xs != []
    ensures multiset(xs) == multiset(Front(xs)) + multiset{Last(xs)}
  {
    assert xs == Front(xs) + [Last(xs)];
  }

  /** Taking the last element of one list and adding it at either end of another keeps the bag. */
  lemma Moved(m: map<Place, seq<Payload>>, a: Place, b: Place, v: seq<Payload>)
    requires a != b && Lookup(m, a) != []
    requires v == [Last(Lookup(m, a))] + Lookup(m, b) || v == Lookup(m, b) + [Last(Lookup(m, a))]
    ensures Bag(m[a := Front(Lookup(m, a))][b := v]) == Bag(m)
  {
    var x := Last(Lookup(m, a));
    var mid := m[a := Front(Lookup(m, a))];
    LastSplits(Lookup(m, a));
    BagTake(m, a, Front(Lookup(m, a)), x);
    assert Lookup(mid, b) == Lookup(m, b);
    assert multiset(v) == multiset(Lookup(mid, b)) + multiset{x};
    BagGive(mid, b, v, x);
  }

  lemma Taken(m: map<Place, seq<Payload>>, a: Place)
    requires Lookup(m, a) != []
    ensures Bag(m) == Bag(m[a := Front(Lookup(m, a))]) + multiset{Last(Lookup(m, a))}
  {
    LastSplits(Lookup(m, a));
    BagTake(m, a, Front(Lookup(m, a)), Last(Lookup(m, a)));
  }

  /** A step keeps the balance when what it takes out of the store is what it gives a fate to. */
  lemma BalanceKept(s: State, s': State, x: Payload, how: How)
    requires Balanced(s)
    requires s'.history.dispatched == s.history.dispatched
    requires Bag(s.store) == Bag(s'.store) + multiset{x}
    requires s'.history.fates == AddFate(s.history, x, how).fates
    ensures Balanced(s')
  {
    FateAppended(s.history, x, how);
  }

  lemma RemoveBalanced(s: State, e: ExecId, reply: Reply)
    requires Balanced(s) && Enabled(s, Remove(e, reply)) && !reply.Error?
    ensures Balanced(Apply(s, Remove(e, reply)))
  {
    var s' := Apply(s, Remove(e, reply));
    var c := s.fleet.checkouts[e];
    var l := Processing(c.worker, c.priority);
    var v := RemoveFirst(At(s, l), c.payload);
    if c.payload in At(s, l) {
      BagTake(s.store, l, v, c.payload);
      BalanceKept(s, s', c.payload, HowOf(c.pc.why));
    } else {
      BagSame(s.store, l);
      assert s'.history == s.history && Bag(s'.store) == Bag(s.store);
    }
  }

  lemma PopBalanced(s: State, r: SweepId, t: ListId, reply: Reply)
    requires Balanced(s) && HandsMatch(s) && Enabled(s, Pop(r, t, reply))
    ensures Balanced(Apply(s, Pop(r, t, reply)))
  {
    var s' := Apply(s, Pop(r, t, reply));
    var l := Processing(t.0, t.1);
    var x := Last(At(s, l));
    assert HandOk(s, r) && At(s, InHand(r)) == [];
    Moved(s.store, l, InHand(r), [x]);
    Taken(s.store, l);
    if reply.Lost? {
      BalanceKept(s, s', x, Gone(PopReplyLost));
    } else if x.Garbage? {
      BalanceKept(s, s', x, SweptMalformed);
    } else if x.job.key in s.sweeps[r].handled {
      BalanceKept(s, s', x, SweptDuplicate);
    }
  }

  lemma DropBalanced(s: State, r: SweepId, how: How)
    requires Balanced(s) && Holds(s, r)
    ensures Balanced(Drop(s, r, how))
  {
    assert Front(At(s, InHand(r))) == [];
    Taken(s.store, InHand(r));
    BalanceKept(s, Drop(s, r, how), Held(s, r), how);
  }

  lemma PushBalanced(s: State, r: SweepId, reply: Reply)
    requires Balanced(s) && Enabled(s, Push(r, reply))
    ensures Balanced(Apply(s, Push(r, reply)))
  {
    if reply.Error? {
      DropBalanced(s, r, Gone(PushFailed));
    } else {
      var q := Queue(s.sweeps[r].hand.priority);
      assert Front(At(s, InHand(r))) == [];
      Moved(s.store, InHand(r), q, At(s, q) + [Held(s, r)]);
    }
  }

  lemma BalancedStep(s: State, a: Action)
    requires Balanced(s) && HandsMatch(s) && Enabled(s, a)
    ensures Balanced(Apply(s, a))
  {
    if a.Dispatch? {
      BagGive(s.store, Queue(a.priority), [a.payload] + At(s, Queue(a.priority)), a.payload);
    } else if a.Move? {
      var q, l := Queue(a.priority), Processing(a.worker, a.priority);
      Moved(s.store, q, l, [Last(At(s, q))] + At(s, l));
    } else if a.Remove? {
      if !a.reply.Error? { RemoveBalanced(s, a.exec, a.reply); }
    } else if a.Pop? {
      PopBalanced(s, a.sweep, a.list, a.reply);
    } else if a.Push? {
      PushBalanced(s, a.sweep, a.reply);
    } else if a.Report? {
      DropBalanced(s, a.sweep, if a.reply.Error? then Gone(ReportFailed) else ReportedFailed);
    } else if a.Stop? {
      if Holds(s, a.sweep) { DropBalanced(s, a.sweep, Gone(SweeperDied)); }
    } else {
      StoreKept(s, a);
    }
  }

  lemma StoreKept(s: State, a: Action)
    requires Enabled(s, a)
    requires !a.Dispatch? && !a.Move? && !a.Remove? && !a.Pop? && !a.Push? && !a.Report? && !a.Stop?
    ensures Apply(s, a).store == s.store
    ensures Apply(s, a).history.fates == s.history.fates && Apply(s, a).history.dispatched == s.history.dispatched
  {
  }

  lemma {:induction false} AlwaysBalanced(acts: seq<Action>)
    requires Runs(INITIAL, acts)
    ensures HandsMatch(After(INITIAL, acts)) && Balanced(After(INITIAL, acts))
    decreases |acts|
  {
    if acts != [] {
      AlwaysBalanced(Front(acts));
      HandsMatchStep(After(INITIAL, Front(acts)), Last(acts));
      BalancedStep(After(INITIAL, Front(acts)), Last(acts));
    }
  }
}
