/** Conservation of a job: what a dispatched payload can become when its key is its own and no running worker's list
    is swept. Failed marker writes lose no job. */
module NothingVanishes {
  import opened Bags
  import opened Protocol
  import opened Frames
  import opened Conservation
  import opened PublishOrder
  import opened ProcessingLists
  import opened SingleExecution
  import opened Ledger

  ghost predicate InExactlyOnePlace(s: State, x: Payload) {
    exists l :: multiset(At(s, l))[x] == 1 && forall m :: m != l ==> x !in At(s, m)
  }

  ghost predicate HasFate(s: State, x: Payload) {
    exists i :: 0 <= i < |s.history.fates| && s.history.fates[i].payload == x
  }

  /** A key a sweep has already handled is in none of the lists it still has to drain. */
  predicate HandledOk(s: State, r: SweepId, k: string) {
    r in s.sweeps && s.sweeps[r].Draining? && k in s.sweeps[r].handled ==>
      forall t, x :: t in s.sweeps[r].targets && x in At(s, Processing(t.0, t.1)) ==> !HasKey(x, k)
  }

  predicate MalformedOk(s: State, e: ExecId) {
    e in s.fleet.checkouts && PcOf(s, e) == Removing(Malformed) ==> s.fleet.checkouts[e].payload.Garbage?
  }

  /** The fates a payload with this key can meet. */
  predicate Settling(s: State, i: nat, k: string) {
    i < |s.history.fates| && HasKey(s.history.fates[i].payload, k) ==>
      var how := s.history.fates[i].how;
      how.Acked? || how.ReportedFailed? || how.Gone?
  }

  ghost predicate FateInv(s: State, k: string) {
    && (forall r :: HandledOk(s, r, k))
    && (forall e :: MalformedOk(s, e))
    && (forall i: nat :: Settling(s, i, k))
  }

  lemma ListFrom(s: State, a: Action, t: ListId, x: Payload)
    requires Enabled(s, a) && x in At(Apply(s, a), Processing(t.0, t.1))
    ensures x in At(s, Processing(t.0, t.1)) || (a.Move? && t == (a.worker, a.priority))
  {
    if !Touches(s, a, t.0, t.1) {
      ListFrame(s, a, t.0, t.1);
    } else if a.Remove? && !a.reply.Error? {
      RemovedFrom(At(s, Processing(t.0, t.1)), s.fleet.checkouts[a.exec].payload, x);
    }
  }

  lemma RemovedFrom(xs: seq<Payload>, y: Payload, x: Payload)
    requires x in RemoveFirst(xs, y)
    ensures x in xs
  {
    assert x in multiset(RemoveFirst(xs, y));
  }

  /** `handled` grows only when a payload with a new key goes into the sweep's hand. */
  lemma HandledFrom(s: State, a: Action, k: string)
    requires Enabled(s, a) && BySweepAction(a)
    requires a.sweep in Apply(s, a).sweeps && Apply(s, a).sweeps[a.sweep].Draining?
    requires k in Apply(s, a).sweeps[a.sweep].handled
    ensures a.sweep in s.sweeps && s.sweeps[a.sweep].Draining?
    ensures k in s.sweeps[a.sweep].handled ||
            (a.Pop? && At(Apply(s, a), InHand(a.sweep)) == [Last(At(s, Processing(a.list.0, a.list.1)))]
             && HasKey(Last(At(s, Processing(a.list.0, a.list.1))), k))
  {
  }

  lemma HandledOkStep(s: State, a: Action, r: SweepId, k: string)
    requires Enabled(s, a) && HandledOk(s, r, k) && Base(s)
    requires Base(Apply(s, a)) && UniqueKey(Apply(s, a), k)
    ensures HandledOk(Apply(s, a), r, k)
  {
    var s' := Apply(s, a);
    if r in s'.sweeps && s'.sweeps[r].Draining? && k in s'.sweeps[r].handled {
      assert TargetsDead(s', r);
      forall t, x | t in s'.sweeps[r].targets && x in At(s', Processing(t.0, t.1))
        ensures !HasKey(x, k)
      {
        ListFrom(s, a, t, x);
        FleetGrows(s, a);
        if BySweepAction(a) && a.sweep == r {
          OwnTargets(s, a);
          HandledFrom(s, a, k);
          if k !in s.sweeps[r].handled && HasKey(x, k) {
            Exclusive(s', k, InHand(r), Processing(t.0, t.1), At(s', InHand(r))[0], x);
          }
        } else if BySweepAction(a) {
          SweepFrame(s, a, r);
        } else {
          FleetFrame(s, a);
          assert SameHand(s, s', r);
        }
      }
    }
  }

  lemma MalformedOkStep(s: State, a: Action, e: ExecId)
    requires Enabled(s, a) && MalformedOk(s, e)
    ensures MalformedOk(Apply(s, a), e)
  {
    if ByExec(a, e) {
      OwnMalformed(s, a, e);
    } else if !(a.Move? && e == s.fleet.nextExec) {
      ExecFrame(s, a, e);
    }
  }

  lemma OwnMalformed(s: State, a: Action, e: ExecId)
    requires Enabled(s, a) && ByExec(a, e)
    ensures e in Apply(s, a).fleet.checkouts ==> PcOf(Apply(s, a), e) != Removing(Malformed)
  {
  }

  lemma PopSettling(s: State, r: SweepId, t: ListId, reply: Reply, k: string)
    requires Enabled(s, Pop(r, t, reply)) && HandledOk(s, r, k)
    requires forall i: nat :: Settling(s, i, k)
    ensures forall i: nat :: Settling(DoPop(s, r, t, reply), i, k)
  {
    var x := Last(At(s, Processing(t.0, t.1)));
    assert x in At(s, Processing(t.0, t.1));
    forall i: nat
      ensures Settling(DoPop(s, r, t, reply), i, k)
    {
      assert Settling(s, i, k);
    }
  }

  lemma RemoveSettling(s: State, e: ExecId, reply: Reply, k: string)
    requires Enabled(s, Remove(e, reply)) && MalformedOk(s, e)
    requires CheckoutOk(s, k, false, e)
    requires forall i: nat :: Settling(s, i, k)
    ensures forall i: nat :: Settling(DoRemove(s, e, reply), i, k)
  {
    RemoveFate(s, e, reply);
    forall i: nat
      ensures Settling(DoRemove(s, e, reply), i, k)
    {
      assert Settling(s, i, k);
    }
  }

  lemma DropSettling(s: State, r: SweepId, how: How, k: string)
    requires Holds(s, r) && (how.ReportedFailed? || how.Gone?) && forall i: nat :: Settling(s, i, k)
    ensures forall i: nat :: Settling(Drop(s, r, how), i, k)
  {
    forall i: nat
      ensures Settling(Drop(s, r, how), i, k)
    {
      assert Settling(s, i, k);
    }
  }

  lemma SettlingKept(s: State, s': State, k: string)
    requires s'.history.fates == s.history.fates && forall i: nat :: Settling(s, i, k)
    ensures forall i: nat :: Settling(s', i, k)
  {
    forall i: nat
      ensures Settling(s', i, k)
    {
      assert Settling(s, i, k);
    }
  }

  lemma SettlingStep(s: State, a: Action, k: string)
    requires Enabled(s, a) && Base(s) && KeyInv(s, k, false) && FateInv(s, k)
    ensures forall i: nat :: Settling(Apply(s, a), i, k)
  {
    if a.Remove? {
      assert MalformedOk(s, a.exec) && CheckoutOk(s, k, false, a.exec);
      RemoveSettling(s, a.exec, a.reply, k);
    } else if a.Pop? {
      assert HandledOk(s, a.sweep, k);
      PopSettling(s, a.sweep, a.list, a.reply, k);
    } else if a.Push? && a.reply.Error? {
      DropSettling(s, a.sweep, Gone(PushFailed), k);
    } else if a.Report? {
      DropSettling(s, a.sweep, if a.reply.Error? then Gone(ReportFailed) else ReportedFailed, k);
      SettlingKept(Drop(s, a.sweep, if a.reply.Error? then Gone(ReportFailed) else ReportedFailed), Apply(s, a), k);
    } else if a.Stop? && Holds(s, a.sweep) {
      DropSettling(s, a.sweep, Gone(SweeperDied), k);
      SettlingKept(Drop(s, a.sweep, Gone(SweeperDied)), Apply(s, a), k);
    } else {
      OtherFates(s, a);
      SettlingKept(s, Apply(s, a), k);
    }
  }

  lemma OtherFates(s: State, a: Action)
    requires Enabled(s, a) && !a.Remove? && !a.Pop? && !(a.Push? && a.reply.Error?) && !a.Report?
    requires !(a.Stop? && Holds(s, a.sweep))
    ensures Apply(s, a).history.fates == s.history.fates
  {
  }

  lemma {:induction false} FateInvAlways(acts: seq<Action>, k: string)
    requires MeetingRun(acts, MARKERS_MAY_FAIL, k)
    ensures FateInv(After(INITIAL, acts), k)
    decreases |acts|
  {
    if acts != [] {
      FateInvAlways(Front(acts), k);
      KeyInvAlways(Front(acts), k, false);
      KeyInvAlways(acts, k, false);
      FateInvStep(After(INITIAL, Front(acts)), Last(acts), k);
    }
  }

  lemma FateInvStep(s: State, a: Action, k: string)
    requires Enabled(s, a) && FateInv(s, k) && Base(s) && Base(Apply(s, a))
    requires KeyInv(s, k, false) && UniqueKey(Apply(s, a), k)
    ensures FateInv(Apply(s, a), k)
  {
    forall r
      ensures HandledOk(Apply(s, a), r, k)
    {
      HandledOkStep(s, a, r, k);
    }
    forall e
      ensures MalformedOk(Apply(s, a), e)
    {
      MalformedOkStep(s, a, e);
    }
    SettlingStep(s, a, k);
  }

  // ---------------------------------------------------------------------
  // Main results
  // ---------------------------------------------------------------------

  lemma PlaceFromBag(s: State, x: Payload)
    requires Balanced(s) && x.Wire? && UniqueKey(s, x.job.key) && x in Bag(s.store)
    ensures InExactlyOnePlace(s, x)
  {
    BagMember(s.store, x);
    var l :| l in s.store && x in s.store[l];
    Exclusive(s, x.job.key, l, l, x, x);
    forall m | m != l
      ensures x !in At(s, m)
    {
      if x in At(s, m) {
        Exclusive(s, x.job.key, l, m, x, x);
      }
    }
  }

  lemma FatedCount(s: State, x: Payload)
    ensures HasFate(s, x) <==> multiset(Payloads(s.history.fates))[x] > 0
  {
    var xs := Payloads(s.history.fates);
    assert x in multiset(xs) <==> x in xs;
    if x in xs {
      var i :| 0 <= i < |xs| && xs[i] == x;
      assert s.history.fates[i].payload == x;
    }
    if HasFate(s, x) {
      var i :| 0 <= i < |s.history.fates| && s.history.fates[i].payload == x;
      assert xs[i] == x;
    }
  }

  lemma FatedIsNowhere(s: State, x: Payload)
    requires Balanced(s) && x.Wire? && UniqueKey(s, x.job.key) && HasFate(s, x)
    ensures forall l :: x !in At(s, l)
  {
    forall l
      ensures x !in At(s, l)
    {
      if x in At(s, l) {
        FatedCount(s, x);
        Exclusive(s, x.job.key, l, l, x, x);
      }
    }
  }

  /** Every decodable job ever dispatched is in exactly one queue, processing list or hand; or it is in none, and the
      world has been told how it ended or one of the four steps below has lost it. */
  lemma NothingVanishes(acts: seq<Action>, x: Payload)
    requires x.Wire? && MeetingRun(acts, MARKERS_MAY_FAIL, x.job.key)
    ensures var s := After(INITIAL, acts);
            x in DispatchedIn(acts) ==>
              || InExactlyOnePlace(s, x)
              || ((forall l :: x !in At(s, l)) && (Told(s.log, x.job.key) || LostIn(acts, x)))
  {
    HistoryIsTrace(acts, x.job.key);
    PlaceOrFate(acts, x);
    var s := After(INITIAL, acts);
    if c :| Fate(x, Gone(c)) in s.history.fates {
      GoneIsLost(acts, c, x);
    }
  }

  /** In terms of the recorded fates: never two places, and never both a place and a fate. */
  lemma PlaceOrFate(acts: seq<Action>, x: Payload)
    requires x.Wire? && MeetingRun(acts, MARKERS_MAY_FAIL, x.job.key)
    ensures var s := After(INITIAL, acts);
            x in s.history.dispatched ==>
              && (InExactlyOnePlace(s, x) <==> !HasFate(s, x))
              && (HasFate(s, x) ==> forall l :: x !in At(s, l))
              && (HasFate(s, x) ==> Told(s.log, x.job.key) || exists c :: Fate(x, Gone(c)) in s.history.fates)
  {
    var s := After(INITIAL, acts);
    KeyInvAlways(acts, x.job.key, false);
    FatedCount(s, x);
    if HasFate(s, x) {
      FatedIsNowhere(s, x);
      EndIsKnown(acts, x);
    } else if x in s.history.dispatched {
      assert x in Bag(s.store);
      PlaceFromBag(s, x);
    }
  }

  lemma EndIsKnown(acts: seq<Action>, x: Payload)
    requires x.Wire? && MeetingRun(acts, MARKERS_MAY_FAIL, x.job.key) && HasFate(After(INITIAL, acts), x)
    ensures var s := After(INITIAL, acts);
            Told(s.log, x.job.key) || exists c :: Fate(x, Gone(c)) in s.history.fates
  {
    var s := After(INITIAL, acts);
    var i: nat :| i < |s.history.fates| && s.history.fates[i].payload == x;
    FateInvAlways(acts, x.job.key);
    assert Settling(s, i, x.job.key);
    SettledOnlyIfTold(acts, i);
    assert s.history.fates[i] == Fate(x, s.history.fates[i].how);
  }

  /** The n-th step of the run loses this payload. */
  predicate LostAt(acts: seq<Action>, n: nat, x: Payload)
    requires n < |acts|
  {
    && Runs(INITIAL, acts[..n]) && Enabled(After(INITIAL, acts[..n]), acts[n])
    && LosesIt(After(INITIAL, acts[..n]), acts[n], x)
  }

  ghost predicate LostIn(acts: seq<Action>, x: Payload) {
    exists n :: 0 <= n < |acts| && LostAt(acts, n, x)
  }

  lemma {:induction false} GoneIsLost(acts: seq<Action>, c: Cause, x: Payload)
    requires Runs(INITIAL, acts) && Fate(x, Gone(c)) in After(INITIAL, acts).history.fates
    ensures LostIn(acts, x)
    decreases |acts|
  {
    if Fate(x, Gone(c)) in After(INITIAL, Front(acts)).history.fates {
      GoneIsLost(Front(acts), c, x);
      StaysLost(acts, x);
    } else {
      NewLoss(After(INITIAL, Front(acts)), Last(acts), c, x);
      assert LostAt(acts, |acts| - 1, x);
    }
  }

  lemma StaysLost(acts: seq<Action>, x: Payload)
    requires acts != [] && LostIn(Front(acts), x)
    ensures LostIn(acts, x)
  {
    var front := Front(acts);
    var n :| 0 <= n < |front| && LostAt(front, n, x);
    assert front[..n] == acts[..n];
    assert LostAt(acts, n, x);
  }

  /** Dispatched, stored nowhere, and nobody has been told how it ended. */
  ghost predicate Lost(s: State, x: Payload)
    requires x.Wire?
  {
    x in s.history.dispatched && (forall l :: x !in At(s, l)) && !Told(s.log, x.job.key)
  }

  /** The four steps: a popped payload whose reply is lost, a failed push, a failed report, and a sweep that stops
      with a payload in hand. */
  predicate LosesIt(s: State, a: Action, x: Payload)
    requires Enabled(s, a)
  {
    || (a.Pop? && a.reply.Lost? && x == Last(At(s, Processing(a.list.0, a.list.1))))
    || (a.Push? && a.reply.Error? && x == Held(s, a.sweep))
    || (a.Report? && a.reply.Error? && x == Held(s, a.sweep))
    || (a.Stop? && Holds(s, a.sweep) && x == Held(s, a.sweep))
  }

  /** A job gets lost by exactly these steps, when it has not been reported before. Worker crashes and lost LMOVE
      replies are not among them. */
  lemma LossSteps(acts: seq<Action>, a: Action, x: Payload)
    requires x.Wire? && MeetingRun(acts + [a], MARKERS_MAY_FAIL, x.job.key)
    requires Runs(INITIAL, acts) && Enabled(After(INITIAL, acts), a)
    ensures var s := After(INITIAL, acts);
            (!Lost(s, x) && Lost(Apply(s, a), x) <==> LosesIt(s, a, x) && !Told(s.log, x.job.key))
  {
    assert Front(acts + [a]) == acts;
    var s := After(INITIAL, acts);
    if LosesIt(s, a, x) && !Told(s.log, x.job.key) {
      LosesWhatWasThere(acts, a, x);
    }
    OnlyTheseLose(acts, a, x);
  }

  lemma LosesWhatWasThere(acts: seq<Action>, a: Action, x: Payload)
    requires x.Wire? && MeetingRun(acts + [a], MARKERS_MAY_FAIL, x.job.key)
             && MeetingRun(acts, MARKERS_MAY_FAIL, x.job.key)
    requires Enabled(After(INITIAL, acts), a) && After(INITIAL, acts + [a]) == Apply(After(INITIAL, acts), a)
    requires var s := After(INITIAL, acts); LosesIt(s, a, x) && !Told(s.log, x.job.key)
    ensures var s := After(INITIAL, acts); !Lost(s, x) && Lost(Apply(s, a), x)
  {
    var s := After(INITIAL, acts);
    var s' := Apply(s, a);
    KeyInvAlways(acts, x.job.key, false);
    var l := if a.Pop? then Processing(a.list.0, a.list.1) else InHand(a.sweep);
    InReach(s, a, x, l);
    StoredIsDispatched(s, l, x);
    LossIsTagged(s, a, x);
    LastIsFate(s', x);
    PlaceOrFate(acts + [a], x);
  }

  lemma InReach(s: State, a: Action, x: Payload, l: Place)
    requires Enabled(s, a) && LosesIt(s, a, x)
    requires l == if a.Pop? then Processing(a.list.0, a.list.1) else InHand(a.sweep)
    ensures x in At(s, l)
  {
  }

  lemma LastIsFate(s: State, x: Payload)
    requires s.history.fates != [] && Last(s.history.fates).payload == x
    ensures HasFate(s, x)
  {
    assert s.history.fates[|s.history.fates| - 1].payload == x;
  }

  /** What the four steps leave behind. */
  lemma LossIsTagged(s: State, a: Action, x: Payload)
    requires Enabled(s, a) && LosesIt(s, a, x)
    ensures |Apply(s, a).history.fates| == |s.history.fates| + 1 && Last(Apply(s, a).history.fates).payload == x
    ensures Apply(s, a).log == s.log && Apply(s, a).history.dispatched == s.history.dispatched
  {
  }

  lemma OnlyTheseLose(acts: seq<Action>, a: Action, x: Payload)
    requires x.Wire? && MeetingRun(acts + [a], MARKERS_MAY_FAIL, x.job.key)
             && MeetingRun(acts, MARKERS_MAY_FAIL, x.job.key)
    requires Enabled(After(INITIAL, acts), a) && After(INITIAL, acts + [a]) == Apply(After(INITIAL, acts), a)
    ensures var s := After(INITIAL, acts);
            !Lost(s, x) && Lost(Apply(s, a), x) ==> LosesIt(s, a, x) && !Told(s.log, x.job.key)
  {
    var s := After(INITIAL, acts);
    var s' := Apply(s, a);
    if !Lost(s, x) && Lost(s', x) {
      if Told(s.log, x.job.key) {
        LogGrows(s, a);
        ToldStays(s.log, s'.log, x.job.key);
      }
      PlaceOrFate(acts, x);
      PlaceOrFate(acts + [a], x);
      NotLostByDispatch(s, a, x);
      var c :| Fate(x, Gone(c)) in s'.history.fates;
      NewLoss(s, a, c, x);
    }
  }

  lemma NotLostByDispatch(s: State, a: Action, x: Payload)
    requires Enabled(s, a) && x in Apply(s, a).history.dispatched && forall l :: x !in At(Apply(s, a), l)
    ensures x in s.history.dispatched
  {
    DispatchedFrame(s, a);
    if a.Dispatch? {
      assert At(Apply(s, a), Queue(a.priority))[0] == a.payload;
      assert a.payload in At(Apply(s, a), Queue(a.priority));
    }
  }

  lemma FatesGrow(s: State, a: Action)
    requires Enabled(s, a)
    ensures s.history.fates <= Apply(s, a).history.fates && |Apply(s, a).history.fates| <= |s.history.fates| + 1
  {
    if a.Remove? {
      RemoveFate(s, a.exec, a.reply);
    } else if !a.Report? {
      NewFate(s, a);
    }
  }

  lemma AddedFate(s: State, a: Action, f: Fate)
    requires Enabled(s, a) && f in Apply(s, a).history.fates && f !in s.history.fates
    ensures Apply(s, a).history.fates == s.history.fates + [f]
  {
    FatesGrow(s, a);
    OneMore(s.history.fates, Apply(s, a).history.fates, f);
  }

  lemma OneMore(xs: seq<Fate>, ys: seq<Fate>, f: Fate)
    requires xs <= ys && |ys| <= |xs| + 1 && f in ys && f !in xs
    ensures ys == xs + [f]
  {
    assert ys == xs + ys[|xs|..];
  }

  lemma NewLoss(s: State, a: Action, c: Cause, x: Payload)
    requires Enabled(s, a)
    requires Fate(x, Gone(c)) in Apply(s, a).history.fates && Fate(x, Gone(c)) !in s.history.fates
    ensures LosesIt(s, a, x)
  {
    AddedFate(s, a, Fate(x, Gone(c)));
    if a.Remove? {
      RemoveFate(s, a.exec, a.reply);
    } else if a.Pop? {
      LossByPop(s, a.sweep, a.list, a.reply, c, x);
    } else if !(a.Push? && a.reply.Error?) && !a.Report? && !(a.Stop? && Holds(s, a.sweep)) {
      OtherFates(s, a);
    }
  }

  lemma LossByPop(s: State, r: SweepId, t: ListId, reply: Reply, c: Cause, x: Payload)
    requires Enabled(s, Pop(r, t, reply))
    ensures DoPop(s, r, t, reply).history.fates == s.history.fates + [Fate(x, Gone(c))] <==>
              reply.Lost? && c.PopReplyLost? && x == Last(At(s, Processing(t.0, t.1)))
  {
    var fates' := DoPop(s, r, t, reply).history.fates;
    if fates' == s.history.fates + [Fate(x, Gone(c))] {
      assert Last(fates') == Fate(x, Gone(c));
    }
  }
}
