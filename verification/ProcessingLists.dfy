/** Processing lists against the deliveries that are out, worker by worker: all that is assumed is that no scan selects
    a list of this worker while it runs. Payloads may repeat, byte for byte. */
module ProcessingLists {
  import opened Bags
  import opened Protocol
  import opened Frames

  /** The deliveries worker `w` took at priority `p` and has not acknowledged: in work or given up on. */
  function Mine(s: State, w: WorkerId, p: Priority): map<ExecId, seq<Payload>> {
    map e | e in s.fleet.checkouts && s.fleet.checkouts[e].worker == w && s.fleet.checkouts[e].priority == p
      :: [s.fleet.checkouts[e].payload]
  }

  ghost predicate ListMatches(s: State, w: WorkerId, p: Priority) {
    w in s.fleet.running ==> multiset(At(s, Processing(w, p))) == Bag(Mine(s, w, p))
  }

  predicate UnstartedEmpty(s: State, w: WorkerId, p: Priority) {
    w !in s.fleet.started ==> w !in s.fleet.running && At(s, Processing(w, p)) == []
  }

  predicate OwnerRuns(s: State, e: ExecId) {
    && (e in s.fleet.checkouts ==> s.fleet.checkouts[e].worker in s.fleet.running)
    && (e >= s.fleet.nextExec ==> e !in s.fleet.checkouts)
  }

  /** A list of `w` that a sweep has selected belongs to a stopped worker. */
  predicate NotTargeted(s: State, r: SweepId, w: WorkerId) {
    r in s.sweeps ==>
      forall t :: t in s.sweeps[r].targets && t.0 == w ==> w in s.fleet.started && w !in s.fleet.running
  }

  ghost predicate WorkerInv(s: State, w: WorkerId) {
    && (forall p :: ListMatches(s, w, p))
    && (forall p :: UnstartedEmpty(s, w, p))
    && (forall r :: NotTargeted(s, r, w))
  }

  ghost predicate OwnersRun(s: State) {
    forall e :: OwnerRuns(s, e)
  }

  predicate TargetsDead(s: State, r: SweepId) {
    r in s.sweeps ==> forall t :: t in s.sweeps[r].targets ==> t.0 in s.fleet.started && t.0 !in s.fleet.running
  }

  /** The same for all workers at once. */
  ghost predicate ListsInv(s: State) {
    && (forall w, p :: ListMatches(s, w, p))
    && (forall w, p :: UnstartedEmpty(s, w, p))
    && OwnersRun(s)
    && (forall r :: TargetsDead(s, r))
  }

  /** The action moves entries into or out of this processing list. */
  predicate Touches(s: State, a: Action, w: WorkerId, p: Priority)
    requires Enabled(s, a)
  {
    || (a.Move? && a.worker == w && a.priority == p)
    || (a.Remove? && s.fleet.checkouts[a.exec].worker == w && s.fleet.checkouts[a.exec].priority == p)
    || (a.Pop? && a.list == (w, p))
  }

  lemma ListFrame(s: State, a: Action, w: WorkerId, p: Priority)
    requires Enabled(s, a) && !Touches(s, a, w, p)
    ensures At(Apply(s, a), Processing(w, p)) == At(s, Processing(w, p))
  {
  }

  predicate SameDelivery(s: State, s': State, e: ExecId, w: WorkerId, p: Priority) {
    && (e in Mine(s', w, p) <==> e in Mine(s, w, p))
    && (e in Mine(s, w, p) ==> Mine(s', w, p)[e] == Mine(s, w, p)[e])
  }

  /** The delivery is gone, or still has its worker, priority and payload. */
  predicate SameShape(s: State, t: State, e: ExecId) {
    e in s.fleet.checkouts && e in t.fleet.checkouts ==>
      t.fleet.checkouts[e] == s.fleet.checkouts[e].(pc := t.fleet.checkouts[e].pc)
  }

  lemma OwnShape(s: State, a: Action, e: ExecId)
    requires Enabled(s, a) && ByExec(a, e)
    ensures e in s.fleet.checkouts && SameShape(s, Apply(s, a), e)
    ensures e !in Apply(s, a).fleet.checkouts ==> a.Remove?
  {
  }

  lemma OwnDelivery(s: State, a: Action, e: ExecId, w: WorkerId, p: Priority)
    requires Enabled(s, a) && ByExec(a, e) && !Touches(s, a, w, p)
    ensures SameDelivery(s, Apply(s, a), e, w, p)
  {
    OwnShape(s, a, e);
    ShapeDecides(s, Apply(s, a), e, w, p);
  }

  lemma ShapeDecides(s: State, t: State, e: ExecId, w: WorkerId, p: Priority)
    requires e in s.fleet.checkouts && SameShape(s, t, e)
    requires e in t.fleet.checkouts || s.fleet.checkouts[e].worker != w || s.fleet.checkouts[e].priority != p
    ensures SameDelivery(s, t, e, w, p)
  {
  }

  lemma DeliveryStep(s: State, a: Action, e: ExecId, w: WorkerId, p: Priority)
    requires Enabled(s, a) && !Touches(s, a, w, p) && a != Crash(w)
    requires OwnerRuns(s, s.fleet.nextExec)
    ensures SameDelivery(s, Apply(s, a), e, w, p)
  {
    if ByExec(a, e) {
      OwnDelivery(s, a, e, w, p);
    } else if !(a.Move? && e == s.fleet.nextExec) {
      ExecFrame(s, a, e);
    }
  }

  lemma SameMine(s: State, s': State, w: WorkerId, p: Priority)
    requires forall e :: SameDelivery(s, s', e, w, p)
    ensures Mine(s', w, p) == Mine(s, w, p)
  {
    forall e
      ensures e in Mine(s', w, p) <==> e in Mine(s, w, p)
      ensures e in Mine(s, w, p) ==> Mine(s', w, p)[e] == Mine(s, w, p)[e]
    {
      assert SameDelivery(s, s', e, w, p);
    }
  }

  lemma MineFrame(s: State, a: Action, w: WorkerId, p: Priority)
    requires Enabled(s, a) && !Touches(s, a, w, p) && a != Crash(w)
    requires OwnerRuns(s, s.fleet.nextExec)
    ensures Mine(Apply(s, a), w, p) == Mine(s, w, p)
  {
    forall e
      ensures SameDelivery(s, Apply(s, a), e, w, p)
    {
      DeliveryStep(s, a, e, w, p);
    }
    SameMine(s, Apply(s, a), w, p);
  }

  lemma FleetGrows(s: State, a: Action)
    requires Enabled(s, a)
    ensures s.fleet.started <= Apply(s, a).fleet.started
    ensures Apply(s, a).fleet.running == (if a.Start? then s.fleet.running + {a.worker}
                                          else if a.Crash? then s.fleet.running - {a.worker} else s.fleet.running)
    ensures Apply(s, a).fleet.started == (if a.Start? then s.fleet.started + {a.worker} else s.fleet.started)
  {
    if BySweepAction(a) {
      SweepKeeps(s, a);
    }
  }

  lemma MineAdded(s: State, w: WorkerId, p: Priority, reply: Reply)
    requires Enabled(s, Move(w, p, reply))
    ensures Mine(DoMove(s, w, p, reply), w, p) == Mine(s, w, p)[s.fleet.nextExec := [Last(At(s, Queue(p)))]]
  {
  }

  lemma MoveMatches(s: State, w: WorkerId, p: Priority, reply: Reply)
    requires Enabled(s, Move(w, p, reply)) && ListMatches(s, w, p) && OwnerRuns(s, s.fleet.nextExec)
    ensures ListMatches(DoMove(s, w, p, reply), w, p)
  {
    var x, e := Last(At(s, Queue(p))), s.fleet.nextExec;
    MineAdded(s, w, p, reply);
    BagGive(Mine(s, w, p), e, [x], x);
    assert At(DoMove(s, w, p, reply), Processing(w, p)) == [x] + At(s, Processing(w, p));
  }

  lemma InList(s: State, e: ExecId)
    requires e in s.fleet.checkouts
    requires ListMatches(s, s.fleet.checkouts[e].worker, s.fleet.checkouts[e].priority) && OwnerRuns(s, e)
    ensures var c := s.fleet.checkouts[e]; c.payload in At(s, Processing(c.worker, c.priority))
  {
    var c := s.fleet.checkouts[e];
    BagHas(Mine(s, c.worker, c.priority), e);
    assert c.payload in multiset(Lookup(Mine(s, c.worker, c.priority), e));
  }

  lemma MineRemoved(s: State, e: ExecId, reply: Reply)
    requires Enabled(s, Remove(e, reply)) && !reply.Error?
    ensures var c := s.fleet.checkouts[e];
            Mine(DoRemove(s, e, reply), c.worker, c.priority) == Mine(s, c.worker, c.priority) - {e}
  {
  }

  lemma MineUnremoved(s: State, e: ExecId, w: WorkerId, p: Priority)
    requires Enabled(s, Remove(e, Error))
    ensures Mine(DoRemove(s, e, Error), w, p) == Mine(s, w, p)
  {
  }

  lemma RemoveMatches(s: State, e: ExecId, reply: Reply)
    requires Enabled(s, Remove(e, reply)) && OwnerRuns(s, e)
    requires ListMatches(s, s.fleet.checkouts[e].worker, s.fleet.checkouts[e].priority)
    ensures ListMatches(DoRemove(s, e, reply), s.fleet.checkouts[e].worker, s.fleet.checkouts[e].priority)
  {
    var c := s.fleet.checkouts[e];
    var l := Processing(c.worker, c.priority);
    if reply.Error? {
      MineUnremoved(s, e, c.worker, c.priority);
    } else {
      InList(s, e);
      BagSplit(Mine(s, c.worker, c.priority), e);
      MineRemoved(s, e, reply);
      assert At(DoRemove(s, e, reply), l) == RemoveFirst(At(s, l), c.payload);
    }
  }

  lemma StartMatches(s: State, w: WorkerId, p: Priority)
    requires Enabled(s, Start(w)) && UnstartedEmpty(s, w, p) && forall e :: OwnerRuns(s, e)
    ensures ListMatches(Apply(s, Start(w)), w, p)
  {
    forall e
      ensures e !in Mine(s, w, p)
    {
      assert OwnerRuns(s, e);
    }
    assert Mine(s, w, p) == map[];
  }

  lemma TouchedMatches(s: State, a: Action, w: WorkerId, p: Priority)
    requires Enabled(s, a) && WorkerInv(s, w) && OwnersRun(s) && Touches(s, a, w, p)
    ensures ListMatches(Apply(s, a), w, p)
  {
    assert ListMatches(s, w, p) && OwnerRuns(s, s.fleet.nextExec);
    if a.Move? {
      MoveMatches(s, w, p, a.reply);
    } else if a.Remove? {
      assert OwnerRuns(s, a.exec);
      RemoveMatches(s, a.exec, a.reply);
    } else {
      assert NotTargeted(s, a.sweep, w);
      FleetGrows(s, a);
    }
  }

  lemma ListMatchesStep(s: State, a: Action, w: WorkerId, p: Priority)
    requires Enabled(s, a) && WorkerInv(s, w) && OwnersRun(s)
    ensures ListMatches(Apply(s, a), w, p)
  {
    assert ListMatches(s, w, p) && UnstartedEmpty(s, w, p) && OwnerRuns(s, s.fleet.nextExec);
    FleetGrows(s, a);
    if a == Start(w) {
      StartMatches(s, w, p);
    } else if Touches(s, a, w, p) {
      TouchedMatches(s, a, w, p);
    } else if a != Crash(w) {
      ListFrame(s, a, w, p);
      MineFrame(s, a, w, p);
    }
  }

  lemma UnstartedStep(s: State, a: Action, w: WorkerId, p: Priority)
    requires Enabled(s, a) && WorkerInv(s, w) && OwnersRun(s)
    ensures UnstartedEmpty(Apply(s, a), w, p)
  {
    assert UnstartedEmpty(s, w, p);
    FleetGrows(s, a);
    if a.Remove? { assert OwnerRuns(s, a.exec); }
    if a.Pop? { assert NotTargeted(s, a.sweep, w); }
    if w !in s.fleet.started && !Touches(s, a, w, p) {
      ListFrame(s, a, w, p);
    }
  }

  lemma OwnerRunsStep(s: State, a: Action, e: ExecId)
    requires Enabled(s, a) && OwnerRuns(s, e)
    ensures OwnerRuns(Apply(s, a), e)
  {
    FleetGrows(s, a);
    if !ByExec(a, e) && !(a.Move? && e == s.fleet.nextExec) {
      ExecFrame(s, a, e);
    }
  }

  lemma NotTargetedStep(s: State, a: Action, r: SweepId, w: WorkerId)
    requires Enabled(s, a) && Spares(s, a, w) && NotTargeted(s, r, w) && forall p :: UnstartedEmpty(s, w, p)
    ensures NotTargeted(Apply(s, a), r, w)
  {
    FleetGrows(s, a);
    if !BySweepAction(a) {
      FleetKeeps(s, a);
    } else if a.sweep != r {
      SweepFrame(s, a, r);
    } else if a.Scan? {
      forall t | t in a.found && t.0 == w
        ensures w in s.fleet.started
      {
        assert UnstartedEmpty(s, w, t.1);
      }
    } else {
      OwnTargets(s, a);
    }
  }

  lemma OwnTargets(s: State, a: Action)
    requires Enabled(s, a) && BySweepAction(a) && !a.Scan?
    ensures a.sweep in Apply(s, a).sweeps ==>
              Apply(s, a).sweeps[a.sweep].targets == (if a.sweep in s.sweeps then s.sweeps[a.sweep].targets else {})
  {
  }

  lemma WorkerStep(s: State, a: Action, w: WorkerId)
    requires Enabled(s, a) && Spares(s, a, w) && WorkerInv(s, w) && OwnersRun(s)
    ensures WorkerInv(Apply(s, a), w)
  {
    forall p
      ensures ListMatches(Apply(s, a), w, p) && UnstartedEmpty(Apply(s, a), w, p)
    {
      ListMatchesStep(s, a, w, p);
      UnstartedStep(s, a, w, p);
    }
    forall r
      ensures NotTargeted(Apply(s, a), r, w)
    {
      NotTargetedStep(s, a, r, w);
    }
  }

  lemma {:induction false} OwnersAlways(acts: seq<Action>)
    requires Runs(INITIAL, acts)
    ensures OwnersRun(After(INITIAL, acts))
    decreases |acts|
  {
    if acts != [] {
      OwnersAlways(Front(acts));
      forall e
        ensures OwnerRuns(After(INITIAL, acts), e)
      {
        OwnerRunsStep(After(INITIAL, Front(acts)), Last(acts), e);
      }
    }
  }

  lemma StartsEmpty(w: WorkerId)
    ensures WorkerInv(INITIAL, w)
  {
    forall p
      ensures ListMatches(INITIAL, w, p)
    {
      assert Mine(INITIAL, w, p) == map[];
    }
  }

  lemma {:induction false} WorkerAlways(acts: seq<Action>, w: WorkerId)
    requires SparedRun(acts, w)
    ensures WorkerInv(After(INITIAL, acts), w)
    decreases |acts|
  {
    if acts == [] {
      StartsEmpty(w);
    } else {
      WorkerAlways(Front(acts), w);
      OwnersAlways(Front(acts));
      WorkerStep(After(INITIAL, Front(acts)), Last(acts), w);
    }
  }

  lemma ListsAlways(acts: seq<Action>)
    requires LivenessRun(acts)
    ensures ListsInv(After(INITIAL, acts))
  {
    var s := After(INITIAL, acts);
    OwnersAlways(acts);
    forall w
      ensures WorkerInv(s, w)
    {
      LiveSparesAll(acts, w);
      WorkerAlways(acts, w);
    }
    forall w, p
      ensures ListMatches(s, w, p) && UnstartedEmpty(s, w, p)
    {
      assert WorkerInv(s, w);
    }
    forall r
      ensures TargetsDead(s, r)
    {
      forall t | r in s.sweeps && t in s.sweeps[r].targets
        ensures t.0 in s.fleet.started && t.0 !in s.fleet.running
      {
        assert WorkerInv(s, t.0) && NotTargeted(s, r, t.0);
      }
    }
  }

  /** The multiset of payloads in a running worker's processing list is the multiset of the payloads it took
      there and has not acknowledged. */
  lemma ListsAreUnacknowledged(acts: seq<Action>, w: WorkerId, p: Priority)
    requires SparedRun(acts, w) && w in After(INITIAL, acts).fleet.running
    ensures multiset(At(After(INITIAL, acts), Processing(w, p))) == Bag(Mine(After(INITIAL, acts), w, p))
  {
    WorkerAlways(acts, w);
    assert ListMatches(After(INITIAL, acts), w, p);
  }

  /** An LREM that executes removes exactly one entry, an equal of the delivery it is for: the
      "removed nothing" error cannot occur, and no other list changes. */
  lemma AckRemovesOne(acts: seq<Action>, e: ExecId, reply: Reply)
    requires Runs(INITIAL, acts) && Enabled(After(INITIAL, acts), Remove(e, reply)) && !reply.Error?
    requires SparedRun(acts, After(INITIAL, acts).fleet.checkouts[e].worker)
    ensures var s := After(INITIAL, acts);
            var s' := Apply(s, Remove(e, reply));
            var c := s.fleet.checkouts[e];
            && multiset(At(s', Processing(c.worker, c.priority))) + multiset{c.payload}
               == multiset(At(s, Processing(c.worker, c.priority)))
            && (forall l :: l != Processing(c.worker, c.priority) ==> At(s', l) == At(s, l))
            && e !in s'.fleet.checkouts
  {
    var s := After(INITIAL, acts);
    WorkerAlways(acts, s.fleet.checkouts[e].worker);
    OwnersAlways(acts);
    assert OwnerRuns(s, e) && ListMatches(s, s.fleet.checkouts[e].worker, s.fleet.checkouts[e].priority);
    InList(s, e);
    RemoveTakesOne(s, e, reply);
  }

  lemma RemoveTakesOne(s: State, e: ExecId, reply: Reply)
    requires Enabled(s, Remove(e, reply)) && !reply.Error?
    requires var c := s.fleet.checkouts[e]; c.payload in At(s, Processing(c.worker, c.priority))
    ensures var s' := DoRemove(s, e, reply);
            var c := s.fleet.checkouts[e];
            && multiset(At(s', Processing(c.worker, c.priority))) + multiset{c.payload}
               == multiset(At(s, Processing(c.worker, c.priority)))
            && (forall l :: l != Processing(c.worker, c.priority) ==> At(s', l) == At(s, l))
            && e !in s'.fleet.checkouts
  {
  }

  // Workers in every snapshot --------------------------------------------

  /** The worker is in the liveness snapshot of every sweep. */
  predicate InEverySnapshot(acts: seq<Action>, w: WorkerId) {
    forall i :: 0 <= i < |acts| && acts[i].Snapshot? ==> w in acts[i].live
  }

  predicate SeenLive(s: State, r: SweepId, w: WorkerId) {
    r in s.sweeps && s.sweeps[r].Scanning? ==> w in s.sweeps[r].live
  }

  lemma SeenLiveStep(s: State, a: Action, r: SweepId, w: WorkerId)
    requires Enabled(s, a) && SeenLive(s, r, w) && (a.Snapshot? ==> w in a.live)
    ensures SeenLive(Apply(s, a), r, w)
  {
    if !BySweepAction(a) {
      FleetKeeps(s, a);
    } else if a.sweep != r {
      SweepFrame(s, a, r);
    } else {
      OwnScan(s, a);
    }
  }

  /** A sweep's snapshot does not change while it scans. */
  lemma OwnScan(s: State, a: Action)
    requires Enabled(s, a) && BySweepAction(a)
    ensures a.sweep in Apply(s, a).sweeps && Apply(s, a).sweeps[a.sweep].Scanning? ==>
              if a.Snapshot? then Apply(s, a).sweeps[a.sweep].live == a.live
              else a.sweep in s.sweeps && s.sweeps[a.sweep].Scanning?
                   && Apply(s, a).sweeps[a.sweep].live == s.sweeps[a.sweep].live
  {
  }

  /** Such a worker is spared, whatever happens to others. */
  lemma {:induction false} SnapshotSpares(acts: seq<Action>, w: WorkerId)
    requires Runs(INITIAL, acts) && InEverySnapshot(acts, w)
    ensures SparedRun(acts, w) && forall r :: SeenLive(After(INITIAL, acts), r, w)
    decreases |acts|
  {
    if acts != [] {
      var s, a := After(INITIAL, Front(acts)), Last(acts);
      assert forall i :: 0 <= i < |Front(acts)| ==> Front(acts)[i] == acts[i];
      SnapshotSpares(Front(acts), w);
      assert a.Scan? ==> SeenLive(s, a.sweep, w);
      forall r
        ensures SeenLive(Apply(s, a), r, w)
      {
        assert SeenLive(s, r, w);
        SeenLiveStep(s, a, r, w);
      }
    }
  }

  /** The lists of a running worker that is in every snapshot hold what it has not acknowledged. */
  lemma SnapshotListsAreUnacknowledged(acts: seq<Action>, w: WorkerId, p: Priority)
    requires Runs(INITIAL, acts) && InEverySnapshot(acts, w) && w in After(INITIAL, acts).fleet.running
    ensures multiset(At(After(INITIAL, acts), Processing(w, p))) == Bag(Mine(After(INITIAL, acts), w, p))
  {
    SnapshotSpares(acts, w);
    ListsAreUnacknowledged(acts, w, p);
  }
}
