/** Safety of the queue for one key `k`: one payload with that key, no running worker's list is swept, and, where `m`
    holds, the key's publish markers are written. Without `m` only the part about claims remains. */
module SingleExecution {
  import opened Bags
  import opened Protocol
  import opened Frames
  import opened Conservation
  import opened PublishOrder
  import opened ProcessingLists

  predicate Clean(s: State, k: string, m: bool) {
    k !in s.keys.claims && (m ==> k !in s.keys.published)
  }

  ghost predicate UniqueKey(s: State, k: string) {
    forall x, y :: x in s.history.dispatched && y in s.history.dispatched && HasKey(x, k) && HasKey(y, k) ==>
      x == y && s.history.dispatched[x] == 1
  }

  ghost predicate Used(s: State, k: string) {
    exists x :: x in s.history.dispatched && HasKey(x, k)
  }

  predicate QueueOk(s: State, k: string, m: bool, p: Priority) {
    forall x :: x in At(s, Queue(p)) && HasKey(x, k) ==> Clean(s, k, m)
  }

  predicate CheckoutOk(s: State, k: string, m: bool, e: ExecId) {
    e in s.fleet.checkouts && HasKey(s.fleet.checkouts[e].payload, k) ==>
      match s.fleet.checkouts[e].pc
      case Fresh => Clean(s, k, m)
      case Running => m ==> k !in s.keys.published
      case Publishing(sent, marked) => m ==> (k in s.keys.published <==> sent > 0 || marked)
      case Removing(why) => !why.Duplicate? && (m && why.Settled? ==> k in s.keys.published)
      case Stranded => true
  }

  predicate HandClean(s: State, k: string, m: bool, r: SweepId) {
    Holds(s, r) && HeldKey(s, r) == k ==>
      && (m && StageOf(s, r).Releasing? ==> k !in s.keys.published)
      && (StageOf(s, r).Pushing? ==> Clean(s, k, m))
  }

  predicate Authored(log: seq<Entry>, i: nat, k: string) {
    i < |log| && log[i].author.Execution? && log[i].event.key == k
  }

  predicate Working(s: State, e: ExecId, k: string) {
    && e in s.fleet.checkouts && HasKey(s.fleet.checkouts[e].payload, k)
    && !s.fleet.checkouts[e].pc.Stranded?
  }

  /** Who has published for this key: nobody before the marker, and only ever one execution. */
  ghost predicate LogOk(s: State, k: string) {
    && (forall i: nat :: Authored(s.log, i, k) ==> k in s.keys.published)
    && (forall i: nat, j: nat :: Authored(s.log, i, k) && Authored(s.log, j, k) ==> s.log[i].author == s.log[j].author)
    && (forall i: nat, e :: Authored(s.log, i, k) && Working(s, e, k) ==> s.log[i].author == Execution(e))
  }

  ghost predicate KeyInv(s: State, k: string, m: bool) {
    && UniqueKey(s, k)
    && (!Used(s, k) ==> Clean(s, k, m))
    && (forall p :: QueueOk(s, k, m, p))
    && (forall e :: CheckoutOk(s, k, m, e))
    && (forall r :: HandClean(s, k, m, r))
    && (m ==> LogOk(s, k))
  }

  ghost predicate Base(s: State) {
    Balanced(s) && HandsMatch(s) && ListsInv(s) && forall e :: ExecOk(s, e)
  }

  // ---------------------------------------------------------------------
  // A key is in one place
  // ---------------------------------------------------------------------

  lemma StoredIsDispatched(s: State, l: Place, x: Payload)
    requires Balanced(s) && x in At(s, l)
    ensures x in s.history.dispatched
  {
    BagHas(s.store, l);
    assert x in multiset(At(s, l));
  }

  lemma Exclusive(s: State, k: string, l: Place, m: Place, x: Payload, y: Payload)
    requires Balanced(s) && UniqueKey(s, k)
    requires x in At(s, l) && y in At(s, m) && HasKey(x, k) && HasKey(y, k)
    ensures x == y && l == m && multiset(At(s, l))[x] == 1
    ensures multiset(Payloads(s.history.fates))[x] == 0
  {
    StoredIsDispatched(s, l, x);
    StoredIsDispatched(s, m, y);
    assert x in multiset(At(s, l)) && y in multiset(At(s, m));
    BagHas(s.store, l);
    assert s.history.dispatched[x] == Bag(s.store)[x] + multiset(Payloads(s.history.fates))[x];
    if l != m {
      BagHasBoth(s.store, l, m);
    }
  }

  lemma CheckoutStored(s: State, e: ExecId)
    requires Base(s) && e in s.fleet.checkouts
    ensures var c := s.fleet.checkouts[e];
            && c.payload in At(s, Processing(c.worker, c.priority))
            && c.payload in s.history.dispatched
  {
    var c := s.fleet.checkouts[e];
    assert OwnerRuns(s, e) && ListMatches(s, c.worker, c.priority);
    InList(s, e);
    StoredIsDispatched(s, Processing(c.worker, c.priority), c.payload);
  }

  lemma OneCheckout(s: State, k: string, d: ExecId, e: ExecId)
    requires Base(s) && UniqueKey(s, k)
    requires d in s.fleet.checkouts && HasKey(s.fleet.checkouts[d].payload, k)
    requires e in s.fleet.checkouts && HasKey(s.fleet.checkouts[e].payload, k)
    ensures d == e
  {
    var c, b := s.fleet.checkouts[d], s.fleet.checkouts[e];
    CheckoutStored(s, d);
    CheckoutStored(s, e);
    Exclusive(s, k, Processing(c.worker, c.priority), Processing(b.worker, b.priority), c.payload, b.payload);
    if d != e {
      var mine := Mine(s, c.worker, c.priority);
      assert ListMatches(s, c.worker, c.priority) && OwnerRuns(s, d);
      BagHasBoth(mine, d, e);
    }
  }

  /** While a worker has the job checked out, it is neither queued nor in any sweep's hand. */
  lemma CheckedOutOnly(s: State, k: string, e: ExecId, l: Place, y: Payload)
    requires Base(s) && UniqueKey(s, k) && e in s.fleet.checkouts && HasKey(s.fleet.checkouts[e].payload, k)
    requires y in At(s, l) && HasKey(y, k)
    ensures l.Processing?
  {
    CheckoutStored(s, e);
    var c := s.fleet.checkouts[e];
    Exclusive(s, k, Processing(c.worker, c.priority), l, c.payload, y);
  }

  // ---------------------------------------------------------------------
  // Which steps move a key
  // ---------------------------------------------------------------------

  predicate Claims(s: State, a: Action, k: string) {
    a.Claim? && Enabled(s, a) && KeyOf(s, a.exec) == k
  }

  predicate Marks(s: State, a: Action, k: string) {
    a.Mark? && Enabled(s, a) && KeyOf(s, a.exec) == k
  }

  predicate Releases(s: State, a: Action, k: string) {
    a.Release? && Enabled(s, a) && HeldKey(s, a.sweep) == k
  }

  /** Only a claim adds to the claims, only a mark to the markers, and only a release takes a claim away. */
  lemma KeysFrame(s: State, a: Action, k: string)
    requires Enabled(s, a)
    ensures !Claims(s, a, k) && k in Apply(s, a).keys.claims ==> k in s.keys.claims
    ensures !Releases(s, a, k) && k in s.keys.claims ==> k in Apply(s, a).keys.claims
    ensures !Marks(s, a, k) ==> (k in Apply(s, a).keys.published <==> k in s.keys.published)
    ensures k in s.keys.published ==> k in Apply(s, a).keys.published
  {
    if BySweepAction(a) {
      SweepKeeps(s, a);
    }
  }

  lemma QueueFrom(s: State, a: Action, p: Priority, x: Payload)
    requires Enabled(s, a) && x in At(Apply(s, a), Queue(p))
    ensures x in At(s, Queue(p)) || (a.Dispatch? && a.payload == x)
            || (a.Push? && !a.reply.Error? && Held(s, a.sweep) == x)
  {
  }

  lemma DispatchedFrame(s: State, a: Action)
    requires Enabled(s, a)
    ensures Apply(s, a).history.dispatched
         == (if a.Dispatch? then s.history.dispatched + multiset{a.payload} else s.history.dispatched)
  {
    if BySweepAction(a) {
      SweepKeeps(s, a);
    }
  }

  lemma UniqueKeyStep(s: State, a: Action, k: string, m: bool)
    requires Enabled(s, a) && Meets(s, a, Wanted(true, true, m), k) && UniqueKey(s, k)
             && (!Used(s, k) ==> Clean(s, k, m)) && Base(s)
    ensures UniqueKey(Apply(s, a), k)
    ensures !Used(Apply(s, a), k) ==> Clean(Apply(s, a), k, m)
  {
    var s' := Apply(s, a);
    DispatchedFrame(s, a);
    KeysFrame(s, a, k);
    if !Used(s', k) {
      assert forall x :: x in s.history.dispatched ==> x in s'.history.dispatched;
      if Claims(s, a, k) || Marks(s, a, k) {
        CheckoutStored(s, a.exec);
      }
    }
  }

  lemma QueueOkStep(s: State, a: Action, k: string, m: bool, p: Priority)
    requires Enabled(s, a) && Meets(s, a, Wanted(true, true, m), k) && KeyInv(s, k, m) && Base(s)
    ensures QueueOk(Apply(s, a), k, m, p)
  {
    var s' := Apply(s, a);
    forall x | x in At(s', Queue(p)) && HasKey(x, k)
      ensures Clean(s', k, m)
    {
      QueueFrom(s, a, p, x);
      KeysFrame(s, a, k);
      if x in At(s, Queue(p)) {
        assert QueueOk(s, k, m, p);
        if Claims(s, a, k) || Marks(s, a, k) {
          CheckedOutOnly(s, k, a.exec, Queue(p), x);
        }
      } else if a.Push? {
        assert HandClean(s, k, m, a.sweep);
      } else {
        assert !Used(s, k);
      }
    }
  }

  // Checkouts -----------------------------------------------------------

  lemma OwnCheckoutStep(s: State, a: Action, k: string, m: bool, e: ExecId)
    requires Enabled(s, a) && (m ==> MarkerWritten(s, a, k)) && CheckoutOk(s, k, m, e) && ByExec(a, e)
    ensures CheckoutOk(Apply(s, a), k, m, e)
  {
    if a.Claim? {
      assert CheckoutOk(DoClaim(s, e, a.reply), k, m, e);
    } else if a.Mark? {
      assert CheckoutOk(DoMark(s, e, a.reply), k, m, e);
    } else if a.Publish? {
      assert CheckoutOk(DoPublish(s, e, a.reply), k, m, e);
    } else if a.Remove? {
      assert CheckoutOk(DoRemove(s, e, a.reply), k, m, e);
    }
  }

  lemma MovedCheckoutStep(s: State, w: WorkerId, p: Priority, reply: Reply, k: string, m: bool)
    requires Enabled(s, Move(w, p, reply)) && QueueOk(s, k, m, p)
    ensures CheckoutOk(DoMove(s, w, p, reply), k, m, s.fleet.nextExec)
  {
    assert Last(At(s, Queue(p))) in At(s, Queue(p));
  }

  lemma CheckoutOkStep(s: State, a: Action, k: string, m: bool, e: ExecId)
    requires Enabled(s, a) && Meets(s, a, Wanted(true, true, m), k) && KeyInv(s, k, m) && Base(s)
    ensures CheckoutOk(Apply(s, a), k, m, e)
  {
    assert CheckoutOk(s, k, m, e);
    if ByExec(a, e) {
      OwnCheckoutStep(s, a, k, m, e);
    } else if a.Move? && e == s.fleet.nextExec {
      assert QueueOk(s, k, m, a.priority);
      MovedCheckoutStep(s, a.worker, a.priority, a.reply, k, m);
    } else {
      ExecFrame(s, a, e);
      KeysFrame(s, a, k);
      if e in s.fleet.checkouts && HasKey(s.fleet.checkouts[e].payload, k) && (Claims(s, a, k) || Marks(s, a, k)) {
        OneCheckout(s, k, a.exec, e);
      }
    }
  }

  // Hands ---------------------------------------------------------------

  lemma OwnHandStep(s: State, a: Action, k: string, m: bool)
    requires Enabled(s, a) && BySweepAction(a) && HandClean(s, k, m, a.sweep)
    ensures HandClean(Apply(s, a), k, m, a.sweep)
  {
    var r := a.sweep;
    if a.Check? {
      assert HandClean(DoCheck(s, r, a.reply), k, m, r);
    } else if a.Release? {
      assert HandClean(DoRelease(s, r, a.reply), k, m, r);
    } else {
      LateStages(s, a);
    }
  }

  /** Stages `Releasing` and `Pushing` are entered only by the check and the release. */
  lemma LateStages(s: State, a: Action)
    requires Enabled(s, a) && BySweepAction(a) && !a.Check? && !a.Release?
    ensures Holds(Apply(s, a), a.sweep) ==>
              !StageOf(Apply(s, a), a.sweep).Releasing? && !StageOf(Apply(s, a), a.sweep).Pushing?
  {
  }

  lemma SameHandClean(s: State, t: State, k: string, m: bool, r: SweepId)
    requires HandClean(s, k, m, r) && SameHand(s, t, r)
    requires Holds(s, r) && HeldKey(s, r) == k ==>
               (k in t.keys.published ==> k in s.keys.published) && (k in t.keys.claims ==> k in s.keys.claims)
    ensures HandClean(t, k, m, r)
  {
  }

  lemma OtherHand(s: State, a: Action, r: SweepId)
    requires Enabled(s, a) && !(BySweepAction(a) && a.sweep == r)
    ensures SameHand(s, Apply(s, a), r)
  {
    if BySweepAction(a) {
      SweepFrame(s, a, r);
    } else {
      FleetFrame(s, a);
    }
  }

  /** A key in a sweep's hand is neither claimed nor marked meanwhile. */
  lemma HeldUnmoved(s: State, a: Action, k: string, r: SweepId)
    requires Enabled(s, a) && Base(s) && UniqueKey(s, k) && Holds(s, r) && HeldKey(s, r) == k
    ensures !Claims(s, a, k) && !Marks(s, a, k)
  {
    if Claims(s, a, k) || Marks(s, a, k) {
      CheckedOutOnly(s, k, a.exec, InHand(r), Held(s, r));
    }
  }

  lemma HandCleanStep(s: State, a: Action, k: string, m: bool, r: SweepId)
    requires Enabled(s, a) && HandClean(s, k, m, r) && UniqueKey(s, k) && Base(s)
    ensures HandClean(Apply(s, a), k, m, r)
  {
    if BySweepAction(a) && a.sweep == r {
      OwnHandStep(s, a, k, m);
    } else {
      OtherHand(s, a, r);
      KeysFrame(s, a, k);
      if Holds(s, r) && HeldKey(s, r) == k {
        HeldUnmoved(s, a, k, r);
      }
      SameHandClean(s, Apply(s, a), k, m, r);
    }
  }

  // Log -----------------------------------------------------------------

  lemma PublishedKey(s: State, e: ExecId, reply: Reply, k: string)
    requires Enabled(s, Publish(e, reply)) && ExecOk(s, e) && CheckoutOk(s, k, true, e)
    ensures s.fleet.plans[e][PcOf(s, e).sent].key == k ==>
              Working(s, e, k) && k in s.keys.published
  {
  }

  /** A delivery is being worked on after the step only if it was before or has just been checked out. */
  lemma WorkingFrom(s: State, a: Action, e: ExecId, k: string)
    requires Enabled(s, a) && Working(Apply(s, a), e, k)
    ensures Working(s, e, k) || (a.Move? && e == s.fleet.nextExec
                                     && Last(At(s, Queue(a.priority))) in At(s, Queue(a.priority))
                                 && HasKey(Last(At(s, Queue(a.priority))), k))
  {
    if !ByExec(a, e) && !(a.Move? && e == s.fleet.nextExec) {
      ExecFrame(s, a, e);
    }
  }

  lemma NewEntry(s: State, a: Action, i: nat, k: string)
    requires Enabled(s, a) && Authored(Apply(s, a).log, i, k) && !Authored(s.log, i, k)
    requires a.Publish? ==> ExecOk(s, a.exec) && CheckoutOk(s, k, true, a.exec)
    ensures a.Publish? && i == |s.log| && Apply(s, a).log[i].author == Execution(a.exec)
    ensures Working(s, a.exec, k) && k in s.keys.published
  {
    LogGrows(s, a);
    if a.Publish? {
      PublishedKey(s, a.exec, a.reply, k);
    }
  }

  /** An entry after the step was there before, or is what the publishing delivery has just added. */
  lemma EntryFrom(s: State, a: Action, i: nat, k: string)
    requires Enabled(s, a) && KeyInv(s, k, true) && Base(s) && Authored(Apply(s, a).log, i, k)
    ensures k in Apply(s, a).keys.published
    ensures |s.log| <= |Apply(s, a).log| && (i < |s.log| ==> Apply(s, a).log[i] == s.log[i])
    ensures Authored(s.log, i, k)
            || (a.Publish? && Apply(s, a).log[i].author == Execution(a.exec) && Working(s, a.exec, k))
  {
    LogGrows(s, a);
    KeysFrame(s, a, k);
    if !Authored(s.log, i, k) {
      if a.Publish? { assert ExecOk(s, a.exec) && CheckoutOk(s, k, true, a.exec); }
      NewEntry(s, a, i, k);
    }
  }

  lemma AuthorWorks(s: State, a: Action, i: nat, k: string, e: ExecId)
    requires Enabled(s, a) && KeyInv(s, k, true) && Base(s) && Authored(Apply(s, a).log, i, k)
    requires Working(Apply(s, a), e, k)
    ensures Apply(s, a).log[i].author == Execution(e)
  {
    EntryFrom(s, a, i, k);
    WorkingFrom(s, a, e, k);
    assert a.Move? ==> QueueOk(s, k, true, a.priority);
    if Working(s, e, k) && !Authored(s.log, i, k) {
      OneCheckout(s, k, a.exec, e);
    }
  }

  lemma OneAuthor(s: State, a: Action, i: nat, j: nat, k: string)
    requires Enabled(s, a) && KeyInv(s, k, true) && Base(s)
    requires Authored(Apply(s, a).log, i, k) && Authored(Apply(s, a).log, j, k)
    ensures Apply(s, a).log[i].author == Apply(s, a).log[j].author
  {
    EntryFrom(s, a, i, k);
    EntryFrom(s, a, j, k);
  }

  lemma LogOkStep(s: State, a: Action, k: string)
    requires Enabled(s, a) && Meets(s, a, Wanted(true, true, true), k) && KeyInv(s, k, true) && Base(s)
    ensures LogOk(Apply(s, a), k)
  {
    var s' := Apply(s, a);
    forall i: nat | Authored(s'.log, i, k)
      ensures k in s'.keys.published
    {
      EntryFrom(s, a, i, k);
    }
    forall i: nat, j: nat | Authored(s'.log, i, k) && Authored(s'.log, j, k)
      ensures s'.log[i].author == s'.log[j].author
    {
      OneAuthor(s, a, i, j, k);
    }
    forall i: nat, e | Authored(s'.log, i, k) && Working(s', e, k)
      ensures s'.log[i].author == Execution(e)
    {
      AuthorWorks(s, a, i, k, e);
    }
  }

  // ---------------------------------------------------------------------
  // The invariant
  // ---------------------------------------------------------------------

  lemma KeyInvStep(s: State, a: Action, k: string, m: bool)
    requires Enabled(s, a) && Meets(s, a, Wanted(true, true, m), k) && KeyInv(s, k, m) && Base(s)
    ensures KeyInv(Apply(s, a), k, m)
  {
    UniqueKeyStep(s, a, k, m);
    forall p
      ensures QueueOk(Apply(s, a), k, m, p)
    {
      QueueOkStep(s, a, k, m, p);
    }
    forall e
      ensures CheckoutOk(Apply(s, a), k, m, e)
    {
      CheckoutOkStep(s, a, k, m, e);
    }
    forall r
      ensures HandClean(Apply(s, a), k, m, r)
    {
      assert HandClean(s, k, m, r);
      HandCleanStep(s, a, k, m, r);
    }
    if m { LogOkStep(s, a, k); }
  }

  lemma BaseAlways(acts: seq<Action>)
    requires LivenessRun(acts)
    ensures Base(After(INITIAL, acts))
  {
    AlwaysBalanced(acts);
    ListsAlways(acts);
    forall e
      ensures ExecOk(After(INITIAL, acts), e)
    {
      ExecAlways(acts, e);
    }
  }

  lemma {:induction false} KeyInvAlways(acts: seq<Action>, k: string, m: bool)
    requires MeetingRun(acts, Wanted(true, true, m), k)
    ensures KeyInv(After(INITIAL, acts), k, m) && Base(After(INITIAL, acts))
    decreases |acts|
  {
    MeetingIsLive(acts, Wanted(true, true, m), k);
    BaseAlways(acts);
    if acts != [] {
      KeyInvAlways(Front(acts), k, m);
      KeyInvStep(After(INITIAL, Front(acts)), Last(acts), k, m);
    }
  }

  lemma {:induction false} MarkersNotNeeded(acts: seq<Action>, k: string)
    requires MeetingRun(acts, ALL_THREE, k)
    ensures MeetingRun(acts, MARKERS_MAY_FAIL, k)
    decreases |acts|
  {
    if acts != [] {
      MarkersNotNeeded(Front(acts), k);
    }
  }

  // ---------------------------------------------------------------------
  // Main results
  // ---------------------------------------------------------------------

  /** Two entries that workers published for this key. */
  predicate BothByWorkers(log: seq<Entry>, i: nat, j: nat, k: string) {
    Authored(log, i, k) && Authored(log, j, k)
  }

  /** All worker-published events for a key, findings included, come from one execution. Other jobs of the run may be
      dispatched twice and lose their markers. */
  lemma FindingsFromOneExecution(acts: seq<Action>, k: string, i: nat, j: nat)
    requires MeetingRun(acts, ALL_THREE, k)
    ensures var log := After(INITIAL, acts).log;
            BothByWorkers(log, i, j, k) ==> log[i].author == log[j].author
  {
    KeyInvAlways(acts, k, true);
  }

  /** Once a worker has published anything for a key, no payload with that key is in any queue, no sweep is about
      to put one there, and no delivery of it is waiting to run or running; and the log only grows. */
  lemma NeverRequeuedAfterPublish(acts: seq<Action>, later: seq<Action>, k: string, i: nat)
    requires MeetingRun(acts + later, ALL_THREE, k)
    requires Runs(INITIAL, acts) && Authored(After(INITIAL, acts).log, i, k)
    ensures var s := After(INITIAL, acts + later);
            && (forall p, x :: x in At(s, Queue(p)) ==> !HasKey(x, k))
            && (forall r :: Holds(s, r) && HeldKey(s, r) == k ==> !StageOf(s, r).Releasing? && !StageOf(s, r).Pushing?)
            && (forall e :: e in s.fleet.checkouts && HasKey(s.fleet.checkouts[e].payload, k) ==>
                  !PcOf(s, e).Fresh? && !PcOf(s, e).Running?)
  {
    LogOnlyGrows(acts, later);
    var s := After(INITIAL, acts + later);
    KeyInvAlways(acts + later, k, true);
    assert Authored(s.log, i, k);
    forall p, x | x in At(s, Queue(p))
      ensures !HasKey(x, k)
    {
      assert QueueOk(s, k, true, p);
    }
    forall r | Holds(s, r) && HeldKey(s, r) == k
      ensures !StageOf(s, r).Releasing? && !StageOf(s, r).Pushing?
    {
      assert HandClean(s, k, true, r);
    }
    forall e | e in s.fleet.checkouts && HasKey(s.fleet.checkouts[e].payload, k)
      ensures !PcOf(s, e).Fresh? && !PcOf(s, e).Running?
    {
      assert CheckoutOk(s, k, true, e);
    }
  }

  lemma {:induction false} LogOnlyGrows(acts: seq<Action>, later: seq<Action>)
    requires Runs(INITIAL, acts + later) && Runs(INITIAL, acts)
    ensures After(INITIAL, acts).log <= After(INITIAL, acts + later).log
    decreases |later|
  {
    if later == [] {
      assert acts + later == acts;
    } else {
      assert Front(acts + later) == acts + Front(later);
      LogOnlyGrows(acts, Front(later));
      LogGrows(After(INITIAL, acts + Front(later)), Last(acts + later));
    }
  }

  /** A queued job's key is unclaimed, so a job that is popped, requeued or not, is never dropped as a duplicate.
      Failed marker writes do not matter here. */
  lemma QueuedIsUnclaimed(acts: seq<Action>, p: Priority, x: Payload)
    requires x.Wire? && MeetingRun(acts, MARKERS_MAY_FAIL, x.job.key)
    ensures x in At(After(INITIAL, acts), Queue(p)) ==> x.job.key !in After(INITIAL, acts).keys.claims
  {
    KeyInvAlways(acts, x.job.key, false);
    assert QueueOk(After(INITIAL, acts), x.job.key, false, p);
  }

  lemma ClaimNeverDuplicate(acts: seq<Action>, e: ExecId, reply: Reply)
    requires Runs(INITIAL, acts) && Enabled(After(INITIAL, acts), Claim(e, reply))
    requires MeetingRun(acts, MARKERS_MAY_FAIL, KeyOf(After(INITIAL, acts), e))
    ensures KeyOf(After(INITIAL, acts), e) !in After(INITIAL, acts).keys.claims
    ensures PcOf(Apply(After(INITIAL, acts), Claim(e, reply)), e) != Removing(Duplicate)
  {
    var s := After(INITIAL, acts);
    KeyInvAlways(acts, KeyOf(s, e), false);
    assert CheckoutOk(s, KeyOf(s, e), false, e);
  }
}
