/** Each assumption is needed: for each of the three there is a run that satisfies the other two, for every key, and in
    which two executions of one job publish its findings; and without the liveness assumption a job can get lost. */
module Necessity {
  import opened Events
  import opened Protocol

  /** The wanted assumptions hold of this step for every key. */
  ghost predicate MeetsAll(s: State, a: Action, want: Wanted) {
    && (want.unique ==> forall k :: FreshKey(s, a, k))
    && (want.dead ==> DeadWhenScanned(s, a))
    && (want.marked ==> forall k :: MarkerWritten(s, a, k))
  }

  /** A run that meets the wanted assumptions for every key. */
  ghost predicate MeetsForAll(acts: seq<Action>, want: Wanted) {
    Runs(INITIAL, acts) && forall k :: MeetingRun(acts, want, k)
  }

  ghost predicate EndsIn(acts: seq<Action>, want: Wanted, s: State) {
    MeetsForAll(acts, want) && After(INITIAL, acts) == s
  }

  ghost predicate Reachable(s: State, want: Wanted) {
    exists acts :: EndsIn(acts, want, s)
  }

  lemma StartsReachable(want: Wanted)
    ensures Reachable(INITIAL, want)
  {
    assert EndsIn([], want, INITIAL);
  }

  lemma Step(s: State, a: Action, want: Wanted)
    requires Reachable(s, want) && Enabled(s, a) && MeetsAll(s, a, want)
    ensures Reachable(Apply(s, a), want)
  {
    var acts :| EndsIn(acts, want, s);
    Extend(acts, a, s, want);
    assert EndsIn(acts + [a], want, Apply(s, a));
  }

  lemma Extend(acts: seq<Action>, a: Action, s: State, want: Wanted)
    requires EndsIn(acts, want, s) && Enabled(s, a) && MeetsAll(s, a, want)
    ensures EndsIn(acts + [a], want, Apply(s, a))
  {
    assert Front(acts + [a]) == acts;
    forall k
      ensures MeetingRun(acts + [a], want, k)
    {
      assert MeetingRun(acts, want, k) && Meets(s, a, want, k);
    }
  }

  /** Two executions have published for one key. */
  predicate PublishedTwice(s: State) {
    && |s.log| == 2 && s.log[0].author.Execution? && s.log[1].author.Execution?
    && s.log[0].author != s.log[1].author && s.log[0].event.key == s.log[1].event.key
  }

  predicate RunningIn(s: State, e: ExecId, w: WorkerId, x: Payload) {
    && w in s.fleet.running && e in s.fleet.checkouts && s.fleet.checkouts[e] == Checkout(w, Normal, x, Running)
  }

  /** Queues and lists are the same but for the normal queue and the given list. */
  ghost predicate OthersSame(s: State, t: State, w: WorkerId) {
    forall l :: l != Queue(Normal) && l != Processing(w, Normal) ==> At(t, l) == At(s, l)
  }

  lemma Dispatched(s: State, x: Payload, want: Wanted) returns (t: State)
    requires Reachable(s, want) && At(s, Queue(Normal)) == []
    requires want.unique ==> forall k :: FreshKey(s, Dispatch(Normal, x), k)
    ensures Reachable(t, want)
    ensures t == s.(store := s.store[Queue(Normal) := [x]],
                    history := s.history.(dispatched := s.history.dispatched + multiset{x}))
  {
    Step(s, Dispatch(Normal, x), want);
    t := Apply(s, Dispatch(Normal, x));
    assert [x] + At(s, Queue(Normal)) == [x];
  }

  lemma Started(s: State, w: WorkerId, want: Wanted) returns (t: State)
    requires Reachable(s, want) && w !in s.fleet.started
    ensures Reachable(t, want)
    ensures t == s.(fleet := s.fleet.(running := s.fleet.running + {w}, started := s.fleet.started + {w}))
  {
    Step(s, Start(w), want);
    t := Apply(s, Start(w));
  }

  lemma Crashed(s: State, w: WorkerId, want: Wanted) returns (t: State)
    requires Reachable(s, want) && w in s.fleet.running
    ensures Reachable(t, want)
    ensures t == s.(fleet := t.fleet) && t.fleet.running == s.fleet.running - {w}
    ensures t.fleet.started == s.fleet.started && t.fleet.nextExec == s.fleet.nextExec
    ensures forall e, v, x :: v != w && RunningIn(s, e, v, x) ==> RunningIn(t, e, v, x)
    ensures forall e :: e in t.fleet.checkouts ==>
              e in s.fleet.checkouts && t.fleet.checkouts[e] == s.fleet.checkouts[e] && t.fleet.checkouts[e].worker != w
  {
    Step(s, Crash(w), want);
    t := Apply(s, Crash(w));
  }

  /** A checkout that is not followed by a claim yet. */
  lemma Moved(s: State, w: WorkerId, x: Payload, want: Wanted) returns (t: State)
    requires Reachable(s, want) && w in s.fleet.running && x.Wire? && At(s, Queue(Normal)) == [x]
    ensures Reachable(t, want)
    ensures At(t, Queue(Normal)) == [] && At(t, Processing(w, Normal)) == [x] + At(s, Processing(w, Normal))
    ensures OthersSame(s, t, w)
    ensures t == s.(store := t.store, fleet := s.fleet.(
                      checkouts := s.fleet.checkouts[s.fleet.nextExec := Checkout(w, Normal, x, Fresh)],
                      nextExec := s.fleet.nextExec + 1))
  {
    Step(s, Move(w, Normal, Ok), want);
    t := DoMove(s, w, Normal, Ok);
    assert Front([x]) == [];
  }

  lemma ClaimedAfter(s: State, e: ExecId, w: WorkerId, x: Payload, want: Wanted) returns (t: State)
    requires Reachable(s, want) && w in s.fleet.running && x.Wire? && x.job.key != "" && x.job.key !in s.keys.claims
    requires e in s.fleet.checkouts && s.fleet.checkouts[e] == Checkout(w, Normal, x, Fresh)
    ensures Reachable(t, want)
    ensures t.history == s.history.(claimed := t.history.claimed)
    ensures t == s.(keys := s.keys.(claims := s.keys.claims + {x.job.key}), history := t.history,
                    fleet := s.fleet.(checkouts := s.fleet.checkouts[e := Checkout(w, Normal, x, Running)]))
  {
    Step(s, Claim(e, Ok), want);
    t := DoClaim(s, e, Ok);
  }

  /** Checkout and successful claim. */
  lemma Taken(s: State, w: WorkerId, x: Payload, want: Wanted) returns (t: State)
    requires Reachable(s, want) && w in s.fleet.running && x.Wire? && At(s, Queue(Normal)) == [x]
    requires x.job.key != "" && x.job.key !in s.keys.claims
    ensures Reachable(t, want)
    ensures At(t, Queue(Normal)) == [] && At(t, Processing(w, Normal)) == [x] + At(s, Processing(w, Normal))
    ensures OthersSame(s, t, w)
    ensures t.keys == s.keys.(claims := s.keys.claims + {x.job.key}) && t.sweeps == s.sweeps && t.log == s.log
    ensures t.fleet == s.fleet.(checkouts := t.fleet.checkouts, nextExec := s.fleet.nextExec + 1)
    ensures t.fleet.checkouts == s.fleet.checkouts[s.fleet.nextExec := Checkout(w, Normal, x, Running)]
  {
    var e := s.fleet.nextExec;
    var m := Moved(s, w, x, want);
    t := ClaimedAfter(m, e, w, x, want);
    assert m.fleet.checkouts[e := Checkout(w, Normal, x, Running)]
        == s.fleet.checkouts[e := Checkout(w, Normal, x, Running)];
    forall l
      ensures At(t, l) == At(m, l)
    {
    }
  }

  const FOUND: Outcome := Completed([Finding("", "", "open port")])

  lemma Decided(s: State, e: ExecId, w: WorkerId, x: Payload, want: Wanted) returns (t: State)
    requires Reachable(s, want) && x.Wire? && RunningIn(s, e, w, x)
    ensures Reachable(t, want)
    ensures t == s.(fleet := s.fleet.(
                      checkouts := s.fleet.checkouts[e := Checkout(w, Normal, x, Publishing(0, false))],
                      plans := s.fleet.plans[e := PlanOf(x.job, FOUND, "", 0)]))
  {
    Step(s, Decide(e, FOUND, "", 0), want);
    t := DoDecide(s, e, FOUND, "", 0);
  }

  lemma Marked(s: State, e: ExecId, w: WorkerId, x: Payload, reply: Reply, want: Wanted) returns (t: State)
    requires Reachable(s, want) && x.Wire? && w in s.fleet.running && (want.marked ==> !reply.Error?)
    requires e in s.fleet.checkouts && s.fleet.checkouts[e] == Checkout(w, Normal, x, Publishing(0, false))
    ensures Reachable(t, want)
    ensures t == s.(fleet := s.fleet.(
                      checkouts := s.fleet.checkouts[e := Checkout(w, Normal, x, Publishing(0, true))]),
                    keys := s.keys.(published := if reply.Error? then s.keys.published
                                                 else s.keys.published + {x.job.key}))
  {
    Step(s, Mark(e, reply), want);
    t := DoMark(s, e, reply);
  }

  lemma Sent(s: State, e: ExecId, w: WorkerId, x: Payload, want: Wanted) returns (t: State)
    requires Reachable(s, want) && x.Wire? && w in s.fleet.running
    requires e in s.fleet.checkouts && s.fleet.checkouts[e] == Checkout(w, Normal, x, Publishing(0, true))
    requires e in s.fleet.plans && |s.fleet.plans[e]| > 0 && Sendable(s.fleet.plans[e][0])
    ensures Reachable(t, want)
    ensures t.log == s.log + [Entry(Execution(e), s.fleet.plans[e][0])]
    ensures t == s.(log := t.log, fleet := s.fleet.(checkouts := t.fleet.checkouts))
    ensures forall d :: d != e && d in s.fleet.checkouts ==>
              d in t.fleet.checkouts && t.fleet.checkouts[d] == s.fleet.checkouts[d]
  {
    Step(s, Publish(e, Ok), want);
    t := DoPublish(s, e, Ok);
  }

  /** Decision, marker and the first event of the plan. */
  lemma Published(s: State, e: ExecId, w: WorkerId, x: Payload, marker: Reply, want: Wanted) returns (t: State)
    requires Reachable(s, want) && x.Wire? && Named(x.job) && RunningIn(s, e, w, x)
    requires want.marked ==> !marker.Error?
    ensures Reachable(t, want)
    ensures |t.log| == |s.log| + 1 && t.log[..|s.log|] == s.log
    ensures t.log[|s.log|].author == Execution(e) && t.log[|s.log|].event.key == x.job.key
    ensures t.store == s.store && t.sweeps == s.sweeps && t.keys.claims == s.keys.claims
    ensures t.keys.reclaims == s.keys.reclaims
    ensures marker.Error? ==> t.keys.published == s.keys.published
    ensures t.fleet == s.fleet.(checkouts := t.fleet.checkouts, plans := t.fleet.plans)
    ensures forall d, v, y :: d != e && RunningIn(s, d, v, y) ==> RunningIn(t, d, v, y)
  {
    PlanOfIsPlan(x.job, FOUND, "", 0);
    PlanSendable(x.job, FOUND, "", 0);
    var a := Decided(s, e, w, x, want);
    var b := Marked(a, e, w, x, marker, want);
    t := Sent(b, e, w, x, want);
  }

  /** All that a sweep's later steps leave alone. */
  predicate Untouched(s: State, t: State) {
    && t.keys.published == s.keys.published && t.fleet == s.fleet && t.log == s.log
    && t.history.fates == s.history.fates && t.history.dispatched == s.history.dispatched
  }

  lemma Snapped(s: State, want: Wanted) returns (t: State)
    requires Reachable(s, want) && 0 !in s.sweeps
    ensures Reachable(t, want) && t == s.(sweeps := s.sweeps[0 := Scanning({}, {})])
  {
    Step(s, Snapshot(0, {}), want);
    t := Apply(s, Snapshot(0, {}));
  }

  lemma Found(s: State, w: WorkerId, want: Wanted) returns (t: State)
    requires Reachable(s, want) && 0 in s.sweeps && s.sweeps[0] == Scanning({}, {})
    requires At(s, Processing(w, Normal)) != [] && (want.dead ==> w !in s.fleet.running)
    ensures Reachable(t, want) && t == s.(sweeps := s.sweeps[0 := Scanning({}, {(w, Normal)})])
  {
    var found: set<ListId> := {(w, Normal)};
    Step(s, Scan(0, found), want);
    t := Apply(s, Scan(0, found));
    assert t.sweeps[0].targets == found;
  }

  lemma Begun(s: State, targets: set<ListId>, want: Wanted) returns (t: State)
    requires Reachable(s, want) && 0 in s.sweeps && s.sweeps[0] == Scanning({}, targets)
    ensures Reachable(t, want) && t == s.(sweeps := s.sweeps[0 := Draining(targets, {}, Empty)])
  {
    Step(s, BeginDrain(0), want);
    t := Apply(s, BeginDrain(0));
  }

  /** A sweep finds the list of `w` and pops its one entry. */
  lemma Popped(s: State, w: WorkerId, x: Payload, want: Wanted) returns (t: State)
    requires Reachable(s, want) && x.Wire? && s.sweeps == map[0 := Draining({(w, Normal)}, {}, Empty)]
    requires At(s, Processing(w, Normal)) == [x]
    ensures Reachable(t, want)
    ensures Holds(t, 0) && Held(t, 0) == x && t.sweeps[0].hand == Holding(Normal, Counting)
    ensures t.keys == s.keys && Untouched(s, t) && At(t, Processing(w, Normal)) == []
    ensures forall l :: l != Processing(w, Normal) && l != InHand(0) ==> At(t, l) == At(s, l)
  {
    Step(s, Pop(0, (w, Normal), Ok), want);
    t := DoPop(s, 0, (w, Normal), Ok);
  }

  predicate HoldsAt(s: State, x: Payload, stage: Stage) {
    Holds(s, 0) && Held(s, 0) == x && s.sweeps[0].hand == Holding(Normal, stage)
  }

  lemma CountGives(s: State, x: Payload)
    requires HoldsAt(s, x, Counting) && Reclaims(s, x.job.key) == 0
    ensures var t := DoIncrement(s, 0, Ok);
            && HoldsAt(t, x, Checking(1)) && Untouched(s, t) && t.store == s.store && t.keys.claims == s.keys.claims
  {
  }

  lemma Counted(s: State, x: Payload, want: Wanted) returns (t: State)
    requires Reachable(s, want) && HoldsAt(s, x, Counting) && Reclaims(s, x.job.key) == 0
    ensures Reachable(t, want) && HoldsAt(t, x, Checking(1)) && Untouched(s, t)
    ensures t.store == s.store && t.keys.claims == s.keys.claims
  {
    CountGives(s, x);
    Step(s, Increment(0, Ok), want);
    t := DoIncrement(s, 0, Ok);
  }

  lemma Checked(s: State, x: Payload, want: Wanted) returns (t: State)
    requires Reachable(s, want) && HoldsAt(s, x, Checking(1)) && x.job.key !in s.keys.published
    ensures Reachable(t, want) && HoldsAt(t, x, Releasing(1)) && Untouched(s, t)
    ensures t.store == s.store && t.keys == s.keys
  {
    Step(s, Check(0, Ok), want);
    t := DoCheck(s, 0, Ok);
  }

  lemma Unclaimed(s: State, x: Payload, want: Wanted) returns (t: State)
    requires Reachable(s, want) && HoldsAt(s, x, Releasing(1)) && x.job.key != ""
    ensures Reachable(t, want) && HoldsAt(t, x, Pushing(1)) && Untouched(s, t)
    ensures t.store == s.store && t.keys.claims == s.keys.claims - {x.job.key}
  {
    Step(s, Release(0, Ok), want);
    t := DoRelease(s, 0, Ok);
  }

  lemma Pushed(s: State, x: Payload, want: Wanted) returns (t: State)
    requires Reachable(s, want) && HoldsAt(s, x, Pushing(1)) && At(s, Queue(Normal)) == []
    ensures Reachable(t, want) && At(t, Queue(Normal)) == [x] && t.keys == s.keys && Untouched(s, t)
    ensures At(t, InHand(0)) == [] && forall l :: l != Queue(Normal) && l != InHand(0) ==> At(t, l) == At(s, l)
  {
    Step(s, Push(0, Ok), want);
    t := DoPush(s, 0, Ok);
  }

  /** From the first look at the counter to the push. */
  lemma GivenBack(s: State, x: Payload, want: Wanted) returns (t: State)
    requires Reachable(s, want) && HoldsAt(s, x, Counting) && Reclaims(s, x.job.key) == 0
    requires x.job.key != "" && x.job.key !in s.keys.published && At(s, Queue(Normal)) == []
    ensures Reachable(t, want) && Untouched(s, t)
    ensures At(t, Queue(Normal)) == [x] && t.keys.claims == s.keys.claims - {x.job.key}
    ensures At(t, InHand(0)) == [] && forall l :: l != Queue(Normal) && l != InHand(0) ==> At(t, l) == At(s, l)
  {
    var counted := Counted(s, x, want);
    var checked := Checked(counted, x, want);
    var unclaimed := Unclaimed(checked, x, want);
    assert unclaimed.store == s.store;
    t := Pushed(unclaimed, x, want);
    forall l | l != Queue(Normal) && l != InHand(0)
      ensures At(t, l) == At(s, l)
    {
      assert At(t, l) == At(unclaimed, l);
    }
  }

  /** A whole sweep of a list with one entry, which puts the job back. */
  lemma Requeued(s: State, w: WorkerId, x: Payload, want: Wanted) returns (t: State)
    requires Reachable(s, want) && x.Wire? && x.job.key != "" && s.sweeps == map[] && Reclaims(s, x.job.key) == 0
    requires At(s, Processing(w, Normal)) == [x] && At(s, Queue(Normal)) == []
    requires x.job.key !in s.keys.published && (want.dead ==> w !in s.fleet.running)
    ensures Reachable(t, want)
    ensures At(t, Queue(Normal)) == [x] && t.keys.claims == s.keys.claims - {x.job.key} && Untouched(s, t)
    ensures At(t, Processing(w, Normal)) == [] && At(t, InHand(0)) == []
    ensures forall l :: l != Queue(Normal) && l != InHand(0) && l != Processing(w, Normal) ==> At(t, l) == At(s, l)
  {
    var snapped := Snapped(s, want);
    var found := Found(snapped, w, want);
    var begun := Begun(found, {(w, Normal)}, want);
    var popped := Popped(begun, w, x, want);
    assert At(popped, Queue(Normal)) == At(begun, Queue(Normal)) == At(s, Queue(Normal));
    t := GivenBack(popped, x, want);
    forall l | l != Queue(Normal) && l != InHand(0) && l != Processing(w, Normal)
      ensures At(t, l) == At(s, l)
    {
      assert At(t, l) == At(popped, l) == At(begun, l);
    }
  }

  /** One job, claimed by worker 0, nothing else. */
  predicate JustClaimed(s: State, x: Payload) {
    && x.Wire? && RunningIn(s, 0, 0, x) && s.fleet.running == s.fleet.started == {0} && s.fleet.nextExec == 1
    && At(s, Queue(Normal)) == [] && At(s, Processing(0, Normal)) == [x] && At(s, Processing(1, Normal)) == []
    && s.sweeps == map[] && s.log == [] && s.keys == Keys({x.job.key}, {}, map[])
  }

  lemma InWork(x: Payload, want: Wanted) returns (t: State)
    requires x.Wire? && x.job.key != ""
    ensures Reachable(t, want) && JustClaimed(t, x)
  {
    StartsReachable(want);
    var a := Dispatched(INITIAL, x, want);
    var b := Started(a, 0, want);
    t := Taken(b, 0, x, want);
    assert At(b, Processing(0, Normal)) == [] && At(b, Processing(1, Normal)) == [];
    assert [x] + At(b, Processing(0, Normal)) == [x];
    assert {} + {x.job.key} == {x.job.key};
  }

  lemma Witness(s: State, want: Wanted) returns (acts: seq<Action>)
    requires Reachable(s, want)
    ensures MeetsForAll(acts, want) && After(INITIAL, acts) == s
  {
    acts :| EndsIn(acts, want, s);
  }

  /** The assumptions can be met together by a run in which the job is worked on and published for. */
  lemma AssumptionsAreMet(x: Payload) returns (acts: seq<Action>)
    requires x.Wire? && x.job.key != "" && Named(x.job)
    ensures MeetsForAll(acts, ALL_THREE) && At(After(INITIAL, acts), Processing(0, Normal)) == [x]
    ensures var log := After(INITIAL, acts).log;
            |log| == 1 && log[0].author == Execution(0) && log[0].event.key == x.job.key
  {
    var want := ALL_THREE;
    var s := InWork(x, want);
    var published := Published(s, 0, 0, x, Ok, want);
    acts := Witness(published, want);
  }

  /** A new worker gets the job that was put back. */
  lemma TakenAgain(s: State, w: WorkerId, x: Payload, want: Wanted) returns (t: State)
    requires Reachable(s, want) && w !in s.fleet.started && x.Wire? && At(s, Queue(Normal)) == [x]
    requires x.job.key != "" && x.job.key !in s.keys.claims
    ensures Reachable(t, want) && RunningIn(t, s.fleet.nextExec, w, x) && t.log == s.log
    ensures forall e, v, y :: e != s.fleet.nextExec && RunningIn(s, e, v, y) ==> RunningIn(t, e, v, y)
  {
    var started := Started(s, w, want);
    t := Taken(started, w, x, want);
  }

  /** Worker 0 has published without leaving a marker and has died. */
  lemma UnmarkedDeath(x: Payload, want: Wanted) returns (t: State)
    requires x.Wire? && x.job.key != "" && Named(x.job) && !want.marked
    ensures Reachable(t, want) && |t.log| == 1 && t.log[0].author == Execution(0) && t.log[0].event.key == x.job.key
    ensures t.fleet.running == {} && t.fleet.started == {0} && t.fleet.nextExec == 1
    ensures At(t, Queue(Normal)) == [] && At(t, Processing(0, Normal)) == [x]
    ensures t.sweeps == map[] && t.keys == Keys({x.job.key}, {}, map[])
  {
    var s := InWork(x, want);
    var published := Published(s, 0, 0, x, Error, want);
    t := Crashed(published, 0, want);
  }

  /** Without the marker: the worker publishes, its marker write fails, it dies; the retry publishes again. */
  lemma MarkerNeeded(x: Payload) returns (acts: seq<Action>)
    requires x.Wire? && x.job.key != "" && Named(x.job)
    ensures MeetsForAll(acts, Wanted(true, true, false)) && PublishedTwice(After(INITIAL, acts))
  {
    var want := Wanted(true, true, false);
    var dead := UnmarkedDeath(x, want);
    var back := Requeued(dead, 0, x, want);
    var again := TakenAgain(back, 1, x, want);
    var twice := Published(again, 1, 1, x, Ok, want);
    acts := Witness(twice, want);
  }

  /** A running worker's list is swept: both it and the worker that gets the job next publish. */
  lemma LivenessNeeded(x: Payload) returns (acts: seq<Action>)
    requires x.Wire? && x.job.key != "" && Named(x.job)
    ensures MeetsForAll(acts, Wanted(true, false, true)) && PublishedTwice(After(INITIAL, acts))
  {
    var want := Wanted(true, false, true);
    var s := InWork(x, want);
    var back := Requeued(s, 0, x, want);
    var again := TakenAgain(back, 1, x, want);
    assert RunningIn(again, 0, 0, x);
    var published := Published(again, 0, 0, x, Ok, want);
    var twice := Published(published, 1, 1, x, Ok, want);
    acts := Witness(twice, want);
  }

  /** The same job dispatched twice: the second copy's worker dies before it claims, and the sweep that puts the
      copy back releases the claim the first worker is still working under. */
  lemma UniquenessNeeded(x: Payload) returns (acts: seq<Action>)
    requires x.Wire? && x.job.key != "" && Named(x.job)
    ensures MeetsForAll(acts, Wanted(false, true, true)) && PublishedTwice(After(INITIAL, acts))
  {
    var want := Wanted(false, true, true);
    var s := InWork(x, want);
    var dead := SecondCopyStranded(s, x, want);
    var back := Requeued(dead, 1, x, want);
    var again := TakenAgain(back, 2, x, want);
    assert RunningIn(again, 0, 0, x);
    var published := Published(again, 0, 0, x, Ok, want);
    var twice := Published(published, 2, 2, x, Ok, want);
    acts := Witness(twice, want);
  }

  lemma SecondCopyStranded(s: State, x: Payload, want: Wanted) returns (t: State)
    requires Reachable(s, want) && !want.unique && JustClaimed(s, x)
    ensures Reachable(t, want) && RunningIn(t, 0, 0, x)
    ensures t.fleet.running == {0} && t.fleet.started == {0, 1} && t.fleet.nextExec == 2
    ensures At(t, Queue(Normal)) == [] && At(t, Processing(1, Normal)) == [x]
    ensures t.sweeps == map[] && t.log == [] && t.keys == s.keys
  {
    var copied := Dispatched(s, x, want);
    var started := Started(copied, 1, want);
    var moved := Moved(started, 1, x, want);
    assert At(started, Processing(1, Normal)) == [];
    assert [x] + At(started, Processing(1, Normal)) == [x];
    assert RunningIn(moved, 0, 0, x);
    t := Crashed(moved, 1, want);
  }

  // A job that vanishes -------------------------------------------------

  /** The job was dispatched, is stored nowhere, no running worker has it, nobody was told,
      and no step that may lose a payload has happened. */
  ghost predicate Vanished(s: State, x: Payload)
    requires x.Wire?
  {
    && x in s.history.dispatched && (forall l :: x !in At(s, l)) && s.log == []
    && (forall e :: e in s.fleet.checkouts ==> s.fleet.checkouts[e].payload != x)
    && forall i :: 0 <= i < |s.history.fates| ==> !s.history.fates[i].how.Gone?
  }

  lemma Dropped(s: State, e: ExecId, w: WorkerId, x: Payload, want: Wanted) returns (t: State)
    requires Reachable(s, want) && w in s.fleet.running && x.Wire? && x.job.key != "" && x.job.key in s.keys.claims
    requires e in s.fleet.checkouts && s.fleet.checkouts[e] == Checkout(w, Normal, x, Fresh)
    ensures Reachable(t, want)
    ensures t == s.(fleet := s.fleet.(checkouts := s.fleet.checkouts[e := Checkout(w, Normal, x, Removing(Duplicate))]))
  {
    Step(s, Claim(e, Ok), want);
    t := DoClaim(s, e, Ok);
  }

  lemma Removed(s: State, e: ExecId, w: WorkerId, x: Payload, want: Wanted) returns (t: State)
    requires Reachable(s, want) && w in s.fleet.running && At(s, Processing(w, Normal)) == [x]
    requires e in s.fleet.checkouts && s.fleet.checkouts[e] == Checkout(w, Normal, x, Removing(Duplicate))
    ensures Reachable(t, want)
    ensures At(t, Processing(w, Normal)) == [] && forall l :: l != Processing(w, Normal) ==> At(t, l) == At(s, l)
    ensures t.log == s.log && t.history.dispatched == s.history.dispatched
    ensures t.fleet == s.fleet.(checkouts := s.fleet.checkouts - {e})
    ensures t.history.fates == s.history.fates + [Fate(x, DroppedDuplicate)]
  {
    Step(s, Remove(e, Ok), want);
    t := DoRemove(s, e, Ok);
  }

  /** Worker 0 holds the unclaimed job in memory; its list was swept and the job is back in the queue. */
  lemma TakenAway(x: Payload, want: Wanted) returns (t: State)
    requires x.Wire? && x.job.key != "" && !want.dead
    ensures Reachable(t, want) && t.keys.claims == {} && t.log == [] && t.history.fates == []
    ensures t.history.dispatched == multiset{x}
    ensures t.fleet.running == t.fleet.started == {0} && t.fleet.nextExec == 1
    ensures 0 in t.fleet.checkouts && t.fleet.checkouts[0] == Checkout(0, Normal, x, Fresh)
    ensures t.fleet.checkouts == map[0 := Checkout(0, Normal, x, Fresh)]
    ensures At(t, Queue(Normal)) == [x] && forall l :: l != Queue(Normal) ==> At(t, l) == []
  {
    StartsReachable(want);
    var a := Dispatched(INITIAL, x, want);
    var b := Started(a, 0, want);
    var c := Moved(b, 0, x, want);
    assert [x] + At(b, Processing(0, Normal)) == [x];
    t := Requeued(c, 0, x, want);
  }

  /** Worker 0 claims after all, and worker 1 starts. */
  lemma ClaimedTooLate(x: Payload, want: Wanted) returns (t: State)
    requires x.Wire? && x.job.key != "" && !want.dead
    ensures Reachable(t, want) && t.log == [] && t.history.fates == [] && t.history.dispatched == multiset{x}
    ensures x.job.key in t.keys.claims && t.fleet.running == {0, 1} && t.fleet.nextExec == 1
    ensures t.fleet.checkouts == map[0 := Checkout(0, Normal, x, Running)]
    ensures At(t, Queue(Normal)) == [x] && forall l :: l != Queue(Normal) ==> At(t, l) == []
  {
    var back := TakenAway(x, want);
    var claimed := ClaimedAfter(back, 0, 0, x, want);
    assert claimed.store == back.store;
    t := Started(claimed, 1, want);
    forall l
      ensures At(t, l) == At(back, l)
    {
    }
  }

  /** Worker 1 gets the job from the queue. */
  lemma TakenTwice(s: State, x: Payload, want: Wanted) returns (t: State)
    requires Reachable(s, want) && x.Wire? && s.fleet.running == {0, 1} && s.fleet.nextExec == 1
    requires s.fleet.checkouts == map[0 := Checkout(0, Normal, x, Running)]
    requires At(s, Queue(Normal)) == [x] && forall l :: l != Queue(Normal) ==> At(s, l) == []
    ensures Reachable(t, want) && t == s.(store := t.store, fleet := t.fleet) && t.fleet.running == s.fleet.running
    ensures t.fleet.checkouts == map[0 := Checkout(0, Normal, x, Running), 1 := Checkout(1, Normal, x, Fresh)]
    ensures At(t, Processing(1, Normal)) == [x] && forall l :: l != Processing(1, Normal) ==> At(t, l) == []
  {
    assert At(s, Processing(1, Normal)) == [];
    t := Moved(s, 1, x, want);
    assert [x] + At(s, Processing(1, Normal)) == [x];
    forall l | l != Processing(1, Normal)
      ensures At(t, l) == []
    {
      if l != Queue(Normal) {
        assert At(t, l) == At(s, l);
      }
    }
  }

  /** A running worker's list is swept before it has claimed the job: it claims afterwards, the worker that gets the
      job back drops it as a duplicate, and then the first one dies. No command was lost, and the job is gone. */
  lemma LivenessNeededForConservation(x: Payload) returns (acts: seq<Action>)
    requires x.Wire? && x.job.key != ""
    ensures MeetsForAll(acts, Wanted(true, false, true)) && Vanished(After(INITIAL, acts), x)
  {
    var want := Wanted(true, false, true);
    var late := ClaimedTooLate(x, want);
    var twice := TakenTwice(late, x, want);
    var dropped := Dropped(twice, 1, 1, x, want);
    assert dropped.store == twice.store;
    var removed := Removed(dropped, 1, 1, x, want);
    var crashed := Crashed(removed, 0, want);
    forall l
      ensures At(crashed, l) == []
    {
      if l != Processing(1, Normal) {
        assert At(removed, l) == At(dropped, l) == At(twice, l);
      }
    }
    acts := Witness(crashed, want);
  }
}
