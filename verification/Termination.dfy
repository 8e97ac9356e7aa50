/** Nothing is retried forever: a run without new dispatches comes to rest, that is, from some point on workers only
    start and crash and sweeps only look around. No assumption is used; every execution may kill its worker. */
module Termination {
  import opened Protocol
  import opened Frames
  import opened Sums
  import opened Events

  function Budget(reclaims: map<string, nat>, x: Payload): nat {
    if x.Garbage? || (x.job.key in reclaims && reclaims[x.job.key] >= MAX_RECLAIMS) then 0
    else if x.job.key in reclaims then MAX_RECLAIMS - reclaims[x.job.key]
    else MAX_RECLAIMS
  }

  function ListWeight(reclaims: map<string, nat>, xs: seq<Payload>, c: nat): nat {
    if xs == [] then 0 else 10 * Budget(reclaims, xs[0]) + c + ListWeight(reclaims, xs[1..], c)
  }

  function StageWeight(budget: nat, stage: Stage): nat {
    match stage
    case Counting => 10 * budget + 7
    case Checking(n) => if n <= MAX_RECLAIMS then 10 * budget + 12 else 6
    case Releasing(_) => 10 * budget + 11
    case Pushing(_) => 10 * budget + 10
    case Failing => 5
  }

  function Weight(s: State, l: Place): nat {
    match l
    case Queue(_) => ListWeight(s.keys.reclaims, At(s, l), 9)
    case Processing(_, _) => ListWeight(s.keys.reclaims, At(s, l), 8)
    case InHand(r) => if Holds(s, r) then StageWeight(Budget(s.keys.reclaims, Held(s, r)), StageOf(s, r)) else 0
  }

  function Weights(s: State): map<Place, nat> {
    map l | l in s.store :: Weight(s, l)
  }

  /** Retry budget left in all payloads, refined by how far each has come. */
  ghost function Phi(s: State): nat { Sum(Weights(s)) }

  function Undecided(pc: Pc): nat {
    match pc
    case Fresh => 2
    case Running => 1
    case _ => 0
  }

  function Remaining(s: State, e: ExecId): nat
    requires e in s.fleet.checkouts
  {
    match s.fleet.checkouts[e].pc
    case Publishing(sent, marked) =>
      2 * (if e in s.fleet.plans && sent <= |s.fleet.plans[e]| then |s.fleet.plans[e]| - sent else 0)
      + (if marked then 0 else 1) + 2
    case Removing(_) => 1
    case _ => 0
  }

  function UndecidedMap(s: State): map<ExecId, nat> {
    map e | e in s.fleet.checkouts :: Undecided(s.fleet.checkouts[e].pc)
  }

  function RemainingMap(s: State): map<ExecId, nat> {
    map e | e in s.fleet.checkouts :: Remaining(s, e)
  }

  predicate Progress(s: State, a: Action) {
    && !a.Dispatch? && !a.Start? && !a.Snapshot? && !a.Scan? && !a.BeginDrain?
    && (a.Stop? ==> Holds(s, a.sweep))
  }

  ghost predicate Smaller(t: State, s: State) {
    || Phi(t) < Phi(s)
    || (Phi(t) == Phi(s) && |t.fleet.running| < |s.fleet.running|)
    || (Phi(t) == Phi(s) && t.fleet.running == s.fleet.running
        && (|| Sum(UndecidedMap(t)) < Sum(UndecidedMap(s))
            || (Sum(UndecidedMap(t)) == Sum(UndecidedMap(s)) && Sum(RemainingMap(t)) < Sum(RemainingMap(s)))))
  }

  // Weights of lists ----------------------------------------------------

  lemma {:induction false} WeightConcat(reclaims: map<string, nat>, xs: seq<Payload>, ys: seq<Payload>, c: nat)
    ensures ListWeight(reclaims, xs + ys, c) == ListWeight(reclaims, xs, c) + ListWeight(reclaims, ys, c)
    decreases |xs|
  {
    if xs == [] {
      assert xs + ys == ys;
    } else {
      assert (xs + ys)[1..] == xs[1..] + ys;
      WeightConcat(reclaims, xs[1..], ys, c);
    }
  }

  lemma WeightOne(reclaims: map<string, nat>, x: Payload, c: nat)
    ensures ListWeight(reclaims, [x], c) == 10 * Budget(reclaims, x) + c
  {
    assert ListWeight(reclaims, [], c) == 0;
  }

  lemma WeightFront(reclaims: map<string, nat>, xs: seq<Payload>, c: nat)
    requires xs != []
    ensures ListWeight(reclaims, xs, c) == ListWeight(reclaims, Front(xs), c) + 10 * Budget(reclaims, Last(xs)) + c
  {
    assert xs == Front(xs) + [Last(xs)];
    WeightConcat(reclaims, Front(xs), [Last(xs)], c);
    WeightOne(reclaims, Last(xs), c);
  }

  lemma {:induction false} WeightRemoved(reclaims: map<string, nat>, xs: seq<Payload>, x: Payload, c: nat)
    requires c > 0
    ensures x in xs ==> ListWeight(reclaims, RemoveFirst(xs, x), c) < ListWeight(reclaims, xs, c)
    decreases |xs|
  {
    if xs != [] && xs[0] != x {
      WeightRemoved(reclaims, xs[1..], x, c);
      assert ([xs[0]] + RemoveFirst(xs[1..], x))[1..] == RemoveFirst(xs[1..], x);
    }
  }

  lemma {:induction false} WeightShrinks(r: map<string, nat>, r': map<string, nat>, xs: seq<Payload>, c: nat)
    requires forall x :: Budget(r', x) <= Budget(r, x)
    ensures ListWeight(r', xs, c) <= ListWeight(r, xs, c)
    decreases |xs|
  {
    if xs != [] {
      WeightShrinks(r, r', xs[1..], c);
    }
  }

  // Phi -----------------------------------------------------------------

  lemma WeightsGet(s: State, l: Place)
    ensures Get(Weights(s), l) == Weight(s, l)
  {
    if l !in s.store {
      assert At(s, l) == [];
    }
  }

  lemma PhiDrops(s: State, t: State, a: Place, b: Place)
    requires forall l :: l != a && l != b ==> Weight(t, l) <= Weight(s, l)
    requires a != b ==> Weight(t, a) + Weight(t, b) < Weight(s, a) + Weight(s, b)
    requires a == b ==> Weight(t, a) < Weight(s, a)
    ensures Phi(t) < Phi(s)
  {
    forall l
      ensures Get(Weights(t), l) == Weight(t, l) && Get(Weights(s), l) == Weight(s, l)
    {
      WeightsGet(s, l);
      WeightsGet(t, l);
    }
    SumDrop(Weights(s), Weights(t), a, b);
  }

  lemma PhiSame(s: State, t: State)
    requires t.store == s.store && t.sweeps == s.sweeps && t.keys.reclaims == s.keys.reclaims
    ensures Phi(t) == Phi(s)
  {
    forall l
      ensures Weight(t, l) == Weight(s, l)
    {
    }
    assert Weights(t) == Weights(s);
  }

  /** Places whose list, hand and counters are the same weigh the same. */
  predicate SamePlace(s: State, t: State, l: Place) {
    && At(t, l) == At(s, l) && t.keys.reclaims == s.keys.reclaims
    && (l.InHand? ==> SameHand(s, t, l.sweep))
  }

  lemma MovePhi(s: State, w: WorkerId, p: Priority, reply: Reply)
    requires Enabled(s, Move(w, p, reply))
    ensures Phi(DoMove(s, w, p, reply)) < Phi(s)
  {
    var t := DoMove(s, w, p, reply);
    var q, l := Queue(p), Processing(w, p);
    var x := Last(At(s, q));
    WeightFront(s.keys.reclaims, At(s, q), 9);
    WeightConcat(s.keys.reclaims, [x], At(s, l), 8);
    WeightOne(s.keys.reclaims, x, 8);
    assert At(t, q) == Front(At(s, q)) && At(t, l) == [x] + At(s, l);
    forall m | m != q && m != l
      ensures Weight(t, m) <= Weight(s, m)
    {
      assert SamePlace(s, t, m);
    }
    PhiDrops(s, t, q, l);
  }

  lemma RemovePhi(s: State, e: ExecId, reply: Reply)
    requires Enabled(s, Remove(e, reply)) && !reply.Error?
    requires var c := s.fleet.checkouts[e]; c.payload in At(s, Processing(c.worker, c.priority))
    ensures Phi(DoRemove(s, e, reply)) < Phi(s)
  {
    var t := DoRemove(s, e, reply);
    var c := s.fleet.checkouts[e];
    var l := Processing(c.worker, c.priority);
    WeightRemoved(s.keys.reclaims, At(s, l), c.payload, 8);
    assert At(t, l) == RemoveFirst(At(s, l), c.payload);
    forall m | m != l
      ensures Weight(t, m) <= Weight(s, m)
    {
      assert SamePlace(s, t, m);
    }
    PhiDrops(s, t, l, l);
  }

  lemma PopPhi(s: State, r: SweepId, t: ListId, reply: Reply)
    requires Enabled(s, Pop(r, t, reply))
    ensures Phi(DoPop(s, r, t, reply)) < Phi(s)
  {
    var s' := DoPop(s, r, t, reply);
    var l, h := Processing(t.0, t.1), InHand(r);
    WeightFront(s.keys.reclaims, At(s, l), 8);
    assert At(s', l) == Front(At(s, l));
    assert Weight(s, h) == 0;
    if Holds(s', r) {
      assert At(s', h) == [Last(At(s, l))] && StageOf(s', r) == Counting;
    }
    forall m | m != l && m != h
      ensures Weight(s', m) <= Weight(s, m)
    {
      assert SamePlace(s, s', m);
    }
    PhiDrops(s, s', l, h);
  }

  lemma IncrementPhi(s: State, r: SweepId, reply: Reply)
    requires Enabled(s, Increment(r, reply))
    ensures Phi(DoIncrement(s, r, reply)) < Phi(s)
  {
    var t := DoIncrement(s, r, reply);
    forall x
      ensures Budget(t.keys.reclaims, x) <= Budget(s.keys.reclaims, x)
    {
    }
    forall l | l != InHand(r)
      ensures Weight(t, l) <= Weight(s, l)
    {
      assert At(t, l) == At(s, l);
      if l.InHand? {
        assert SameHand(s, t, l.sweep);
      } else {
        WeightShrinks(s.keys.reclaims, t.keys.reclaims, At(s, l), if l.Queue? then 9 else 8);
      }
    }
    assert Held(t, r) == Held(s, r);
    PhiDrops(s, t, InHand(r), InHand(r));
  }

  /** Steps of a sweep that only change what it holds, at no gain elsewhere. */
  lemma OwnHandPhi(s: State, t: State, r: SweepId)
    requires t.keys.reclaims == s.keys.reclaims
    requires forall l :: l != InHand(r) ==> At(t, l) == At(s, l)
    requires forall q :: q != r ==> SameHand(s, t, q)
    requires Weight(t, InHand(r)) < Weight(s, InHand(r))
    ensures Phi(t) < Phi(s)
  {
    forall l | l != InHand(r)
      ensures Weight(t, l) <= Weight(s, l)
    {
      assert SamePlace(s, t, l);
    }
    PhiDrops(s, t, InHand(r), InHand(r));
  }

  lemma CheckPhi(s: State, r: SweepId, reply: Reply)
    requires Enabled(s, Check(r, reply))
    ensures Phi(DoCheck(s, r, reply)) < Phi(s)
  {
    OwnHandPhi(s, DoCheck(s, r, reply), r);
  }

  lemma ReleasePhi(s: State, r: SweepId, reply: Reply)
    requires Enabled(s, Release(r, reply))
    ensures Phi(DoRelease(s, r, reply)) < Phi(s)
  {
    OwnHandPhi(s, DoRelease(s, r, reply), r);
  }

  lemma DropPhi(s: State, r: SweepId, how: How)
    requires Holds(s, r)
    ensures Phi(Drop(s, r, how)) < Phi(s)
  {
    assert StageWeight(Budget(s.keys.reclaims, Held(s, r)), StageOf(s, r)) > 0;
    OwnHandPhi(s, Drop(s, r, how), r);
  }

  lemma PushPhi(s: State, r: SweepId, reply: Reply)
    requires Enabled(s, Push(r, reply))
    ensures Phi(DoPush(s, r, reply)) < Phi(s)
  {
    if reply.Error? {
      DropPhi(s, r, Gone(PushFailed));
    } else {
      var t := DoPush(s, r, reply);
      var q := Queue(s.sweeps[r].hand.priority);
      WeightConcat(s.keys.reclaims, At(s, q), [Held(s, r)], 9);
      WeightOne(s.keys.reclaims, Held(s, r), 9);
      assert At(t, q) == At(s, q) + [Held(s, r)];
      forall m | m != q && m != InHand(r)
        ensures Weight(t, m) <= Weight(s, m)
      {
        assert SamePlace(s, t, m);
      }
      PhiDrops(s, t, q, InHand(r));
    }
  }

  lemma ReportPhi(s: State, r: SweepId, reply: Reply, message: string, stamp: string)
    requires Enabled(s, Report(r, reply, message, stamp))
    ensures Phi(DoReport(s, r, reply, message, stamp)) < Phi(s)
  {
    var how := if reply.Error? then Gone(ReportFailed) else ReportedFailed;
    DropPhi(s, r, how);
    PhiSame(Drop(s, r, how), DoReport(s, r, reply, message, stamp));
  }

  lemma StopPhi(s: State, r: SweepId)
    requires Enabled(s, Stop(r)) && Holds(s, r)
    ensures Phi(Apply(s, Stop(r))) < Phi(s)
  {
    assert StageWeight(Budget(s.keys.reclaims, Held(s, r)), StageOf(s, r)) > 0;
    OwnHandPhi(s, Apply(s, Stop(r)), r);
  }

  // Checkouts -----------------------------------------------------------

  lemma PcSums(s: State, t: State, e: ExecId)
    requires e in s.fleet.checkouts && t.fleet.checkouts.Keys == s.fleet.checkouts.Keys
    requires forall d :: d in s.fleet.checkouts && d != e ==>
               t.fleet.checkouts[d] == s.fleet.checkouts[d] && Remaining(t, d) == Remaining(s, d)
    ensures var u, v := Undecided(t.fleet.checkouts[e].pc), Undecided(s.fleet.checkouts[e].pc);
            && (u < v ==> Sum(UndecidedMap(t)) < Sum(UndecidedMap(s)))
            && (u == v && Remaining(t, e) < Remaining(s, e) ==>
                  Sum(UndecidedMap(t)) == Sum(UndecidedMap(s)) && Sum(RemainingMap(t)) < Sum(RemainingMap(s)))
  {
    if Undecided(t.fleet.checkouts[e].pc) < Undecided(s.fleet.checkouts[e].pc) {
      SumDrop(UndecidedMap(s), UndecidedMap(t), e, e);
    } else if Undecided(t.fleet.checkouts[e].pc) == Undecided(s.fleet.checkouts[e].pc) {
      assert UndecidedMap(t) == UndecidedMap(s);
      if Remaining(t, e) < Remaining(s, e) {
        SumDrop(RemainingMap(s), RemainingMap(t), e, e);
      }
    }
  }

  lemma ClaimMoves(s: State, e: ExecId, reply: Reply)
    requires Enabled(s, Claim(e, reply))
    ensures var t := DoClaim(s, e, reply);
            && t.store == s.store && t.sweeps == s.sweeps && t.keys.reclaims == s.keys.reclaims
            && e in t.fleet.checkouts && Undecided(t.fleet.checkouts[e].pc) < 2
            && t.fleet == SetPc(s.fleet, e, t.fleet.checkouts[e].pc)
  {
  }

  lemma ClaimSmaller(s: State, e: ExecId, reply: Reply)
    requires Enabled(s, Claim(e, reply))
    ensures Smaller(DoClaim(s, e, reply), s)
  {
    ClaimMoves(s, e, reply);
    PhiSame(s, DoClaim(s, e, reply));
    PcSums(s, DoClaim(s, e, reply), e);
  }

  lemma DecideSmaller(s: State, e: ExecId, outcome: Outcome, stamp: string, ms: nat)
    requires Enabled(s, Decide(e, outcome, stamp, ms))
    ensures Smaller(DoDecide(s, e, outcome, stamp, ms), s)
  {
    PhiSame(s, DoDecide(s, e, outcome, stamp, ms));
    PcSums(s, DoDecide(s, e, outcome, stamp, ms), e);
  }

  lemma MarkSmaller(s: State, e: ExecId, reply: Reply)
    requires Enabled(s, Mark(e, reply))
    ensures Smaller(DoMark(s, e, reply), s)
  {
    PhiSame(s, DoMark(s, e, reply));
    PcSums(s, DoMark(s, e, reply), e);
  }

  lemma PublishMoves(s: State, e: ExecId, reply: Reply)
    requires Enabled(s, Publish(e, reply))
    ensures var t := DoPublish(s, e, reply);
            && t.store == s.store && t.sweeps == s.sweeps && t.keys.reclaims == s.keys.reclaims
            && e in t.fleet.checkouts && Undecided(t.fleet.checkouts[e].pc) == 0
            && t.fleet == SetPc(s.fleet, e, t.fleet.checkouts[e].pc)
            && Remaining(t, e) < Remaining(s, e)
  {
  }

  lemma PublishSmaller(s: State, e: ExecId, reply: Reply)
    requires Enabled(s, Publish(e, reply))
    ensures Smaller(DoPublish(s, e, reply), s)
  {
    PublishMoves(s, e, reply);
    PhiSame(s, DoPublish(s, e, reply));
    PcSums(s, DoPublish(s, e, reply), e);
  }

  lemma NothingRemoved(s: State, e: ExecId, reply: Reply)
    requires Enabled(s, Remove(e, reply)) && !reply.Error?
    requires var c := s.fleet.checkouts[e]; c.payload !in At(s, Processing(c.worker, c.priority))
    ensures var t := DoRemove(s, e, reply);
            && (forall l :: At(t, l) == At(s, l)) && t.sweeps == s.sweeps && t.keys == s.keys
            && t.fleet == s.fleet.(checkouts := s.fleet.checkouts - {e})
  {
  }

  lemma CheckoutDropped(s: State, t: State, e: ExecId)
    requires e in s.fleet.checkouts && PcOf(s, e).Removing?
    requires t.fleet == s.fleet.(checkouts := s.fleet.checkouts - {e})
    ensures Sum(UndecidedMap(t)) <= Sum(UndecidedMap(s)) && Sum(RemainingMap(t)) < Sum(RemainingMap(s))
  {
    assert UndecidedMap(t) == UndecidedMap(s) - {e};
    assert RemainingMap(t) == RemainingMap(s) - {e};
    SumSplit(UndecidedMap(s), e);
    SumSplit(RemainingMap(s), e);
  }

  lemma RemovedNothingSmaller(s: State, e: ExecId, reply: Reply)
    requires Enabled(s, Remove(e, reply)) && !reply.Error?
    requires var c := s.fleet.checkouts[e]; c.payload !in At(s, Processing(c.worker, c.priority))
    ensures Smaller(DoRemove(s, e, reply), s)
  {
    var t := DoRemove(s, e, reply);
    NothingRemoved(s, e, reply);
    forall l
      ensures Weight(t, l) == Weight(s, l)
    {
      assert SamePlace(s, t, l);
    }
    PhiEqual(s, t);
    CheckoutDropped(s, t, e);
  }

  lemma PhiEqual(s: State, t: State)
    requires forall l :: Weight(t, l) == Weight(s, l)
    ensures Phi(t) == Phi(s)
  {
    forall l
      ensures Get(Weights(t), l) == Get(Weights(s), l)
    {
      WeightsGet(s, l);
      WeightsGet(t, l);
    }
    SumLeq(Weights(s), Weights(t));
    SumLeq(Weights(t), Weights(s));
  }

  lemma RemoveSmaller(s: State, e: ExecId, reply: Reply)
    requires Enabled(s, Remove(e, reply))
    ensures Smaller(DoRemove(s, e, reply), s)
  {
    var c := s.fleet.checkouts[e];
    if reply.Error? {
      PhiSame(s, DoRemove(s, e, reply));
      PcSums(s, DoRemove(s, e, reply), e);
    } else if c.payload in At(s, Processing(c.worker, c.priority)) {
      RemovePhi(s, e, reply);
    } else {
      RemovedNothingSmaller(s, e, reply);
    }
  }

  lemma CrashSmaller(s: State, w: WorkerId)
    requires Enabled(s, Crash(w))
    ensures Smaller(Apply(s, Crash(w)), s)
  {
    PhiSame(s, Apply(s, Crash(w)));
  }

  /** Every progress step makes the measure smaller. */
  lemma ProgressSmaller(s: State, a: Action)
    requires Enabled(s, a) && Progress(s, a)
    ensures Smaller(Apply(s, a), s)
  {
    match a
    case Crash(w) => CrashSmaller(s, w);
    case Move(w, p, reply) => MovePhi(s, w, p, reply);
    case Claim(e, reply) => ClaimSmaller(s, e, reply);
    case Decide(e, outcome, stamp, ms) => DecideSmaller(s, e, outcome, stamp, ms);
    case Mark(e, reply) => MarkSmaller(s, e, reply);
    case Publish(e, reply) => PublishSmaller(s, e, reply);
    case Remove(e, reply) => RemoveSmaller(s, e, reply);
    case Pop(r, t, reply) => PopPhi(s, r, t, reply);
    case Increment(r, reply) => IncrementPhi(s, r, reply);
    case Check(r, reply) => CheckPhi(s, r, reply);
    case Release(r, reply) => ReleasePhi(s, r, reply);
    case Push(r, reply) => PushPhi(s, r, reply);
    case Report(r, reply, message, stamp) => ReportPhi(s, r, reply, message, stamp);
    case Stop(r) => StopPhi(s, r);
  }

  ghost predicate InfiniteRun(f: nat -> State, a: nat -> Action) {
    forall n: nat :: StepAt(f, a, n)
  }

  ghost predicate StepAt(f: nat -> State, a: nat -> Action, n: nat) {
    Enabled(f(n), a(n)) && f(n + 1) == Apply(f(n), a(n))
  }

  ghost predicate ProgressAt(f: nat -> State, a: nat -> Action, n: nat) {
    Progress(f(n), a(n))
  }

  lemma ProgressStep(f: nat -> State, a: nat -> Action, n: nat)
    requires InfiniteRun(f, a) && ProgressAt(f, a, n)
    ensures Smaller(f(n + 1), f(n))
  {
    assert StepAt(f, a, n);
    ProgressSmaller(f(n), a(n));
  }

  lemma {:induction false} ProgressCannotLast(f: nat -> State, a: nat -> Action, n: nat)
    requires InfiniteRun(f, a) && forall m: nat :: m >= n ==> ProgressAt(f, a, m)
    ensures false
    decreases Phi(f(n)), |f(n).fleet.running|, Sum(UndecidedMap(f(n))), Sum(RemainingMap(f(n)))
  {
    assert ProgressAt(f, a, n);
    ProgressStep(f, a, n);
    ProgressCannotLast(f, a, n + 1);
  }

  /** After any point of any infinite run there is a step from outside or of an idle sweep. So a finite number of
      dispatches, starts and sweeps can be followed by only finitely many other steps. */
  lemma NoInfiniteProgress(f: nat -> State, a: nat -> Action, n: nat)
    requires InfiniteRun(f, a)
    ensures exists m: nat :: m >= n && !ProgressAt(f, a, m)
  {
    if forall m: nat :: m >= n ==> ProgressAt(f, a, m) {
      ProgressCannotLast(f, a, n);
    }
  }

  // Coming to rest ------------------------------------------------------

  /** A worker start or crash, or a step of a sweep that has nothing in hand and takes nothing. */
  predicate AtRest(s: State, a: Action) {
    a.Start? || a.Crash? || a.Snapshot? || a.Scan? || a.BeginDrain? || (a.Stop? && !Holds(s, a.sweep))
  }

  /** The measure without the number of running workers, which starts may raise. */
  ghost predicate Below(t: State, s: State) {
    || Phi(t) < Phi(s)
    || (Phi(t) == Phi(s)
        && (|| Sum(UndecidedMap(t)) < Sum(UndecidedMap(s))
            || (Sum(UndecidedMap(t)) == Sum(UndecidedMap(s)) && Sum(RemainingMap(t)) < Sum(RemainingMap(s)))))
  }

  ghost predicate NotAbove(t: State, s: State) {
    Below(t, s) || (Phi(t) == Phi(s) && Sum(UndecidedMap(t)) == Sum(UndecidedMap(s))
                    && Sum(RemainingMap(t)) == Sum(RemainingMap(s)))
  }

  lemma RestKeepsFleet(s: State, a: Action)
    requires Enabled(s, a) && AtRest(s, a) && !a.Crash?
    ensures Apply(s, a).fleet.checkouts == s.fleet.checkouts && Apply(s, a).fleet.plans == s.fleet.plans
  {
  }

  lemma RestKeepsHands(s: State, a: Action, r: SweepId)
    requires Enabled(s, a) && AtRest(s, a)
    ensures Apply(s, a).store == s.store && Apply(s, a).keys == s.keys
    ensures Holds(Apply(s, a), r) <==> Holds(s, r)
    ensures Holds(s, r) ==> StageOf(Apply(s, a), r) == StageOf(s, r)
  {
  }

  lemma RestKeepsPhi(s: State, a: Action)
    requires Enabled(s, a) && AtRest(s, a)
    ensures Phi(Apply(s, a)) == Phi(s)
  {
    var t := Apply(s, a);
    forall l
      ensures Weight(t, l) == Weight(s, l)
    {
      RestKeepsHands(s, a, if l.InHand? then l.sweep else 0);
    }
    PhiEqual(s, t);
  }

  lemma CrashDrops(s: State, w: WorkerId)
    requires Enabled(s, Crash(w))
    ensures Sum(UndecidedMap(Apply(s, Crash(w)))) <= Sum(UndecidedMap(s))
    ensures Sum(RemainingMap(Apply(s, Crash(w)))) <= Sum(RemainingMap(s))
  {
    var t := Apply(s, Crash(w));
    SumLeq(UndecidedMap(t), UndecidedMap(s));
    SumLeq(RemainingMap(t), RemainingMap(s));
  }

  lemma RestNotAbove(s: State, a: Action)
    requires Enabled(s, a) && AtRest(s, a)
    ensures NotAbove(Apply(s, a), s)
  {
    RestKeepsPhi(s, a);
    if a.Crash? {
      CrashDrops(s, a.worker);
    } else {
      RestKeepsFleet(s, a);
      assert UndecidedMap(Apply(s, a)) == UndecidedMap(s);
      assert RemainingMap(Apply(s, a)) == RemainingMap(s);
    }
  }

  lemma BusyKeepsWorkers(s: State, a: Action)
    requires Enabled(s, a) && !AtRest(s, a) && !a.Dispatch?
    ensures Apply(s, a).fleet.running == s.fleet.running
  {
  }

  lemma BusyBelow(s: State, a: Action)
    requires Enabled(s, a) && !AtRest(s, a) && !a.Dispatch?
    ensures Below(Apply(s, a), s)
  {
    ProgressSmaller(s, a);
    BusyKeepsWorkers(s, a);
  }

  ghost predicate NoDispatchFrom(a: nat -> Action, n: nat) {
    forall m: nat :: m >= n ==> !a(m).Dispatch?
  }

  lemma OneStep(f: nat -> State, a: nat -> Action, m: nat)
    requires InfiniteRun(f, a) && !a(m).Dispatch?
    ensures NotAbove(f(m + 1), f(m))
  {
    assert StepAt(f, a, m);
    if AtRest(f(m), a(m)) {
      RestNotAbove(f(m), a(m));
    } else {
      BusyBelow(f(m), a(m));
    }
  }

  lemma BusyStep(f: nat -> State, a: nat -> Action, m: nat)
    requires InfiniteRun(f, a) && !a(m).Dispatch? && !AtRest(f(m), a(m))
    ensures Below(f(m + 1), f(m))
  {
    assert StepAt(f, a, m);
    BusyBelow(f(m), a(m));
  }

  lemma Chain(u: State, t: State, s: State)
    requires NotAbove(u, t) && NotAbove(t, s)
    ensures NotAbove(u, s)
    ensures Below(u, t) ==> Below(u, s)
  {
  }

  lemma {:induction false} NeverRises(f: nat -> State, a: nat -> Action, n: nat, m: nat)
    requires InfiniteRun(f, a) && NoDispatchFrom(a, n) && n <= m
    ensures NotAbove(f(m), f(n))
    decreases m - n
  {
    if n < m {
      var k := m - 1;
      NeverRises(f, a, n, k);
      OneStep(f, a, k);
      Chain(f(k + 1), f(k), f(n));
    }
  }

  lemma BusyLater(f: nat -> State, a: nat -> Action, n: nat, m: nat)
    requires InfiniteRun(f, a) && NoDispatchFrom(a, n) && n <= m && !AtRest(f(m), a(m))
    ensures Below(f(m + 1), f(n)) && NoDispatchFrom(a, m + 1)
  {
    NeverRises(f, a, n, m);
    BusyStep(f, a, m);
    Chain(f(m + 1), f(m), f(n));
  }

  ghost predicate RestsFrom(f: nat -> State, a: nat -> Action, end: nat) {
    forall m: nat :: m >= end ==> AtRest(f(m), a(m))
  }

  /** With no dispatch after `n`, there is an `end` after which every step is a start, a crash, or a step of a sweep
      that has nothing in hand: no claim, execution, publish, acknowledgement or requeue happens any more. */
  lemma {:induction false} ComesToRest(f: nat -> State, a: nat -> Action, n: nat)
    requires InfiniteRun(f, a) && NoDispatchFrom(a, n)
    ensures exists end: nat :: end >= n && RestsFrom(f, a, end)
    decreases Phi(f(n)), Sum(UndecidedMap(f(n))), Sum(RemainingMap(f(n)))
  {
    if !RestsFrom(f, a, n) {
      var m: nat :| m >= n && !AtRest(f(m), a(m));
      BusyLater(f, a, n, m);
      ComesToRest(f, a, m + 1);
    }
  }
}
