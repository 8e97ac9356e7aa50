/** The worker's checkout loop as a machine: one main loop, one goroutine per delivery, a semaphore channel, a wait
    group. Every channel operation, wait-group operation and call to the consumer or the processor is one step. */
module WorkerLoop {
  import opened Sums

  type DeliveryId = nat

  /** Where the main loop stands. */
  datatype Main =
    | Acquiring                // select: semaphore or cancellation
    | Popping                  // slot held, Pop running
    | Unwinding(exit: bool)    // nothing to spawn; about to give the slot back
    | Adding(d: DeliveryId)    // about to call wg.Add
    | Launching(d: DeliveryId) // about to start the goroutine
    | Waiting                  // in the deferred wg.Wait
    | Returned

  /** Where the goroutine of one delivery stands; deferred calls run in reverse order. */
  datatype Stage = Processing | Finishing | Freeing | Ending

  datatype State = State(
    concurrency: nat,
    slots: int,
    waitGroup: int,
    canceled: bool,
    main: Main,
    jobs: map<DeliveryId, Stage>,
    popped: nat,
    told: set<DeliveryId>,        // Process returned anything but "no terminal event"
    processed: seq<DeliveryId>,
    finished: seq<DeliveryId>,
    acked: seq<DeliveryId>)

  function Initial(concurrency: nat): State {
    State(concurrency, 0, 0, false, Acquiring, map[], 0, {}, [], [], [])
  }

  datatype PopResult = Delivery | TimedOut | PopError(canceled: bool)

  datatype Action =
    | Cancel
    | Acquire
    | SeeDone
    | PopReturns(result: PopResult)
    | Unwind
    | Add
    | Launch
    | Return
    | Process(d: DeliveryId, terminal: bool)
    | Finish(d: DeliveryId)
    | Free(d: DeliveryId)
    | Done(d: DeliveryId)

  predicate OfJob(a: Action) { a.Process? || a.Finish? || a.Free? || a.Done? }

  predicate OfMain(a: Action) { !OfJob(a) && !a.Cancel? }

  predicate At(s: State, d: DeliveryId, stage: Stage) { d in s.jobs && s.jobs[d] == stage }

  predicate Enabled(s: State, a: Action) {
    match a
    case Cancel => true
    case Acquire => s.main.Acquiring? && s.slots < s.concurrency
    case SeeDone => s.main.Acquiring? && s.canceled
    case PopReturns(_) => s.main.Popping?
    case Unwind => s.main.Unwinding? && s.slots > 0
    case Add => s.main.Adding?
    case Launch => s.main.Launching?
    case Return => s.main.Waiting? && s.waitGroup == 0
    case Process(d, _) => At(s, d, Processing)
    case Finish(d) => At(s, d, Finishing)
    case Free(d) => At(s, d, Freeing) && s.slots > 0
    case Done(d) => At(s, d, Ending)
  }

  function Apply(s: State, a: Action): State
    requires Enabled(s, a)
  {
    match a
    case Cancel => s.(canceled := true)
    case Acquire => s.(slots := s.slots + 1, main := Popping)
    case SeeDone => s.(main := Waiting)
    case PopReturns(result) =>
      (match result
       case Delivery => s.(main := Adding(s.popped), popped := s.popped + 1)
       case TimedOut => s.(main := Unwinding(false))
       case PopError(canceled) => s.(main := Unwinding(canceled)))
    case Unwind => s.(slots := s.slots - 1, main := if s.main.exit then Waiting else Acquiring)
    case Add => s.(waitGroup := s.waitGroup + 1, main := Launching(s.main.d))
    case Launch => s.(jobs := s.jobs[s.main.d := Processing], main := Acquiring)
    case Return => s.(main := Returned)
    case Process(d, terminal) =>
      s.(jobs := s.jobs[d := Finishing], processed := s.processed + [d],
         told := if terminal then s.told + {d} else s.told)
    case Finish(d) =>
      s.(jobs := s.jobs[d := Freeing], finished := s.finished + [d],
         acked := if d in s.told then s.acked + [d] else s.acked)
    case Free(d) => s.(jobs := s.jobs[d := Ending], slots := s.slots - 1)
    case Done(d) => s.(jobs := s.jobs - {d}, waitGroup := s.waitGroup - 1)
  }

  predicate Runs(s: State, acts: seq<Action>)
    decreases |acts|, 0
  {
    acts == [] || (Runs(s, acts[..|acts| - 1]) && Enabled(After(s, acts[..|acts| - 1]), acts[|acts| - 1]))
  }

  function After(s: State, acts: seq<Action>): State
    requires Runs(s, acts)
    decreases |acts|, 1
  {
    if acts == [] then s else Apply(After(s, acts[..|acts| - 1]), acts[|acts| - 1])
  }

  // ---------------------------------------------------------------------
  // Invariants
  // ---------------------------------------------------------------------

  /** The goroutines that hold a semaphore slot. */
  function Holders(s: State): set<DeliveryId> {
    set d | d in s.jobs && !s.jobs[d].Ending?
  }

  /** The goroutines that are running the processor or the acknowledgement. */
  function Executing(s: State): set<DeliveryId> {
    set d | d in s.jobs && (s.jobs[d].Processing? || s.jobs[d].Finishing?)
  }

  function MainSlot(m: Main): nat {
    if m.Popping? || m.Unwinding? || m.Adding? || m.Launching? then 1 else 0
  }

  /** A delivery the main loop has in hand but not yet given to a goroutine. */
  predicate Pending(s: State, d: DeliveryId) {
    (s.main.Adding? || s.main.Launching?) && s.main.d == d
  }

  predicate WasProcessed(s: State, d: DeliveryId) {
    d < s.popped && !Pending(s, d) && !At(s, d, Processing)
  }

  predicate WasFinished(s: State, d: DeliveryId) {
    WasProcessed(s, d) && !At(s, d, Finishing)
  }

  function Times(xs: seq<DeliveryId>, d: DeliveryId): nat { multiset(xs)[d] }

  function One(b: bool): nat { if b then 1 else 0 }

  predicate SlotsOk(s: State) {
    && s.slots == |Holders(s)| + MainSlot(s.main)
    && s.slots <= s.concurrency
  }

  predicate GroupOk(s: State) {
    && s.waitGroup == |s.jobs| + (if s.main.Launching? then 1 else 0)
    && (s.main.Returned? ==> s.jobs == map[])
  }

  predicate DeliveryOk(s: State, d: DeliveryId) {
    && (d in s.jobs || Pending(s, d) ==> d < s.popped)
    && !(d in s.jobs && Pending(s, d))
    && (d in s.told ==> WasProcessed(s, d))
    && Times(s.processed, d) == One(WasProcessed(s, d))
    && Times(s.finished, d) == One(WasFinished(s, d))
    && Times(s.acked, d) == One(WasFinished(s, d) && d in s.told)
  }

  ghost predicate Inv(s: State) {
    SlotsOk(s) && GroupOk(s) && forall d :: DeliveryOk(s, d)
  }

  /** What a step does to the goroutines. */
  function JobsAfter(s: State, a: Action): map<DeliveryId, Stage>
    requires Enabled(s, a)
  {
    if a.Launch? then s.jobs[s.main.d := Processing]
    else if a.Done? then s.jobs - {a.d}
    else if OfJob(a) then s.jobs[a.d := if a.Process? then Finishing else if a.Finish? then Freeing else Ending]
    else s.jobs
  }

  lemma JobsEffect(s: State, a: Action)
    requires Enabled(s, a)
    ensures Apply(s, a).jobs == JobsAfter(s, a)
  {
  }

  function HoldersOf(jobs: map<DeliveryId, Stage>): set<DeliveryId> {
    set d | d in jobs && !jobs[d].Ending?
  }

  lemma HoldersStep(s: State, a: Action)
    requires Enabled(s, a) && (a.Launch? ==> DeliveryOk(s, s.main.d))
    ensures |Holders(Apply(s, a))| == |Holders(s)| + One(a.Launch?) - One(a.Free?)
  {
    JobsEffect(s, a);
    assert Holders(s) == HoldersOf(s.jobs) && Holders(Apply(s, a)) == HoldersOf(JobsAfter(s, a));
    HoldersCount(s, a);
  }

  lemma HoldersCount(s: State, a: Action)
    requires Enabled(s, a) && (a.Launch? ==> s.main.d !in s.jobs)
    ensures |HoldersOf(JobsAfter(s, a))| == |HoldersOf(s.jobs)| + One(a.Launch?) - One(a.Free?)
  {
    if a.Launch? {
      HoldersSet(s.jobs, s.main.d, Processing);
    } else if a.Done? {
      assert HoldersOf(s.jobs - {a.d}) == HoldersOf(s.jobs);
    } else if OfJob(a) {
      HoldersSet(s.jobs, a.d, JobsAfter(s, a)[a.d]);
    }
  }

  lemma HoldersSet(jobs: map<DeliveryId, Stage>, d: DeliveryId, stage: Stage)
    ensures |HoldersOf(jobs[d := stage])|
         == |HoldersOf(jobs)| + One(!stage.Ending?) - One(d in jobs && !jobs[d].Ending?)
  {
    assert HoldersOf(jobs[d := stage]) == (HoldersOf(jobs) - {d}) + (if stage.Ending? then {} else {d});
  }

  lemma SizeSet(jobs: map<DeliveryId, Stage>, d: DeliveryId, stage: Stage)
    ensures |jobs[d := stage]| == |jobs| + One(d !in jobs)
  {
    assert jobs[d := stage].Keys == jobs.Keys + {d};
  }

  lemma SizeDrop(jobs: map<DeliveryId, Stage>, d: DeliveryId)
    requires d in jobs
    ensures |jobs - {d}| == |jobs| - 1
  {
    assert (jobs - {d}).Keys == jobs.Keys - {d};
  }

  lemma JobsStep(s: State, a: Action)
    requires Enabled(s, a) && (a.Launch? ==> DeliveryOk(s, s.main.d))
    ensures |Apply(s, a).jobs| == |s.jobs| + One(a.Launch?) - One(a.Done?)
  {
    JobsEffect(s, a);
    if a.Launch? {
      SizeSet(s.jobs, s.main.d, Processing);
    } else if a.Done? {
      SizeDrop(s.jobs, a.d);
    } else if OfJob(a) {
      SizeSet(s.jobs, a.d, JobsAfter(s, a)[a.d]);
    }
  }

  lemma OtherDelivery(s: State, a: Action, d: DeliveryId)
    requires Enabled(s, a) && DeliveryOk(s, d) && OfJob(a) && a.d != d
    ensures DeliveryOk(Apply(s, a), d)
  {
  }

  lemma OwnDelivery(s: State, a: Action)
    requires Enabled(s, a) && OfJob(a) && DeliveryOk(s, a.d)
    ensures DeliveryOk(Apply(s, a), a.d)
  {
  }

  lemma MainDelivery(s: State, a: Action, d: DeliveryId)
    requires Enabled(s, a) && !OfJob(a) && DeliveryOk(s, d)
    ensures DeliveryOk(Apply(s, a), d)
  {
  }

  lemma DeliveryStep(s: State, a: Action, d: DeliveryId)
    requires Enabled(s, a) && DeliveryOk(s, d)
    ensures DeliveryOk(Apply(s, a), d)
  {
    if !OfJob(a) {
      MainDelivery(s, a, d);
    } else if a.d == d {
      OwnDelivery(s, a);
    } else {
      OtherDelivery(s, a, d);
    }
  }

  lemma InvStep(s: State, a: Action)
    requires Enabled(s, a) && Inv(s)
    ensures Inv(Apply(s, a)) && Apply(s, a).concurrency == s.concurrency
  {
    if a.Launch? { assert DeliveryOk(s, s.main.d); }
    HoldersStep(s, a);
    JobsStep(s, a);
    forall d
      ensures DeliveryOk(Apply(s, a), d)
    {
      DeliveryStep(s, a, d);
    }
  }

  lemma {:induction false} InvAlways(concurrency: nat, acts: seq<Action>)
    requires Runs(Initial(concurrency), acts)
    ensures Inv(After(Initial(concurrency), acts)) && After(Initial(concurrency), acts).concurrency == concurrency
    decreases |acts|
  {
    if acts == [] {
      assert Holders(Initial(concurrency)) == {};
    } else {
      var prefix := acts[..|acts| - 1];
      InvAlways(concurrency, prefix);
      InvStep(After(Initial(concurrency), prefix), acts[|acts| - 1]);
    }
  }

  // ---------------------------------------------------------------------
  // What the trace says
  // ---------------------------------------------------------------------

  /** How many deliveries Pop has returned. */
  function Deliveries(acts: seq<Action>): nat {
    if acts == [] then 0
    else Deliveries(acts[..|acts| - 1]) + (if acts[|acts| - 1] == PopReturns(Delivery) then 1 else 0)
  }

  /** The deliveries for which the processor has returned, in order. */
  function ProcessedIn(acts: seq<Action>): seq<DeliveryId> {
    if acts == [] then []
    else ProcessedIn(acts[..|acts| - 1]) + (if acts[|acts| - 1].Process? then [acts[|acts| - 1].d] else [])
  }

  /** The deliveries that have been finished, in order. */
  function FinishedIn(acts: seq<Action>): seq<DeliveryId> {
    if acts == [] then []
    else FinishedIn(acts[..|acts| - 1]) + (if acts[|acts| - 1].Finish? then [acts[|acts| - 1].d] else [])
  }

  /** What the state records of the past is what has happened. */
  lemma {:induction false} StateRecords(concurrency: nat, acts: seq<Action>)
    requires Runs(Initial(concurrency), acts)
    ensures var s := After(Initial(concurrency), acts);
            && s.popped == Deliveries(acts)
            && s.processed == ProcessedIn(acts) && s.finished == FinishedIn(acts)
            && forall d :: d in s.told <==> Process(d, true) in acts
    decreases |acts|
  {
    if acts != [] {
      var prefix, a := acts[..|acts| - 1], acts[|acts| - 1];
      assert acts == prefix + [a];
      StateRecords(concurrency, prefix);
    }
  }

  /** Numbers that occur once each exactly when below `n`: there are `n` of them. */
  lemma {:induction false} OnceEach(xs: seq<DeliveryId>, n: nat)
    requires forall d: DeliveryId :: Times(xs, d) == One(d < n)
    ensures |xs| == n
    decreases n
  {
    assert xs == [] || (xs[0] in multiset(xs) && Times(xs, xs[0]) > 0);
    if n > 0 {
      assert Times(xs, n - 1) == 1;
      assert n - 1 in multiset(xs);
      var i :| 0 <= i < |xs| && xs[i] == n - 1;
      var rest := xs[..i] + xs[i + 1..];
      var last: DeliveryId := n - 1;
      assert xs == xs[..i] + [last] + xs[i + 1..];
      forall d: DeliveryId
        ensures Times(rest, d) == One(d < n - 1)
      {
        assert multiset(xs) == multiset(rest) + multiset{last};
        assert Times(xs, d) == One(d < n);
      }
      OnceEach(rest, n - 1);
    }
  }

  // ---------------------------------------------------------------------
  // What every run keeps
  // ---------------------------------------------------------------------

  lemma Subsets(a: set<DeliveryId>, b: set<DeliveryId>)
    requires a <= b
    ensures |a| <= |b|
  {
    assert b == a + (b - a);
  }

  /** Never more than `concurrency` deliveries are being executed, whatever the interleaving. */
  lemma AtMostConcurrency(concurrency: nat, acts: seq<Action>)
    requires Runs(Initial(concurrency), acts)
    ensures |Executing(After(Initial(concurrency), acts))| <= concurrency
  {
    InvAlways(concurrency, acts);
    var s := After(Initial(concurrency), acts);
    Subsets(Executing(s), Holders(s));
  }

  /** Each occupied slot belongs to a goroutine that has not freed it yet or to the main loop's current attempt:
      no exit or error path leaks one. A slot is free whenever nothing is in work. */
  lemma NoSlotLeaks(concurrency: nat, acts: seq<Action>)
    requires Runs(Initial(concurrency), acts)
    ensures var s := After(Initial(concurrency), acts);
            && s.slots == |Holders(s)| + MainSlot(s.main) <= concurrency
            && (s.main.Acquiring? && Holders(s) == {} ==> s.slots == 0)
  {
    InvAlways(concurrency, acts);
  }

  /** No delivery is processed, finished or acknowledged twice; it is acknowledged exactly when it is finished and the
      processor reported it terminal; finishing comes after processing; and there are as many deliveries as Pop has
      returned. */
  lemma AtMostOnce(concurrency: nat, acts: seq<Action>, d: DeliveryId)
    requires Runs(Initial(concurrency), acts)
    ensures var s := After(Initial(concurrency), acts);
            && Times(FinishedIn(acts), d) <= Times(ProcessedIn(acts), d) <= 1
            && Times(s.acked, d) == (if Process(d, true) in acts then Times(FinishedIn(acts), d) else 0)
            && (d >= Deliveries(acts) ==> Times(ProcessedIn(acts), d) == 0)
  {
    InvAlways(concurrency, acts);
    StateRecords(concurrency, acts);
    assert DeliveryOk(After(Initial(concurrency), acts), d);
  }

  /** When Run has returned, no goroutine is left, all slots are free, and exactly the deliveries that Pop returned have
      been processed and finished, each once. */
  lemma ReturnsAfterAll(concurrency: nat, acts: seq<Action>)
    requires Runs(Initial(concurrency), acts) && After(Initial(concurrency), acts).main.Returned?
    ensures var s := After(Initial(concurrency), acts);
            && s.jobs == map[] && s.slots == 0 && s.waitGroup == 0
            && AllDone(acts)
            && forall d :: Times(s.acked, d) == One(Process(d, true) in acts)
  {
    InvAlways(concurrency, acts);
    StateRecords(concurrency, acts);
    var s := After(Initial(concurrency), acts);
    assert Holders(s) == {};
    forall d: DeliveryId
      ensures Times(s.processed, d) == Times(s.finished, d) == One(d < s.popped)
      ensures Times(s.acked, d) == One(Process(d, true) in acts)
    {
      assert DeliveryOk(s, d);
    }
    OnceEach(s.processed, s.popped);
    OnceEach(s.finished, s.popped);
  }

  /** Every delivery that Pop returned has been processed and finished, once. */
  ghost predicate AllDone(acts: seq<Action>) {
    && |ProcessedIn(acts)| == |FinishedIn(acts)| == Deliveries(acts)
    && forall d: DeliveryId :: Times(ProcessedIn(acts), d) == Times(FinishedIn(acts), d) == One(d < Deliveries(acts))
  }

  /** The main loop is held up at the semaphore only by goroutines that can move. */
  lemma BlockedOnlyByWork(concurrency: nat, acts: seq<Action>)
    requires Runs(Initial(concurrency), acts) && concurrency >= 1
    requires var s := After(Initial(concurrency), acts);
             s.main.Acquiring? && !Enabled(s, Acquire)
    ensures exists a :: OfJob(a) && Enabled(After(Initial(concurrency), acts), a)
  {
    InvAlways(concurrency, acts);
    var s := After(Initial(concurrency), acts);
    assert Holders(s) != {};
    var d :| d in Holders(s);
    var a := NextOf(s, d, true);
    assert OfJob(a) && Enabled(s, a);
  }

  /** The next step of one goroutine. */
  function NextOf(s: State, d: DeliveryId, terminal: bool): (a: Action)
    requires d in s.jobs
    ensures OfJob(a) && a.d == d
    ensures s.slots > 0 || s.jobs[d].Ending? ==> Enabled(s, a)
  {
    match s.jobs[d]
    case Processing => Process(d, terminal)
    case Finishing => Finish(d)
    case Freeing => Free(d)
    case Ending => Done(d)
  }

  lemma SlotForHolder(s: State, d: DeliveryId)
    requires Inv(s) && d in s.jobs
    ensures s.slots > 0 || s.jobs[d].Ending?
  {
    assert d in Holders(s) || s.jobs[d].Ending?;
    if d in Holders(s) {
      assert |Holders(s)| > 0;
    }
  }

  // ---------------------------------------------------------------------
  // The code of the loop
  // ---------------------------------------------------------------------

  function Left(stage: Stage): nat {
    match stage case Processing => 4 case Finishing => 3 case Freeing => 2 case Ending => 1
  }

  function LeftMap(jobs: map<DeliveryId, Stage>): map<DeliveryId, nat> { map d | d in jobs :: Left(jobs[d]) }

  /** Steps left to the goroutines. */
  ghost function Work(jobs: map<DeliveryId, Stage>): nat { Sum(LeftMap(jobs)) }

  /** Every step of a goroutine uses up one unit of the remaining work. */
  lemma JobStepWorks(s: State, a: Action)
    requires Enabled(s, a) && OfJob(a)
    ensures Work(Apply(s, a).jobs) == Work(s.jobs) - 1
    ensures Apply(s, a).main == s.main
  {
    JobsEffect(s, a);
    var after := JobsAfter(s, a);
    if a.Done? {
      SumSplit(LeftMap(s.jobs), a.d);
      assert LeftMap(after) == LeftMap(s.jobs) - {a.d};
    } else {
      SumUpdate(LeftMap(s.jobs), a.d, Left(after[a.d]));
      assert LeftMap(after) == LeftMap(s.jobs)[a.d := Left(after[a.d])];
    }
  }

  ghost predicate NoMain(acts: seq<Action>, from: nat) {
    forall i :: from <= i < |acts| ==> !OfMain(acts[i])
  }

  /** The goroutines and the canceler leave the main loop alone, and only use up work. */
  lemma {:induction false} MainKept(s: State, tr: seq<Action>, n: nat)
    requires Runs(s, tr) && n <= |tr| && Runs(s, tr[..n]) && NoMain(tr, n)
    ensures var t0, t := After(s, tr[..n]), After(s, tr);
            t.main == t0.main && t.popped == t0.popped && Work(t.jobs) <= Work(t0.jobs) && (t0.canceled ==> t.canceled)
    decreases |tr|
  {
    if n == |tr| {
      assert tr[..n] == tr;
    } else {
      var prefix := tr[..|tr| - 1];
      assert prefix[..n] == tr[..n];
      MainKept(s, prefix, n);
      var a := tr[|tr| - 1];
      assert !OfMain(a);
      if OfJob(a) { JobStepWorks(After(s, prefix), a); }
    }
  }

  /** The steps of the main loop itself from some point on. */
  function MainSteps(acts: seq<Action>, from: nat): seq<Action>
    requires from <= |acts|
    decreases |acts|
  {
    if |acts| == from then []
    else MainSteps(acts[..|acts| - 1], from) + (if OfMain(acts[|acts| - 1]) then [acts[|acts| - 1]] else [])
  }

  lemma {:induction false} MainStepsKept(before: seq<Action>, after: seq<Action>, from: nat)
    requires before <= after && from <= |before| && NoMain(after, |before|)
    ensures MainSteps(after, from) == MainSteps(before, from)
    decreases |after|
  {
    if |after| > |before| {
      assert before <= after[..|after| - 1];
      MainStepsKept(before, after[..|after| - 1], from);
    } else {
      assert before == after;
    }
  }

  lemma MainStepAdded(acts: seq<Action>, a: Action, from: nat)
    requires from <= |acts|
    ensures MainSteps(acts + [a], from) == MainSteps(acts, from) + (if OfMain(a) then [a] else [])
  {
    assert (acts + [a])[..|acts + [a]| - 1] == acts;
  }

  lemma {:induction false} MainStepsJoin(before: seq<Action>, after: seq<Action>, from: nat)
    requires before <= after && from <= |before|
    ensures MainSteps(after, from) == MainSteps(before, from) + MainSteps(after, |before|)
    decreases |after|
  {
    if |after| > |before| {
      assert before <= after[..|after| - 1];
      MainStepsJoin(before, after[..|after| - 1], from);
    } else {
      assert before == after;
    }
  }

  datatype Leaving = Stays | SawCancel | PopCanceled

  /** A round in which Pop returned a delivery. */
  predicate Delivers(steps: seq<Action>) { PopReturns(Delivery) in steps }

  /** What one round of the loop consists of. */
  predicate RoundSteps(why: Leaving, steps: seq<Action>) {
    if why.SawCancel? then steps == [SeeDone]
    else if why.PopCanceled? then steps == [Acquire, PopReturns(PopError(true)), Unwind]
    else if Delivers(steps) then steps == [Acquire, PopReturns(Delivery), Add, Launch]
    else steps == [Acquire, PopReturns(TimedOut), Unwind] || steps == [Acquire, PopReturns(PopError(false)), Unwind]
  }

  lemma RoundIs(why: Leaving, result: PopResult)
    requires why == (if result == PopError(true) then PopCanceled else Stays)
    ensures var steps := [Acquire] + [PopReturns(result)] + (if result.Delivery? then [Add, Launch] else [Unwind]);
            RoundSteps(why, steps) && (Delivers(steps) <==> result.Delivery?)
  {
    var steps := [Acquire] + [PopReturns(result)] + (if result.Delivery? then [Add, Launch] else [Unwind]);
    assert steps[1] == PopReturns(result);
    assert steps == if result.Delivery? then [Acquire, PopReturns(result), Add, Launch]
                    else [Acquire, PopReturns(result), Unwind];
  }

  class Worker {
    const concurrency: nat
    var s: State
    ghost var trace: seq<Action>

    ghost predicate Valid()
      reads this
    {
      concurrency >= 1 && Runs(Initial(concurrency), trace) && s == After(Initial(concurrency), trace)
    }

    constructor (concurrency: nat)
      requires concurrency >= 1
      ensures Valid() && trace == [] && this.concurrency == concurrency
    {
      this.concurrency := concurrency;
      s, trace := Initial(concurrency), [];
    }

    method Do(a: Action)
      requires Valid() && Enabled(s, a)
      modifies this
      ensures Valid() && trace == old(trace) + [a] && s == Apply(old(s), a)
    {
      s := Apply(s, a);
      trace := trace + [a];
      assert trace[..|trace| - 1] == old(trace);
    }

    /** Any steps of the goroutines, and perhaps a cancellation. */
    method Others()
      requires Valid()
      modifies this
      ensures Valid() && old(trace) <= trace && NoMain(trace, |old(trace)|)
    {
    }

    method Wait()
      requires Valid()
      modifies this
      ensures Valid() && old(trace) <= trace
      ensures s.main == old(s).main && s.popped == old(s).popped && Work(s.jobs) <= Work(old(s).jobs)
      ensures old(s).canceled ==> s.canceled
      ensures MainSteps(trace, |old(trace)|) == []
    {
      Others();
      MainStepsKept(old(trace), trace, |old(trace)|);
      assert trace[..|old(trace)|] == old(trace);
      MainKept(Initial(concurrency), trace, |old(trace)|);
    }

    /** Let one goroutine make its next step. */
    method Advance()
      requires Valid() && s.jobs != map[]
      modifies this
      ensures Valid() && old(trace) <= trace
      ensures s.main == old(s).main && s.popped == old(s).popped && s.canceled == old(s).canceled
      ensures Work(s.jobs) < Work(old(s).jobs) && MainSteps(trace, |old(trace)|) == []
    {
      assert s.jobs.Keys != {};
      var d :| d in s.jobs;
      var terminal: bool := *;
      InvAlways(concurrency, trace);
      SlotForHolder(s, d);
      var a := NextOf(s, d, terminal);
      JobStepWorks(s, a);
      MainStepAdded(trace, a, |trace|);
      Do(a);
    }

    /** The select on semaphore and cancellation; it blocks while neither is ready, and is freed by the work that
        is going on. */
    method AcquireSlot() returns (ok: bool)
      requires Valid() && s.main.Acquiring?
      modifies this
      ensures Valid() && old(trace) <= trace && s.popped == old(s).popped
      ensures if ok then s.main.Popping? else s.main.Waiting? && s.canceled
      ensures MainSteps(trace, |old(trace)|) == [if ok then Acquire else SeeDone]
    {
      AwaitSlot();
      InvAlways(concurrency, trace);
      var preferSlot: bool := *;
      ok := s.slots < concurrency && (preferSlot || !s.canceled);
      MainStepAdded(trace, if ok then Acquire else SeeDone, |old(trace)|);
      Do(if ok then Acquire else SeeDone);
    }

    method AwaitSlot()
      requires Valid() && s.main.Acquiring?
      modifies this
      ensures Valid() && old(trace) <= trace && s.main.Acquiring? && s.popped == old(s).popped
      ensures s.canceled || s.slots < concurrency
      ensures MainSteps(trace, |old(trace)|) == []
    {
      Wait();
      while !s.canceled && s.slots >= concurrency
        invariant Valid() && old(trace) <= trace && s.main.Acquiring? && s.popped == old(s).popped
        invariant MainSteps(trace, |old(trace)|) == []
        decreases Work(s.jobs)
      {
        InvAlways(concurrency, trace);
        ghost var before := trace;
        Advance();
        MainStepsJoin(before, trace, |old(trace)|);
      }
    }

    /** The slot is held: wait for Pop and take what it returns. */
    method TakeResult() returns (result: PopResult)
      requires Valid() && s.main.Popping?
      modifies this
      ensures Valid() && old(trace) <= trace && MainSteps(trace, |old(trace)|) == [PopReturns(result)]
      ensures s.popped == old(s).popped + (if result.Delivery? then 1 else 0)
      ensures if result.Delivery? then s.main.Adding? else s.main == Unwinding(result == PopError(true))
    {
      Wait();
      result := *;
      MainStepAdded(trace, PopReturns(result), |old(trace)|);
      Do(PopReturns(result));
    }

    /** The slot is held and nothing was checked out: give it back. A canceled Pop leaves the loop, a timeout or any
        other error does not. */
    method GiveUp(exit: bool)
      requires Valid() && s.main == Unwinding(exit)
      modifies this
      ensures Valid() && old(trace) <= trace && s.popped == old(s).popped
      ensures s.main == if exit then Waiting else Acquiring
      ensures MainSteps(trace, |old(trace)|) == [Unwind]
    {
      Wait();
      InvAlways(concurrency, trace);
      MainStepAdded(trace, Unwind, |old(trace)|);
      Do(Unwind);
    }

    /** Count the goroutine before it exists, then start it. */
    method Spawn()
      requires Valid() && s.main.Adding?
      modifies this
      ensures Valid() && old(trace) <= trace && s.popped == old(s).popped && s.main.Acquiring?
      ensures MainSteps(trace, |old(trace)|) == [Add, Launch]
    {
      Wait();
      MainStepAdded(trace, Add, |old(trace)|);
      Do(Add);
      ghost var before := trace;
      Wait();
      MainStepsJoin(before, trace, |old(trace)|);
      MainStepAdded(trace, Launch, |old(trace)|);
      Do(Launch);
    }

    /** One round of the loop. Whatever the goroutines do meanwhile, the loop's own steps are one of three sequences: it
        sees the cancellation at the semaphore; it takes a slot, Pop returns a delivery, and a goroutine is counted and
        started for it; or it takes a slot, Pop returns none, and the slot is given back. The loop is left in the first
        case, and in the third when Pop came back canceled; a timeout or any other error goes on. */
    method Round() returns (why: Leaving)
      requires Valid() && s.main.Acquiring?
      modifies this
      ensures Valid() && old(trace) <= trace
      ensures if why.Stays? then s.main.Acquiring? else s.main.Waiting?
      ensures why.SawCancel? ==> s.canceled
      ensures RoundSteps(why, MainSteps(trace, |old(trace)|))
      ensures s.popped == old(s).popped + (if Delivers(MainSteps(trace, |old(trace)|)) then 1 else 0)
    {
      var ok := AcquireSlot();
      if !ok {
        return SawCancel;
      }
      ghost var before := trace;
      var result := TakeResult();
      MainStepsJoin(before, trace, |old(trace)|);
      before := trace;
      why := ActOn(result);
      MainStepsJoin(before, trace, |old(trace)|);
      RoundIs(why, result);
    }

    /** A delivery is spawned; otherwise the slot is given back. */
    method ActOn(result: PopResult) returns (why: Leaving)
      requires Valid()
      requires if result.Delivery? then s.main.Adding? else s.main == Unwinding(result == PopError(true))
      modifies this
      ensures Valid() && old(trace) <= trace && s.popped == old(s).popped
      ensures if why.Stays? then s.main.Acquiring? else s.main.Waiting?
      ensures why == (if result == PopError(true) then PopCanceled else Stays)
      ensures MainSteps(trace, |old(trace)|) == (if result.Delivery? then [Add, Launch] else [Unwind])
    {
      if result.Delivery? {
        Spawn();
        return Stays;
      }
      why := if result == PopError(true) then PopCanceled else Stays;
      GiveUp(why.PopCanceled?);
    }

    /** The deferred wg.Wait: it ends, because the goroutines only use up work. */
    method Drain()
      requires Valid() && s.main.Waiting?
      modifies this
      ensures Valid() && old(trace) <= trace && s.main.Returned? && s.popped == old(s).popped
    {
      Wait();
      while s.waitGroup > 0
        invariant Valid() && old(trace) <= trace && s.main.Waiting? && s.popped == old(s).popped
        decreases Work(s.jobs)
      {
        InvAlways(concurrency, trace);
        Advance();
      }
      InvAlways(concurrency, trace);
      Do(Return);
    }

    /** Run: rounds until a cancellation is seen, then the drain. `rounds` is the number of rounds after which the
        context is canceled at the latest. When Run returns nothing is in flight, no slot is taken, and every
        delivery that Pop returned was processed and finished exactly once. */
    method Run(rounds: nat)
      requires Valid() && s.main.Acquiring?
      modifies this
      ensures Valid() && old(trace) <= trace && s.main.Returned?
      ensures s.jobs == map[] && s.slots == 0
      ensures AllDone(trace) && forall d :: Times(s.acked, d) == One(Process(d, true) in trace)
    {
      var goOn := true;
      var i := 0;
      while goOn && i < rounds
        invariant Valid() && old(trace) <= trace
        invariant if goOn then s.main.Acquiring? else s.main.Waiting?
        decreases rounds - i
      {
        var why := Round();
        goOn := why.Stays?;
        i := i + 1;
      }
      if goOn {
        Do(Cancel);
        Do(SeeDone);
      }
      Drain();
      ReturnsAfterAll(concurrency, trace);
    }

    /** Anyone but the goroutine of `d`. */
    method OthersOf(d: DeliveryId)
      requires Valid() && d in s.jobs
      modifies this
      ensures Valid() && old(trace) <= trace && NotBy(trace, |old(trace)|, d)
    {
    }

    method WaitAs(d: DeliveryId)
      requires Valid() && d in s.jobs
      modifies this
      ensures Valid() && old(trace) <= trace && SameJob(old(s), s, d)
    {
      OthersOf(d);
      assert trace[..|old(trace)|] == old(trace);
      JobKept(concurrency, trace, |old(trace)|, d);
    }

    /** One goroutine: process, finish, then the deferred slot and wait-group releases in reverse order. Whatever the
        processor returned, the delivery is processed and finished once, the slot freed and the count lowered; it is
        acknowledged exactly when the outcome was terminal. */
    method RunJob(d: DeliveryId, terminal: bool)
      requires Valid() && At(s, d, Processing)
      modifies this
      ensures Valid() && old(trace) <= trace && d !in s.jobs
      ensures Times(s.processed, d) == Times(s.finished, d) == 1 && Times(s.acked, d) == One(terminal)
    {
      WaitAs(d);
      InvAlways(concurrency, trace);
      assert DeliveryOk(s, d);
      Do(Process(d, terminal));
      WaitAs(d);
      Do(Finish(d));
      WaitAs(d);
      InvAlways(concurrency, trace);
      SlotForHolder(s, d);
      Do(Free(d));
      WaitAs(d);
      InvAlways(concurrency, trace);
      assert DeliveryOk(s, d);
      Do(Done(d));
    }
  }

  predicate JobBy(a: Action, d: DeliveryId) { OfJob(a) && a.d == d }

  ghost predicate NotBy(acts: seq<Action>, from: nat, d: DeliveryId) {
    forall i :: from <= i < |acts| ==> !JobBy(acts[i], d)
  }

  predicate SameJob(s: State, t: State, d: DeliveryId) {
    d in s.jobs && d in t.jobs && s.jobs[d] == t.jobs[d] && (d in s.told <==> d in t.told)
  }

  /** A running goroutine is left alone by the main loop and by the others. */
  lemma {:induction false} JobKept(concurrency: nat, tr: seq<Action>, n: nat, d: DeliveryId)
    requires Runs(Initial(concurrency), tr) && n <= |tr| && Runs(Initial(concurrency), tr[..n]) && NotBy(tr, n, d)
    requires d in After(Initial(concurrency), tr[..n]).jobs
    ensures SameJob(After(Initial(concurrency), tr[..n]), After(Initial(concurrency), tr), d)
    decreases |tr|
  {
    if n == |tr| {
      assert tr[..n] == tr;
    } else {
      var prefix := tr[..|tr| - 1];
      assert prefix[..n] == tr[..n];
      JobKept(concurrency, prefix, n, d);
      InvAlways(concurrency, prefix);
      assert DeliveryOk(After(Initial(concurrency), prefix), d);
      SameJobStep(After(Initial(concurrency), prefix), tr[|tr| - 1], d);
    }
  }

  lemma SameJobStep(s: State, a: Action, d: DeliveryId)
    requires Enabled(s, a) && !JobBy(a, d) && d in s.jobs && DeliveryOk(s, d)
    ensures SameJob(s, Apply(s, a), d)
  {
  }
}
