/** The reliable job queue as a machine over atomic Redis commands.

    Each action is one command (or one local decision) of one worker, one sweep or the dispatcher.
    A command's reply may be lost: `Ok` means executed and answered, `Error` means not executed,
    `Lost` means executed but reported to the caller as an error. */
module Protocol {
  import opened Bags
  import opened Events

  const MAX_RECLAIMS: nat := 1

  type WorkerId = nat
  type SweepId = nat
  type ExecId = nat

  datatype Priority = Critical | High | Normal | Low

  /** A queue entry. Equal values stand for equal bytes; `Garbage` does not decode. */
  datatype Payload = Garbage(raw: string) | Wire(job: Job, rest: string)

  datatype Place = Queue(priority: Priority) | Processing(worker: WorkerId, priority: Priority) | InHand(sweep: SweepId)

  datatype Reply = Ok | Error | Lost

  // Workers -------------------------------------------------------------

  datatype Reason = Settled | Duplicate | Malformed

  datatype Pc =
    | Fresh                               // checked out, claim not attempted
    | Running                             // claim won
    | Publishing(sent: nat, marked: bool) // `sent` events are out; marker written for the next one?
    | Removing(why: Reason)               // about to LREM the entry
    | Stranded                            // given up on; the entry stays in the processing list

  datatype Checkout = Checkout(worker: WorkerId, priority: Priority, payload: Payload, pc: Pc)

  datatype Fleet = Fleet(
    running: set<WorkerId>,
    started: set<WorkerId>,
    checkouts: map<ExecId, Checkout>,
    nextExec: ExecId,
    plans: map<ExecId, seq<CompletedEvent>>)

  // Sweeps --------------------------------------------------------------

  type ListId = (WorkerId, Priority)

  datatype Stage = Counting | Checking(n: nat) | Releasing(n: nat) | Pushing(n: nat) | Failing

  datatype Hand = Empty | Holding(priority: Priority, stage: Stage)

  datatype Sweep =
    | Scanning(live: set<WorkerId>, targets: set<ListId>)
    | Draining(targets: set<ListId>, handled: set<string>, hand: Hand)

  // Redis ---------------------------------------------------------------

  datatype Author = Execution(exec: ExecId) | BySweep(sweep: SweepId)

  datatype Entry = Entry(author: Author, event: CompletedEvent)

  datatype Keys = Keys(claims: set<string>, published: set<string>, reclaims: map<string, nat>)

  // History: nothing below is read by any guard. ------------------------

  datatype Cause = SweeperDied | PopReplyLost | PushFailed | ReportFailed

  datatype How =
    | Acked | DroppedDuplicate | ClearedMalformed      // removed by the worker that held it
    | ReportedFailed | SweptDuplicate | SweptMalformed // consumed by a sweep
    | Gone(cause: Cause)

  datatype Fate = Fate(payload: Payload, how: How)

  datatype History = History(
    dispatched: multiset<Payload>,
    fates: seq<Fate>,
    claimed: map<string, nat>,
    released: map<string, seq<nat>>,
    requeued: map<string, seq<nat>>)

  datatype State = State(
    store: map<Place, seq<Payload>>,
    keys: Keys,
    log: seq<Entry>,
    fleet: Fleet,
    sweeps: map<SweepId, Sweep>,
    history: History)

  const INITIAL: State :=
    State(map[], Keys({}, {}, map[]), [], Fleet({}, {}, map[], 0, map[]), map[],
          History(multiset{}, [], map[], map[], map[]))

  datatype Action =
    | Dispatch(priority: Priority, payload: Payload)
    | Start(worker: WorkerId)
    | Crash(worker: WorkerId)
    | Move(worker: WorkerId, priority: Priority, reply: Reply)
    | Claim(exec: ExecId, reply: Reply)
    | Decide(exec: ExecId, outcome: Outcome, stamp: string, ms: nat)
    | Mark(exec: ExecId, reply: Reply)
    | Publish(exec: ExecId, reply: Reply)
    | Remove(exec: ExecId, reply: Reply)
    | Snapshot(sweep: SweepId, live: set<WorkerId>)
    | Scan(sweep: SweepId, found: set<ListId>)
    | BeginDrain(sweep: SweepId)
    | Pop(sweep: SweepId, list: ListId, reply: Reply)
    | Increment(sweep: SweepId, reply: Reply)
    | Check(sweep: SweepId, reply: Reply)
    | Release(sweep: SweepId, reply: Reply)
    | Push(sweep: SweepId, reply: Reply)
    | Report(sweep: SweepId, reply: Reply, message: string, stamp: string)
    | Stop(sweep: SweepId)

  // ---------------------------------------------------------------------
  // Reading the state
  // ---------------------------------------------------------------------

  function At(s: State, l: Place): seq<Payload> { Lookup(s.store, l) }

  function Last<T>(xs: seq<T>): T
    requires xs != []
  { xs[|xs| - 1] }

  function Front<T>(xs: seq<T>): seq<T>
    requires xs != []
  { xs[..|xs| - 1] }

  function Reclaims(s: State, k: string): nat {
    if k in s.keys.reclaims then s.keys.reclaims[k] else 0
  }

  function Claimed(s: State, k: string): nat {
    if k in s.history.claimed then s.history.claimed[k] else 0
  }

  function Released(s: State, k: string): seq<nat> { Lookup(s.history.released, k) }

  function Requeued(s: State, k: string): seq<nat> { Lookup(s.history.requeued, k) }

  predicate HasKey(x: Payload, k: string) { x.Wire? && x.job.key == k }

  predicate Active(s: State, e: ExecId) {
    e in s.fleet.checkouts && s.fleet.checkouts[e].worker in s.fleet.running
  }

  function PcOf(s: State, e: ExecId): Pc
    requires e in s.fleet.checkouts
  { s.fleet.checkouts[e].pc }

  function KeyOf(s: State, e: ExecId): string
    requires e in s.fleet.checkouts && s.fleet.checkouts[e].payload.Wire?
  { s.fleet.checkouts[e].payload.job.key }

  /** The sweep holds exactly one decodable payload and is at some stage with it. */
  predicate Holds(s: State, r: SweepId) {
    && r in s.sweeps && s.sweeps[r].Draining? && s.sweeps[r].hand.Holding?
    && |At(s, InHand(r))| == 1 && At(s, InHand(r))[0].Wire?
  }

  function Held(s: State, r: SweepId): Payload
    requires Holds(s, r)
  { At(s, InHand(r))[0] }

  function HeldKey(s: State, r: SweepId): string
    requires Holds(s, r)
  { Held(s, r).job.key }

  function StageOf(s: State, r: SweepId): Stage
    requires Holds(s, r)
  { s.sweeps[r].hand.stage }

  predicate Idle(s: State, r: SweepId) {
    r in s.sweeps && s.sweeps[r].Draining? && s.sweeps[r].hand.Empty?
  }

  // ---------------------------------------------------------------------
  // Guards. An event that fails validation is refused before it reaches Redis.
  // ---------------------------------------------------------------------

  predicate Enabled(s: State, a: Action) {
    match a
    case Dispatch(_, _) => true
    case Start(w) => w !in s.fleet.started
    case Crash(w) => w in s.fleet.running
    case Move(w, p, reply) => w in s.fleet.running && At(s, Queue(p)) != [] && !reply.Error?
    case Claim(e, _) => Active(s, e) && PcOf(s, e).Fresh? && s.fleet.checkouts[e].payload.Wire?
    case Decide(e, _, _, _) => Active(s, e) && PcOf(s, e).Running? && s.fleet.checkouts[e].payload.Wire?
    case Mark(e, _) =>
      Active(s, e) && PcOf(s, e).Publishing? && !PcOf(s, e).marked && s.fleet.checkouts[e].payload.Wire?
    case Publish(e, reply) =>
      && Active(s, e) && PcOf(s, e).Publishing? && PcOf(s, e).marked
      && e in s.fleet.plans && PcOf(s, e).sent < |s.fleet.plans[e]|
      && (reply.Error? || Sendable(s.fleet.plans[e][PcOf(s, e).sent]))
    case Remove(e, _) => Active(s, e) && PcOf(s, e).Removing?
    case Snapshot(r, _) => r !in s.sweeps
    case Scan(r, found) =>
      && r in s.sweeps && s.sweeps[r].Scanning?
      && forall t :: t in found ==> At(s, Processing(t.0, t.1)) != []
    case BeginDrain(r) => r in s.sweeps && s.sweeps[r].Scanning?
    case Pop(r, t, reply) =>
      Idle(s, r) && t in s.sweeps[r].targets && At(s, Processing(t.0, t.1)) != [] && !reply.Error?
    case Increment(r, _) => Holds(s, r) && StageOf(s, r).Counting?
    case Check(r, _) => Holds(s, r) && StageOf(s, r).Checking?
    case Release(r, _) => Holds(s, r) && StageOf(s, r).Releasing?
    case Push(r, _) => Holds(s, r) && StageOf(s, r).Pushing?
    case Report(r, reply, message, stamp) =>
      && Holds(s, r) && StageOf(s, r).Failing?
      && (reply.Error? || Sendable(FailureEvent(Held(s, r).job, message, stamp)))
    case Stop(r) => r in s.sweeps
  }

  // ---------------------------------------------------------------------
  // Effects
  // ---------------------------------------------------------------------

  function SetPc(f: Fleet, e: ExecId, pc: Pc): Fleet
    requires e in f.checkouts
  { f.(checkouts := f.checkouts[e := f.checkouts[e].(pc := pc)]) }

  function SetHand(s: State, r: SweepId, hand: Hand): map<SweepId, Sweep>
    requires r in s.sweeps && s.sweeps[r].Draining?
  { s.sweeps[r := s.sweeps[r].(hand := hand)] }

  function SetStage(s: State, r: SweepId, stage: Stage): map<SweepId, Sweep>
    requires Holds(s, r)
  { SetHand(s, r, s.sweeps[r].hand.(stage := stage)) }

  function AddFate(h: History, x: Payload, how: How): History {
    h.(fates := h.fates + [Fate(x, how)])
  }

  /** LREM key 1 x: drops the first occurrence counted from the head, if there is one. */
  function RemoveFirst(xs: seq<Payload>, x: Payload): (r: seq<Payload>)
    ensures x in xs ==> multiset(r) == multiset(xs) - multiset{x}
    ensures x !in xs ==> r == xs
  {
    if xs == [] then []
    else if xs[0] == x then
      assert xs == [xs[0]] + xs[1..];
      xs[1..]
    else
      assert xs == [xs[0]] + xs[1..];
      [xs[0]] + RemoveFirst(xs[1..], x)
  }

  function FirstIndex(xs: seq<Payload>, x: Payload): (i: nat)
    requires x in xs
    ensures i < |xs| && xs[i] == x && x !in xs[..i]
  {
    if xs[0] == x then 0 else
      var i := 1 + FirstIndex(xs[1..], x);
      assert xs[..i] == [xs[0]] + xs[1..][..i - 1];
      i
  }

  lemma Shifted(xs: seq<Payload>, j: nat)
    requires j + 1 < |xs|
    ensures [xs[0]] + (xs[1..][..j] + xs[1..][j + 1..]) == xs[..j + 1] + xs[j + 2..]
  {
    assert xs[..j + 1] == [xs[0]] + xs[1..][..j];
    assert xs[j + 2..] == xs[1..][j + 1..];
  }

  /** It is the first one that goes; the others stay in order. */
  lemma {:induction false} RemovesFirst(xs: seq<Payload>, x: Payload)
    requires x in xs
    ensures var i := FirstIndex(xs, x); RemoveFirst(xs, x) == xs[..i] + xs[i + 1..]
    decreases |xs|
  {
    if xs[0] == x {
      assert xs[..0] + xs[1..] == xs[1..];
    } else {
      RemovesFirst(xs[1..], x);
      Shifted(xs, FirstIndex(xs[1..], x));
    }
  }

  function DoMove(s: State, w: WorkerId, p: Priority, reply: Reply): State
    requires Enabled(s, Move(w, p, reply))
  {
    var q := At(s, Queue(p));
    var x := Last(q);
    var pc := if reply.Lost? then Stranded else if x.Garbage? then Removing(Malformed) else Fresh;
    var e := s.fleet.nextExec;
    s.(store := s.store[Queue(p) := Front(q)][Processing(w, p) := [x] + At(s, Processing(w, p))],
       fleet := s.fleet.(checkouts := s.fleet.checkouts[e := Checkout(w, p, x, pc)], nextExec := e + 1))
  }

  function DoClaim(s: State, e: ExecId, reply: Reply): State
    requires Enabled(s, Claim(e, reply))
  {
    var k := KeyOf(s, e);
    if k == "" || reply.Error? then s.(fleet := SetPc(s.fleet, e, Stranded))
    else if k in s.keys.claims then
      s.(fleet := SetPc(s.fleet, e, if reply.Ok? then Removing(Duplicate) else Stranded))
    else
      s.(keys := s.keys.(claims := s.keys.claims + {k}),
         history := s.history.(claimed := s.history.claimed[k := Claimed(s, k) + 1]),
         fleet := SetPc(s.fleet, e, if reply.Ok? then Running else Stranded))
  }

  function DoDecide(s: State, e: ExecId, outcome: Outcome, stamp: string, ms: nat): State
    requires Enabled(s, Decide(e, outcome, stamp, ms))
  {
    var plan := PlanOf(s.fleet.checkouts[e].payload.job, outcome, stamp, ms);
    s.(fleet := SetPc(s.fleet, e, Publishing(0, false)).(plans := s.fleet.plans[e := plan]))
  }

  function DoMark(s: State, e: ExecId, reply: Reply): State
    requires Enabled(s, Mark(e, reply))
  {
    var f := SetPc(s.fleet, e, Publishing(PcOf(s, e).sent, true));
    if reply.Error? then s.(fleet := f)
    else s.(fleet := f, keys := s.keys.(published := s.keys.published + {KeyOf(s, e)}))
  }

  function DoPublish(s: State, e: ExecId, reply: Reply): State
    requires Enabled(s, Publish(e, reply))
  {
    var sent := PcOf(s, e).sent;
    var plan := s.fleet.plans[e];
    if reply.Error? then s.(fleet := SetPc(s.fleet, e, Stranded))
    else
      var pc := if reply.Lost? then Stranded
                else if sent + 1 == |plan| then Removing(Settled)
                else Publishing(sent + 1, false);
      s.(log := s.log + [Entry(Execution(e), plan[sent])], fleet := SetPc(s.fleet, e, pc))
  }

  function HowOf(why: Reason): How {
    match why
    case Settled => Acked
    case Duplicate => DroppedDuplicate
    case Malformed => ClearedMalformed
  }

  function DoRemove(s: State, e: ExecId, reply: Reply): State
    requires Enabled(s, Remove(e, reply))
  {
    if reply.Error? then s.(fleet := SetPc(s.fleet, e, Stranded))
    else
      var c := s.fleet.checkouts[e];
      var l := Processing(c.worker, c.priority);
      s.(store := s.store[l := RemoveFirst(At(s, l), c.payload)],
         fleet := s.fleet.(checkouts := s.fleet.checkouts - {e}),
         history := if c.payload in At(s, l) then AddFate(s.history, c.payload, HowOf(c.pc.why)) else s.history)
  }

  function DoPop(s: State, r: SweepId, t: ListId, reply: Reply): State
    requires Enabled(s, Pop(r, t, reply))
  {
    var l := Processing(t.0, t.1);
    var x := Last(At(s, l));
    var store := s.store[l := Front(At(s, l))];
    if reply.Lost? then s.(store := store, history := AddFate(s.history, x, Gone(PopReplyLost)))
    else if x.Garbage? then s.(store := store, history := AddFate(s.history, x, SweptMalformed))
    else if x.job.key in s.sweeps[r].handled then
      s.(store := store, history := AddFate(s.history, x, SweptDuplicate))
    else
      s.(store := store[InHand(r) := [x]],
         sweeps := s.sweeps[r := s.sweeps[r].(handled := s.sweeps[r].handled + {x.job.key},
                                              hand := Holding(t.1, Counting))])
  }

  function DoIncrement(s: State, r: SweepId, reply: Reply): State
    requires Enabled(s, Increment(r, reply))
  {
    var k := HeldKey(s, r);
    var n := Reclaims(s, k) + 1;
    if reply.Error? then s.(sweeps := SetStage(s, r, Failing))
    else s.(keys := s.keys.(reclaims := s.keys.reclaims[k := n]),
            sweeps := SetStage(s, r, if reply.Ok? then Checking(n) else Failing))
  }

  function DoCheck(s: State, r: SweepId, reply: Reply): State
    requires Enabled(s, Check(r, reply))
  {
    var n := StageOf(s, r).n;
    if !reply.Ok? || HeldKey(s, r) in s.keys.published || n > MAX_RECLAIMS
    then s.(sweeps := SetStage(s, r, Failing))
    else s.(sweeps := SetStage(s, r, Releasing(n)))
  }

  function DoRelease(s: State, r: SweepId, reply: Reply): State
    requires Enabled(s, Release(r, reply))
  {
    var k := HeldKey(s, r);
    var n := StageOf(s, r).n;
    if k == "" || reply.Error? then s.(sweeps := SetStage(s, r, Failing))
    else s.(keys := s.keys.(claims := s.keys.claims - {k}),
            history := s.history.(released := s.history.released[k := Released(s, k) + [n]]),
            sweeps := SetStage(s, r, if reply.Ok? then Pushing(n) else Failing))
  }

  function Drop(s: State, r: SweepId, how: How): State
    requires Holds(s, r)
  {
    s.(store := s.store[InHand(r) := []],
       sweeps := SetHand(s, r, Empty),
       history := AddFate(s.history, Held(s, r), how))
  }

  function DoPush(s: State, r: SweepId, reply: Reply): State
    requires Enabled(s, Push(r, reply))
  {
    var x := Held(s, r);
    var k := HeldKey(s, r);
    var q := Queue(s.sweeps[r].hand.priority);
    if reply.Error? then Drop(s, r, Gone(PushFailed))
    else
      s.(store := s.store[InHand(r) := []][q := At(s, q) + [x]],
         sweeps := SetHand(s, r, Empty),
         history := s.history.(requeued := s.history.requeued[k := Requeued(s, k) + [StageOf(s, r).n]]))
  }

  function DoReport(s: State, r: SweepId, reply: Reply, message: string, stamp: string): State
    requires Enabled(s, Report(r, reply, message, stamp))
  {
    if reply.Error? then Drop(s, r, Gone(ReportFailed))
    else Drop(s, r, ReportedFailed).(
         log := s.log + [Entry(BySweep(r), FailureEvent(Held(s, r).job, message, stamp))])
  }

  function Apply(s: State, a: Action): State
    requires Enabled(s, a)
  {
    match a
    case Dispatch(p, x) =>
      s.(store := s.store[Queue(p) := [x] + At(s, Queue(p))],
         history := s.history.(dispatched := s.history.dispatched + multiset{x}))
    case Start(w) => s.(fleet := s.fleet.(running := s.fleet.running + {w}, started := s.fleet.started + {w}))
    case Crash(w) =>
      s.(fleet := s.fleet.(
         running := s.fleet.running - {w},
         checkouts := map e | e in s.fleet.checkouts && s.fleet.checkouts[e].worker != w :: s.fleet.checkouts[e]))
    case Move(w, p, reply) => DoMove(s, w, p, reply)
    case Claim(e, reply) => DoClaim(s, e, reply)
    case Decide(e, outcome, stamp, ms) => DoDecide(s, e, outcome, stamp, ms)
    case Mark(e, reply) => DoMark(s, e, reply)
    case Publish(e, reply) => DoPublish(s, e, reply)
    case Remove(e, reply) => DoRemove(s, e, reply)
    case Snapshot(r, live) => s.(sweeps := s.sweeps[r := Scanning(live, {})])
    case Scan(r, found) =>
      var z := s.sweeps[r];
      s.(sweeps := s.sweeps[r := Scanning(z.live, z.targets + set t | t in found && t.0 !in z.live)])
    case BeginDrain(r) => s.(sweeps := s.sweeps[r := Draining(s.sweeps[r].targets, {}, Empty)])
    case Pop(r, t, reply) => DoPop(s, r, t, reply)
    case Increment(r, reply) => DoIncrement(s, r, reply)
    case Check(r, reply) => DoCheck(s, r, reply)
    case Release(r, reply) => DoRelease(s, r, reply)
    case Push(r, reply) => DoPush(s, r, reply)
    case Report(r, reply, message, stamp) => DoReport(s, r, reply, message, stamp)
    case Stop(r) =>
      var s' := if Holds(s, r) then Drop(s, r, Gone(SweeperDied)) else s;
      s'.(sweeps := s'.sweeps - {r})
  }

  // ---------------------------------------------------------------------
  // Runs
  // ---------------------------------------------------------------------

  /** The actions can be taken one after the other, starting in `s`. */
  predicate Runs(s: State, acts: seq<Action>)
    decreases |acts|, 0
  {
    acts == [] || (Runs(s, Front(acts)) && Enabled(After(s, Front(acts)), Last(acts)))
  }

  function After(s: State, acts: seq<Action>): State
    requires Runs(s, acts)
    decreases |acts|, 1
  {
    if acts == [] then s else Apply(After(s, Front(acts)), Last(acts))
  }

  // Assumptions the code itself does not enforce; each is a condition on one kind of step. ------

  /** No payload with key `k` is dispatched a second time. */
  ghost predicate FreshKey(s: State, a: Action, k: string) {
    a.Dispatch? && HasKey(a.payload, k) ==> forall y :: y in s.history.dispatched ==> !HasKey(y, k)
  }

  /** A processing list the scan selects belongs to a worker that has stopped for good. */
  predicate DeadWhenScanned(s: State, a: Action) {
    a.Scan? && a.sweep in s.sweeps && s.sweeps[a.sweep].Scanning? ==>
      forall t :: t in a.found && t.0 !in s.sweeps[a.sweep].live ==> t.0 !in s.fleet.running
  }

  /** The publish marker of key `k` reaches Redis whenever it is written. */
  predicate MarkerWritten(s: State, a: Action, k: string) {
    a.Mark? && Enabled(s, a) && KeyOf(s, a.exec) == k ==> !a.reply.Error?
  }

  /** Which of the three is assumed of a run. */
  datatype Wanted = Wanted(unique: bool, dead: bool, marked: bool)

  const ALL_THREE := Wanted(true, true, true)
  const MARKERS_MAY_FAIL := Wanted(true, true, false)

  ghost predicate Meets(s: State, a: Action, want: Wanted, k: string) {
    && (want.unique ==> FreshKey(s, a, k))
    && (want.dead ==> DeadWhenScanned(s, a))
    && (want.marked ==> MarkerWritten(s, a, k))
  }

  /** A run all of whose steps satisfy the wanted assumptions, uniqueness and markers as far as key `k` goes. */
  ghost predicate MeetingRun(acts: seq<Action>, want: Wanted, k: string)
    decreases |acts|
  {
    && Runs(INITIAL, acts)
    && (acts != [] ==> MeetingRun(Front(acts), want, k) && Meets(After(INITIAL, Front(acts)), Last(acts), want, k))
  }

  /** The liveness assumption for one worker: no scan selects a list of `w` while `w` runs. */
  predicate Spares(s: State, a: Action, w: WorkerId) {
    a.Scan? && a.sweep in s.sweeps && s.sweeps[a.sweep].Scanning?
    && w !in s.sweeps[a.sweep].live && w in s.fleet.running ==>
      forall t :: t in a.found ==> t.0 != w
  }

  /** A run in which worker `w` is spared; other running workers may have their lists swept. */
  ghost predicate SparedRun(acts: seq<Action>, w: WorkerId)
    decreases |acts|
  {
    && Runs(INITIAL, acts)
    && (acts != [] ==> SparedRun(Front(acts), w) && Spares(After(INITIAL, Front(acts)), Last(acts), w))
  }

  /** A run all of whose steps satisfy the liveness assumption. */
  ghost predicate LivenessRun(acts: seq<Action>)
    decreases |acts|
  {
    && Runs(INITIAL, acts)
    && (acts != [] ==> LivenessRun(Front(acts)) && DeadWhenScanned(After(INITIAL, Front(acts)), Last(acts)))
  }

  lemma {:induction false} MeetingIsLive(acts: seq<Action>, want: Wanted, k: string)
    requires MeetingRun(acts, want, k) && want.dead
    ensures LivenessRun(acts)
    decreases |acts|
  {
    if acts != [] {
      MeetingIsLive(Front(acts), want, k);
    }
  }

  lemma {:induction false} LiveSparesAll(acts: seq<Action>, w: WorkerId)
    requires LivenessRun(acts)
    ensures SparedRun(acts, w)
    decreases |acts|
  {
    if acts != [] {
      LiveSparesAll(Front(acts), w);
    }
  }
}
