/** The warm container pool as a machine: lock regions and channel operations are single steps, slow work
    (factory, health check, cleanup, stop) happens between them. */
module WarmPool {
  import opened Bags

  type Caller = nat
  type Container = nat

  datatype Place = Channel | ToStop | With(caller: Caller)

  datatype Pc =
    | Idle
    | FastPath      // checkout found the pool open
    | Growing       // nothing warm; about to take the lock
    | SpinningUp    // slot reserved, factory running
    | SpinFailed    // slot still reserved
    | Waiting       // at max size
    | Probing       // received a container, health check running
    | Unhealthy     // about to stop it
    | Replacing     // stopped it, factory running
    | Using         // checked out
    | Cleaning      // return found the pool open; cleanup running
    | Cleaned       // about to take the lock and send
    | CleanFailed   // about to stop it
    | CleanDropped  // stopped it; slot still reserved
    | StopOnly      // return found the pool closed
    | Overflow      // channel full on return

  datatype Phase = Open | Draining | Stopping

  datatype State = State(
    maxSize: nat,
    size: int,
    phase: Phase,
    hold: map<Place, seq<Container>>,
    callers: map<Caller, Pc>,
    produced: nat,
    stopped: seq<Container>)

  function Initial(maxSize: nat): State {
    State(maxSize, 0, Open, map[], map[], 0, [])
  }

  datatype Action =
    | Begin(u: Caller)
    | Receive(u: Caller)
    | FastMiss(u: Caller)
    | Reserve(u: Caller)
    | SpinUp(u: Caller, ok: bool)
    | GiveUp(u: Caller)
    | LeaveWait(u: Caller)
    | Probe(u: Caller, healthy: bool)
    | StopHeld(u: Caller)
    | GiveBack(u: Caller)
    | CleanUp(u: Caller, ok: bool)
    | PutBack(u: Caller)
    | ReturnAgain(u: Caller, c: Container)
    | Shutdown(u: Caller)
    | DrainOne
    | DrainEnd
    | StopDrained

  function At(s: State, l: Place): seq<Container> { Lookup(s.hold, l) }

  function PcOf(s: State, u: Caller): Pc { if u in s.callers then s.callers[u] else Idle }

  predicate Closed(s: State) { !s.phase.Open? }

  /** Shutdown keeps the mutex from setting the flag until the channel is drained. */
  predicate LockFree(s: State) { !s.phase.Draining? }

  predicate HasContainer(pc: Pc) {
    pc.Probing? || pc.Unhealthy? || pc.Using? || pc.Cleaning? || pc.Cleaned? || pc.CleanFailed? ||
    pc.StopOnly? || pc.Overflow?
  }

  /** The caller accounts for one unit of `size`. */
  predicate Occupies(pc: Pc) {
    pc.SpinningUp? || pc.SpinFailed? || pc.Probing? || pc.Unhealthy? || pc.Replacing? || pc.Using? ||
    pc.Cleaning? || pc.Cleaned? || pc.CleanFailed? || pc.CleanDropped?
  }

  predicate HoldsOne(s: State, u: Caller) { |At(s, With(u))| == 1 }

  predicate Enabled(s: State, a: Action) {
    match a
    case Begin(u) => PcOf(s, u).Idle? && LockFree(s)
    case Receive(u) => (PcOf(s, u).FastPath? || PcOf(s, u).Waiting?) && At(s, Channel) != []
    case FastMiss(u) => PcOf(s, u).FastPath? && At(s, Channel) == []
    case Reserve(u) => PcOf(s, u).Growing? && LockFree(s)
    case SpinUp(u, _) => PcOf(s, u).SpinningUp? || PcOf(s, u).Replacing?
    case GiveUp(u) => (PcOf(s, u).SpinFailed? || PcOf(s, u).CleanDropped?) && LockFree(s)
    case LeaveWait(u) => PcOf(s, u).Waiting?
    case Probe(u, _) => PcOf(s, u).Probing? && HoldsOne(s, u)
    case StopHeld(u) =>
      && (PcOf(s, u).Unhealthy? || PcOf(s, u).CleanFailed? || PcOf(s, u).StopOnly? || PcOf(s, u).Overflow?)
      && HoldsOne(s, u)
    case GiveBack(u) => PcOf(s, u).Using? && LockFree(s)
    case CleanUp(u, _) => PcOf(s, u).Cleaning? && HoldsOne(s, u)
    case PutBack(u) => PcOf(s, u).Cleaned? && HoldsOne(s, u) && LockFree(s)
    case ReturnAgain(u, c) => PcOf(s, u).Idle? && LockFree(s) && !Closed(s) && c < s.produced
    case Shutdown(_) => LockFree(s)
    case DrainOne => s.phase.Draining? && At(s, Channel) != []
    case DrainEnd => s.phase.Draining? && At(s, Channel) == []
    case StopDrained => s.phase.Stopping? && At(s, ToStop) != []
  }

  function Goto(s: State, u: Caller, pc: Pc): State { s.(callers := s.callers[u := pc]) }

  function Pass(s: State, from: Place, to: Place): map<Place, seq<Container>>
    requires At(s, from) != []
  {
    s.hold[from := At(s, from)[1..]][to := At(s, to) + [At(s, from)[0]]]
  }

  function StopFirst(s: State, l: Place): State
    requires At(s, l) != []
  {
    s.(hold := s.hold[l := At(s, l)[1..]], stopped := s.stopped + [At(s, l)[0]])
  }

  function Created(s: State, u: Caller): State {
    s.(hold := s.hold[With(u) := At(s, With(u)) + [s.produced]], produced := s.produced + 1,
       callers := s.callers[u := Using])
  }

  function Apply(s: State, a: Action): State
    requires Enabled(s, a)
  {
    match a
    case Begin(u) => Goto(s, u, if Closed(s) then Idle else FastPath)
    case Receive(u) => Goto(s, u, Probing).(hold := Pass(s, Channel, With(u)))
    case FastMiss(u) => Goto(s, u, Growing)
    case Reserve(u) =>
      if Closed(s) then Goto(s, u, Idle)
      else if s.size < s.maxSize then Goto(s, u, SpinningUp).(size := s.size + 1)
      else Goto(s, u, Waiting)
    case SpinUp(u, ok) => if ok then Created(s, u) else Goto(s, u, SpinFailed)
    case GiveUp(u) => Goto(s, u, Idle).(size := s.size - 1)
    case LeaveWait(u) => Goto(s, u, Idle)
    case Probe(u, healthy) => Goto(s, u, if healthy then Using else Unhealthy)
    case StopHeld(u) =>
      Goto(StopFirst(s, With(u)), u,
           match PcOf(s, u) case Unhealthy => Replacing case CleanFailed => CleanDropped case _ => Idle)
    case GiveBack(u) => Goto(s, u, if Closed(s) then StopOnly else Cleaning)
    case CleanUp(u, ok) => Goto(s, u, if ok then Cleaned else CleanFailed)
    case PutBack(u) =>
      if Closed(s) then Goto(s, u, StopOnly)
      else if |At(s, Channel)| < s.maxSize then Goto(s, u, Idle).(hold := Pass(s, With(u), Channel))
      else Goto(s, u, Overflow).(size := s.size - 1)
    case ReturnAgain(u, c) => Goto(s, u, Cleaning).(hold := s.hold[With(u) := [c]])
    case Shutdown(_) => if Closed(s) then s else s.(phase := Draining)
    case DrainOne => s.(hold := Pass(s, Channel, ToStop))
    case DrainEnd => s.(phase := Stopping)
    case StopDrained => StopFirst(s, ToStop)
  }

  predicate Runs(s: State, acts: seq<Action>)
    decreases |acts|, 0
  {
    acts == [] || (Runs(s, acts[..|acts| - 1]) && Enabled(After(s, acts[..|acts| - 1]), acts[|acts| - 1]))
  }

  function After(s: State, acts: seq<Action>): State
    requires Runs(s, acts)
    decreases |acts|, 1
  {
    if acts == [] then s else Apply(After(s, acts[..|acts| - 1]), acts[|acts| - 1])
  }

  // What the trace says about containers --------------------------------

  /** Handed out, and not cleaned since. */
  function Soiled(maxSize: nat, acts: seq<Action>): set<Container>
    requires Runs(Initial(maxSize), acts)
  {
    if acts == [] then {}
    else
      var prefix, a := acts[..|acts| - 1], acts[|acts| - 1];
      SoiledBy(After(Initial(maxSize), prefix), a, Soiled(maxSize, prefix))
  }

  function SoiledBy(s: State, a: Action, soiled: set<Container>): set<Container>
    requires Enabled(s, a)
  {
    if a.SpinUp? && a.ok then soiled + {s.produced}
    else if a.Receive? then soiled + {At(s, Channel)[0]}
    else if a.CleanUp? && a.ok then soiled - {At(s, With(a.u))[0]}
    else soiled
  }

  /** Taken out of the channel, and not found healthy since. */
  function Unchecked(maxSize: nat, acts: seq<Action>): set<Container>
    requires Runs(Initial(maxSize), acts)
  {
    if acts == [] then {}
    else
      var prefix, a := acts[..|acts| - 1], acts[|acts| - 1];
      UncheckedBy(After(Initial(maxSize), prefix), a, Unchecked(maxSize, prefix))
  }

  function UncheckedBy(s: State, a: Action, unchecked: set<Container>): set<Container>
    requires Enabled(s, a)
  {
    if a.Receive? then unchecked + {At(s, Channel)[0]}
    else if a.Probe? && a.healthy then unchecked - {At(s, With(a.u))[0]}
    else unchecked
  }

  /** Every checkout is returned at most once: nobody returns a container they do not hold. */
  predicate Disciplined(acts: seq<Action>) {
    forall i :: 0 <= i < |acts| ==> !acts[i].ReturnAgain?
  }

  // ---------------------------------------------------------------------
  // Invariants
  // ---------------------------------------------------------------------

  /** Containers 0..n-1, once each. */
  ghost function Ids(n: nat): multiset<Container> {
    if n == 0 then multiset{} else Ids(n - 1) + multiset{n - 1}
  }

  lemma {:induction false} IdsOnce(n: nat, c: Container)
    ensures Ids(n)[c] == (if c < n then 1 else 0)
  {
    if n > 0 { IdsOnce(n - 1, c); }
  }

  /** Every container ever produced is in exactly one place or has been stopped exactly once. */
  ghost predicate Accounted(s: State) {
    Bag(s.hold) + multiset(s.stopped) == Ids(s.produced)
  }

  predicate HoldOk(s: State, u: Caller) {
    |At(s, With(u))| == (if HasContainer(PcOf(s, u)) then 1 else 0)
  }

  function Occupants(s: State): set<Caller> {
    set u | u in s.callers && Occupies(s.callers[u])
  }

  predicate SizeOk(s: State) {
    && |At(s, Channel)| + |Occupants(s)| <= s.size <= s.maxSize
    && (!Closed(s) ==> s.size == |At(s, Channel)| + |Occupants(s)|)
  }

  predicate ChannelOk(s: State) {
    && (s.phase.Stopping? ==> At(s, Channel) == [])
    && (s.phase.Open? ==> At(s, ToStop) == [])
  }

  predicate CleanOk(s: State, soiled: set<Container>, u: Caller) {
    && (forall c :: c in At(s, Channel) ==> c !in soiled)
    && (PcOf(s, u).Cleaned? ==> forall c :: c in At(s, With(u)) ==> c !in soiled)
  }

  /** The caller has a container and has gone past the health check. */
  predicate PastCheck(pc: Pc) { HasContainer(pc) && !pc.Probing? && !pc.Unhealthy? }

  predicate FitOk(s: State, unchecked: set<Container>, u: Caller) {
    && (forall c :: c in unchecked ==> c < s.produced)
    && (PastCheck(PcOf(s, u)) ==> forall c :: c in At(s, With(u)) ==> c !in unchecked)
  }

  ghost predicate Inv(s: State) {
    && Accounted(s)
    && SizeOk(s)
    && ChannelOk(s)
    && (forall u :: HoldOk(s, u))
  }

  lemma OneHolder(s: State, l: Place, m: Place, c: Container)
    requires Accounted(s) && c in At(s, l)
    ensures l != m ==> c !in At(s, m)
    ensures c !in s.stopped && c < s.produced && multiset(At(s, l))[c] == 1
  {
    IdsOnce(s.produced, c);
    BagHas(s.hold, l);
    assert c in multiset(At(s, l));
    assert Bag(s.hold)[c] + multiset(s.stopped)[c] == Ids(s.produced)[c];
    assert c in s.stopped ==> c in multiset(s.stopped);
    if l != m {
      BagHasBoth(s.hold, l, m);
      assert c in At(s, m) ==> c in multiset(At(s, m));
    }
  }

  lemma HeadSplits(xs: seq<Container>)
    requires xs != []
    ensures multiset(xs) == multiset(xs[1..]) + multiset{xs[0]}
  {
    assert xs == [xs[0]] + xs[1..];
  }

  lemma PassKeepsBag(s: State, from: Place, to: Place)
    requires At(s, from) != [] && from != to
    ensures Bag(Pass(s, from, to)) == Bag(s.hold)
  {
    var c := At(s, from)[0];
    HeadSplits(At(s, from));
    BagTake(s.hold, from, At(s, from)[1..], c);
    BagGive(s.hold[from := At(s, from)[1..]], to, At(s, to) + [c], c);
  }

  lemma StopAccounts(s: State, l: Place)
    requires At(s, l) != [] && Accounted(s)
    ensures Accounted(StopFirst(s, l))
  {
    HeadSplits(At(s, l));
    BagTake(s.hold, l, At(s, l)[1..], At(s, l)[0]);
  }

  lemma CreateAccounts(s: State, u: Caller)
    requires Accounted(s)
    ensures Accounted(Created(s, u))
  {
    BagGive(s.hold, With(u), At(s, With(u)) + [s.produced], s.produced);
  }

  predicate MovesContainer(s: State, a: Action)
    requires Enabled(s, a)
  {
    || a.Receive? || (a.SpinUp? && a.ok) || a.StopHeld? || a.DrainOne? || a.StopDrained? || a.ReturnAgain?
    || (a.PutBack? && !Closed(s) && |At(s, Channel)| < s.maxSize)
  }

  lemma Unmoved(s: State, a: Action)
    requires Enabled(s, a) && !MovesContainer(s, a)
    ensures Apply(s, a).hold == s.hold && Apply(s, a).stopped == s.stopped && Apply(s, a).produced == s.produced
  {
  }

  lemma AccountedStep(s: State, a: Action)
    requires Enabled(s, a) && Accounted(s) && !a.ReturnAgain?
    ensures Accounted(Apply(s, a))
  {
    if !MovesContainer(s, a) {
      Unmoved(s, a);
    } else if a.Receive? {
      PassKeepsBag(s, Channel, With(a.u));
    } else if a.SpinUp? {
      CreateAccounts(s, a.u);
    } else if a.StopHeld? {
      StopAccounts(s, With(a.u));
    } else if a.PutBack? {
      PassKeepsBag(s, With(a.u), Channel);
    } else if a.DrainOne? {
      PassKeepsBag(s, Channel, ToStop);
    } else {
      StopAccounts(s, ToStop);
    }
  }

  lemma HoldOkStep(s: State, a: Action, u: Caller)
    requires Enabled(s, a) && HoldOk(s, u) && !a.ReturnAgain?
    ensures HoldOk(Apply(s, a), u)
  {
  }

  predicate OfCaller(a: Action) {
    !a.Shutdown? && !a.DrainOne? && !a.DrainEnd? && !a.StopDrained?
  }

  lemma OccupantsStep(s: State, a: Action)
    requires Enabled(s, a)
    ensures !OfCaller(a) ==> Occupants(Apply(s, a)) == Occupants(s)
    ensures OfCaller(a) ==>
              Occupants(Apply(s, a)) == (if Occupies(PcOf(Apply(s, a), a.u)) then Occupants(s) + {a.u}
                                         else Occupants(s) - {a.u})
  {
  }

  function Unit(pc: Pc): nat { if Occupies(pc) then 1 else 0 }

  lemma InOrOut(o: set<Caller>, u: Caller, stays: bool)
    ensures |if stays then o + {u} else o - {u}| == |o| + (if stays then 1 else 0) - (if u in o then 1 else 0)
  {
    if u in o {
      assert o + {u} == o;
    } else {
      assert o - {u} == o;
    }
  }

  lemma OccupantsCount(s: State, a: Action)
    requires Enabled(s, a)
    ensures !OfCaller(a) ==> |Occupants(Apply(s, a))| == |Occupants(s)|
    ensures OfCaller(a) ==>
              |Occupants(Apply(s, a))| == |Occupants(s)| + Unit(PcOf(Apply(s, a), a.u)) - Unit(PcOf(s, a.u))
  {
    OccupantsStep(s, a);
    if OfCaller(a) {
      InOrOut(Occupants(s), a.u, Occupies(PcOf(Apply(s, a), a.u)));
    }
  }

  /** How one step shifts the three terms of the account. */
  lemma SizeShift(s: State, a: Action)
    requires Enabled(s, a) && !a.ReturnAgain? && (OfCaller(a) ==> HoldOk(s, a.u))
    requires a.PutBack? ==> |At(s, Channel)| < s.maxSize
    ensures var t := Apply(s, a);
            && t.maxSize == s.maxSize && (Closed(s) ==> Closed(t))
            && (!OfCaller(a) ==> t.size == s.size && |At(t, Channel)| <= |At(s, Channel)| && (!Closed(t) ==> t == s))
            && (OfCaller(a) ==>
                  var d := |At(t, Channel)| + Unit(PcOf(t, a.u)) - |At(s, Channel)| - Unit(PcOf(s, a.u));
                  && d <= t.size - s.size
                  && (t.size < s.size ==> Unit(PcOf(s, a.u)) == 1)
                  && (t.size > s.size ==> t.size <= s.maxSize)
                  && (!Closed(t) ==> t.size - s.size == d))
  {
  }

  lemma SizeOkStep(s: State, a: Action)
    requires Enabled(s, a) && SizeOk(s) && !a.ReturnAgain? && (OfCaller(a) ==> HoldOk(s, a.u))
    ensures SizeOk(Apply(s, a)) && Apply(s, a).maxSize == s.maxSize
  {
    OccupantsCount(s, a);
    if a.PutBack? {
      assert a.u in Occupants(s);
      assert |Occupants(s)| >= 1;
    }
    SizeShift(s, a);
  }

  lemma ChannelOkStep(s: State, a: Action)
    requires Enabled(s, a) && ChannelOk(s) && !a.ReturnAgain?
    ensures ChannelOk(Apply(s, a))
  {
  }

  /** Most steps neither soil a container nor move one into the channel or to the caller. */
  lemma CleanKept(s: State, a: Action, u: Caller, soiled: set<Container>)
    requires Enabled(s, a) && CleanOk(s, soiled, u) && !a.ReturnAgain?
    requires !a.Receive? && !a.PutBack? && !(a.SpinUp? && a.ok) && !(a.CleanUp? && a.ok)
    ensures CleanOk(Apply(s, a), SoiledBy(s, a, soiled), u)
  {
  }

  lemma CleanOkStep(s: State, a: Action, u: Caller, soiled: set<Container>)
    requires Enabled(s, a) && Inv(s) && !a.ReturnAgain?
    requires CleanOk(s, soiled, u) && (OfCaller(a) ==> CleanOk(s, soiled, a.u))
    ensures CleanOk(Apply(s, a), SoiledBy(s, a, soiled), u)
  {
    if a.Receive? {
      ReceiveClean(s, a.u, u, soiled);
    } else if a.SpinUp? && a.ok {
      NewIsNowhere(s, Channel);
      NewIsNowhere(s, With(u));
    } else if a.PutBack? || (a.CleanUp? && a.ok) {
      assert HoldOk(s, a.u);
    } else {
      CleanKept(s, a, u, soiled);
    }
  }

  lemma ReceiveClean(s: State, v: Caller, u: Caller, soiled: set<Container>)
    requires Enabled(s, Receive(v)) && Inv(s) && CleanOk(s, soiled, u)
    ensures CleanOk(Apply(s, Receive(v)), SoiledBy(s, Receive(v), soiled), u)
  {
    var c := At(s, Channel)[0];
    HeadOnce(s);
    OneHolder(s, Channel, With(u), c);
  }

  /** The head of the channel is not in it twice. */
  lemma HeadOnce(s: State)
    requires Accounted(s) && At(s, Channel) != []
    ensures At(s, Channel)[0] !in At(s, Channel)[1..]
  {
    var xs := At(s, Channel);
    OneHolder(s, Channel, Channel, xs[0]);
    HeadSplits(xs);
    assert multiset(xs[1..])[xs[0]] == 0;
  }

  lemma FitOkStep(s: State, a: Action, u: Caller, unchecked: set<Container>)
    requires Enabled(s, a) && Inv(s) && !a.ReturnAgain? && FitOk(s, unchecked, u)
    ensures FitOk(Apply(s, a), UncheckedBy(s, a, unchecked), u)
  {
    if a.Receive? {
      OneHolder(s, Channel, With(u), At(s, Channel)[0]);
    } else if a.SpinUp? && a.ok {
      assert HoldOk(s, a.u) && At(s, With(a.u)) == [];
    } else if a.Probe? {
      assert HoldOk(s, a.u);
    } else {
      FitKept(s, a, u, unchecked);
    }
  }

  lemma FitKept(s: State, a: Action, u: Caller, unchecked: set<Container>)
    requires Enabled(s, a) && !a.ReturnAgain? && FitOk(s, unchecked, u)
    requires !a.Receive? && !(a.SpinUp? && a.ok) && !a.Probe?
    ensures FitOk(Apply(s, a), unchecked, u)
  {
  }

  lemma NewIsNowhere(s: State, l: Place)
    requires Accounted(s)
    ensures s.produced !in At(s, l)
  {
    if s.produced in At(s, l) { OneHolder(s, l, l, s.produced); }
  }

  lemma InvStep(s: State, a: Action)
    requires Enabled(s, a) && Inv(s) && !a.ReturnAgain?
    ensures Inv(Apply(s, a)) && Apply(s, a).maxSize == s.maxSize
  {
    AccountedStep(s, a);
    if OfCaller(a) { assert HoldOk(s, a.u); }
    SizeOkStep(s, a);
    ChannelOkStep(s, a);
    forall u
      ensures HoldOk(Apply(s, a), u)
    {
      HoldOkStep(s, a, u);
    }
  }

  lemma InitialInv(maxSize: nat)
    ensures Inv(Initial(maxSize))
  {
    assert Occupants(Initial(maxSize)) == {};
  }

  lemma {:induction false} InvAlways(maxSize: nat, acts: seq<Action>)
    requires Runs(Initial(maxSize), acts) && Disciplined(acts)
    ensures Inv(After(Initial(maxSize), acts)) && After(Initial(maxSize), acts).maxSize == maxSize
    decreases |acts|
  {
    if acts == [] {
      InitialInv(maxSize);
    } else {
      var prefix := acts[..|acts| - 1];
      InvAlways(maxSize, prefix);
      InvStep(After(Initial(maxSize), prefix), acts[|acts| - 1]);
    }
  }

  // ---------------------------------------------------------------------
  // Main results
  // ---------------------------------------------------------------------

  /** The size never leaves 0..maxSize, and while the pool is open it is exactly what is warm plus what callers
      have out, are creating, probing, replacing or cleaning. */
  lemma PoolAccounting(maxSize: nat, acts: seq<Action>)
    requires Runs(Initial(maxSize), acts) && Disciplined(acts)
    ensures var s := After(Initial(maxSize), acts);
            && 0 <= s.size <= maxSize
            && (!Closed(s) ==> s.size == |At(s, Channel)| + |Occupants(s)|)
            && |At(s, Channel)| <= maxSize
  {
    InvAlways(maxSize, acts);
  }

  /** No container has two holders, is both held and warm, or is held after having been stopped. */
  lemma NoSharing(maxSize: nat, acts: seq<Action>, u: Caller, c: Container)
    requires Runs(Initial(maxSize), acts) && Disciplined(acts)
    requires c in At(After(Initial(maxSize), acts), With(u))
    ensures var s := After(Initial(maxSize), acts);
            && (forall v :: v != u ==> c !in At(s, With(v)))
            && c !in At(s, Channel) && c !in At(s, ToStop) && c !in s.stopped
  {
    InvAlways(maxSize, acts);
    var s := After(Initial(maxSize), acts);
    forall v | v != u
      ensures c !in At(s, With(v))
    {
      OneHolder(s, With(u), With(v), c);
    }
    OneHolder(s, With(u), Channel, c);
    OneHolder(s, With(u), ToStop, c);
  }

  lemma {:induction false} CleanAlways(maxSize: nat, acts: seq<Action>, u: Caller)
    requires Runs(Initial(maxSize), acts) && Disciplined(acts)
    ensures CleanOk(After(Initial(maxSize), acts), Soiled(maxSize, acts), u)
    decreases |acts|
  {
    if acts != [] {
      var prefix, a := acts[..|acts| - 1], acts[|acts| - 1];
      InvAlways(maxSize, prefix);
      CleanAlways(maxSize, prefix, u);
      if OfCaller(a) { CleanAlways(maxSize, prefix, a.u); }
      CleanOkStep(After(Initial(maxSize), prefix), a, u, Soiled(maxSize, prefix));
    }
  }

  lemma {:induction false} FitAlways(maxSize: nat, acts: seq<Action>, u: Caller)
    requires Runs(Initial(maxSize), acts) && Disciplined(acts)
    ensures FitOk(After(Initial(maxSize), acts), Unchecked(maxSize, acts), u)
    decreases |acts|
  {
    if acts != [] {
      var prefix, a := acts[..|acts| - 1], acts[|acts| - 1];
      InvAlways(maxSize, prefix);
      FitAlways(maxSize, prefix, u);
      FitOkStep(After(Initial(maxSize), prefix), a, u, Unchecked(maxSize, prefix));
    }
  }

  /** Whatever is warm has been cleaned, with success, after it was last handed out. */
  lemma WarmIsClean(maxSize: nat, acts: seq<Action>, c: Container)
    requires Runs(Initial(maxSize), acts) && Disciplined(acts) && c in At(After(Initial(maxSize), acts), Channel)
    ensures c !in Soiled(maxSize, acts) && c !in After(Initial(maxSize), acts).stopped
  {
    InvAlways(maxSize, acts);
    CleanAlways(maxSize, acts, 0);
    OneHolder(After(Initial(maxSize), acts), Channel, Channel, c);
  }

  /** Nobody uses, cleans or puts back a container that was not found healthy after it was taken out of the channel. */
  lemma UsedIsHealthy(maxSize: nat, acts: seq<Action>, u: Caller, c: Container)
    requires Runs(Initial(maxSize), acts) && Disciplined(acts)
    requires c in At(After(Initial(maxSize), acts), With(u)) && PastCheck(PcOf(After(Initial(maxSize), acts), u))
    ensures c !in Unchecked(maxSize, acts)
  {
    FitAlways(maxSize, acts, u);
  }

  /** What the pool's policy allows: the warm containers are passed over only when there is none, and the first goes to
      whoever asks; a slot is reserved exactly when the pool is open and below its maximum, and a caller waits exactly
      when it is open and at its maximum. */
  predicate Allowed(s: State, t: State, a: Action, maxSize: nat) {
    && (a.FastMiss? ==> At(s, Channel) == [])
    && (a.Receive? ==> At(s, Channel) != [] && At(t, With(a.u)) == [At(s, Channel)[0]])
    && (a.Reserve? && !Closed(s) ==>
          && (PcOf(t, a.u).SpinningUp? <==> s.size < maxSize) && (PcOf(t, a.u).Waiting? <==> s.size == maxSize)
          && t.size == s.size + (if s.size < maxSize then 1 else 0))
    && (a.Reserve? && Closed(s) ==> PcOf(t, a.u).Idle? && t.size == s.size)
  }

  lemma PolicyStep(s: State, a: Action)
    requires Enabled(s, a) && SizeOk(s) && (OfCaller(a) ==> HoldOk(s, a.u))
    ensures Allowed(s, Apply(s, a), a, s.maxSize)
  {
  }

  /** Every step of a run is allowed. */
  lemma Policy(maxSize: nat, acts: seq<Action>, n: nat)
    requires Runs(Initial(maxSize), acts) && Disciplined(acts) && n < |acts|
    ensures Runs(Initial(maxSize), acts[..n]) && Runs(Initial(maxSize), acts[..n + 1])
    ensures Allowed(After(Initial(maxSize), acts[..n]), After(Initial(maxSize), acts[..n + 1]), acts[n], maxSize)
  {
    PrefixRuns(maxSize, acts, n);
    PrefixRuns(maxSize, acts, n + 1);
    var s, a, prefix := After(Initial(maxSize), acts[..n]), acts[n], acts[..n + 1];
    assert prefix[..|prefix| - 1] == acts[..n];
    forall i | 0 <= i < n
      ensures !acts[..n][i].ReturnAgain?
    {
      assert !acts[i].ReturnAgain?;
    }
    InvAlways(maxSize, acts[..n]);
    if OfCaller(a) { assert HoldOk(s, a.u); }
    PolicyStep(s, a);
  }

  lemma {:induction false} PrefixRuns(maxSize: nat, acts: seq<Action>, n: nat)
    requires Runs(Initial(maxSize), acts) && n <= |acts|
    ensures Runs(Initial(maxSize), acts[..n])
    decreases |acts|
  {
    if n < |acts| {
      PrefixRuns(maxSize, acts[..|acts| - 1], n);
      assert acts[..|acts| - 1][..n] == acts[..n];
    } else {
      assert acts[..n] == acts;
    }
  }

  /** Only a `PutBack` into a full channel leads to the overflow branch. */
  lemma OverflowFrom(s: State, a: Action, u: Caller)
    requires Enabled(s, a) && !a.ReturnAgain? && PcOf(Apply(s, a), u).Overflow? && !PcOf(s, u).Overflow?
    ensures a.PutBack? && !Closed(s) && |At(s, Channel)| >= s.maxSize
  {
  }

  /** And the channel is never full while somebody has a container to put back. */
  lemma RoomToPutBack(s: State, u: Caller)
    requires SizeOk(s) && PcOf(s, u).Cleaned?
    ensures |At(s, Channel)| < s.maxSize
  {
    assert u in Occupants(s);
    assert |Occupants(s)| >= 1;
  }

  /** The "channel full" branch of a return is never taken. */
  lemma {:induction false} NeverOverflows(maxSize: nat, acts: seq<Action>, u: Caller)
    requires Runs(Initial(maxSize), acts) && Disciplined(acts)
    ensures !PcOf(After(Initial(maxSize), acts), u).Overflow?
    decreases |acts|
  {
    if acts != [] {
      var prefix, a := acts[..|acts| - 1], acts[|acts| - 1];
      NeverOverflows(maxSize, prefix, u);
      InvAlways(maxSize, prefix);
      NoOverflowStep(After(Initial(maxSize), prefix), a, u);
    }
  }

  lemma NoOverflowStep(s: State, a: Action, u: Caller)
    requires Enabled(s, a) && !a.ReturnAgain? && SizeOk(s) && !PcOf(s, u).Overflow?
    ensures !PcOf(Apply(s, a), u).Overflow?
  {
    if a.PutBack? {
      RoomToPutBack(s, a.u);
    }
    if PcOf(Apply(s, a), u).Overflow? {
      OverflowFrom(s, a, u);
    }
  }

  /** From the moment the pool is closed nothing enters the channel again, and once the drain is over it is empty. */
  lemma ClosedChannelOnlyDrains(maxSize: nat, acts: seq<Action>, a: Action)
    requires Runs(Initial(maxSize), acts) && Disciplined(acts)
    requires Closed(After(Initial(maxSize), acts)) && Enabled(After(Initial(maxSize), acts), a)
    ensures var s := After(Initial(maxSize), acts);
            && Closed(Apply(s, a))
            && (At(Apply(s, a), Channel) == At(s, Channel)
                || (At(s, Channel) != [] && At(Apply(s, a), Channel) == At(s, Channel)[1..]))
            && (s.phase.Stopping? ==> At(s, Channel) == [])
  {
    InvAlways(maxSize, acts);
  }

  /** When the pool is closed, the drain has been worked off and every caller has finished, each container the
      factory ever produced has been stopped, exactly once. */
  lemma {:induction false} ShutdownLeaksNothing(maxSize: nat, acts: seq<Action>)
    requires Runs(Initial(maxSize), acts) && Disciplined(acts)
    requires var s := After(Initial(maxSize), acts);
             s.phase.Stopping? && At(s, ToStop) == [] && forall u :: PcOf(s, u).Idle?
    ensures multiset(After(Initial(maxSize), acts).stopped) == Ids(After(Initial(maxSize), acts).produced)
    ensures forall c: Container :: c < After(Initial(maxSize), acts).produced
                 <==> c in After(Initial(maxSize), acts).stopped
  {
    InvAlways(maxSize, acts);
    var s := After(Initial(maxSize), acts);
    forall l | l in s.hold
      ensures s.hold[l] == []
    {
      assert s.hold[l] == At(s, l);
      if l.With? { assert HoldOk(s, l.caller); }
    }
    forall c: Container
      ensures Bag(s.hold)[c] == 0
    {
      if c in Bag(s.hold) { BagMember(s.hold, c); }
    }
    assert Bag(s.hold) == multiset{};
    forall c: Container
      ensures c < s.produced <==> c in s.stopped
    {
      IdsOnce(s.produced, c);
      assert c in s.stopped <==> c in multiset(s.stopped);
    }
  }
}
