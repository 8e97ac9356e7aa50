/** The pool's methods as code over its shared state, with other callers and a shutdown running in between, and the
    runner that uses them. `trace` records every step, so what the code does is a run of the machine. */
module PoolCode {
  import opened WarmPool

  predicate Mine(a: Action, u: Caller) { (OfCaller(a) || a.Shutdown?) && a.u == u }

  ghost predicate NoneBy(acts: seq<Action>, from: nat, u: Caller) {
    forall i :: from <= i < |acts| ==> !Mine(acts[i], u)
  }

  predicate SameCaller(s: State, t: State, u: Caller) {
    PcOf(t, u) == PcOf(s, u) && At(t, With(u)) == At(s, With(u))
  }

  lemma OthersStep(s: State, a: Action, u: Caller)
    requires Enabled(s, a) && !Mine(a, u)
    ensures SameCaller(s, Apply(s, a), u)
  {
  }

  lemma {:induction false} CallerKept(s: State, tr: seq<Action>, n: nat, u: Caller)
    requires Runs(s, tr) && n <= |tr| && Runs(s, tr[..n]) && NoneBy(tr, n, u)
    ensures SameCaller(After(s, tr[..n]), After(s, tr), u)
    decreases |tr|
  {
    if n == |tr| {
      assert tr[..n] == tr;
    } else {
      var prefix := tr[..|tr| - 1];
      assert prefix[..n] == tr[..n];
      CallerKept(s, prefix, n, u);
      OthersStep(After(s, prefix), tr[|tr| - 1], u);
    }
  }

  /** Containers are only ever added to those produced and to those stopped, and a closed pool stays closed. */
  predicate Grows(s: State, t: State) {
    s.produced <= t.produced && s.stopped <= t.stopped && (Closed(s) ==> Closed(t))
  }

  lemma GrowsStep(s: State, a: Action)
    requires Enabled(s, a)
    ensures Grows(s, Apply(s, a))
  {
  }

  lemma {:induction false} GrowsRun(s: State, tr: seq<Action>, n: nat)
    requires Runs(s, tr) && n <= |tr| && Runs(s, tr[..n])
    ensures Grows(After(s, tr[..n]), After(s, tr))
    decreases |tr|
  {
    if n == |tr| {
      assert tr[..n] == tr;
    } else {
      var prefix := tr[..|tr| - 1];
      assert prefix[..n] == tr[..n];
      GrowsRun(s, prefix, n);
      GrowsStep(After(s, prefix), tr[|tr| - 1]);
    }
  }

  // The caller's own steps ----------------------------------------------

  function Own(acts: seq<Action>, from: nat, u: Caller): seq<Action>
    requires from <= |acts|
    decreases |acts|
  {
    if |acts| == from then []
    else Own(acts[..|acts| - 1], from, u) + (if Mine(acts[|acts| - 1], u) then [acts[|acts| - 1]] else [])
  }

  lemma {:induction false} OwnKept(before: seq<Action>, after: seq<Action>, from: nat, u: Caller)
    requires before <= after && from <= |before| && NoneBy(after, |before|, u)
    ensures Own(after, from, u) == Own(before, from, u)
    decreases |after|
  {
    if |after| > |before| {
      assert before <= after[..|after| - 1];
      OwnKept(before, after[..|after| - 1], from, u);
    } else {
      assert before == after;
    }
  }

  lemma OwnAdded(acts: seq<Action>, a: Action, from: nat, u: Caller)
    requires from <= |acts|
    ensures Own(acts + [a], from, u) == Own(acts, from, u) + (if Mine(a, u) then [a] else [])
  {
    assert (acts + [a])[..|acts + [a]| - 1] == acts;
  }

  lemma {:induction false} OwnJoin(before: seq<Action>, after: seq<Action>, from: nat, u: Caller)
    requires before <= after && from <= |before|
    ensures Own(after, from, u) == Own(before, from, u) + Own(after, |before|, u)
    decreases |after|
  {
    if |after| > |before| {
      assert before <= after[..|after| - 1];
      OwnJoin(before, after[..|after| - 1], from, u);
    } else {
      assert before == after;
    }
  }

  /** Nothing of ours before. */
  lemma OwnSoFar(before: seq<Action>, after: seq<Action>, from: nat, u: Caller)
    requires before <= after && from <= |before| && Own(before, from, u) == []
    ensures Own(after, from, u) == Own(after, |before|, u)
  {
    OwnJoin(before, after, from, u);
  }

  /** Running the factory for a slot that is already counted; a failure gives the slot back. */
  predicate SpinSteps(steps: seq<Action>, u: Caller, ok: bool) {
    steps == if ok then [SpinUp(u, true)] else [SpinUp(u, false), GiveUp(u)]
  }

  /** A healthy container is kept; an unhealthy one is stopped and replaced. */
  predicate CheckSteps(steps: seq<Action>, u: Caller, ok: bool) {
    || (ok && steps == [Probe(u, true)])
    || (|steps| > 2 && steps[..2] == [Probe(u, false), StopHeld(u)] && SpinSteps(steps[2..], u, ok))
  }

  predicate ReceiveSteps(steps: seq<Action>, u: Caller, ok: bool) {
    steps != [] && steps[0] == Receive(u) && CheckSteps(steps[1..], u, ok)
  }

  /** Nothing warm: refused by a closed pool, a new container, or at maximum size a wait that ends with a container or
      without. */
  predicate GrowSteps(steps: seq<Action>, u: Caller, ok: bool) {
    && steps != [] && steps[0] == Reserve(u)
    && var rest := steps[1..];
       || (!ok && rest == []) || SpinSteps(rest, u, ok)
       || (!ok && rest == [LeaveWait(u)]) || ReceiveSteps(rest, u, ok)
  }

  predicate CheckoutSteps(steps: seq<Action>, u: Caller, ok: bool) {
    && steps != [] && steps[0] == Begin(u)
    && var rest := steps[1..];
       || (!ok && rest == []) || ReceiveSteps(rest, u, ok)
       || (rest != [] && rest[0] == FastMiss(u) && GrowSteps(rest[1..], u, ok))
  }

  /** Cleaned and put back; or stopped because the cleanup failed or the pool has been closed meanwhile. */
  predicate BackSteps(steps: seq<Action>, u: Caller, ok: bool) {
    if ok then steps == [CleanUp(u, true), PutBack(u)]
    else steps == [CleanUp(u, false), StopHeld(u), GiveUp(u)] || steps == [CleanUp(u, true), PutBack(u), StopHeld(u)]
  }

  /** The same, or stopped at once by a closed pool. */
  predicate ReturnSteps(steps: seq<Action>, u: Caller, ok: bool) {
    && steps != [] && steps[0] == GiveBack(u)
    && ((!ok && steps[1..] == [StopHeld(u)]) || BackSteps(steps[1..], u, ok))
  }

  /** Where a returned container ends up. */
  predicate Landed(given: seq<Container>, s: State, ok: bool) {
    && |given| == 1
    && if ok then At(s, Channel) != [] && At(s, Channel)[|At(s, Channel)| - 1] == given[0] else given[0] in s.stopped
  }

  lemma HandsOk(maxSize: nat, tr: seq<Action>, u: Caller)
    requires Runs(Initial(maxSize), tr) && Disciplined(tr)
    ensures HoldOk(After(Initial(maxSize), tr), u)
  {
    InvAlways(maxSize, tr);
  }

  lemma ChannelDrained(maxSize: nat, tr: seq<Action>)
    requires Runs(Initial(maxSize), tr) && Disciplined(tr) && After(Initial(maxSize), tr).phase.Stopping?
    ensures At(After(Initial(maxSize), tr), Channel) == []
  {
    InvAlways(maxSize, tr);
  }

  /** Idle callers hold nothing. */
  lemma IdleHoldsNone(maxSize: nat, tr: seq<Action>, u: Caller)
    requires Runs(Initial(maxSize), tr) && Disciplined(tr) && PcOf(After(Initial(maxSize), tr), u).Idle?
    ensures At(After(Initial(maxSize), tr), With(u)) == []
  {
    InvAlways(maxSize, tr);
    assert HoldOk(After(Initial(maxSize), tr), u);
  }

  lemma HealthyInUse(maxSize: nat, tr: seq<Action>, u: Caller)
    requires Runs(Initial(maxSize), tr) && Disciplined(tr) && PcOf(After(Initial(maxSize), tr), u).Using?
    ensures var held := At(After(Initial(maxSize), tr), With(u)); |held| == 1 && held[0] !in Unchecked(maxSize, tr)
  {
    InvAlways(maxSize, tr);
    assert HoldOk(After(Initial(maxSize), tr), u);
    UsedIsHealthy(maxSize, tr, u, At(After(Initial(maxSize), tr), With(u))[0]);
  }

  predicate Returns(steps: seq<Action>, u: Caller) {
    ReturnSteps(steps, u, true) || ReturnSteps(steps, u, false)
  }

  /** A failed checkout, or a successful one and then one return. */
  predicate ToolSteps(steps: seq<Action>, u: Caller, ok: bool) {
    || (!ok && CheckoutSteps(steps, u, false))
    || exists n :: 0 <= n <= |steps| && CheckoutSteps(steps[..n], u, true) && Returns(steps[n..], u)
  }

  lemma CheckedOutAndReturned(got: seq<Action>, back: seq<Action>, u: Caller, ok: bool, returned: bool)
    requires CheckoutSteps(got, u, true) && ReturnSteps(back, u, returned)
    ensures ToolSteps(got + back, u, ok)
  {
    assert (got + back)[..|got|] == got && (got + back)[|got|..] == back;
  }

  /** The caller holds one container, made after `s0`. */
  predicate HoldsNew(s0: State, s: State, u: Caller) {
    |At(s, With(u))| == 1 && At(s, With(u))[0] >= s0.produced
  }

  predicate EndsIn(steps: seq<Action>, a: Action) { steps != [] && steps[|steps| - 1] == a }

  /** On a closed pool the channel and, after the drain, the list of containers to stop only get shorter. */
  predicate WindsDown(s: State, t: State) {
    && Closed(s) && Closed(t)
    && |At(t, Channel)| <= |At(s, Channel)|
    && (s.phase.Stopping? ==> t.phase.Stopping? && |At(t, ToStop)| <= |At(s, ToStop)|)
  }

  lemma WindsDownStep(s: State, a: Action)
    requires Enabled(s, a) && Closed(s) && !a.ReturnAgain?
    ensures WindsDown(s, Apply(s, a))
  {
  }

  lemma {:induction false} WindsDownRun(s: State, tr: seq<Action>, n: nat)
    requires Runs(s, tr) && n <= |tr| && Runs(s, tr[..n]) && Disciplined(tr) && Closed(After(s, tr[..n]))
    ensures WindsDown(After(s, tr[..n]), After(s, tr))
    decreases |tr|
  {
    if n == |tr| {
      assert tr[..n] == tr;
    } else {
      var prefix := tr[..|tr| - 1];
      assert prefix[..n] == tr[..n];
      WindsDownRun(s, prefix, n);
      WindsDownStep(After(s, prefix), tr[|tr| - 1]);
    }
  }

  class Pool {
    const maxSize: nat
    var s: State
    ghost var trace: seq<Action>

    ghost predicate Valid()
      reads this
    {
      Runs(Initial(maxSize), trace) && s == After(Initial(maxSize), trace) && Disciplined(trace)
    }

    constructor (maxSize: nat)
      ensures Valid() && trace == [] && this.maxSize == maxSize
    {
      this.maxSize := maxSize;
      s, trace := Initial(maxSize), [];
    }

    method Do(a: Action)
      requires Valid() && Enabled(s, a) && !a.ReturnAgain?
      modifies this
      ensures Valid() && trace == old(trace) + [a] && s == Apply(old(s), a)
    {
      s := Apply(s, a);
      trace := trace + [a];
      assert trace[..|trace| - 1] == old(trace);
    }

    /** Any steps of the others; they keep the discipline too. */
    method Others(u: Caller)
      requires Valid()
      modifies this
      ensures Valid() && old(trace) <= trace && NoneBy(trace, |old(trace)|, u)
    {
    }

    method Wait(u: Caller)
      requires Valid()
      modifies this
      ensures Valid() && old(trace) <= trace && SameCaller(old(s), s, u)
      ensures Own(trace, |old(trace)|, u) == [] && Grows(old(s), s)
    {
      Others(u);
      OwnKept(old(trace), trace, |old(trace)|, u);
      assert trace[..|old(trace)|] == old(trace);
      GrowsRun(Initial(maxSize), trace, |old(trace)|);
      CallerKept(Initial(maxSize), trace, |old(trace)|, u);
    }

    /** Wait for the mutex: a shutdown that holds it finishes its drain. */
    method Lock(u: Caller)
      requires Valid()
      modifies this
      ensures Valid() && old(trace) <= trace && SameCaller(old(s), s, u) && LockFree(s)
      ensures Own(trace, |old(trace)|, u) == [] && Grows(old(s), s)
    {
      Wait(u);
      while s.phase.Draining?
        invariant Valid() && old(trace) <= trace && SameCaller(old(s), s, u)
        invariant Own(trace, |old(trace)|, u) == [] && Grows(old(s), s)
        decreases s.phase.Draining?, |At(s, Channel)|
      {
        var a := if At(s, Channel) != [] then DrainOne else DrainEnd;
        OthersStep(s, a, u);
        OwnAdded(trace, a, |old(trace)|, u);
        Do(a);
      }
    }

    /** Give the reserved slot back under the lock. */
    method Unreserve(u: Caller)
      requires Valid() && (PcOf(s, u).SpinFailed? || PcOf(s, u).CleanDropped?)
      modifies this
      ensures Valid() && old(trace) <= trace && PcOf(s, u).Idle?
      ensures Own(trace, |old(trace)|, u) == [GiveUp(u)] && Grows(old(s), s)
    {
      Lock(u);
      OwnAdded(trace, GiveUp(u), |old(trace)|, u);
      Do(GiveUp(u));
    }

    /** Run the factory for a slot that is already counted. */
    method Spin(u: Caller) returns (ok: bool)
      requires Valid() && (PcOf(s, u).SpinningUp? || PcOf(s, u).Replacing?)
      modifies this
      ensures Valid() && old(trace) <= trace && Grows(old(s), s)
      ensures PcOf(s, u) == if ok then Using else Idle
      ensures SpinSteps(Own(trace, |old(trace)|, u), u, ok)
      ensures ok ==> HoldsNew(old(s), s, u)
    {
      Wait(u);
      ok := *;
      HandsOk(maxSize, trace, u);
      OwnAdded(trace, SpinUp(u, ok), |old(trace)|, u);
      Do(SpinUp(u, ok));
      if !ok {
        ghost var before := trace;
        Unreserve(u);
        OwnJoin(before, trace, |old(trace)|, u);
      }
    }

    /** A container that was taken out of the channel: it is handed out if its health check succeeds; otherwise it is
        stopped, and what is handed out was made since. */
    method HealthCheckOrReplace(u: Caller) returns (ok: bool)
      requires Valid() && PcOf(s, u).Probing?
      modifies this
      ensures Valid() && old(trace) <= trace && Grows(old(s), s)
      ensures PcOf(s, u) == if ok then Using else Idle
      ensures CheckSteps(Own(trace, |old(trace)|, u), u, ok)
      ensures var received := At(old(s), With(u));
              && |received| == 1
              && if Own(trace, |old(trace)|, u) == [Probe(u, true)] then At(s, With(u)) == received
                 else received[0] in s.stopped && (ok ==> HoldsNew(old(s), s, u))
    {
      Wait(u);
      var healthy: bool := *;
      HandsOk(maxSize, trace, u);
      OwnAdded(trace, Probe(u, healthy), |old(trace)|, u);
      Do(Probe(u, healthy));
      if healthy {
        return true;
      }
      ok := Replace(u, old(trace));
    }

    /** The health check has failed: stop the container and make another. */
    method Replace(u: Caller, ghost from: seq<Action>) returns (ok: bool)
      requires Valid() && PcOf(s, u).Unhealthy? && from <= trace && Own(trace, |from|, u) == [Probe(u, false)]
      modifies this
      ensures Valid() && old(trace) <= trace && Grows(old(s), s)
      ensures PcOf(s, u) == if ok then Using else Idle
      ensures CheckSteps(Own(trace, |from|, u), u, ok) && Own(trace, |from|, u) != [Probe(u, true)]
      ensures |At(old(s), With(u))| == 1 && At(old(s), With(u))[0] in s.stopped
      ensures ok ==> HoldsNew(old(s), s, u)
    {
      StopIt(u);
      OwnJoin(old(trace), trace, |from|, u);
      ghost var before := trace;
      ok := Spin(u);
      OwnJoin(before, trace, |from|, u);
    }

    /** Stop the container the caller has in hand. */
    method StopIt(u: Caller)
      requires Valid()
      requires PcOf(s, u).Unhealthy? || PcOf(s, u).CleanFailed? || PcOf(s, u).StopOnly? || PcOf(s, u).Overflow?
      modifies this
      ensures Valid() && old(trace) <= trace && Grows(old(s), s)
      ensures PcOf(s, u) == match PcOf(old(s), u) case Unhealthy => Replacing
                                    case CleanFailed => CleanDropped case _ => Idle
      ensures Own(trace, |old(trace)|, u) == [StopHeld(u)]
      ensures |At(old(s), With(u))| == 1 && At(old(s), With(u))[0] in s.stopped
    {
      Wait(u);
      HandsOk(maxSize, trace, u);
      OwnAdded(trace, StopHeld(u), |old(trace)|, u);
      Do(StopHeld(u));
    }

    /** Checkout: a warm container, a new one, or a wait that ends with a container, a shutdown or a canceled context.
        When it succeeds the caller holds one container, found healthy since it was last taken out of the channel or
        made by this call; otherwise it holds none. */
    method Checkout(u: Caller) returns (ok: bool)
      requires Valid() && PcOf(s, u).Idle?
      modifies this
      ensures Valid() && old(trace) <= trace && Grows(old(s), s)
      ensures PcOf(s, u) == if ok then Using else Idle
      ensures CheckoutSteps(Own(trace, |old(trace)|, u), u, ok)
      ensures if !ok then At(s, With(u)) == []
              else && |At(s, With(u))| == 1 && At(s, With(u))[0] !in Unchecked(maxSize, trace)
                   && (EndsIn(Own(trace, |old(trace)|, u), Probe(u, true)) || HoldsNew(old(s), s, u))
      ensures Closed(old(s)) ==> Own(trace, |old(trace)|, u) == [Begin(u)]
      ensures Own(trace, |old(trace)|, u) == [Begin(u)] ==> Closed(s)
    {
      Lock(u);
      OwnAdded(trace, Begin(u), |old(trace)|, u);
      Do(Begin(u));
      ok := false;
      if !PcOf(s, u).Idle? {
        ghost var before := trace;
        ok := TakeOrGrow(u);
        OwnJoin(before, trace, |old(trace)|, u);
      }
      if ok { HealthyInUse(maxSize, trace, u); } else { IdleHoldsNone(maxSize, trace, u); }
    }

    /** The fast path: a warm container if there is one. */
    method TakeOrGrow(u: Caller) returns (ok: bool)
      requires Valid() && PcOf(s, u).FastPath?
      modifies this
      ensures Valid() && old(trace) <= trace && Grows(old(s), s)
      ensures PcOf(s, u) == if ok then Using else Idle
      ensures var steps := Own(trace, |old(trace)|, u);
              && (ReceiveSteps(steps, u, ok)
                  || (steps != [] && steps[0] == FastMiss(u) && GrowSteps(steps[1..], u, ok)))
              && (ok ==> EndsIn(steps, Probe(u, true)) || HoldsNew(old(s), s, u))
    {
      Wait(u);
      if At(s, Channel) != [] {
        ghost var before := trace;
        ok := TakeOne(u);
        OwnSoFar(before, trace, |old(trace)|, u);
      } else {
        OwnAdded(trace, FastMiss(u), |old(trace)|, u);
        Do(FastMiss(u));
        ghost var before := trace;
        ok := Grow(u);
        OwnJoin(before, trace, |old(trace)|, u);
      }
    }

    /** Receive from the channel, then check. */
    method TakeOne(u: Caller) returns (ok: bool)
      requires Valid() && (PcOf(s, u).FastPath? || PcOf(s, u).Waiting?) && At(s, Channel) != []
      modifies this
      ensures Valid() && old(trace) <= trace && Grows(old(s), s)
      ensures PcOf(s, u) == if ok then Using else Idle
      ensures var steps := Own(trace, |old(trace)|, u);
              && ReceiveSteps(steps, u, ok)
              && (ok ==> EndsIn(steps, Probe(u, true)) || HoldsNew(old(s), s, u))
    {
      OwnAdded(trace, Receive(u), |trace|, u);
      Do(Receive(u));
      ghost var before := trace;
      ok := HealthCheckOrReplace(u);
      OwnJoin(before, trace, |old(trace)|, u);
    }

    /** Under the lock: give up on a closed pool, reserve a slot, or fall through to waiting. */
    method Grow(u: Caller) returns (ok: bool)
      requires Valid() && PcOf(s, u).Growing?
      modifies this
      ensures Valid() && old(trace) <= trace && Grows(old(s), s)
      ensures PcOf(s, u) == if ok then Using else Idle
      ensures var steps := Own(trace, |old(trace)|, u);
              && GrowSteps(steps, u, ok)
              && (ok ==> EndsIn(steps, Probe(u, true)) || HoldsNew(old(s), s, u))
    {
      Lock(u);
      OwnAdded(trace, Reserve(u), |old(trace)|, u);
      Do(Reserve(u));
      ghost var before := trace;
      if PcOf(s, u).Idle? {
        return false;
      }
      if PcOf(s, u).SpinningUp? {
        ok := Spin(u);
      } else {
        ok := Block(u);
      }
      OwnJoin(before, trace, |old(trace)|, u);
    }

    /** The three-way select at maximum size. */
    method Block(u: Caller) returns (ok: bool)
      requires Valid() && PcOf(s, u).Waiting?
      modifies this
      ensures Valid() && old(trace) <= trace && Grows(old(s), s)
      ensures PcOf(s, u) == if ok then Using else Idle
      ensures var steps := Own(trace, |old(trace)|, u);
              && ((!ok && steps == [LeaveWait(u)]) || ReceiveSteps(steps, u, ok))
              && (ok ==> EndsIn(steps, Probe(u, true)) || HoldsNew(old(s), s, u))
    {
      Wait(u);
      var leave: bool := *;
      if leave || At(s, Channel) == [] {
        OwnAdded(trace, LeaveWait(u), |old(trace)|, u);
        Do(LeaveWait(u));
        return false;
      }
      ghost var before := trace;
      ok := TakeOne(u);
      OwnSoFar(before, trace, |old(trace)|, u);
    }

    /** Return: clean and send back, or stop. Whatever happens the caller no longer holds the container: it is warm
        again if it was cleaned in an open pool, and stopped otherwise. */
    method Return(u: Caller) returns (ok: bool)
      requires Valid() && PcOf(s, u).Using?
      modifies this
      ensures Valid() && old(trace) <= trace && PcOf(s, u).Idle? && At(s, With(u)) == []
      ensures ReturnSteps(Own(trace, |old(trace)|, u), u, ok)
      ensures Landed(At(old(s), With(u)), s, ok)
      ensures Closed(old(s)) ==> Own(trace, |old(trace)|, u) == [GiveBack(u), StopHeld(u)]
      ensures !ok ==> Closed(s) || CleanUp(u, false) in Own(trace, |old(trace)|, u)
    {
      Lock(u);
      OwnAdded(trace, GiveBack(u), |old(trace)|, u);
      Do(GiveBack(u));
      ghost var before := trace;
      if PcOf(s, u).StopOnly? {
        StopIt(u);
        ok := false;
      } else {
        ok := CleanAndSend(u);
      }
      OwnJoin(before, trace, |old(trace)|, u);
      IdleHoldsNone(maxSize, trace, u);
    }

    method CleanAndSend(u: Caller) returns (ok: bool)
      requires Valid() && PcOf(s, u).Cleaning?
      modifies this
      ensures Valid() && old(trace) <= trace && PcOf(s, u).Idle?
      ensures BackSteps(Own(trace, |old(trace)|, u), u, ok)
      ensures Landed(At(old(s), With(u)), s, ok)
      ensures !ok ==> Closed(s) || CleanUp(u, false) in Own(trace, |old(trace)|, u)
    {
      ok := CleanIt(u);
      ghost var before := trace;
      if ok {
        ok := Send(u);
      } else {
        DropIt(u);
      }
      OwnJoin(before, trace, |old(trace)|, u);
    }

    /** The cleanup hook. */
    method CleanIt(u: Caller) returns (ok: bool)
      requires Valid() && PcOf(s, u).Cleaning?
      modifies this
      ensures Valid() && old(trace) <= trace && PcOf(s, u) == if ok then Cleaned else CleanFailed
      ensures Own(trace, |old(trace)|, u) == [CleanUp(u, ok)] && At(s, With(u)) == At(old(s), With(u))
    {
      Wait(u);
      ok := *;
      HandsOk(maxSize, trace, u);
      OwnAdded(trace, CleanUp(u, ok), |old(trace)|, u);
      Do(CleanUp(u, ok));
    }

    /** The cleanup failed: stop the container and give the slot back. */
    method DropIt(u: Caller)
      requires Valid() && PcOf(s, u).CleanFailed?
      modifies this
      ensures Valid() && old(trace) <= trace && PcOf(s, u).Idle?
      ensures Own(trace, |old(trace)|, u) == [StopHeld(u), GiveUp(u)]
      ensures Landed(At(old(s), With(u)), s, false)
    {
      StopIt(u);
      ghost var before := trace;
      Unreserve(u);
      OwnJoin(before, trace, |old(trace)|, u);
    }

    /** The send under the lock, or a stop when the pool was closed meanwhile. */
    method Send(u: Caller) returns (ok: bool)
      requires Valid() && PcOf(s, u).Cleaned?
      modifies this
      ensures Valid() && old(trace) <= trace && PcOf(s, u).Idle?
      ensures Own(trace, |old(trace)|, u) == if ok then [PutBack(u)] else [PutBack(u), StopHeld(u)]
      ensures Landed(At(old(s), With(u)), s, ok) && (!ok ==> Closed(s))
    {
      Lock(u);
      HandsOk(maxSize, trace, u);
      OwnAdded(trace, PutBack(u), |old(trace)|, u);
      Do(PutBack(u));
      ghost var before := trace;
      ok := PcOf(s, u).Idle?;
      if !ok {
        NeverOverflows(maxSize, trace, u);
        StopIt(u);
        OwnJoin(before, trace, |old(trace)|, u);
      }
    }

    /** Others go on while a shutdown is under way. */
    method WaitClosed(u: Caller)
      requires Valid() && Closed(s)
      modifies this
      ensures Valid() && old(trace) <= trace && WindsDown(old(s), s)
      ensures Own(trace, |old(trace)|, u) == []
    {
      Others(u);
      OwnKept(old(trace), trace, |old(trace)|, u);
      assert trace[..|old(trace)|] == old(trace);
      WindsDownRun(Initial(maxSize), trace, |old(trace)|);
    }

    /** The drain under the lock, others going on meanwhile. */
    method DrainChannel(u: Caller)
      requires Valid() && Closed(s)
      modifies this
      ensures Valid() && old(trace) <= trace && s.phase.Stopping? && Own(trace, |old(trace)|, u) == []
    {
      while s.phase.Draining?
        invariant Valid() && old(trace) <= trace && Closed(s) && Own(trace, |old(trace)|, u) == []
        decreases s.phase.Draining?, |At(s, Channel)|
      {
        ghost var before := trace;
        WaitClosed(u);
        OwnJoin(before, trace, |old(trace)|, u);
        if s.phase.Draining? {
          var a := if At(s, Channel) != [] then DrainOne else DrainEnd;
          OwnAdded(trace, a, |old(trace)|, u);
          Do(a);
        }
      }
    }

    /** The stops after the drain. */
    method StopAll(u: Caller)
      requires Valid() && s.phase.Stopping?
      modifies this
      ensures Valid() && old(trace) <= trace && s.phase.Stopping? && At(s, ToStop) == []
      ensures Own(trace, |old(trace)|, u) == []
    {
      while At(s, ToStop) != []
        invariant Valid() && old(trace) <= trace && s.phase.Stopping? && Own(trace, |old(trace)|, u) == []
        decreases |At(s, ToStop)|
      {
        ghost var before := trace;
        WaitClosed(u);
        OwnJoin(before, trace, |old(trace)|, u);
        if At(s, ToStop) != [] {
          OwnAdded(trace, StopDrained, |old(trace)|, u);
          Do(StopDrained);
        }
      }
    }

    /** Whoever closes the pool drains the channel under the lock and stops what it took out; a later call finds the
        pool closed and does nothing. Either way the pool is closed and the channel empty when the call returns. */
    method ShutDown(u: Caller) returns (first: bool)
      requires Valid()
      modifies this
      ensures Valid() && old(trace) <= trace && s.phase.Stopping? && At(s, Channel) == []
      ensures Own(trace, |old(trace)|, u) == if first then [Shutdown(u)] else []
      ensures first ==> At(s, ToStop) == []
      ensures Closed(old(s)) ==> !first
    {
      Lock(u);
      first := !Closed(s);
      if first {
        OwnAdded(trace, Shutdown(u), |old(trace)|, u);
        Do(Shutdown(u));
        ghost var before := trace;
        DrainChannel(u);
        OwnJoin(before, trace, |old(trace)|, u);
        before := trace;
        StopAll(u);
        OwnJoin(before, trace, |old(trace)|, u);
      }
      ChannelDrained(maxSize, trace);
    }

    /** The container runner: checkout, exec and parse, and a deferred return on every path. It ends holding
        nothing: its own steps are a failed checkout, or a successful one and exactly one return. */
    method RunTool(u: Caller) returns (ok: bool)
      requires Valid() && PcOf(s, u).Idle?
      modifies this
      ensures Valid() && old(trace) <= trace && PcOf(s, u).Idle? && At(s, With(u)) == []
      ensures ToolSteps(Own(trace, |old(trace)|, u), u, ok)
    {
      var got := Checkout(u);
      if !got {
        return false;
      }
      ghost var first := trace;
      Wait(u);
      ok := *;
      ghost var before := trace;
      var returned := Return(u);
      OwnOfBoth(old(trace), first, before, trace, u);
      CheckedOutAndReturned(Own(first, |old(trace)|, u), Own(trace, |before|, u), u, ok, returned);
    }
  }

  /** The steps of two calls, with nothing of ours in between. */
  lemma OwnOfBoth(start: seq<Action>, first: seq<Action>, before: seq<Action>, after: seq<Action>, u: Caller)
    requires |start| <= |first| && first <= before && before <= after && Own(before, |first|, u) == []
    ensures Own(after, |start|, u) == Own(first, |start|, u) + Own(after, |before|, u)
  {
    OwnJoin(first, before, |start|, u);
    OwnJoin(before, after, |start|, u);
    assert Own(first, |start|, u) + [] == Own(first, |start|, u);
  }
}
