/** What each kind of action leaves alone. */
module Frames {
  import opened Protocol

  predicate BySweepAction(a: Action) {
    a.Snapshot? || a.Scan? || a.BeginDrain? || a.Pop? || a.Increment? || a.Check? || a.Release? || a.Push? ||
    a.Report? || a.Stop?
  }

  predicate SameHand(s: State, s': State, r: SweepId) {
    && At(s', InHand(r)) == At(s, InHand(r))
    && (r in s'.sweeps <==> r in s.sweeps)
    && (r in s.sweeps ==> s'.sweeps[r] == s.sweeps[r])
  }

  lemma FleetFrame(s: State, a: Action)
    requires Enabled(s, a) && !BySweepAction(a)
    ensures forall r :: SameHand(s, Apply(s, a), r)
  {
  }

  lemma FleetKeepsSweeps(s: State, a: Action)
    requires Enabled(s, a) && !BySweepAction(a)
    ensures Apply(s, a).sweeps == s.sweeps && Apply(s, a).keys.reclaims == s.keys.reclaims
  {
  }

  lemma FleetKeepsHistory(s: State, a: Action)
    requires Enabled(s, a) && !BySweepAction(a)
    ensures Apply(s, a).history.released == s.history.released && Apply(s, a).history.requeued == s.history.requeued
  {
  }

  lemma FleetKeeps(s: State, a: Action)
    requires Enabled(s, a) && !BySweepAction(a)
    ensures Apply(s, a).sweeps == s.sweeps && Apply(s, a).keys.reclaims == s.keys.reclaims
    ensures Apply(s, a).history.released == s.history.released && Apply(s, a).history.requeued == s.history.requeued
  {
    FleetKeepsSweeps(s, a);
    FleetKeepsHistory(s, a);
  }

  lemma SweepFrame(s: State, a: Action, r: SweepId)
    requires Enabled(s, a) && BySweepAction(a) && a.sweep != r
    ensures SameHand(s, Apply(s, a), r)
  {
  }

  lemma SweepKeepsFleet(s: State, a: Action)
    requires Enabled(s, a) && BySweepAction(a)
    ensures Apply(s, a).fleet == s.fleet && Apply(s, a).keys.published == s.keys.published
  {
  }

  lemma SweepKeepsHistory(s: State, a: Action)
    requires Enabled(s, a) && BySweepAction(a)
    ensures Apply(s, a).history.claimed == s.history.claimed && Apply(s, a).history.dispatched == s.history.dispatched
  {
  }

  lemma SweepKeeps(s: State, a: Action)
    requires Enabled(s, a) && BySweepAction(a)
    ensures Apply(s, a).fleet == s.fleet && Apply(s, a).keys.published == s.keys.published
    ensures Apply(s, a).history.claimed == s.history.claimed && Apply(s, a).history.dispatched == s.history.dispatched
  {
    SweepKeepsFleet(s, a);
    SweepKeepsHistory(s, a);
  }

  /** The action is a step of execution `e` itself. */
  predicate ByExec(a: Action, e: ExecId) {
    (a.Claim? || a.Decide? || a.Mark? || a.Publish? || a.Remove?) && a.exec == e
  }

  /** No other action changes a checkout or its plan; a crash can only take the checkout away. */
  lemma ExecFrame(s: State, a: Action, e: ExecId)
    requires Enabled(s, a) && !ByExec(a, e) && !(a.Move? && e == s.fleet.nextExec)
    ensures SameExec(s, Apply(s, a), e)
    ensures e in s.fleet.checkouts && e !in Apply(s, a).fleet.checkouts ==> a == Crash(s.fleet.checkouts[e].worker)
  {
    if BySweepAction(a) {
      SweepKeeps(s, a);
    }
  }

  predicate SameExec(s: State, s': State, e: ExecId) {
    && (e in s'.fleet.checkouts ==> e in s.fleet.checkouts && s'.fleet.checkouts[e] == s.fleet.checkouts[e])
    && (e in s'.fleet.plans <==> e in s.fleet.plans)
    && (e in s.fleet.plans ==> s'.fleet.plans[e] == s.fleet.plans[e])
    && s.fleet.nextExec <= s'.fleet.nextExec
  }

  lemma LogGrows(s: State, a: Action)
    requires Enabled(s, a)
    ensures s.log <= Apply(s, a).log && |Apply(s, a).log| <= |s.log| + 1
    ensures Apply(s, a).log != s.log ==>
              (a.Publish? || a.Report?)
                && Last(Apply(s, a).log).author == (if a.Publish? then Execution(a.exec) else BySweep(a.sweep))
  {
  }
}
