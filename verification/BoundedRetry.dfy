/** Retries are bounded per key in every run: no uniqueness, liveness or marker assumption is used. */
module BoundedRetry {
  import opened Protocol
  import opened Frames

  /** The number INCR gave this sweep for the payload it holds, while the number still matters. */
  predicate HasTicket(s: State, r: SweepId, k: string) {
    && Holds(s, r) && HeldKey(s, r) == k
    && (StageOf(s, r).Checking? || StageOf(s, r).Releasing? || StageOf(s, r).Pushing?)
  }

  function Ticket(s: State, r: SweepId, k: string): nat
    requires HasTicket(s, r, k)
  { StageOf(s, r).n }

  predicate TicketOk(s: State, r: SweepId, k: string) {
    HasTicket(s, r, k) ==>
      && 1 <= Ticket(s, r, k) <= Reclaims(s, k)
      && (!StageOf(s, r).Checking? ==> Ticket(s, r, k) <= MAX_RECLAIMS)
      && (!StageOf(s, r).Pushing? ==> Ticket(s, r, k) !in Released(s, k))
      && Ticket(s, r, k) !in Requeued(s, k)
  }

  predicate TicketsDiffer(s: State, q: SweepId, r: SweepId, k: string) {
    q != r && HasTicket(s, q, k) && HasTicket(s, r, k) ==> Ticket(s, q, k) != Ticket(s, r, k)
  }

  predicate Distinct(xs: seq<nat>) {
    forall i, j :: 0 <= i < j < |xs| ==> xs[i] != xs[j]
  }

  predicate LogsOk(s: State, k: string) {
    && Distinct(Released(s, k)) && Distinct(Requeued(s, k))
    && (forall n :: n in Released(s, k) ==> 1 <= n <= MAX_RECLAIMS && n <= Reclaims(s, k))
    && (forall n :: n in Requeued(s, k) ==> 1 <= n <= MAX_RECLAIMS && n <= Reclaims(s, k))
  }

  predicate ClaimsOk(s: State, k: string) {
    Claimed(s, k) <= |Released(s, k)| + (if k in s.keys.claims then 1 else 0)
  }

  ghost predicate RetryInv(s: State, k: string) {
    && (forall r :: TicketOk(s, r, k))
    && (forall q, r :: TicketsDiffer(s, q, r, k))
    && LogsOk(s, k)
    && ClaimsOk(s, k)
  }

  /** The inputs of the invariant are untouched, except that one more claim may have been taken. */
  ghost predicate Quiet(s: State, s': State) {
    && s'.keys.reclaims == s.keys.reclaims
    && s'.history.released == s.history.released && s'.history.requeued == s.history.requeued
    && (forall k :: Excess(s', k) == Excess(s, k))
  }

  ghost predicate TicketKept(s: State, s': State, r: SweepId) {
    forall k :: HasTicket(s', r, k) ==> HasTicket(s, r, k) && StageOf(s', r) == StageOf(s, r)
  }

  function Excess(s: State, k: string): int { Claimed(s, k) - (if k in s.keys.claims then 1 else 0) }

  lemma ClaimExcess(s: State, e: ExecId, reply: Reply, k: string)
    requires Enabled(s, Claim(e, reply))
    ensures Excess(DoClaim(s, e, reply), k) == Excess(s, k)
  {
  }

  lemma ClaimsKept(s: State, a: Action)
    requires Enabled(s, a) && !BySweepAction(a) && !a.Claim?
    ensures Apply(s, a).keys.claims == s.keys.claims
  {
  }

  lemma ClaimedKept(s: State, a: Action)
    requires Enabled(s, a) && !BySweepAction(a) && !a.Claim?
    ensures Apply(s, a).history.claimed == s.history.claimed
  {
  }

  lemma FleetClaims(s: State, a: Action)
    requires Enabled(s, a) && !BySweepAction(a)
    ensures forall k :: Excess(Apply(s, a), k) == Excess(s, k)
  {
    if a.Claim? {
      forall k
        ensures Excess(Apply(s, a), k) == Excess(s, k)
      {
        ClaimExcess(s, a.exec, a.reply, k);
      }
    } else {
      ClaimsKept(s, a);
      ClaimedKept(s, a);
    }
  }

  lemma FleetQuiet(s: State, a: Action)
    requires Enabled(s, a) && !BySweepAction(a)
    ensures Quiet(s, Apply(s, a)) && forall r :: TicketKept(s, Apply(s, a), r)
  {
    FleetFrame(s, a);
    FleetKeeps(s, a);
    forall r
      ensures TicketKept(s, Apply(s, a), r)
    {
      assert SameHand(s, Apply(s, a), r);
    }
    FleetClaims(s, a);
  }

  lemma SweepLeavesKeys(s: State, a: Action)
    requires Enabled(s, a) && BySweepAction(a)
    requires !a.Increment? && !a.Check? && !a.Release? && !a.Push?
    ensures Apply(s, a).keys == s.keys
    ensures Apply(s, a).history.(fates := []) == s.history.(fates := [])
  {
  }

  lemma SweepQuiet(s: State, a: Action)
    requires Enabled(s, a) && BySweepAction(a)
    requires !a.Increment? && !a.Check? && !a.Release? && !a.Push?
    ensures Quiet(s, Apply(s, a)) && TicketKept(s, Apply(s, a), a.sweep)
  {
    SweepLeavesKeys(s, a);
  }

  lemma QuietStep(s: State, s': State, k: string)
    requires RetryInv(s, k) && Quiet(s, s') && forall r :: TicketKept(s, s', r)
    ensures RetryInv(s', k)
  {
    assert Excess(s', k) == Excess(s, k);
    forall r
      ensures TicketOk(s', r, k)
    {
      assert TicketKept(s, s', r) && TicketOk(s, r, k);
    }
    forall q, r
      ensures TicketsDiffer(s', q, r, k)
    {
      assert TicketKept(s, s', q) && TicketKept(s, s', r) && TicketsDiffer(s, q, r, k);
    }
  }

  lemma IncrementStep(s: State, r: SweepId, reply: Reply, k: string)
    requires Enabled(s, Increment(r, reply)) && RetryInv(s, k)
    ensures RetryInv(DoIncrement(s, r, reply), k)
  {
    var s' := DoIncrement(s, r, reply);
    assert TicketOk(s, r, k);
    forall q
      ensures TicketOk(s', q, k)
    {
      assert TicketOk(s, q, k) && TicketsDiffer(s, q, r, k);
    }
    forall p, q
      ensures TicketsDiffer(s', p, q, k)
    {
      assert TicketOk(s, p, k) && TicketOk(s, q, k) && TicketsDiffer(s, p, q, k);
    }
  }

  lemma CheckStep(s: State, r: SweepId, reply: Reply, k: string)
    requires Enabled(s, Check(r, reply)) && RetryInv(s, k)
    ensures RetryInv(DoCheck(s, r, reply), k)
  {
    var s' := DoCheck(s, r, reply);
    assert TicketOk(s, r, k);
    forall q
      ensures TicketOk(s', q, k)
    {
      assert TicketOk(s, q, k) && TicketsDiffer(s, q, r, k);
    }
    forall p, q
      ensures TicketsDiffer(s', p, q, k)
    {
      assert TicketOk(s, p, k) && TicketOk(s, q, k) && TicketsDiffer(s, p, q, k);
    }
  }

  lemma ReleaseLogs(s: State, r: SweepId, reply: Reply, k: string)
    requires Enabled(s, Release(r, reply)) && TicketOk(s, r, k) && LogsOk(s, k) && ClaimsOk(s, k)
    ensures LogsOk(DoRelease(s, r, reply), k) && ClaimsOk(DoRelease(s, r, reply), k)
  {
  }

  lemma ReleaseTicket(s: State, r: SweepId, reply: Reply, q: SweepId, k: string)
    requires Enabled(s, Release(r, reply)) && TicketOk(s, r, k) && TicketOk(s, q, k) && TicketsDiffer(s, q, r, k)
    ensures TicketOk(DoRelease(s, r, reply), q, k)
    ensures HasTicket(DoRelease(s, r, reply), q, k) ==>
              HasTicket(s, q, k) && Ticket(DoRelease(s, r, reply), q, k) == Ticket(s, q, k)
  {
  }

  lemma ReleaseStep(s: State, r: SweepId, reply: Reply, k: string)
    requires Enabled(s, Release(r, reply)) && RetryInv(s, k)
    ensures RetryInv(DoRelease(s, r, reply), k)
  {
    var s' := DoRelease(s, r, reply);
    assert TicketOk(s, r, k);
    ReleaseLogs(s, r, reply, k);
    forall q
      ensures TicketOk(s', q, k) && (HasTicket(s', q, k) ==> HasTicket(s, q, k) && Ticket(s', q, k) == Ticket(s, q, k))
    {
      assert TicketOk(s, q, k) && TicketsDiffer(s, q, r, k);
      ReleaseTicket(s, r, reply, q, k);
    }
    forall p, q
      ensures TicketsDiffer(s', p, q, k)
    {
      assert TicketsDiffer(s, p, q, k);
    }
  }

  lemma PushStep(s: State, r: SweepId, reply: Reply, k: string)
    requires Enabled(s, Push(r, reply)) && RetryInv(s, k)
    ensures RetryInv(DoPush(s, r, reply), k)
  {
    var s' := DoPush(s, r, reply);
    assert TicketOk(s, r, k);
    forall q
      ensures TicketOk(s', q, k)
    {
      assert TicketOk(s, q, k) && TicketsDiffer(s, q, r, k);
    }
    forall p, q
      ensures TicketsDiffer(s', p, q, k)
    {
      assert TicketOk(s, p, k) && TicketOk(s, q, k) && TicketsDiffer(s, p, q, k);
    }
  }

  lemma OtherSweepStep(s: State, a: Action, k: string)
    requires Enabled(s, a) && BySweepAction(a) && RetryInv(s, k)
    requires !a.Increment? && !a.Check? && !a.Release? && !a.Push?
    ensures RetryInv(Apply(s, a), k)
  {
    SweepQuiet(s, a);
    forall r
      ensures TicketKept(s, Apply(s, a), r)
    {
      if r != a.sweep { SweepFrame(s, a, r); }
    }
    QuietStep(s, Apply(s, a), k);
  }

  lemma RetryStep(s: State, a: Action, k: string)
    requires Enabled(s, a) && RetryInv(s, k)
    ensures RetryInv(Apply(s, a), k)
  {
    if a.Increment? {
      IncrementStep(s, a.sweep, a.reply, k);
    } else if a.Check? {
      CheckStep(s, a.sweep, a.reply, k);
    } else if a.Release? {
      ReleaseStep(s, a.sweep, a.reply, k);
    } else if a.Push? {
      PushStep(s, a.sweep, a.reply, k);
    } else if BySweepAction(a) {
      OtherSweepStep(s, a, k);
    } else {
      FleetQuiet(s, a);
      QuietStep(s, Apply(s, a), k);
    }
  }

  lemma {:induction false} RetryAlways(acts: seq<Action>, k: string)
    requires Runs(INITIAL, acts)
    ensures RetryInv(After(INITIAL, acts), k)
    decreases |acts|
  {
    if acts != [] {
      RetryAlways(Front(acts), k);
      RetryStep(After(INITIAL, Front(acts)), Last(acts), k);
    }
  }

  lemma {:induction false} Pigeonhole(xs: seq<nat>, m: nat)
    requires Distinct(xs)
    requires forall n :: n in xs ==> 1 <= n <= m
    ensures |xs| <= m
    decreases m
  {
    assert xs == [] || xs[0] in xs;
    if m in xs {
      var i :| 0 <= i < |xs| && xs[i] == m;
      var rest := xs[..i] + xs[i + 1..];
      assert forall n :: n in rest ==> n in xs && n != m;
      Pigeonhole(rest, m - 1);
    } else if m > 0 {
      Pigeonhole(xs, m - 1);
    }
  }

  /** In every run, whatever crashes, races, duplicates or lost replies it contains: a key's claim is
      released at most MAX_RECLAIMS times, its payloads are requeued at most MAX_RECLAIMS times, and at
      most one more claim than that ever succeeds. */
  lemma BoundedRetries(acts: seq<Action>, k: string)
    requires Runs(INITIAL, acts)
    ensures var s := After(INITIAL, acts);
            && |Released(s, k)| <= MAX_RECLAIMS
            && |Requeued(s, k)| <= MAX_RECLAIMS
            && Claimed(s, k) <= 1 + MAX_RECLAIMS
  {
    RetryAlways(acts, k);
    var s := After(INITIAL, acts);
    Pigeonhole(Released(s, k), MAX_RECLAIMS);
    Pigeonhole(Requeued(s, k), MAX_RECLAIMS);
  }
}
