/** What the history variables record is what the trace says, and the laws of the queue counted over the trace alone.
    No assumption is used. */
module Ledger {
  import opened Bags
  import opened Protocol
  import opened Frames
  import opened Conservation
  import opened BoundedRetry

  /** The payloads that were dispatched. */
  function DispatchedIn(acts: seq<Action>): multiset<Payload> {
    if acts == [] then multiset{}
    else DispatchedIn(Front(acts)) + (if Last(acts).Dispatch? then multiset{Last(acts).payload} else multiset{})
  }

  /** The payload, if any, that this step takes out of queues, lists and hands for good, and how. */
  function EndsBy(s: State, a: Action): seq<Fate>
    requires Enabled(s, a)
  {
    if a.Remove? then
      var c := s.fleet.checkouts[a.exec];
      if a.reply.Error? || c.payload !in At(s, Processing(c.worker, c.priority)) then []
      else [Fate(c.payload, if c.pc.why.Settled? then Acked
                            else if c.pc.why.Duplicate? then DroppedDuplicate else ClearedMalformed)]
    else if a.Pop? then
      var x := Last(At(s, Processing(a.list.0, a.list.1)));
      if a.reply.Lost? then [Fate(x, Gone(PopReplyLost))]
      else if x.Garbage? then [Fate(x, SweptMalformed)]
      else if x.job.key in s.sweeps[a.sweep].handled then [Fate(x, SweptDuplicate)]
      else []
    else if a.Push? then
      if a.reply.Error? then [Fate(Held(s, a.sweep), Gone(PushFailed))] else []
    else if a.Report? then
      [Fate(Held(s, a.sweep), if a.reply.Error? then Gone(ReportFailed) else ReportedFailed)]
    else if a.Stop? && Holds(s, a.sweep) then [Fate(Held(s, a.sweep), Gone(SweeperDied))]
    else []
  }

  function EndsIn(acts: seq<Action>): seq<Fate>
    requires Runs(INITIAL, acts)
  {
    if acts == [] then [] else EndsIn(Front(acts)) + EndsBy(After(INITIAL, Front(acts)), Last(acts))
  }

  function One(b: bool): nat { if b then 1 else 0 }

  /** A SETNX that takes the key, whether or not its answer arrives. */
  predicate Takes(s: State, a: Action, k: string)
    requires Enabled(s, a)
  {
    a.Claim? && KeyOf(s, a.exec) == k && k !in s.keys.claims && k in Apply(s, a).keys.claims
  }

  /** A delivery of this key starts to run. */
  predicate StartsToRun(s: State, a: Action, k: string)
    requires Enabled(s, a)
  {
    && a.Claim? && KeyOf(s, a.exec) == k
    && a.exec in Apply(s, a).fleet.checkouts && PcOf(Apply(s, a), a.exec).Running?
  }

  /** A DEL of this key's claim that reaches Redis. */
  predicate Frees(s: State, a: Action, k: string)
    requires Enabled(s, a)
  {
    a.Release? && !a.reply.Error? && HeldKey(s, a.sweep) == k && k != ""
  }

  /** An RPUSH of a payload with this key that reaches Redis. */
  predicate GivesBack(s: State, a: Action, k: string)
    requires Enabled(s, a)
  {
    a.Push? && !a.reply.Error? && HeldKey(s, a.sweep) == k
  }

  function TakesIn(acts: seq<Action>, k: string): nat
    requires Runs(INITIAL, acts)
  {
    if acts == [] then 0 else TakesIn(Front(acts), k) + One(Takes(After(INITIAL, Front(acts)), Last(acts), k))
  }

  function RunsStartedIn(acts: seq<Action>, k: string): nat
    requires Runs(INITIAL, acts)
  {
    if acts == [] then 0
    else RunsStartedIn(Front(acts), k) + One(StartsToRun(After(INITIAL, Front(acts)), Last(acts), k))
  }

  function FreesIn(acts: seq<Action>, k: string): nat
    requires Runs(INITIAL, acts)
  {
    if acts == [] then 0 else FreesIn(Front(acts), k) + One(Frees(After(INITIAL, Front(acts)), Last(acts), k))
  }

  function GivesBackIn(acts: seq<Action>, k: string): nat
    requires Runs(INITIAL, acts)
  {
    if acts == [] then 0 else GivesBackIn(Front(acts), k) + One(GivesBack(After(INITIAL, Front(acts)), Last(acts), k))
  }

  // Step by step ----------------------------------------------------------

  lemma FatesStep(s: State, a: Action)
    requires Enabled(s, a)
    ensures Apply(s, a).history.fates == s.history.fates + EndsBy(s, a)
  {
    if a.Remove? {
      assert DoRemove(s, a.exec, a.reply).history.fates == s.history.fates + EndsBy(s, a);
    } else if a.Pop? {
      assert DoPop(s, a.sweep, a.list, a.reply).history.fates == s.history.fates + EndsBy(s, a);
    } else if a.Push? {
      assert DoPush(s, a.sweep, a.reply).history.fates == s.history.fates + EndsBy(s, a);
    } else if a.Report? {
      var s' := DoReport(s, a.sweep, a.reply, a.message, a.stamp);
      assert s'.history.fates == s.history.fates + EndsBy(s, a);
    } else {
      OtherEnds(s, a);
    }
  }

  lemma OtherEnds(s: State, a: Action)
    requires Enabled(s, a) && !a.Remove? && !a.Pop? && !a.Push? && !a.Report?
    ensures Apply(s, a).history.fates == s.history.fates + EndsBy(s, a)
  {
  }

  lemma DispatchStep(s: State, a: Action)
    requires Enabled(s, a)
    ensures Apply(s, a).history.dispatched
         == s.history.dispatched + (if a.Dispatch? then multiset{a.payload} else multiset{})
  {
    if BySweepAction(a) {
      SweepKeeps(s, a);
    }
  }

  lemma ClaimStep(s: State, a: Action, k: string)
    requires Enabled(s, a)
    ensures Claimed(Apply(s, a), k) == Claimed(s, k) + One(Takes(s, a, k))
    ensures StartsToRun(s, a, k) ==> Takes(s, a, k)
  {
    if BySweepAction(a) {
      SweepKeeps(s, a);
    } else if a.Claim? {
      ClaimTakes(s, a.exec, a.reply, k);
    } else {
      ClaimedKept(s, a);
    }
  }

  lemma ClaimTakes(s: State, e: ExecId, reply: Reply, k: string)
    requires Enabled(s, Claim(e, reply))
    ensures Claimed(DoClaim(s, e, reply), k) == Claimed(s, k) + One(Takes(s, Claim(e, reply), k))
    ensures StartsToRun(s, Claim(e, reply), k) ==> Takes(s, Claim(e, reply), k)
  {
  }

  lemma RetryLogStep(s: State, a: Action, k: string)
    requires Enabled(s, a)
    ensures |Released(Apply(s, a), k)| == |Released(s, k)| + One(Frees(s, a, k))
    ensures |Requeued(Apply(s, a), k)| == |Requeued(s, k)| + One(GivesBack(s, a, k))
  {
    if !BySweepAction(a) {
      FleetKeeps(s, a);
    } else if a.Release? {
      assert |Released(DoRelease(s, a.sweep, a.reply), k)| == |Released(s, k)| + One(Frees(s, a, k));
    } else if a.Push? {
      assert |Requeued(DoPush(s, a.sweep, a.reply), k)| == |Requeued(s, k)| + One(GivesBack(s, a, k));
    } else {
      SweepLeavesLogs(s, a);
    }
  }

  lemma SweepLeavesLogs(s: State, a: Action)
    requires Enabled(s, a) && BySweepAction(a) && !a.Release? && !a.Push?
    ensures Apply(s, a).history.released == s.history.released && Apply(s, a).history.requeued == s.history.requeued
  {
    if a.Increment? {
      assert DoIncrement(s, a.sweep, a.reply).history == s.history;
    } else if a.Check? {
      assert DoCheck(s, a.sweep, a.reply).history == s.history;
    } else {
      SweepLeavesKeys(s, a);
    }
  }

  /** The history is the trace's. */
  lemma {:induction false} HistoryIsTrace(acts: seq<Action>, k: string)
    requires Runs(INITIAL, acts)
    ensures var h := After(INITIAL, acts).history;
            && h.dispatched == DispatchedIn(acts) && h.fates == EndsIn(acts)
            && Claimed(After(INITIAL, acts), k) == TakesIn(acts, k) >= RunsStartedIn(acts, k)
            && |Released(After(INITIAL, acts), k)| == FreesIn(acts, k)
            && |Requeued(After(INITIAL, acts), k)| == GivesBackIn(acts, k)
    decreases |acts|
  {
    if acts != [] {
      HistoryIsTrace(Front(acts), k);
      var s, a := After(INITIAL, Front(acts)), Last(acts);
      DispatchStep(s, a);
      FatesStep(s, a);
      ClaimStep(s, a, k);
      RetryLogStep(s, a, k);
    }
  }

  // Main results ------------------------------------------------------------

  /** In every run, whatever crashes, races, duplicates and lost replies it contains: a job starts to run at most twice,
      and its claim is freed and its payload given back at most once. */
  lemma RunsAtMostTwice(acts: seq<Action>, k: string)
    requires Runs(INITIAL, acts)
    ensures RunsStartedIn(acts, k) <= TakesIn(acts, k) <= 2
    ensures FreesIn(acts, k) <= 1 && GivesBackIn(acts, k) <= 1
  {
    HistoryIsTrace(acts, k);
    BoundedRetries(acts, k);
  }

  /** In every run, what was dispatched is what is stored, in sweeps' hands included, and what some step took out for
      good, as multisets. */
  lemma Conserved(acts: seq<Action>)
    requires Runs(INITIAL, acts)
    ensures DispatchedIn(acts) == Bag(After(INITIAL, acts).store) + multiset(Payloads(EndsIn(acts)))
  {
    HistoryIsTrace(acts, "");
    AlwaysBalanced(acts);
  }

  // Replies -----------------------------------------------------------------

  /** What Redis holds: queues, processing lists, keys and what was published. */
  ghost predicate SameRedis(s: State, t: State) {
    (forall l: Place :: !l.InHand? ==> At(t, l) == At(s, l)) && t.keys == s.keys && t.log == s.log
  }

  predicate HasReply(a: Action) {
    a.Move? || a.Claim? || a.Mark? || a.Publish? || a.Remove? || a.Pop? || a.Increment? || a.Check? || a.Release? ||
    a.Push? || a.Report?
  }

  function WithReply(a: Action, reply: Reply): Action
    requires HasReply(a)
  {
    a.(reply := reply)
  }

  /** A command that fails changes nothing in Redis. */
  lemma ErrorChangesNothing(s: State, a: Action)
    requires Enabled(s, a) && HasReply(a) && a.reply.Error?
    ensures SameRedis(s, Apply(s, a))
  {
  }

  /** A command whose reply is lost changes Redis like one that is answered. */
  lemma LostIsExecuted(s: State, a: Action)
    requires HasReply(a) && Enabled(s, WithReply(a, Ok)) && Enabled(s, WithReply(a, Lost))
    ensures SameRedis(Apply(s, WithReply(a, Ok)), Apply(s, WithReply(a, Lost)))
  {
  }
}
