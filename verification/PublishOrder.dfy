/** What reaches the completions channel, execution by execution. No assumption is used. */
module PublishOrder {
  import opened Events
  import opened Protocol
  import opened Frames

  /** The events an execution has published, in order. */
  function LogOf(log: seq<Entry>, e: ExecId): seq<CompletedEvent> {
    if log == [] then []
    else LogOf(Front(log), e) + (if Last(log).author == Execution(e) then [Last(log).event] else [])
  }

  /** Somebody has been told how the job with this key ended. */
  ghost predicate Told(log: seq<Entry>, k: string) {
    exists i :: 0 <= i < |log| && log[i].event.key == k && log[i].event.eventSeq.IsTerminal()
  }

  function PlanFor(s: State, e: ExecId): seq<CompletedEvent> {
    if e in s.fleet.plans then s.fleet.plans[e] else []
  }

  predicate PcMatches(s: State, e: ExecId)
    requires e in s.fleet.checkouts
  {
    match s.fleet.checkouts[e].pc
    case Fresh => e !in s.fleet.plans && s.fleet.checkouts[e].payload.Wire?
    case Running => e !in s.fleet.plans && s.fleet.checkouts[e].payload.Wire?
    case Publishing(sent, _) => sent < |PlanFor(s, e)| && LogOf(s.log, e) == PlanFor(s, e)[..sent]
    case Removing(why) =>
      if why.Settled? then e in s.fleet.plans && LogOf(s.log, e) == s.fleet.plans[e] else e !in s.fleet.plans
    case Stranded => true
  }

  ghost predicate PlanMatches(s: State, e: ExecId) {
    e in s.fleet.plans && e in s.fleet.checkouts ==>
      s.fleet.checkouts[e].payload.Wire? && IsPlan(s.fleet.plans[e], s.fleet.checkouts[e].payload.job.key)
  }

  ghost predicate Planned(plan: seq<CompletedEvent>) {
    exists job, outcome, stamp, ms :: plan == PlanOf(job, outcome, stamp, ms)
  }

  ghost predicate ExecOk(s: State, e: ExecId) {
    && (e >= s.fleet.nextExec ==> e !in s.fleet.checkouts && e !in s.fleet.plans)
    && LogOf(s.log, e) <= PlanFor(s, e)
    && (e in s.fleet.checkouts ==> PcMatches(s, e))
    && PlanMatches(s, e)
    && (e in s.fleet.plans ==> Planned(s.fleet.plans[e]))
  }

  lemma LogOfKept(s: State, a: Action, e: ExecId)
    requires Enabled(s, a) && (a.Publish? ==> a.exec != e)
    ensures LogOf(Apply(s, a).log, e) == LogOf(s.log, e)
  {
    LogGrows(s, a);
    var log' := Apply(s, a).log;
    if log' != s.log {
      assert Front(log') == s.log;
    }
  }

  lemma PublishExec(s: State, e: ExecId, reply: Reply)
    requires Enabled(s, Publish(e, reply)) && ExecOk(s, e)
    ensures ExecOk(DoPublish(s, e, reply), e)
  {
    var s' := DoPublish(s, e, reply);
    if !reply.Error? {
      var sent, plan := PcOf(s, e).sent, s.fleet.plans[e];
      assert Front(s'.log) == s.log;
      assert LogOf(s'.log, e) == plan[..sent] + [plan[sent]];
      assert plan[..sent] + [plan[sent]] == plan[..sent + 1];
      assert plan[..|plan|] == plan;
    }
  }

  lemma DecideExec(s: State, e: ExecId, outcome: Outcome, stamp: string, ms: nat)
    requires Enabled(s, Decide(e, outcome, stamp, ms)) && ExecOk(s, e)
    ensures ExecOk(DoDecide(s, e, outcome, stamp, ms), e)
  {
    PlanOfIsPlan(s.fleet.checkouts[e].payload.job, outcome, stamp, ms);
  }

  lemma ClaimExec(s: State, e: ExecId, reply: Reply)
    requires Enabled(s, Claim(e, reply)) && ExecOk(s, e)
    ensures ExecOk(DoClaim(s, e, reply), e)
  {
  }

  lemma MarkExec(s: State, e: ExecId, reply: Reply)
    requires Enabled(s, Mark(e, reply)) && ExecOk(s, e)
    ensures ExecOk(DoMark(s, e, reply), e)
  {
  }

  lemma RemoveExec(s: State, e: ExecId, reply: Reply)
    requires Enabled(s, Remove(e, reply)) && ExecOk(s, e)
    ensures ExecOk(DoRemove(s, e, reply), e)
  {
  }

  lemma MoveExec(s: State, w: WorkerId, p: Priority, reply: Reply)
    requires Enabled(s, Move(w, p, reply)) && ExecOk(s, s.fleet.nextExec)
    ensures ExecOk(DoMove(s, w, p, reply), s.fleet.nextExec)
  {
  }

  lemma SameExecOk(s: State, s': State, e: ExecId)
    requires ExecOk(s, e) && SameExec(s, s', e) && LogOf(s'.log, e) == LogOf(s.log, e)
    ensures ExecOk(s', e)
  {
  }

  lemma ExecOkStep(s: State, a: Action, e: ExecId)
    requires Enabled(s, a) && ExecOk(s, e)
    ensures ExecOk(Apply(s, a), e)
  {
    if !ByExec(a, e) && !(a.Move? && e == s.fleet.nextExec) {
      LogOfKept(s, a, e);
      ExecFrame(s, a, e);
      SameExecOk(s, Apply(s, a), e);
    } else if a.Move? {
      MoveExec(s, a.worker, a.priority, a.reply);
    } else if a.Claim? {
      ClaimExec(s, e, a.reply);
    } else if a.Decide? {
      DecideExec(s, e, a.outcome, a.stamp, a.ms);
    } else if a.Mark? {
      MarkExec(s, e, a.reply);
    } else if a.Publish? {
      PublishExec(s, e, a.reply);
    } else {
      RemoveExec(s, e, a.reply);
    }
  }

  lemma {:induction false} ExecAlways(acts: seq<Action>, e: ExecId)
    requires Runs(INITIAL, acts)
    ensures ExecOk(After(INITIAL, acts), e)
    decreases |acts|
  {
    if acts != [] {
      ExecAlways(Front(acts), e);
      ExecOkStep(After(INITIAL, Front(acts)), Last(acts), e);
    }
  }

  lemma {:induction false} LoggedIn(log: seq<Entry>, i: nat, e: ExecId)
    requires i < |log| && log[i].author == Execution(e)
    ensures log[i].event in LogOf(log, e)
    decreases |log|
  {
    if i < |log| - 1 {
      LoggedIn(Front(log), i, e);
    }
  }

  lemma {:induction false} LoggedFrom(log: seq<Entry>, ev: CompletedEvent, e: ExecId)
    requires ev in LogOf(log, e)
    ensures exists i :: 0 <= i < |log| && log[i] == Entry(Execution(e), ev)
    decreases |log|
  {
    if ev in LogOf(Front(log), e) {
      LoggedFrom(Front(log), ev, e);
      var i :| 0 <= i < |Front(log)| && Front(log)[i] == Entry(Execution(e), ev);
      assert log[i] == Entry(Execution(e), ev);
    } else {
      assert log[|log| - 1] == Entry(Execution(e), ev);
    }
  }

  /** An execution's published events are always a prefix of the one sequence it set out to publish, and a
      terminal event among them means that nothing of that sequence is missing. */
  lemma PublishedPrefix(acts: seq<Action>, e: ExecId)
    requires Runs(INITIAL, acts)
    ensures var s := After(INITIAL, acts);
            && LogOf(s.log, e) <= PlanFor(s, e)
            && ((exists i :: 0 <= i < |s.log| && s.log[i].author == Execution(e)
                           && s.log[i].event.eventSeq.IsTerminal())
                <==> LogOf(s.log, e) == PlanFor(s, e) != [])
  {
    ExecAlways(acts, e);
    var s := After(INITIAL, acts);
    var plan := PlanFor(s, e);
    if e in s.fleet.plans {
      var job, outcome, stamp, ms :| plan == PlanOf(job, outcome, stamp, ms);
      PlanOfIsPlan(job, outcome, stamp, ms);
    }
    if i :| 0 <= i < |s.log| && s.log[i].author == Execution(e) && s.log[i].event.eventSeq.IsTerminal() {
      LoggedIn(s.log, i, e);
      var j :| 0 <= j < |LogOf(s.log, e)| && LogOf(s.log, e)[j] == s.log[i].event;
      assert plan[j] == s.log[i].event;
    }
    if LogOf(s.log, e) == plan != [] {
      var last := plan[|plan| - 1];
      assert last in LogOf(s.log, e);
      LoggedFrom(s.log, last, e);
    }
  }

  predicate AllSendable(log: seq<Entry>) {
    forall i :: 0 <= i < |log| ==> Sendable(log[i].event)
  }

  lemma SendableStep(s: State, a: Action)
    requires Enabled(s, a) && AllSendable(s.log)
    ensures AllSendable(Apply(s, a).log)
  {
    LogGrows(s, a);
    if a.Publish? {
      assert Apply(s, a).log == DoPublish(s, a.exec, a.reply).log;
    } else if a.Report? {
      assert Apply(s, a).log == DoReport(s, a.sweep, a.reply, a.message, a.stamp).log;
    }
  }

  /** Whatever reaches the channel has passed validation. */
  lemma {:induction false} LoggedIsSendable(acts: seq<Action>)
    requires Runs(INITIAL, acts)
    ensures AllSendable(After(INITIAL, acts).log)
    decreases |acts|
  {
    if acts != [] {
      LoggedIsSendable(Front(acts));
      SendableStep(After(INITIAL, Front(acts)), Last(acts));
    }
  }

  /** A plan is made for the job that was checked out. */
  ghost predicate PlanIsFor(s: State, e: ExecId) {
    e in s.fleet.checkouts && e in s.fleet.plans ==>
      && s.fleet.checkouts[e].payload.Wire?
      && exists outcome, stamp, ms :: s.fleet.plans[e] == PlanOf(s.fleet.checkouts[e].payload.job, outcome, stamp, ms)
  }

  lemma OwnKeepsJob(s: State, a: Action, e: ExecId)
    requires Enabled(s, a) && ByExec(a, e)
    ensures e in Apply(s, a).fleet.checkouts ==>
              e in s.fleet.checkouts && Apply(s, a).fleet.checkouts[e].payload == s.fleet.checkouts[e].payload
  {
  }

  lemma OwnKeepsPlans(s: State, a: Action, e: ExecId)
    requires Enabled(s, a) && ByExec(a, e) && !a.Decide?
    ensures Apply(s, a).fleet.plans == s.fleet.plans
  {
  }

  lemma PlanIsForStep(s: State, a: Action, e: ExecId)
    requires Enabled(s, a) && PlanIsFor(s, e) && ExecOk(s, e)
    ensures PlanIsFor(Apply(s, a), e)
  {
    if !ByExec(a, e) && !(a.Move? && e == s.fleet.nextExec) {
      ExecFrame(s, a, e);
    } else if a.Decide? {
      DecideIsFor(s, e, a.outcome, a.stamp, a.ms);
    } else if !a.Move? {
      OwnKeepsJob(s, a, e);
      OwnKeepsPlans(s, a, e);
    }
  }

  lemma DecideIsFor(s: State, e: ExecId, outcome: Outcome, stamp: string, ms: nat)
    requires Enabled(s, Decide(e, outcome, stamp, ms))
    ensures PlanIsFor(DoDecide(s, e, outcome, stamp, ms), e)
  {
    var t := DoDecide(s, e, outcome, stamp, ms);
    assert t.fleet.plans[e] == PlanOf(t.fleet.checkouts[e].payload.job, outcome, stamp, ms);
  }

  lemma {:induction false} PlansAlways(acts: seq<Action>, e: ExecId)
    requires Runs(INITIAL, acts)
    ensures PlanIsFor(After(INITIAL, acts), e)
    decreases |acts|
  {
    if acts != [] {
      PlansAlways(Front(acts), e);
      ExecAlways(Front(acts), e);
      PlanIsForStep(After(INITIAL, Front(acts)), Last(acts), e);
    }
  }

  /** So nothing is ever published for a delivery whose payload lacks an id, a scan or an engine. */
  lemma UnnamedStaysSilent(acts: seq<Action>, e: ExecId)
    requires Runs(INITIAL, acts)
    ensures var s := After(INITIAL, acts);
            e in s.fleet.checkouts && s.fleet.checkouts[e].payload.Wire? && !Named(s.fleet.checkouts[e].payload.job) ==>
              LogOf(s.log, e) == []
  {
    LoggedIsSendable(acts);
    ExecAlways(acts, e);
    var s := After(INITIAL, acts);
    if e in s.fleet.checkouts && e in s.fleet.plans && LogOf(s.log, e) != [] {
      PlansAlways(acts, e);
      var ev := LogOf(s.log, e)[0];
      assert ev in LogOf(s.log, e) && ev == s.fleet.plans[e][0];
      LoggedFrom(s.log, ev, e);
      var outcome, stamp, ms :| s.fleet.plans[e] == PlanOf(s.fleet.checkouts[e].payload.job, outcome, stamp, ms);
      PlanSendable(s.fleet.checkouts[e].payload.job, outcome, stamp, ms);
    }
  }

  /** A successful run whose terminal event is out has delivered every finding, in order. */
  lemma SuccessIsComplete(acts: seq<Action>, e: ExecId, job: Job, outcome: Outcome, stamp: string, ms: nat, i: nat)
    requires Runs(INITIAL, acts) && outcome.Completed?
    requires PlanFor(After(INITIAL, acts), e) == PlanOf(job, outcome, stamp, ms)
    requires i < |After(INITIAL, acts).log| && After(INITIAL, acts).log[i].author == Execution(e)
    ensures After(INITIAL, acts).log[i].event.eventSeq.IsTerminal() ==>
              AllFindings(LogOf(After(INITIAL, acts).log, e)) == Enrich(outcome.findings, job)
    ensures AllFindings(LogOf(After(INITIAL, acts).log, e)) <= Enrich(outcome.findings, job)
  {
    var s := After(INITIAL, acts);
    PublishedPrefix(acts, e);
    PlanCarriesAll(job, outcome, stamp, ms);
    var n := |LogOf(s.log, e)|;
    PrefixCarries(Enrich(outcome.findings, job),
                  BaseEvent(job, "completed", |outcome.findings|, "", stamp, ms), n);
    assert LogOf(s.log, e) == PlanFor(s, e)[..n];
  }

  // ---------------------------------------------------------------------
  // Acknowledgement
  // ---------------------------------------------------------------------

  predicate ClaimRecorded(s: State, k: string) {
    k in s.keys.claims ==> Claimed(s, k) >= 1
  }

  predicate DuplicateOk(s: State, e: ExecId) {
    e in s.fleet.checkouts && s.fleet.checkouts[e].pc == Removing(Duplicate) ==>
      s.fleet.checkouts[e].payload.Wire? && Claimed(s, KeyOf(s, e)) >= 1
  }

  /** Why a payload may have left the store for good. */
  ghost predicate Justified(s: State, f: Fate) {
    && (f.how.Acked? || f.how.ReportedFailed? ==> f.payload.Wire? && Told(s.log, f.payload.job.key))
    && (f.how.DroppedDuplicate? ==> f.payload.Wire? && Claimed(s, f.payload.job.key) >= 1)
  }

  ghost predicate FateOk(s: State, i: nat) {
    i < |s.history.fates| ==> Justified(s, s.history.fates[i])
  }

  lemma ClaimsGrow(s: State, a: Action, k: string)
    requires Enabled(s, a)
    ensures Claimed(Apply(s, a), k) >= Claimed(s, k)
    ensures k in Apply(s, a).keys.claims && k !in s.keys.claims ==> Claimed(Apply(s, a), k) >= 1
  {
    if BySweepAction(a) {
      SweepKeeps(s, a);
    }
  }

  /** The verdict "duplicate" comes only from a SETNX that found the key taken. */
  lemma DuplicateFromClaim(s: State, a: Action, e: ExecId)
    requires Enabled(s, a) && ByExec(a, e)
    requires e in Apply(s, a).fleet.checkouts && PcOf(Apply(s, a), e) == Removing(Duplicate)
    ensures a.Claim? && s.fleet.checkouts[e].payload.Wire? && KeyOf(s, e) in s.keys.claims
    ensures Apply(s, a).fleet.checkouts[e].payload == s.fleet.checkouts[e].payload
  {
  }

  lemma DuplicateOkStep(s: State, a: Action, e: ExecId)
    requires Enabled(s, a) && DuplicateOk(s, e) && (forall k :: ClaimRecorded(s, k))
    ensures DuplicateOk(Apply(s, a), e)
  {
    var s' := Apply(s, a);
    if e in s'.fleet.checkouts && PcOf(s', e) == Removing(Duplicate) {
      if ByExec(a, e) {
        DuplicateFromClaim(s, a, e);
      } else if !(a.Move? && e == s.fleet.nextExec) {
        ExecFrame(s, a, e);
      }
      if e in s.fleet.checkouts && s.fleet.checkouts[e].payload.Wire? {
        ClaimsGrow(s, a, KeyOf(s, e));
        assert ClaimRecorded(s, KeyOf(s, e));
      }
    }
  }

  lemma ToldStays(log: seq<Entry>, log': seq<Entry>, k: string)
    requires log <= log' && Told(log, k)
    ensures Told(log', k)
  {
    var i :| 0 <= i < |log| && log[i].event.key == k && log[i].event.eventSeq.IsTerminal();
    assert log'[i] == log[i];
  }

  lemma RemoveFate(s: State, e: ExecId, reply: Reply)
    requires Enabled(s, Remove(e, reply))
    ensures var fates' := DoRemove(s, e, reply).history.fates;
            fates' == s.history.fates ||
            fates' == s.history.fates + [Fate(s.fleet.checkouts[e].payload, HowOf(s.fleet.checkouts[e].pc.why))]
  {
  }

  lemma NoFate(s: State, a: Action)
    requires Enabled(s, a) && !a.Remove? && !BySweepAction(a)
    ensures Apply(s, a).history.fates == s.history.fates
  {
  }

  predicate NeedsReason(how: How) { how.Acked? || how.DroppedDuplicate? || how.ReportedFailed? }

  lemma PopFate(s: State, r: SweepId, t: ListId, reply: Reply)
    requires Enabled(s, Pop(r, t, reply))
    ensures var fates' := DoPop(s, r, t, reply).history.fates;
            fates' == s.history.fates || exists f :: fates' == s.history.fates + [f] && !NeedsReason(f.how)
  {
  }

  lemma PushFate(s: State, r: SweepId, reply: Reply)
    requires Enabled(s, Push(r, reply))
    ensures var fates' := DoPush(s, r, reply).history.fates;
            fates' == s.history.fates || exists f :: fates' == s.history.fates + [f] && !NeedsReason(f.how)
  {
  }

  /** Apart from removals by workers and reports, no step adds a fate that has to be justified. */
  lemma NewFate(s: State, a: Action)
    requires Enabled(s, a) && !a.Remove? && !a.Report?
    ensures var fates' := Apply(s, a).history.fates;
            fates' == s.history.fates || exists f :: fates' == s.history.fates + [f] && !NeedsReason(f.how)
  {
    if !BySweepAction(a) {
      NoFate(s, a);
    } else if a.Pop? {
      PopFate(s, a.sweep, a.list, a.reply);
    } else if a.Push? {
      PushFate(s, a.sweep, a.reply);
    } else if a.Stop? {
      if Holds(s, a.sweep) {
        assert Apply(s, a).history.fates == s.history.fates + [Fate(Held(s, a.sweep), Gone(SweeperDied))];
      }
    } else {
      assert Apply(s, a).history.fates == s.history.fates;
    }
  }

  lemma ReportFate(s: State, r: SweepId, reply: Reply, message: string, stamp: string, i: nat)
    requires Enabled(s, Report(r, reply, message, stamp)) && |s.history.fates| <= i
    ensures s.history.fates <= DoReport(s, r, reply, message, stamp).history.fates
    ensures FateOk(DoReport(s, r, reply, message, stamp), i)
  {
    var s' := DoReport(s, r, reply, message, stamp);
    assert !reply.Error? ==> s'.log[|s'.log| - 1].event.key == HeldKey(s, r);
  }

  lemma SettledTold(s: State, e: ExecId)
    requires ExecOk(s, e) && e in s.fleet.checkouts && PcOf(s, e) == Removing(Settled)
    ensures s.fleet.checkouts[e].payload.Wire? && Told(s.log, KeyOf(s, e))
  {
    var plan := s.fleet.plans[e];
    assert plan[|plan| - 1] in LogOf(s.log, e);
    LoggedFrom(s.log, plan[|plan| - 1], e);
    var i :| 0 <= i < |s.log| && s.log[i] == Entry(Execution(e), plan[|plan| - 1]);
    assert s.log[i].event.key == KeyOf(s, e);
  }

  lemma OldFateStep(s: State, a: Action, i: nat)
    requires Enabled(s, a) && FateOk(s, i) && i < |s.history.fates| && s.history.fates <= Apply(s, a).history.fates
    ensures FateOk(Apply(s, a), i)
  {
    LogGrows(s, a);
    var f := s.history.fates[i];
    if f.payload.Wire? {
      ClaimsGrow(s, a, f.payload.job.key);
      if Told(s.log, f.payload.job.key) { ToldStays(s.log, Apply(s, a).log, f.payload.job.key); }
    }
  }

  lemma RemovalJustified(s: State, e: ExecId)
    requires ExecOk(s, e) && DuplicateOk(s, e) && e in s.fleet.checkouts && PcOf(s, e).Removing?
    ensures Justified(s, Fate(s.fleet.checkouts[e].payload, HowOf(PcOf(s, e).why)))
  {
    if PcOf(s, e).why.Settled? {
      SettledTold(s, e);
    }
  }

  lemma RemoveKeepsBooks(s: State, e: ExecId, reply: Reply)
    requires Enabled(s, Remove(e, reply))
    ensures DoRemove(s, e, reply).log == s.log && DoRemove(s, e, reply).history.claimed == s.history.claimed
  {
  }

  lemma RemoveFateOk(s: State, e: ExecId, reply: Reply, i: nat)
    requires Enabled(s, Remove(e, reply)) && ExecOk(s, e) && DuplicateOk(s, e) && |s.history.fates| <= i
    ensures FateOk(DoRemove(s, e, reply), i)
  {
    RemoveFate(s, e, reply);
    RemovalJustified(s, e);
    RemoveKeepsBooks(s, e, reply);
  }

  lemma FateOkStep(s: State, a: Action, i: nat)
    requires Enabled(s, a) && FateOk(s, i)
    requires a.Remove? ==> ExecOk(s, a.exec) && DuplicateOk(s, a.exec)
    ensures FateOk(Apply(s, a), i)
  {
    if a.Remove? {
      RemoveFate(s, a.exec, a.reply);
      if |s.history.fates| <= i { RemoveFateOk(s, a.exec, a.reply, i); }
    } else if a.Report? {
      ReportFate(s, a.sweep, a.reply, a.message, a.stamp, |s.history.fates|);
      if |s.history.fates| <= i { ReportFate(s, a.sweep, a.reply, a.message, a.stamp, i); }
    } else {
      NewFate(s, a);
    }
    if i < |s.history.fates| {
      OldFateStep(s, a, i);
    }
  }

  ghost predicate FatesInv(s: State) {
    && (forall e :: DuplicateOk(s, e))
    && (forall k :: ClaimRecorded(s, k))
    && (forall i: nat :: FateOk(s, i))
  }

  lemma FatesStep(s: State, a: Action)
    requires Enabled(s, a) && FatesInv(s)
    requires a.Remove? ==> ExecOk(s, a.exec)
    ensures FatesInv(Apply(s, a))
  {
    forall e
      ensures DuplicateOk(Apply(s, a), e)
    {
      DuplicateOkStep(s, a, e);
    }
    forall k
      ensures ClaimRecorded(Apply(s, a), k)
    {
      assert ClaimRecorded(s, k);
      ClaimsGrow(s, a, k);
    }
    forall i: nat
      ensures FateOk(Apply(s, a), i)
    {
      assert FateOk(s, i);
      FateOkStep(s, a, i);
    }
  }

  lemma {:induction false} FatesAlways(acts: seq<Action>)
    requires Runs(INITIAL, acts)
    ensures FatesInv(After(INITIAL, acts))
    decreases |acts|
  {
    if acts != [] {
      FatesAlways(Front(acts));
      if Last(acts).Remove? {
        ExecAlways(Front(acts), Last(acts).exec);
      }
      FatesStep(After(INITIAL, Front(acts)), Last(acts));
    }
  }

  /** A delivery leaves the processing list by acknowledgement only after a terminal event for its key is out,
      or because its key was already claimed; the same holds for what a sweep reports failed. */
  lemma SettledOnlyIfTold(acts: seq<Action>, i: nat)
    requires Runs(INITIAL, acts) && i < |After(INITIAL, acts).history.fates|
    ensures var s := After(INITIAL, acts);
            var f := s.history.fates[i];
            && (f.how.Acked? || f.how.ReportedFailed? ==> f.payload.Wire? && Told(s.log, f.payload.job.key))
            && (f.how.DroppedDuplicate? ==> f.payload.Wire? && Claimed(s, f.payload.job.key) >= 1)
  {
    FatesAlways(acts);
    assert FateOk(After(INITIAL, acts), i);
  }

  /** At the moment of the acknowledgement it is the execution's own terminal event that is out. */
  lemma AckAfterOwnTerminal(acts: seq<Action>, e: ExecId, reply: Reply)
    requires Runs(INITIAL, acts) && Enabled(After(INITIAL, acts), Remove(e, reply))
    ensures var s := After(INITIAL, acts);
            match PcOf(s, e).why
            case Settled =>
              && s.fleet.checkouts[e].payload.Wire? && Told(s.log, KeyOf(s, e))
              && e in s.fleet.plans && LogOf(s.log, e) == s.fleet.plans[e]
            case Duplicate =>
              LogOf(s.log, e) == [] && s.fleet.checkouts[e].payload.Wire? && Claimed(s, KeyOf(s, e)) >= 1
            case Malformed => LogOf(s.log, e) == []
  {
    FatesAlways(acts);
    ExecAlways(acts, e);
    var s := After(INITIAL, acts);
    assert DuplicateOk(s, e);
    if PcOf(s, e).why.Settled? {
      SettledTold(s, e);
    }
  }
}
