/** One delivery from the claim to the acknowledgement, as the processor and the worker loop run it. */
module Processor {
  import opened Events
  import opened Protocol
  import opened PublishOrder
  import opened Server

  datatype Processed = Finished | NotTerminal | WorkerDied

  /** What the job turned out to be: the engine's registration, the tool's result and the two contexts. */
  datatype RunReport = RunReport(registered: bool, reconWired: bool, result: RunResult, jobCtx: CtxState, ctx: CtxState)

  function OutcomeOf(job: Job, report: RunReport): Outcome {
    if job.engine == "recon" then DiscriminateRecon(report.reconWired, report.result, report.jobCtx, report.ctx)
    else if !report.registered then Failed("no runner registered for engine \"" + job.engine + "\"")
    else Discriminate(report.result, report.jobCtx, report.ctx)
  }

  /** The one event that tells of a run without findings. */
  predicate TellsOnly(told: seq<CompletedEvent>, status: string, message: string, ms: nat) {
    |told| == 1 && told[0].findings == [] && Ends(told[0], status, 0, message, ms)
  }

  /** What the world must hear about a run, case by case, whatever the splitting and the order of tests. */
  predicate Announces(told: seq<CompletedEvent>, job: Job, report: RunReport, stamp: string, ms: nat) {
    var canceled := report.jobCtx.CtxCanceled? && !report.ctx.CtxCanceled?;
    && |told| >= 1 && PartialsOk(told)
    && (forall i :: 0 <= i < |told| ==> About(told[i], job, stamp) && |told[i].findings| <= 1000)
    && (job.engine != "recon" && report.registered ==>
          match report.result
          case Clean(findings) =>
            Ends(Last(told), "completed", |findings|, "", ms) && Stamped(AllFindings(told), findings, job)
          case RunError(message) =>
            if canceled then TellsOnly(told, "canceled", "", ms)
            else if report.jobCtx.DeadlineExceeded? then TellsOnly(told, "failed", "job timed out: " + message, ms)
            else TellsOnly(told, "failed", message, ms))
    && (job.engine != "recon" && !report.registered ==>
          TellsOnly(told, "failed", "no runner registered for engine \"" + job.engine + "\"", ms))
    && (job.engine == "recon" ==>
          if !report.reconWired
          then TellsOnly(told, "failed", "recon dispatch requires recon publishers; none wired", ms)
          else if canceled then TellsOnly(told, "canceled", "", ms)
          else match report.result
            case Clean(_) => TellsOnly(told, "completed", "", ms)
            case RunError(message) => TellsOnly(told, "failed", message, ms))
  }

  /** The tool's findings, all of them, in order, each with the job's scan and organization. */
  predicate Stamped(told: seq<Finding>, findings: seq<Finding>, job: Job) {
    && |told| == |findings|
    && forall i :: 0 <= i < |told| ==>
         told[i].body == findings[i].body && told[i].scanId == job.scanId && told[i].orgId == job.orgId
  }

  /** The plan that is made for a run announces that run. */
  lemma PlanAnnounces(job: Job, report: RunReport, stamp: string, ms: nat)
    ensures Announces(PlanOf(job, OutcomeOf(job, report), stamp, ms), job, report, stamp, ms)
  {
    var outcome := OutcomeOf(job, report);
    PlanFields(job, outcome, stamp, ms);
    if outcome.Completed? {
      PlanCarriesAll(job, outcome, stamp, ms);
    }
  }

  /** The events of some log entries. */
  function EventsIn(entries: seq<Entry>): (r: seq<CompletedEvent>)
    ensures |r| == |entries|
    ensures forall i :: 0 <= i < |r| ==> r[i] == entries[i].event
  {
    seq(|entries|, i requires 0 <= i < |entries| => entries[i].event)
  }

  /** All that was added to the log comes from this delivery. */
  predicate AllBy(entries: seq<Entry>, e: ExecId) {
    forall i :: 0 <= i < |entries| ==> entries[i].author == Execution(e)
  }

  /** What has been told once the publish loop is over. */
  lemma PlanIsTold(e: ExecId, job: Job, report: RunReport, stamp: string, ms: nat, before: seq<Entry>,
                   after: seq<Entry>)
    requires var plan := PlanOf(job, OutcomeOf(job, report), stamp, ms);
             after == before + Entries(e, plan[..SendableUpTo(plan)])
    ensures var plan := PlanOf(job, OutcomeOf(job, report), stamp, ms); SendableUpTo(plan) == |plan| <==> Named(job)
    ensures before <= after
    ensures var added := after[|before|..];
            if Named(job) then AllBy(added, e) && Announces(EventsIn(added), job, report, stamp, ms) else added == []
  {
    var plan := PlanOf(job, OutcomeOf(job, report), stamp, ms);
    PlanSendableUpTo(job, OutcomeOf(job, report), stamp, ms);
    if Named(job) {
      PlanAnnounces(job, report, stamp, ms);
      assert plan[..|plan|] == plan && EventsIn(Entries(e, plan)) == plan;
    } else {
      assert Entries(e, plan[..0]) == [];
    }
  }

  function Entries(e: ExecId, plan: seq<CompletedEvent>): (r: seq<Entry>)
    ensures |r| == |plan|
  {
    seq(|plan|, i requires 0 <= i < |plan| => Entry(Execution(e), plan[i]))
  }

  /** The delivery is still ours to work on and looks as before. */
  predicate Untouched(s0: State, s: State, e: ExecId) {
    && Active(s0, e) && Active(s, e) && s.fleet.checkouts[e] == s0.fleet.checkouts[e]
    && (e in s.fleet.plans <==> e in s0.fleet.plans)
    && (e in s0.fleet.plans ==> s.fleet.plans[e] == s0.fleet.plans[e])
  }

  lemma ClaimGives(s: State, e: ExecId, reply: Reply)
    requires Enabled(s, Claim(e, reply))
    ensures var t := DoClaim(s, e, reply);
            && Active(t, e) && t.log == s.log && t.fleet.checkouts[e].payload == s.fleet.checkouts[e].payload
            && PcOf(t, e) == (if KeyOf(s, e) == "" || !reply.Ok? then Stranded
                              else if KeyOf(s, e) in s.keys.claims then Removing(Duplicate) else Running)
            && (!reply.Error? && KeyOf(s, e) != "" ==> t.keys.claims == s.keys.claims + {KeyOf(s, e)})
  {
  }

  lemma DecideGives(s: State, e: ExecId, outcome: Outcome, stamp: string, ms: nat)
    requires Enabled(s, Decide(e, outcome, stamp, ms))
    ensures var t := DoDecide(s, e, outcome, stamp, ms);
            && Active(t, e) && t.log == s.log && t.fleet.checkouts[e].payload == s.fleet.checkouts[e].payload
            && PcOf(t, e) == Publishing(0, false) && t.keys == s.keys
            && e in t.fleet.plans && t.fleet.plans[e] == PlanOf(s.fleet.checkouts[e].payload.job, outcome, stamp, ms)
  {
  }

  lemma MarkGives(s: State, e: ExecId, reply: Reply)
    requires Enabled(s, Mark(e, reply))
    ensures var t := DoMark(s, e, reply);
            && Active(t, e) && t.log == s.log && t.fleet.plans == s.fleet.plans
            && t.fleet.checkouts[e] == s.fleet.checkouts[e].(pc := Publishing(PcOf(s, e).sent, true))
            && t.keys.claims == s.keys.claims
            && (!reply.Error? ==> KeyOf(s, e) in t.keys.published)
  {
  }

  lemma PublishGives(s: State, e: ExecId, reply: Reply)
    requires Enabled(s, Publish(e, reply))
    ensures var t := DoPublish(s, e, reply);
            var n := PcOf(s, e).sent;
            && Active(t, e) && t.fleet.plans == s.fleet.plans && t.keys == s.keys
            && t.fleet.checkouts[e].payload == s.fleet.checkouts[e].payload
            && t.log == s.log + (if reply.Error? then [] else [Entry(Execution(e), s.fleet.plans[e][n])])
            && PcOf(t, e) == (if !reply.Ok? then Stranded
                              else if n + 1 == |s.fleet.plans[e]| then Removing(Settled) else Publishing(n + 1, false))
  {
  }

  lemma SendableFront(plan: seq<CompletedEvent>, i: nat)
    requires i < |plan|
    ensures i < SendableUpTo(plan) ==> Sendable(plan[i])
    ensures i == SendableUpTo(plan) ==> !Sendable(plan[i])
  {
  }

  lemma EntriesNext(e: ExecId, plan: seq<CompletedEvent>, i: nat)
    requires i < |plan|
    ensures Entries(e, plan[..i + 1]) == Entries(e, plan[..i]) + [Entry(Execution(e), plan[i])]
    ensures i + 1 == |plan| ==> plan[..i + 1] == plan
  {
  }

  /** A delivery that is done publishing has its whole plan in the log. */
  lemma SettledIsOut(tr: seq<Action>, e: ExecId)
    requires Runs(INITIAL, tr) && e in After(INITIAL, tr).fleet.checkouts
    requires PcOf(After(INITIAL, tr), e) == Removing(Settled)
    ensures var s := After(INITIAL, tr); e in s.fleet.plans && LogOf(s.log, e) == s.fleet.plans[e]
  {
    ExecAlways(tr, e);
  }

  lemma LogIsPrefix(tr: seq<Action>, e: ExecId)
    requires Runs(INITIAL, tr)
    ensures LogOf(After(INITIAL, tr).log, e) <= PlanFor(After(INITIAL, tr), e)
  {
    ExecAlways(tr, e);
  }

  lemma DuplicateIsSilent(tr: seq<Action>, e: ExecId)
    requires Runs(INITIAL, tr) && e in After(INITIAL, tr).fleet.checkouts
    requires PcOf(After(INITIAL, tr), e) == Removing(Duplicate)
    ensures LogOf(After(INITIAL, tr).log, e) == []
  {
    ExecAlways(tr, e);
  }

  class JobProcessor {
    const server: RedisServer

    constructor (server: RedisServer)
      ensures this.server == server
    {
      this.server := server;
    }

    /** Let others act; `false` when our worker has crashed meanwhile. */
    method Wait(calm: bool, e: ExecId) returns (alive: bool)
      requires server.Valid() && Active(server.s, e)
      modifies server
      ensures server.Valid() && old(server.trace) <= server.trace
      ensures NoneBy(server.trace, |old(server.trace)|, Exec(e))
      ensures alive <==> Active(server.s, e)
      ensures alive ==> Untouched(old(server.s), server.s, e)
      ensures calm ==> alive && server.s == old(server.s) && server.trace == old(server.trace)
    {
      server.Others(calm, Exec(e));
      assert server.trace[..|old(server.trace)|] == old(server.trace);
      ExecAlways(old(server.trace), e);
      DeliveryKept(server.trace, |old(server.trace)|, e);
      alive := Active(server.s, e);
    }

    /** SETNX on the idempotency key. */
    method Claim(calm: bool, e: ExecId) returns (alive: bool)
      requires server.Valid() && Active(server.s, e) && PcOf(server.s, e).Fresh?
               && server.s.fleet.checkouts[e].payload.Wire?
      modifies server
      ensures server.Valid() && old(server.trace) <= server.trace
      ensures alive <==> Active(server.s, e)
      ensures alive ==>
                && server.s.fleet.checkouts[e].payload == old(server.s).fleet.checkouts[e].payload
                && (PcOf(server.s, e).Running? || PcOf(server.s, e).Stranded?
                    || PcOf(server.s, e) == Removing(Duplicate))
                && server.trace != [] && Runs(INITIAL, Front(server.trace))
                && var k, claims := KeyOf(server.s, e), After(INITIAL, Front(server.trace)).keys.claims;
                && var answered := k != "" && Last(server.trace) == Action.Claim(e, Ok);
                && (PcOf(server.s, e).Running? <==> answered && k !in claims)
                && (PcOf(server.s, e).Removing? <==> answered && k in claims)
                && (PcOf(server.s, e).Running? ==> k in server.s.keys.claims)
      ensures calm ==> alive && server.s == DoClaim(old(server.s), e, Ok)
    {
      alive := Wait(calm, e);
      if alive {
        var reply := server.Answer(calm);
        ClaimGives(server.s, e, reply);
        server.Do(Action.Claim(e, reply));
      }
    }

    /** SET of the publish marker; a marker that cannot be written is not a reason to stop. */
    method MarkPublished(calm: bool, e: ExecId) returns (alive: bool, reply: Reply)
      requires server.Valid() && Active(server.s, e) && server.s.fleet.checkouts[e].payload.Wire?
      requires PcOf(server.s, e).Publishing? && !PcOf(server.s, e).marked
      modifies server
      ensures server.Valid() && old(server.trace) <= server.trace
      ensures alive <==> Active(server.s, e)
      ensures OwnSteps(server.trace, |old(server.trace)|, Exec(e)) == if alive then [Mark(e, reply)] else []
      ensures alive ==>
                && server.s.fleet.checkouts[e]
                   == old(server.s).fleet.checkouts[e].(pc := Publishing(PcOf(old(server.s), e).sent, true))
                && (e in old(server.s).fleet.plans ==>
                      e in server.s.fleet.plans && server.s.fleet.plans[e] == old(server.s).fleet.plans[e])
                && (!reply.Error? ==> KeyOf(server.s, e) in server.s.keys.published)
      ensures calm ==> alive && reply.Ok? && server.s.log == old(server.s).log
                       && server.s.keys.claims == old(server.s).keys.claims
    {
      alive := Wait(calm, e);
      reply := server.Answer(calm);
      OwnStepsKept(old(server.trace), server.trace, |old(server.trace)|, Exec(e));
      if alive {
        MarkGives(server.s, e, reply);
        server.Do(Mark(e, reply));
      }
    }

    /** The single exit of every completion event: marker first, then PUBLISH. Whatever happens in between, the
        delivery's own steps are these two, in this order, unless its worker dies. */
    method PublishCompletion(calm: bool, e: ExecId) returns (alive: bool, marker: Reply, reply: Reply)
      requires server.Valid() && Active(server.s, e) && server.s.fleet.checkouts[e].payload.Wire?
      requires e in server.s.fleet.plans && PcOf(server.s, e).Publishing? && !PcOf(server.s, e).marked
      requires PcOf(server.s, e).sent < |server.s.fleet.plans[e]|
      modifies server
      ensures server.Valid() && old(server.trace) <= server.trace
      ensures alive <==> Active(server.s, e)
      ensures OwnSteps(server.trace, |old(server.trace)|, Exec(e)) <= [Mark(e, marker), Publish(e, reply)]
      ensures alive ==>
                var n := PcOf(old(server.s), e).sent;
                && OwnSteps(server.trace, |old(server.trace)|, Exec(e)) == [Mark(e, marker), Publish(e, reply)]
                && server.s.fleet.checkouts[e].payload == old(server.s).fleet.checkouts[e].payload
                && e in server.s.fleet.plans && server.s.fleet.plans[e] == old(server.s).fleet.plans[e]
                && PcOf(server.s, e) == (if !reply.Ok? then Stranded
                                         else if n + 1 == |server.s.fleet.plans[e]| then Removing(Settled)
                                         else Publishing(n + 1, false))
      ensures calm ==>
                var event := old(server.s).fleet.plans[e][PcOf(old(server.s), e).sent];
                && alive && reply == (if Sendable(event) then Ok else Error)
                && server.s.log == old(server.s).log + (if Sendable(event) then [Entry(Execution(e), event)] else [])
                && server.s.keys.claims == old(server.s).keys.claims && KeyOf(server.s, e) in server.s.keys.published
    {
      reply := Error;
      alive, marker := MarkPublished(calm, e);
      if !alive { return; }
      ghost var tr := server.trace;
      alive, reply := Send(calm, e);
      OwnStepsJoin(tr, server.trace, |old(server.trace)|, Exec(e));
    }

    /** PUBLISH of the next event; one that validation refuses strands the delivery. */
    method Send(calm: bool, e: ExecId) returns (alive: bool, reply: Reply)
      requires server.Valid() && Active(server.s, e) && server.s.fleet.checkouts[e].payload.Wire?
      requires e in server.s.fleet.plans && PcOf(server.s, e).Publishing? && PcOf(server.s, e).marked
      requires PcOf(server.s, e).sent < |server.s.fleet.plans[e]|
      modifies server
      ensures server.Valid() && old(server.trace) <= server.trace
      ensures alive <==> Active(server.s, e)
      ensures OwnSteps(server.trace, |old(server.trace)|, Exec(e)) == if alive then [Publish(e, reply)] else []
      ensures alive ==>
                var n := PcOf(old(server.s), e).sent;
                && server.s.fleet.checkouts[e].payload == old(server.s).fleet.checkouts[e].payload
                && e in server.s.fleet.plans && server.s.fleet.plans[e] == old(server.s).fleet.plans[e]
                && PcOf(server.s, e) == (if !reply.Ok? then Stranded
                                         else if n + 1 == |server.s.fleet.plans[e]| then Removing(Settled)
                                         else Publishing(n + 1, false))
      ensures calm ==>
                var event := old(server.s).fleet.plans[e][PcOf(old(server.s), e).sent];
                && alive && reply == (if Sendable(event) then Ok else Error)
                && server.s.log == old(server.s).log + (if Sendable(event) then [Entry(Execution(e), event)] else [])
                && server.s.keys == old(server.s).keys
    {
      alive := Wait(calm, e);
      OwnStepsKept(old(server.trace), server.trace, |old(server.trace)|, Exec(e));
      reply := Error;
      if alive {
        reply := server.Publish(calm, server.s.fleet.plans[e][PcOf(server.s, e).sent]);
        PublishGives(server.s, e, reply);
        server.Do(Publish(e, reply));
      }
    }

    /** The publish loop: stops at the first event that is not known to be out. */
    method PublishAll(calm: bool, e: ExecId) returns (result: Processed)
      requires server.Valid() && Active(server.s, e) && server.s.fleet.checkouts[e].payload.Wire?
      requires e in server.s.fleet.plans && |server.s.fleet.plans[e]| > 0 && PcOf(server.s, e) == Publishing(0, false)
      modifies server
      ensures server.Valid() && old(server.trace) <= server.trace
      ensures result.WorkerDied? <==> !Active(server.s, e)
      ensures result.Finished? ==>
                && PcOf(server.s, e) == Removing(Settled)
                && e in server.s.fleet.plans && LogOf(server.s.log, e) == server.s.fleet.plans[e]
      ensures result.NotTerminal? ==> PcOf(server.s, e).Stranded?
      ensures !result.WorkerDied? ==>
                e in server.s.fleet.plans && server.s.fleet.plans[e] == old(server.s).fleet.plans[e]
      ensures calm ==>
                var plan := old(server.s).fleet.plans[e];
                && result == (if SendableUpTo(plan) == |plan| then Finished else NotTerminal)
                && server.s.log == old(server.s).log + Entries(e, plan[..SendableUpTo(plan)])
                && server.s.keys.claims == old(server.s).keys.claims
                && KeyOf(old(server.s), e) in server.s.keys.published
    {
      ghost var plan, log0, k := server.s.fleet.plans[e], server.s.log, KeyOf(server.s, e);
      var i := 0;
      while i < |server.s.fleet.plans[e]|
        invariant server.Valid() && old(server.trace) <= server.trace
        invariant Active(server.s, e) && server.s.fleet.checkouts[e].payload.Wire?
        invariant e in server.s.fleet.plans && server.s.fleet.plans[e] == plan && 0 <= i <= |plan|
        invariant PcOf(server.s, e) == (if i == |plan| then Removing(Settled) else Publishing(i, false))
        invariant calm ==> i <= SendableUpTo(plan) && server.s.log == log0 + Entries(e, plan[..i])
        invariant KeyOf(server.s, e) == k
        invariant calm ==> server.s.keys.claims == old(server.s.keys.claims)
        invariant calm && i > 0 ==> k in server.s.keys.published
        decreases |plan| - i
      {
        var alive, marker, reply := PublishCompletion(calm, e);
        if !alive {
          return WorkerDied;
        }
        SendableFront(plan, i);
        if PcOf(server.s, e).Stranded? {
          return NotTerminal;
        }
        EntriesNext(e, plan, i);
        i := i + 1;
      }
      SettledIsOut(server.trace, e);
      return Finished;
    }

    /** Claim, run, publish. Whatever others do, a delivery that ends settled has published exactly what its run has to
        announce, and one dropped as a duplicate nothing. Undisturbed, the log grows by exactly that, if the job is
        neither a duplicate nor without a key, an id, a scan or an engine. */
    method Process(calm: bool, e: ExecId, report: RunReport, stamp: string, ms: nat) returns (result: Processed)
      requires server.Valid() && Active(server.s, e) && PcOf(server.s, e).Fresh?
               && server.s.fleet.checkouts[e].payload.Wire?
      modifies server
      ensures server.Valid() && old(server.trace) <= server.trace
      ensures result.WorkerDied? <==> !Active(server.s, e)
      ensures result.Finished? ==>
                var job := old(server.s).fleet.checkouts[e].payload.job;
                && PcOf(server.s, e).Removing?
                && (PcOf(server.s, e).why.Settled? ==> Announces(LogOf(server.s.log, e), job, report, stamp, ms))
                && (!PcOf(server.s, e).why.Settled? ==> LogOf(server.s.log, e) == [])
      ensures result.NotTerminal? ==> PcOf(server.s, e).Stranded?
      ensures calm ==>
                var k, job := KeyOf(old(server.s), e), old(server.s).fleet.checkouts[e].payload.job;
                && old(server.s.log) <= server.s.log && !result.WorkerDied?
                && var added := server.s.log[|old(server.s.log)|..];
                if k == "" then result.NotTerminal? && added == []
                else if k in old(server.s).keys.claims then result.Finished? && added == []
                else if Named(job) then
                  result.Finished? && AllBy(added, e) && Announces(EventsIn(added), job, report, stamp, ms)
                else result.NotTerminal? && added == []
      ensures calm && KeyOf(old(server.s), e) != "" ==> KeyOf(old(server.s), e) in server.s.keys.claims
      ensures calm && KeyOf(old(server.s), e) != "" && KeyOf(old(server.s), e) !in old(server.s).keys.claims ==>
                KeyOf(old(server.s), e) in server.s.keys.published
    {
      if calm { ClaimGives(server.s, e, Ok); }
      var alive := Claim(calm, e);
      if !alive {
        return WorkerDied;
      }
      if PcOf(server.s, e).Stranded? {
        return NotTerminal;
      }
      if PcOf(server.s, e).Removing? {
        DuplicateIsSilent(server.trace, e);
        return Finished;
      }
      result := RunAndPublish(calm, e, report, stamp, ms);
    }

    /** The tool runs; what came of it decides what is to be told. */
    method RunTool(calm: bool, e: ExecId, job: Job, report: RunReport, stamp: string, ms: nat) returns (alive: bool)
      requires server.Valid() && Active(server.s, e) && PcOf(server.s, e).Running?
               && server.s.fleet.checkouts[e].payload.Wire? && server.s.fleet.checkouts[e].payload.job == job
      modifies server
      ensures server.Valid() && old(server.trace) <= server.trace
      ensures alive <==> Active(server.s, e)
      ensures alive ==>
                && PcOf(server.s, e) == Publishing(0, false)
                && server.s.fleet.checkouts[e].payload == old(server.s).fleet.checkouts[e].payload
                && e in server.s.fleet.plans
                && server.s.fleet.plans[e] == PlanOf(job, OutcomeOf(job, report), stamp, ms)
      ensures calm ==> alive && server.s.log == old(server.s).log && server.s.keys == old(server.s).keys
    {
      alive := Wait(calm, e);
      if alive {
        DecideGives(server.s, e, OutcomeOf(job, report), stamp, ms);
        server.Do(Decide(e, OutcomeOf(job, report), stamp, ms));
      }
    }

    /** The claim is ours: run the tool, decide what to tell, and publish it. */
    method RunAndPublish(calm: bool, e: ExecId, report: RunReport, stamp: string, ms: nat) returns (result: Processed)
      requires server.Valid() && Active(server.s, e) && PcOf(server.s, e).Running?
               && server.s.fleet.checkouts[e].payload.Wire?
      modifies server
      ensures server.Valid() && old(server.trace) <= server.trace
      ensures result.WorkerDied? <==> !Active(server.s, e)
      ensures result.Finished? ==> PcOf(server.s, e) == Removing(Settled)
      ensures result.NotTerminal? ==> PcOf(server.s, e).Stranded?
      ensures !result.WorkerDied? ==>
                var plan := PlanFor(server.s, e);
                && Announces(plan, old(server.s).fleet.checkouts[e].payload.job, report, stamp, ms)
                && LogOf(server.s.log, e) <= plan && (result.Finished? ==> LogOf(server.s.log, e) == plan)
      ensures calm ==>
                var job := old(server.s).fleet.checkouts[e].payload.job;
                && old(server.s.log) <= server.s.log
                && server.s.keys.claims == old(server.s).keys.claims && job.key in server.s.keys.published
                && var added := server.s.log[|old(server.s.log)|..];
                if Named(job) then
                  result.Finished? && AllBy(added, e) && Announces(EventsIn(added), job, report, stamp, ms)
                else result.NotTerminal? && added == []
    {
      var job := server.s.fleet.checkouts[e].payload.job;
      var alive := RunTool(calm, e, job, report, stamp, ms);
      if !alive {
        return WorkerDied;
      }
      ghost var log0 := server.s.log;
      result := PublishAll(calm, e);
      PlanAnnounces(job, report, stamp, ms);
      LogIsPrefix(server.trace, e);
      if calm { PlanIsTold(e, job, report, stamp, ms, log0, server.s.log); }
    }

    /** The worker's closing step: acknowledge unless the job reported nothing. Its own steps are one LREM, or none
        when the job reported nothing or the worker died first. */
    method Finish(calm: bool, e: ExecId, result: Processed) returns (sent: bool, reply: Reply)
      requires server.Valid() && !result.WorkerDied? && Active(server.s, e)
      requires if result.Finished? then PcOf(server.s, e).Removing? else PcOf(server.s, e).Stranded?
      modifies server
      ensures server.Valid() && old(server.trace) <= server.trace
      ensures result.NotTerminal? ==> !sent && server.trace == old(server.trace)
      ensures OwnSteps(server.trace, |old(server.trace)|, Exec(e)) == if sent then [Remove(e, reply)] else []
      ensures result.Finished? && !sent ==> !Active(server.s, e)
      ensures sent ==> (e in server.s.fleet.checkouts <==> reply.Error?)
      ensures calm && result.Finished? ==> sent && reply.Ok? && server.trace == old(server.trace) + [Remove(e, Ok)]
    {
      sent, reply := false, Error;
      if result.NotTerminal? {
        return;
      }
      sent := Wait(calm, e);
      OwnStepsKept(old(server.trace), server.trace, |old(server.trace)|, Exec(e));
      if !sent {
        return;
      }
      reply := server.Answer(calm);
      server.Do(Remove(e, reply));
    }
  }
}
