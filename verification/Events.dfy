/** Completion events, their validation, and the splitting of findings over several events. */
module Events {

  const MAX_FINDINGS_PER_EVENT: nat := 1000

  datatype EventType = JobCompleted | PartialFindings | OtherEvent(name: string)

  datatype EventSeq = EventSeq(index: int, total: int) {
    predicate IsTerminal() { index == total }

    predicate WellFormed() { 1 <= index <= total }
  }

  datatype Finding = Finding(scanId: string, orgId: string, body: string)

  /** The decoded queue payload, reduced to the fields a completion event copies. */
  datatype Job = Job(id: string, scanId: string, orgId: string, engine: string, key: string)

  datatype CompletedEvent = CompletedEvent(
    eventType: EventType,
    jobId: string,
    scanId: string,
    orgId: string,
    engine: string,
    status: string,
    findingCount: int,
    durationMs: int,
    key: string,
    timestamp: string,
    findings: seq<Finding>,
    eventSeq: EventSeq,
    error: string)

  datatype Verdict =
    | Valid
    | BadEventType | NoJobId | NoScanId | NoEngine
    | IndexTooSmall | TotalTooSmall | IndexPastTotal
    | TooManyFindings | NotPartial

  function ValidateSeq(q: EventSeq): (v: Verdict)
    ensures v.Valid? <==> q.WellFormed()
  {
    if q.index < 1 then IndexTooSmall
    else if q.total < 1 then TotalTooSmall
    else if q.index > q.total then IndexPastTotal
    else Valid
  }

  /** The first check that fails decides; the order is the order of the checks in the source. */
  function Validate(e: CompletedEvent): (v: Verdict)
    ensures v.Valid? <==>
              && e.jobId != "" && e.scanId != "" && e.engine != ""
              && e.eventSeq.WellFormed() && |e.findings| <= MAX_FINDINGS_PER_EVENT
              && (e.eventType.PartialFindings? || (e.eventType.JobCompleted? && e.eventSeq.IsTerminal()))
  {
    if !e.eventType.JobCompleted? && !e.eventType.PartialFindings? then BadEventType
    else if e.jobId == "" then NoJobId
    else if e.scanId == "" then NoScanId
    else if e.engine == "" then NoEngine
    else if !ValidateSeq(e.eventSeq).Valid? then ValidateSeq(e.eventSeq)
    else if |e.findings| > MAX_FINDINGS_PER_EVENT then TooManyFindings
    else if !e.eventSeq.IsTerminal() && !e.eventType.PartialFindings? then NotPartial
    else Valid
  }

  /** Completion and partial events are the only types there are to publish. */
  predicate CompletionType(e: CompletedEvent) { e.eventType.JobCompleted? || e.eventType.PartialFindings? }

  /** A refusal names a defect the event has, and everything that is checked earlier is in order. */
  lemma VerdictNames(e: CompletedEvent)
    ensures var q := e.eventSeq;
            match Validate(e)
            case Valid => CompletionType(e) && q.WellFormed()
            case BadEventType => !CompletionType(e)
            case NoJobId => CompletionType(e) && e.jobId == ""
            case NoScanId => CompletionType(e) && e.jobId != "" && e.scanId == ""
            case NoEngine => CompletionType(e) && e.jobId != "" && e.scanId != "" && e.engine == ""
            case IndexTooSmall => CompletionType(e) && e.engine != "" && q.index < 1
            case TotalTooSmall => CompletionType(e) && e.engine != "" && q.index >= 1 && q.total < 1
            case IndexPastTotal => CompletionType(e) && e.engine != "" && q.index > q.total >= 1
            case TooManyFindings => CompletionType(e) && q.WellFormed() && |e.findings| > 1000
            case NotPartial => e.eventType.JobCompleted? && q.index < q.total && |e.findings| <= 1000
  {
  }

  // ---------------------------------------------------------------------
  // Splitting
  // ---------------------------------------------------------------------

  function EventCount(n: nat): (c: nat)
    ensures c >= 1
    ensures n <= c * MAX_FINDINGS_PER_EVENT
    ensures c > 1 ==> (c - 1) * MAX_FINDINGS_PER_EVENT < n
  {
    if n <= MAX_FINDINGS_PER_EVENT then 1
    else (n + MAX_FINDINGS_PER_EVENT - 1) / MAX_FINDINGS_PER_EVENT
  }

  function Min(a: int, b: int): int { if a <= b then a else b }

  /** The i-th of `total` events (0-based), written without reference to the loop that builds them. */
  function Part(findings: seq<Finding>, base: CompletedEvent, i: nat, total: nat): CompletedEvent
    requires i < total && i * MAX_FINDINGS_PER_EVENT <= |findings|
  {
    var lo := i * MAX_FINDINGS_PER_EVENT;
    var hi := Min(lo + MAX_FINDINGS_PER_EVENT, |findings|);
    var e := base.(findings := findings[lo..hi], eventSeq := EventSeq(i + 1, total));
    if i + 1 < total
    then e.(eventType := PartialFindings, status := "partial_findings", findingCount := 0, durationMs := 0)
    else e
  }

  function Split(findings: seq<Finding>, base: CompletedEvent): (out: seq<CompletedEvent>)
    ensures |out| == EventCount(|findings|)
  {
    var total := EventCount(|findings|);
    seq(total, i requires 0 <= i < total => Part(findings, base, i, total))
  }

  /** The splitter as the source runs it: one event below the cap, otherwise a loop over the batches. */
  method SplitForCompletion(findings: seq<Finding>, base: CompletedEvent) returns (out: seq<CompletedEvent>)
    ensures out == Split(findings, base)
  {
    if |findings| <= MAX_FINDINGS_PER_EVENT {
      var ev := base.(findings := findings, eventSeq := EventSeq(1, 1));
      assert findings[0..|findings|] == findings;
      return [ev];
    }
    var total := (|findings| + MAX_FINDINGS_PER_EVENT - 1) / MAX_FINDINGS_PER_EVENT;
    out := [];
    var i := 0;
    while i < total
      invariant 0 <= i <= total == EventCount(|findings|)
      invariant out == Split(findings, base)[..i]
    {
      var start := i * MAX_FINDINGS_PER_EVENT;
      var end := start + MAX_FINDINGS_PER_EVENT;
      if end > |findings| {
        end := |findings|;
      }
      var ev := base.(findings := findings[start..end], eventSeq := EventSeq(i + 1, total));
      if i < total - 1 {
        ev := ev.(eventType := PartialFindings, status := "partial_findings", findingCount := 0, durationMs := 0);
      }
      assert ev == Split(findings, base)[i];
      out := out + [ev];
      i := i + 1;
    }
  }

  /** All findings carried by a sequence of events, in order. */
  function AllFindings(events: seq<CompletedEvent>): seq<Finding> {
    if events == [] then [] else AllFindings(events[..|events| - 1]) + events[|events| - 1].findings
  }

  lemma {:induction false} PrefixCarries(findings: seq<Finding>, base: CompletedEvent, k: nat)
    requires k <= |Split(findings, base)|
    ensures AllFindings(Split(findings, base)[..k]) == findings[..Min(k * MAX_FINDINGS_PER_EVENT, |findings|)]
  {
    if k > 0 {
      var all := Split(findings, base);
      PrefixCarries(findings, base, k - 1);
      assert all[..k][..k - 1] == all[..k - 1];
      var lo := (k - 1) * MAX_FINDINGS_PER_EVENT;
      var hi := Min(lo + MAX_FINDINGS_PER_EVENT, |findings|);
      assert all[k - 1].findings == findings[lo..hi];
      assert findings[..lo] + findings[lo..hi] == findings[..hi];
    }
  }

  /** Nothing is lost, duplicated or reordered by the split. */
  lemma SplitPartitions(findings: seq<Finding>, base: CompletedEvent)
    ensures AllFindings(Split(findings, base)) == findings
    ensures forall i :: 0 <= i < |Split(findings, base)| ==>
              |Split(findings, base)[i].findings| <= MAX_FINDINGS_PER_EVENT
    ensures forall i :: 0 <= i < |Split(findings, base)| - 1 ==>
              |Split(findings, base)[i].findings| == MAX_FINDINGS_PER_EVENT
  {
    var all := Split(findings, base);
    PrefixCarries(findings, base, |all|);
    assert all[..|all|] == all;
    assert findings[..|findings|] == findings;
  }

  /** Exactly the last event is terminal, and it alone keeps the totals of the base. The others differ from the base in
      type, status, totals, findings and position, and in nothing else. */
  lemma SplitTerminal(findings: seq<Finding>, base: CompletedEvent)
    ensures forall i :: 0 <= i < |Split(findings, base)| ==>
              var e := Split(findings, base)[i];
              && e.eventSeq == EventSeq(i + 1, |Split(findings, base)|)
              && (e.eventSeq.IsTerminal() <==> i == |Split(findings, base)| - 1)
              && (e.eventSeq.IsTerminal() ==>
                    e == base.(findings := e.findings, eventSeq := e.eventSeq))
              && (!e.eventSeq.IsTerminal() ==>
                    e == base.(eventType := PartialFindings, status := "partial_findings", findingCount := 0,
                               durationMs := 0, findings := e.findings, eventSeq := e.eventSeq))
  {
  }

  /** Every event of a split passes validation exactly when the base names a job, a scan and an engine
      and has one of the two completion types. */
  lemma SplitValid(findings: seq<Finding>, base: CompletedEvent)
    ensures (forall i :: 0 <= i < |Split(findings, base)| ==> Validate(Split(findings, base)[i]).Valid?)
       <==> (base.eventType.JobCompleted? || base.eventType.PartialFindings?)
            && base.jobId != "" && base.scanId != "" && base.engine != ""
  {
    var all := Split(findings, base);
    SplitPartitions(findings, base);
    SplitTerminal(findings, base);
    var last := all[|all| - 1];
    assert last.eventSeq.IsTerminal();
  }

  // ---------------------------------------------------------------------
  // What one execution of a job sets out to publish
  // ---------------------------------------------------------------------

  datatype Outcome =
    | Completed(findings: seq<Finding>)
    | ReconCompleted
    | Failed(message: string)
    | Canceled

  function Enrich(findings: seq<Finding>, job: Job): (r: seq<Finding>)
    ensures |r| == |findings|
    ensures forall i :: 0 <= i < |r| ==> r[i] == Finding(job.scanId, job.orgId, findings[i].body)
  {
    seq(|findings|, i requires 0 <= i < |findings| => findings[i].(scanId := job.scanId, orgId := job.orgId))
  }

  function BaseEvent(job: Job, status: string, count: nat, message: string, stamp: string, ms: nat): CompletedEvent {
    CompletedEvent(JobCompleted, job.id, job.scanId, job.orgId, job.engine, status, count, ms, job.key, stamp,
                   [], EventSeq(1, 1), message)
  }

  function PlanOf(job: Job, outcome: Outcome, stamp: string, ms: nat): (plan: seq<CompletedEvent>)
    ensures |plan| >= 1
  {
    match outcome
    case Completed(findings) =>
      Split(Enrich(findings, job), BaseEvent(job, "completed", |findings|, "", stamp, ms))
    case ReconCompleted => [BaseEvent(job, "completed", 0, "", stamp, ms)]
    case Failed(message) => [BaseEvent(job, "failed", 0, message, stamp, ms)]
    case Canceled => [BaseEvent(job, "canceled", 0, "", stamp, ms)]
  }

  /** The publisher sends only events that pass validation. */
  predicate Sendable(e: CompletedEvent) { Validate(e).Valid? }

  /** The fields a completion event must not be empty in; a payload may decode without them. */
  predicate Named(job: Job) { job.id != "" && job.scanId != "" && job.engine != "" }

  function FailureEvent(job: Job, message: string, stamp: string): CompletedEvent {
    BaseEvent(job, "failed", 0, message, stamp, 0)
  }

  lemma FailureSendable(job: Job, message: string, stamp: string)
    ensures Sendable(FailureEvent(job, message, stamp)) <==> Named(job)
  {
  }

  /** All of a plan can be sent, or none of it. */
  lemma PlanSendable(job: Job, outcome: Outcome, stamp: string, ms: nat)
    ensures forall i :: 0 <= i < |PlanOf(job, outcome, stamp, ms)| ==>
              (Sendable(PlanOf(job, outcome, stamp, ms)[i]) <==> Named(job))
  {
    if outcome.Completed? {
      var base := BaseEvent(job, "completed", |outcome.findings|, "", stamp, ms);
      SplitValid(Enrich(outcome.findings, job), base);
      SplitTerminal(Enrich(outcome.findings, job), base);
    }
  }

  /** How many events at the front of a plan the publisher would send. */
  function SendableUpTo(plan: seq<CompletedEvent>): (n: nat)
    ensures n <= |plan|
    ensures forall i :: 0 <= i < n ==> Sendable(plan[i])
    ensures n < |plan| ==> !Sendable(plan[n])
  {
    if plan == [] || !Sendable(plan[0]) then 0 else 1 + SendableUpTo(plan[1..])
  }

  lemma PlanSendableUpTo(job: Job, outcome: Outcome, stamp: string, ms: nat)
    ensures var plan := PlanOf(job, outcome, stamp, ms); SendableUpTo(plan) == if Named(job) then |plan| else 0
  {
    PlanSendable(job, outcome, stamp, ms);
    var plan := PlanOf(job, outcome, stamp, ms);
    assert SendableUpTo(plan) > 0 ==> Sendable(plan[0]);
  }

  /** A plan ends with its only terminal event, and every event of it carries the job's key. */
  ghost predicate IsPlan(plan: seq<CompletedEvent>, key: string) {
    && |plan| >= 1
    && (forall i :: 0 <= i < |plan| ==> (plan[i].eventSeq.IsTerminal() <==> i == |plan| - 1))
    && (forall i :: 0 <= i < |plan| ==> plan[i].key == key)
  }

  lemma PlanOfIsPlan(job: Job, outcome: Outcome, stamp: string, ms: nat)
    ensures IsPlan(PlanOf(job, outcome, stamp, ms), job.key)
  {
    if outcome.Completed? {
      SplitTerminal(Enrich(outcome.findings, job),
                    BaseEvent(job, "completed", |outcome.findings|, "", stamp, ms));
    }
  }

  /** The whole plan of a successful run carries all its findings. */
  lemma PlanCarriesAll(job: Job, outcome: Outcome, stamp: string, ms: nat)
    requires outcome.Completed?
    ensures AllFindings(PlanOf(job, outcome, stamp, ms)) == Enrich(outcome.findings, job)
  {
    SplitPartitions(Enrich(outcome.findings, job),
                    BaseEvent(job, "completed", |outcome.findings|, "", stamp, ms));
  }

  /** The event is about this job. */
  predicate About(e: CompletedEvent, job: Job, stamp: string) {
    && e.jobId == job.id && e.scanId == job.scanId && e.orgId == job.orgId && e.engine == job.engine
    && e.key == job.key && e.timestamp == stamp
  }

  /** The last event of a sequence, and how it says the job ended. */
  predicate Ends(e: CompletedEvent, status: string, count: nat, message: string, ms: nat) {
    && e.eventType.JobCompleted? && e.status == status && e.findingCount == count && e.error == message
    && e.durationMs == ms
  }

  /** All but the last are numbered, full, and say nothing about how the job ended. */
  predicate PartialsOk(plan: seq<CompletedEvent>) {
    && (forall i :: 0 <= i < |plan| ==> plan[i].eventSeq == EventSeq(i + 1, |plan|))
    && (forall i :: 0 <= i < |plan| - 1 ==>
          && plan[i].eventType.PartialFindings? && plan[i].status == "partial_findings"
          && plan[i].findingCount == 0 && plan[i].durationMs == 0 && plan[i].error == ""
          && |plan[i].findings| == 1000)
  }

  /** Field by field, what each event of a plan says. */
  lemma PlanFields(job: Job, outcome: Outcome, stamp: string, ms: nat)
    ensures var plan := PlanOf(job, outcome, stamp, ms);
            && (forall i :: 0 <= i < |plan| ==> About(plan[i], job, stamp)) && PartialsOk(plan)
            && (forall i :: 0 <= i < |plan| ==> |plan[i].findings| <= 1000)
            && var last := plan[|plan| - 1];
               match outcome
               case Completed(findings) => Ends(last, "completed", |findings|, "", ms)
               case ReconCompleted => plan == [last] && last.findings == [] && Ends(last, "completed", 0, "", ms)
               case Failed(message) => plan == [last] && last.findings == [] && Ends(last, "failed", 0, message, ms)
               case Canceled => plan == [last] && last.findings == [] && Ends(last, "canceled", 0, "", ms)
  {
    if outcome.Completed? {
      var base := BaseEvent(job, "completed", |outcome.findings|, "", stamp, ms);
      SplitPartitions(Enrich(outcome.findings, job), base);
      SplitTerminal(Enrich(outcome.findings, job), base);
    }
  }

  // ---------------------------------------------------------------------
  // Which outcome a finished run has
  // ---------------------------------------------------------------------

  datatype CtxState = Live | CtxCanceled | DeadlineExceeded

  /** What the runner returned. */
  datatype RunResult = Clean(findings: seq<Finding>) | RunError(message: string)

  function Discriminate(run: RunResult, jobCtx: CtxState, ctx: CtxState): (o: Outcome)
    ensures o.Completed? <==> run.Clean?
    ensures o.Completed? ==> o.findings == run.findings
    ensures o.Canceled? <==> run.RunError? && jobCtx.CtxCanceled? && !ctx.CtxCanceled?
    ensures o.Failed? ==> o.message == (if jobCtx.DeadlineExceeded? then "job timed out: " else "") + run.message
    ensures !o.ReconCompleted?
  {
    match run
    case Clean(findings) => Completed(findings)
    case RunError(message) =>
      if jobCtx.CtxCanceled? && !ctx.CtxCanceled? then Canceled
      else if jobCtx.DeadlineExceeded? then Failed("job timed out: " + message)
      else Failed(message)
  }

  /** The recon branch tests for cancellation before it looks at the result. */
  function DiscriminateRecon(wired: bool, run: RunResult, jobCtx: CtxState, ctx: CtxState): (o: Outcome)
    ensures o.Canceled? <==> wired && jobCtx.CtxCanceled? && !ctx.CtxCanceled?
    ensures o.ReconCompleted? <==> wired && run.Clean? && !(jobCtx.CtxCanceled? && !ctx.CtxCanceled?)
    ensures o.Failed? && wired ==> run.RunError? && o.message == run.message
    ensures !o.Completed?
  {
    if !wired then Failed("recon dispatch requires recon publishers; none wired")
    else if jobCtx.CtxCanceled? && !ctx.CtxCanceled? then Canceled
    else match run
      case RunError(message) => Failed(message)
      case Clean(_) => ReconCompleted
  }
}
