/** The sweep's own code: draining one dead worker's list and deciding retry or failure for each job. */
module Reclaimer {
  import opened Protocol
  import opened Frames
  import opened Events
  import opened ProcessingLists
  import opened Server

  /** A job is retried when its count is still within budget and nothing was published for it. */
  predicate Retriable(s: State, k: string) {
    k != "" && Reclaims(s, k) < MAX_RECLAIMS && k !in s.keys.published
  }

  /** What a drain of `xs` puts back, in the order it is pushed: oldest first, one payload per key. */
  function Retried(s: State, handled: set<string>, xs: seq<Payload>): seq<Payload>
    decreases |xs|
  {
    if xs == [] then []
    else
      var x := Last(xs);
      if x.Garbage? || x.job.key in handled then Retried(s, handled, Front(xs))
      else (if Retriable(s, x.job.key) then [x] else []) + Retried(s, handled + {x.job.key}, Front(xs))
  }

  /** The jobs a drain of `xs` reports failed, in order: those that are not retried and can be reported at all. */
  function Refused(s: State, handled: set<string>, xs: seq<Payload>): seq<Job>
    decreases |xs|
  {
    if xs == [] then []
    else
      var x := Last(xs);
      if x.Garbage? || x.job.key in handled then Refused(s, handled, Front(xs))
      else (if Retriable(s, x.job.key) || !Named(x.job) then [] else [x.job])
           + Refused(s, handled + {x.job.key}, Front(xs))
  }

  /** How many entries are dropped: undecodable ones and further copies of a key. */
  function Discards(handled: set<string>, xs: seq<Payload>): nat
    decreases |xs|
  {
    if xs == [] then 0
    else
      var x := Last(xs);
      if x.Garbage? || x.job.key in handled then 1 + Discards(handled, Front(xs))
      else Discards(handled + {x.job.key}, Front(xs))
  }

  /** How many jobs are neither retried nor reported, because their report does not pass validation. */
  function Silent(s: State, handled: set<string>, xs: seq<Payload>): nat
    decreases |xs|
  {
    if xs == [] then 0
    else
      var x := Last(xs);
      if x.Garbage? || x.job.key in handled then Silent(s, handled, Front(xs))
      else (if Retriable(s, x.job.key) || Named(x.job) then 0 else 1) + Silent(s, handled + {x.job.key}, Front(xs))
  }

  /** Every entry is retried, reported, dropped or, when its job lacks an id, a scan or an engine, lost in silence. */
  lemma {:induction false} EveryEntryCounted(s: State, handled: set<string>, xs: seq<Payload>)
    ensures |Retried(s, handled, xs)| + |Refused(s, handled, xs)| + Discards(handled, xs) + Silent(s, handled, xs)
         == |xs|
    ensures (forall x :: x in xs && x.Wire? ==> Named(x.job)) ==> Silent(s, handled, xs) == 0
    decreases |xs|
  {
    if xs != [] {
      var x := Last(xs);
      assert x in xs && forall y :: y in Front(xs) ==> y in xs;
      EveryEntryCounted(s, if x.Garbage? || x.job.key in handled then handled else handled + {x.job.key}, Front(xs));
    }
  }

  /** The keys of the decodable payloads. */
  function KeysOf(xs: seq<Payload>): set<string>
    decreases |xs|
  {
    if xs == [] then {} else KeysOf(Front(xs)) + (if Last(xs).Wire? then {Last(xs).job.key} else {})
  }

  /** The log has grown by one terminal failed event per job, in this order. */
  predicate Reports(before: seq<Entry>, after: seq<Entry>, jobs: seq<Job>) {
    && before <= after && |after| == |before| + |jobs|
    && forall i :: 0 <= i < |jobs| ==> IsFailureFor(after[|before| + i], jobs[i])
  }

  ghost predicate OnlyQueue(s0: State, s: State, r: SweepId, p: Priority) {
    forall l :: l != Queue(p) && l != InHand(r) ==> At(s, l) == At(s0, l)
  }

  /** The sweep is where it was, with the same payload in hand, possibly at another stage. */
  predicate StillHolding(s0: State, s: State, r: SweepId) {
    && Holds(s0, r) && Holds(s, r) && Held(s, r) == Held(s0, r)
    && s.sweeps[r].hand.priority == s0.sweeps[r].hand.priority
    && s.sweeps[r].targets == s0.sweeps[r].targets && s.sweeps[r].handled == s0.sweeps[r].handled
  }

  /** The sweep has let go of what it held. */
  predicate LetGo(s0: State, s: State, r: SweepId) {
    && Holds(s0, r) && Idle(s, r) && At(s, InHand(r)) == []
    && s.sweeps[r].targets == s0.sweeps[r].targets && s.sweeps[r].handled == s0.sweeps[r].handled
  }

  lemma IncrementHolds(s: State, r: SweepId, reply: Reply)
    requires Enabled(s, Increment(r, reply))
    ensures var t := DoIncrement(s, r, reply);
            && StillHolding(s, t, r) && t.store == s.store && t.keys.published == s.keys.published && t.log == s.log
            && StageOf(t, r) == (if reply.Ok? then Checking(Reclaims(s, HeldKey(s, r)) + 1) else Failing)
            && (forall k :: k != HeldKey(s, r) ==> Reclaims(t, k) == Reclaims(s, k))
  {
  }

  lemma CheckHolds(s: State, r: SweepId, reply: Reply)
    requires Enabled(s, Check(r, reply))
    ensures var t := DoCheck(s, r, reply);
            && StillHolding(s, t, r) && t.store == s.store && t.keys == s.keys && t.log == s.log
            && StageOf(t, r) == (if reply.Ok? && HeldKey(s, r) !in s.keys.published && StageOf(s, r).n <= MAX_RECLAIMS
                                 then Releasing(StageOf(s, r).n) else Failing)
  {
  }

  lemma ReleaseHolds(s: State, r: SweepId, reply: Reply)
    requires Enabled(s, Release(r, reply))
    ensures var t := DoRelease(s, r, reply);
            && StillHolding(s, t, r) && t.store == s.store && t.log == s.log
            && t.keys.published == s.keys.published && t.keys.reclaims == s.keys.reclaims
            && (!reply.Error? && HeldKey(s, r) != "" ==> HeldKey(s, r) !in t.keys.claims)
            && (if reply.Ok? && HeldKey(s, r) != "" then StageOf(t, r).Pushing? else StageOf(t, r).Failing?)
  {
  }

  lemma PushLetsGo(s: State, r: SweepId, reply: Reply)
    requires Enabled(s, Push(r, reply))
    ensures var t := DoPush(s, r, reply);
            var q := Queue(s.sweeps[r].hand.priority);
            && LetGo(s, t, r) && OnlyQueue(s, t, r, q.priority) && t.keys == s.keys && t.log == s.log
            && At(t, q) == At(s, q) + (if reply.Error? then [] else [Held(s, r)])
  {
  }

  lemma ReportLetsGo(s: State, r: SweepId, reply: Reply, message: string, stamp: string)
    requires Enabled(s, Report(r, reply, message, stamp))
    ensures var t := DoReport(s, r, reply, message, stamp);
            && LetGo(s, t, r) && t.keys == s.keys
            && (forall l :: l != InHand(r) ==> At(t, l) == At(s, l))
            && Reports(s.log, t.log, if reply.Error? then [] else [Held(s, r).job])
            && (!reply.Error? ==>
                  && t.log != [] && IsFailureFor(Last(t.log), Held(s, r).job)
                  && Last(t.log).event.error == message && Last(t.log).event.timestamp == stamp)
  {
  }

  /** What is reported about a job that is not retried. */
  function Notice(job: Job): seq<Job> { if Named(job) then [job] else [] }

  /** A single terminal event by which a sweep says that this job has failed. */
  predicate IsFailureFor(entry: Entry, job: Job) {
    && entry.author.BySweep? && About(entry.event, job, entry.event.timestamp)
    && Ends(entry.event, "failed", 0, entry.event.error, 0)
    && entry.event.findings == [] && entry.event.eventSeq == EventSeq(1, 1)
  }

  class Reclaim {
    const server: RedisServer
    const r: SweepId
    var requeued: nat
    var failed: nat
    var dropped: nat

    constructor (server: RedisServer, r: SweepId)
      ensures this.server == server && this.r == r && requeued == failed == dropped == 0
    {
      this.server, this.r := server, r;
      requeued, failed, dropped := 0, 0, 0;
    }

    /** Let others act; what this sweep holds stays as it is. */
    method Wait(calm: bool)
      requires server.Valid()
      modifies server
      ensures server.Valid() && old(server.trace) <= server.trace
              && NoneBy(server.trace, |old(server.trace)|, Sweeper(r))
      ensures SameHand(old(server.s), server.s, r)
      ensures calm ==> server.trace == old(server.trace) && server.s == old(server.s)
    {
      server.Others(calm, Sweeper(r));
      assert server.trace[..|old(server.trace)|] == old(server.trace);
      HandKept(server.trace, |old(server.trace)|, r);
    }

    /** INCR; on any error the job is going to be failed. */
    method BumpReclaimCount(calm: bool) returns (reply: Reply)
      requires server.Valid() && Holds(server.s, r) && StageOf(server.s, r).Counting?
      modifies server
      ensures server.Valid() && old(server.trace) <= server.trace
      ensures StillHolding(old(server.s), server.s, r)
      ensures StageOf(server.s, r) == if reply.Ok? then Checking(Reclaims(server.s, HeldKey(server.s, r))) else Failing
      ensures calm ==> reply.Ok? && server.s == DoIncrement(old(server.s), r, Ok)
    {
      Wait(calm);
      reply := server.Answer(calm);
      IncrementHolds(server.s, r, reply);
      server.Do(Increment(r, reply));
    }

    /** EXISTS on the publish marker, and the decision that hangs on it. */
    method HasPublished(calm: bool) returns (reply: Reply)
      requires server.Valid() && Holds(server.s, r) && StageOf(server.s, r).Checking?
      modifies server
      ensures server.Valid() && old(server.trace) <= server.trace
      ensures StillHolding(old(server.s), server.s, r)
      ensures var n := StageOf(old(server.s), r).n;
              StageOf(server.s, r)
              == if reply.Ok? && HeldKey(server.s, r) !in server.s.keys.published && n <= MAX_RECLAIMS
                 then Releasing(n) else Failing
      ensures calm ==> reply.Ok? && server.s == DoCheck(old(server.s), r, Ok)
    {
      Wait(calm);
      reply := server.Answer(calm);
      CheckHolds(server.s, r, reply);
      server.Do(Check(r, reply));
    }

    /** DEL of the idempotency claim. */
    method ReleaseClaim(calm: bool) returns (reply: Reply)
      requires server.Valid() && Holds(server.s, r) && StageOf(server.s, r).Releasing?
      modifies server
      ensures server.Valid() && old(server.trace) <= server.trace
      ensures StillHolding(old(server.s), server.s, r)
      ensures if reply.Ok? && HeldKey(server.s, r) != ""
              then StageOf(server.s, r).Pushing? && HeldKey(server.s, r) !in server.s.keys.claims
              else StageOf(server.s, r).Failing?
      ensures calm ==> reply.Ok? && server.s == DoRelease(old(server.s), r, Ok)
    {
      Wait(calm);
      reply := server.Answer(calm);
      ReleaseHolds(server.s, r, reply);
      server.Do(Release(r, reply));
    }

    /** RPUSH onto the queue the job came from. */
    method PushBack(calm: bool) returns (reply: Reply)
      requires server.Valid() && Holds(server.s, r) && StageOf(server.s, r).Pushing?
      modifies server, `requeued
      ensures server.Valid() && old(server.trace) <= server.trace
      ensures LetGo(old(server.s), server.s, r)
      ensures requeued == old(requeued) + if reply.Ok? then 1 else 0
      ensures !reply.Error? ==> Held(old(server.s), r) in At(server.s, Queue(old(server.s).sweeps[r].hand.priority))
      ensures calm ==> reply.Ok? && server.s == DoPush(old(server.s), r, Ok)
    {
      Wait(calm);
      reply := server.Answer(calm);
      PushLetsGo(server.s, r, reply);
      server.Do(Push(r, reply));
      if reply.Ok? {
        requeued := requeued + 1;
      }
    }

    /** The job is given up on: the synthetic failure event, counted when it is known to be out. */
    method Fail(calm: bool) returns (reply: Reply)
      requires server.Valid() && Holds(server.s, r) && StageOf(server.s, r).Failing?
      modifies server, `failed
      ensures server.Valid() && old(server.trace) <= server.trace
      ensures LetGo(old(server.s), server.s, r)
      ensures failed == old(failed) + if reply.Ok? then 1 else 0
      ensures !reply.Error? ==> server.s.log != [] && IsFailureFor(Last(server.s.log), Held(old(server.s), r).job)
      ensures calm ==>
                && reply == (if Named(Held(old(server.s), r).job) then Ok else Error)
                && server.s.keys == old(server.s).keys
                && (forall l :: l != InHand(r) ==> At(server.s, l) == At(old(server.s), l))
                && Reports(old(server.s).log, server.s.log, Notice(Held(old(server.s), r).job))
    {
      Wait(calm);
      reply := TellFailed(calm);
      if reply.Ok? {
        failed := failed + 1;
      }
    }

    /** PUBLISH of the failure event, which validation refuses for a job without id, scan or engine. */
    method TellFailed(calm: bool) returns (reply: Reply)
      requires server.Valid() && Holds(server.s, r) && StageOf(server.s, r).Failing?
      modifies server
      ensures server.Valid() && old(server.trace) <= server.trace
      ensures LetGo(old(server.s), server.s, r) && server.s.keys == old(server.s).keys
      ensures forall l :: l != InHand(r) ==> At(server.s, l) == At(old(server.s), l)
      ensures Reports(old(server.s).log, server.s.log, if reply.Error? then [] else [Held(old(server.s), r).job])
      ensures !reply.Error? ==> server.s.log != [] && IsFailureFor(Last(server.s.log), Held(old(server.s), r).job)
      ensures calm ==> reply == if Named(Held(old(server.s), r).job) then Ok else Error
    {
      var message: string := *;
      var stamp: string := *;
      var job := Held(server.s, r).job;
      FailureSendable(job, message, stamp);
      reply := server.Publish(calm, FailureEvent(job, message, stamp));
      ReportLetsGo(server.s, r, reply, message, stamp);
      server.Do(Report(r, reply, message, stamp));
    }

    /** Release before push; a claim that cannot be released fails the job instead. */
    method Requeue(calm: bool)
      requires server.Valid() && Holds(server.s, r) && StageOf(server.s, r).Releasing?
      modifies server, `requeued, `failed
      ensures server.Valid() && old(server.trace) <= server.trace
      ensures LetGo(old(server.s), server.s, r)
      ensures requeued + failed <= old(requeued + failed) + 1
      ensures calm ==>
                && requeued == old(requeued) + (if HeldKey(old(server.s), r) != "" then 1 else 0)
                && failed == old(failed) + (if HeldKey(old(server.s), r) != "" then 0
                                            else |Notice(Held(old(server.s), r).job)|)
                && Appended(old(server.s), server.s, r, HeldKey(old(server.s), r) != "")
    {
      if calm { ReleaseHolds(server.s, r, Ok); }
      var released := ReleaseClaim(calm);
      if StageOf(server.s, r).Failing? {
        var told := Fail(calm);
      } else {
        if calm { PushLetsGo(server.s, r, Ok); }
        var pushed := PushBack(calm);
      }
    }

    /** Count, check, then requeue or fail. */
    method ReclaimOne(calm: bool)
      requires server.Valid() && Holds(server.s, r) && StageOf(server.s, r).Counting?
      modifies server, `requeued, `failed
      ensures server.Valid() && old(server.trace) <= server.trace
      ensures LetGo(old(server.s), server.s, r)
      ensures requeued + failed <= old(requeued + failed) + 1
      ensures calm ==>
                && requeued == old(requeued) + (if Retriable(old(server.s), HeldKey(old(server.s), r)) then 1 else 0)
                && failed == old(failed) + (if Retriable(old(server.s), HeldKey(old(server.s), r)) then 0
                                            else |Notice(Held(old(server.s), r).job)|)
                && Appended(old(server.s), server.s, r, Retriable(old(server.s), HeldKey(old(server.s), r)))
    {
      if calm { IncrementHolds(server.s, r, Ok); }
      var counted := BumpReclaimCount(calm);
      if !counted.Ok? {
        var told := Fail(calm);
        return;
      }
      if calm { CheckHolds(server.s, r, Ok); }
      var checked := HasPublished(calm);
      if StageOf(server.s, r).Failing? {
        var told := Fail(calm);
      } else {
        Requeue(calm);
      }
    }

    /** Let others act before the RPOP; the dead worker's list can only get shorter. */
    method WaitForPop(t: ListId, calm: bool)
      requires server.Valid() && Dead(server.s, t.0)
      modifies server
      ensures server.Valid() && old(server.trace) <= server.trace
      ensures SameHand(old(server.s), server.s, r)
      ensures Dead(server.s, t.0) && |At(server.s, Processing(t.0, t.1))| <= |At(old(server.s), Processing(t.0, t.1))|
      ensures calm ==> server.trace == old(server.trace) && server.s == old(server.s)
    {
      Wait(calm);
      assert server.trace[..|old(server.trace)|] == old(server.trace);
      DeadListShrinks(server.trace, |old(server.trace)|, t);
    }

    /** RPOP of the oldest entry, and the two reasons to discard it at once. */
    method PopList(t: ListId, calm: bool) returns (ok: bool)
      requires server.Valid() && Idle(server.s, r) && t in server.s.sweeps[r].targets && Dead(server.s, t.0)
      requires At(server.s, Processing(t.0, t.1)) != []
      modifies server
      ensures server.Valid() && old(server.trace) <= server.trace && Dead(server.s, t.0)
      ensures r in server.s.sweeps && server.s.sweeps[r].Draining?
      ensures server.s.sweeps[r].targets == old(server.s).sweeps[r].targets
      ensures calm ==> ok
      ensures !ok ==> Idle(server.s, r)
                      && |At(server.s, Processing(t.0, t.1))| <= |At(old(server.s), Processing(t.0, t.1))|
      ensures ok ==>
                var x := Last(At(old(server.s), Processing(t.0, t.1)));
                && Popped(old(server.s), server.s, r, t)
                && (if x.Garbage? || x.job.key in old(server.s).sweeps[r].handled
                    then Idle(server.s, r) && server.s.sweeps[r].handled == old(server.s).sweeps[r].handled
                    else Holds(server.s, r) && Held(server.s, r) == x
                         && server.s.sweeps[r].hand == Holding(t.1, Counting)
                         && server.s.sweeps[r].handled == old(server.s).sweeps[r].handled + {x.job.key})
    {
      var reply := server.Answer(calm);
      if reply.Error? {
        return false;
      }
      PopRound(server.s, r, t, reply);
      server.Do(Pop(r, t, reply));
      return reply.Ok?;
    }

    method ReclaimHeld(t: ListId, calm: bool)
      requires server.Valid() && Holds(server.s, r) && StageOf(server.s, r).Counting? && Dead(server.s, t.0)
      modifies server, `requeued, `failed
      ensures server.Valid() && old(server.trace) <= server.trace
      ensures LetGo(old(server.s), server.s, r) && Dead(server.s, t.0)
      ensures |At(server.s, Processing(t.0, t.1))| <= |At(old(server.s), Processing(t.0, t.1))|
      ensures requeued + failed <= old(requeued + failed) + 1
      ensures calm ==>
                && requeued == old(requeued) + (if Retriable(old(server.s), HeldKey(old(server.s), r)) then 1 else 0)
                && failed == old(failed) + (if Retriable(old(server.s), HeldKey(old(server.s), r)) then 0
                                            else |Notice(Held(old(server.s), r).job)|)
                && Appended(old(server.s), server.s, r, Retriable(old(server.s), HeldKey(old(server.s), r)))
    {
      ghost var tr := server.trace;
      ReclaimOne(calm);
      assert server.trace[..|tr|] == tr;
      DeadListShrinks(server.trace, |tr|, t);
    }

    /** One round on a non-empty list: RPOP, then discard or reclaim. `false` means the RPOP failed. */
    method DrainOne(t: ListId, calm: bool) returns (ok: bool)
      requires server.Valid() && Idle(server.s, r) && t in server.s.sweeps[r].targets && Dead(server.s, t.0)
      requires At(server.s, Processing(t.0, t.1)) != []
      modifies server, this
      ensures server.Valid() && old(server.trace) <= server.trace
      ensures Idle(server.s, r) && server.s.sweeps[r].targets == old(server.s).sweeps[r].targets && Dead(server.s, t.0)
      ensures calm ==> ok
      ensures ok ==> |At(server.s, Processing(t.0, t.1))| < |At(old(server.s), Processing(t.0, t.1))|
      ensures |At(server.s, Processing(t.0, t.1))| <= |At(old(server.s), Processing(t.0, t.1))|
      ensures requeued + failed + dropped <= old(requeued + failed + dropped) + (if ok then 1 else 0)
      ensures calm ==>
                && requeued == old(requeued) + |RetryOf(old(server.s), r, t)|
                && failed == old(failed) + |Refusal(old(server.s), r, t)|
                && dropped == old(dropped) + (if Discarded(old(server.s), r, t) then 1 else 0)
                && Round(old(server.s), server.s, r, t)
    {
      ghost var s0 := server.s;
      ok := PopList(t, calm);
      if !ok {
        return;
      }
      if Idle(server.s, r) {
        dropped := dropped + 1;
        DiscardRound(s0, server.s, r, t);
        return;
      }
      ghost var s1 := server.s;
      ReclaimHeld(t, calm);
      if calm {
        ReclaimRound(s0, s1, server.s, r, t);
      }
    }

    /** Empties one dead worker's list, oldest first. It always ends, whatever the others do: nobody adds to the
        list. Left alone, it leaves the list empty and appends exactly the retriable jobs to their queue. */
    method DrainList(t: ListId, calm: bool)
      requires server.Valid() && Idle(server.s, r) && t in server.s.sweeps[r].targets && Dead(server.s, t.0)
      modifies server, this
      ensures server.Valid() && old(server.trace) <= server.trace
      ensures Idle(server.s, r) && server.s.sweeps[r].targets == old(server.s).sweeps[r].targets
      ensures requeued + failed + dropped
           <= old(requeued + failed + dropped) + |At(old(server.s), Processing(t.0, t.1))|
      ensures calm ==>
                && Emptied(old(server.s), server.s, r, t)
                && requeued == old(requeued)
                   + |Retried(old(server.s), old(server.s).sweeps[r].handled, At(old(server.s), Processing(t.0, t.1)))|
                && failed == old(failed)
                   + |Refused(old(server.s), old(server.s).sweeps[r].handled, At(old(server.s), Processing(t.0, t.1)))|
                && dropped == old(dropped)
                   + Discards(old(server.s).sweeps[r].handled, At(old(server.s), Processing(t.0, t.1)))
    {
      var l := Processing(t.0, t.1);
      ghost var s0 := server.s;
      DrainStarts(s0, r, t);
      while true
        invariant server.Valid() && old(server.trace) <= server.trace
        invariant Idle(server.s, r) && server.s.sweeps[r].targets == s0.sweeps[r].targets && Dead(server.s, t.0)
        invariant requeued + failed + dropped + |At(server.s, l)| <= old(requeued + failed + dropped) + |At(s0, l)|
        invariant calm ==>
                    && Drained(s0, server.s, r, t)
                    && dropped + Discards(server.s.sweeps[r].handled, At(server.s, l))
                       == old(dropped) + Discards(s0.sweeps[r].handled, At(s0, l))
                    && requeued + |Retried(s0, server.s.sweeps[r].handled, At(server.s, l))|
                       == old(requeued) + |Retried(s0, s0.sweeps[r].handled, At(s0, l))|
                    && failed + |Refused(s0, server.s.sweeps[r].handled, At(server.s, l))|
                       == old(failed) + |Refused(s0, s0.sweeps[r].handled, At(s0, l))|
        decreases |At(server.s, l)|
      {
        var canceled: bool := *;
        if canceled && !calm {
          return;
        }
        WaitForPop(t, calm);
        if At(server.s, l) == [] {
          if calm { DrainEnds(s0, server.s, r, t); }
          return;
        }
        ghost var s1 := server.s;
        var ok := DrainOne(t, calm);
        if !ok {
          return;
        }
        if calm {
          RoundKeeps(s0, s1, server.s, r, t);
        }
      }
    }

    /** What one SCAN batch finds: those of the named processing lists that are not empty. The liveness assumption is
        taken here: lists outside the snapshot belong to workers that have stopped for good. */
    method ScanBatch(batch: seq<ListId>) returns (found: set<ListId>)
      requires server.Valid() && r in server.s.sweeps && server.s.sweeps[r].Scanning?
      ensures forall t :: t in found <==>
                t in batch && At(server.s, Processing(t.0, t.1)) != []
                && (t.0 in server.s.sweeps[r].live || t.0 !in server.s.fleet.running)
      ensures Enabled(server.s, Scan(r, found)) && DeadWhenScanned(server.s, Scan(r, found))
    {
      found := set t | t in batch && At(server.s, Processing(t.0, t.1)) != []
                       && (t.0 in server.s.sweeps[r].live || t.0 !in server.s.fleet.running);
    }

    /** Appends the lists of one batch that belong to workers outside the snapshot. */
    method Select(keys: seq<ListId>, batch: seq<ListId>, found: set<ListId>, live: set<WorkerId>)
      returns (keys': seq<ListId>)
      requires forall t :: t in found ==> t in batch
      ensures keys <= keys'
      ensures forall t :: t in keys' <==> t in keys || (t in found && t.0 !in live)
    {
      keys' := keys;
      var i := 0;
      while i < |batch|
        invariant 0 <= i <= |batch| && keys <= keys'
        invariant forall t :: t in keys' <==> t in keys || (t in batch[..i] && t in found && t.0 !in live)
      {
        assert batch[..i + 1] == batch[..i] + [batch[i]];
        if batch[i] in found && batch[i].0 !in live {
          keys' := keys' + [batch[i]];
        }
        i := i + 1;
      }
      assert batch[..|batch|] == batch;
    }

    /** The scan: every batch adds the lists of workers outside the snapshot, and a batch that cannot be read ends it.
        Undisturbed it finds every non-empty list of a stopped worker outside the snapshot that the batches name. */
    method OrphanLists(batches: seq<seq<ListId>>, calm: bool) returns (ok: bool, keys: seq<ListId>)
      requires server.Valid() && r in server.s.sweeps && server.s.sweeps[r].Scanning?
               && server.s.sweeps[r].targets == {}
      modifies server
      ensures server.Valid() && old(server.trace) <= server.trace
      ensures r in server.s.sweeps && server.s.sweeps[r] == Scanning(old(server.s).sweeps[r].live, AsSet(keys))
      ensures forall t :: t in keys ==> t.0 !in old(server.s).sweeps[r].live && Started(server.s, t)
      ensures At(server.s, InHand(r)) == At(old(server.s), InHand(r))
      ensures LooksOnly(OwnSteps(server.trace, |old(server.trace)|, Sweeper(r)))
      ensures calm ==> ok && SameBooks(old(server.s), server.s)
      ensures calm ==> forall t :: InScan(batches, |batches|, t) ==>
                (Orphaned(old(server.s), old(server.s).sweeps[r].live, t) ==> t in keys)
    {
      keys := [];
      var i := 0;
      ghost var s0 := server.s;
      while i < |batches|
        invariant 0 <= i <= |batches| && server.Valid() && old(server.trace) <= server.trace
        invariant r in server.s.sweeps && server.s.sweeps[r] == Scanning(s0.sweeps[r].live, AsSet(keys))
        invariant forall t :: t in keys ==> t.0 !in s0.sweeps[r].live && Started(server.s, t)
        invariant At(server.s, InHand(r)) == At(s0, InHand(r))
        invariant LooksOnly(OwnSteps(server.trace, |old(server.trace)|, Sweeper(r)))
        invariant calm ==> SameBooks(s0, server.s)
        invariant calm ==> forall t :: Orphaned(s0, s0.sweeps[r].live, t) && InScan(batches, i, t) ==> t in keys
      {
        var reply := server.Answer(calm);
        if !reply.Ok? {
          return false, keys;
        }
        ghost var tr := server.trace;
        keys := ScanOne(batches[i], keys, calm);
        OwnStepsJoin(tr, server.trace, |old(server.trace)|, Sweeper(r));
        i := i + 1;
      }
      ok := true;
    }

    method ScanOne(batch: seq<ListId>, keys: seq<ListId>, calm: bool) returns (keys': seq<ListId>)
      requires server.Valid() && r in server.s.sweeps && server.s.sweeps[r].Scanning?
      requires server.s.sweeps[r].targets == AsSet(keys)
      requires forall t :: t in keys ==> t.0 !in server.s.sweeps[r].live && Started(server.s, t)
      modifies server
      ensures server.Valid() && old(server.trace) <= server.trace && keys <= keys'
      ensures r in server.s.sweeps && server.s.sweeps[r] == Scanning(old(server.s).sweeps[r].live, AsSet(keys'))
      ensures forall t :: t in keys' ==> t.0 !in old(server.s).sweeps[r].live && Started(server.s, t)
      ensures At(server.s, InHand(r)) == At(old(server.s), InHand(r))
      ensures LooksOnly(OwnSteps(server.trace, |old(server.trace)|, Sweeper(r)))
      ensures calm ==> SameBooks(old(server.s), server.s)
      ensures calm ==> forall t :: Orphaned(old(server.s), old(server.s).sweeps[r].live, t) && t in batch ==> t in keys'
    {
      ghost var tr := server.trace;
      Wait(calm);
      assert server.trace[..|tr|] == tr;
      DeadTargets(server.trace, |tr|, keys);
      var found := ScanBatch(batch);
      ScanStarts(server.trace, found, server.s.sweeps[r].live);
      OwnStepsKept(tr, server.trace, |tr|, Sweeper(r));
      NoneOwnYet(tr, Sweeper(r));
      keys' := Select(keys, batch, found, server.s.sweeps[r].live);
      ghost var tr1 := server.trace;
      Look(found, keys, keys');
      OwnStepsJoin(tr1, server.trace, |tr|, Sweeper(r));
    }

    /** The SCAN step: the selection grows, everything else stays. */
    method Look(found: set<ListId>, ghost keys: seq<ListId>, ghost keys': seq<ListId>)
      requires server.Valid() && r in server.s.sweeps && server.s.sweeps[r].Scanning?
      requires Enabled(server.s, Scan(r, found)) && server.s.sweeps[r].targets == AsSet(keys)
      requires forall t :: t in keys' <==> t in keys || (t in found && t.0 !in server.s.sweeps[r].live)
      modifies server
      ensures server.Valid() && old(server.trace) <= server.trace && SameBooks(old(server.s), server.s)
      ensures r in server.s.sweeps && server.s.sweeps[r] == Scanning(old(server.s).sweeps[r].live, AsSet(keys'))
      ensures LooksOnly(OwnSteps(server.trace, |old(server.trace)|, Sweeper(r)))
    {
      assert AsSet(keys') == AsSet(keys) + set t | t in found && t.0 !in server.s.sweeps[r].live;
      server.Do(Scan(r, found));
      OneStep(old(server.trace), Scan(r, found));
    }

    /** One whole sweep. An unknown live set disables it, and a scan that fails makes it end without taking anything.
        Left alone it drains the lists it selected, in order and with one set of handled keys, into their queues; every
        entry is put back, reported, dropped, or lost because its report does not pass validation; and if the scan names
        all lists, none of a stopped worker outside the snapshot is left. */
    method Run(live: set<WorkerId>, liveKnown: bool, batches: seq<seq<ListId>>, calm: bool)
      returns (ok: bool, keys: seq<ListId>)
      requires server.Valid() && r !in server.s.sweeps && At(server.s, InHand(r)) == []
      modifies server, this
      ensures server.Valid() && old(server.trace) <= server.trace
      ensures !liveKnown ==> ok && server.trace == old(server.trace) && keys == []
      ensures !ok ==>
                && keys == [] && LooksOnly(OwnSteps(server.trace, |old(server.trace)|, Sweeper(r)))
                && requeued == old(requeued) && failed == old(failed) && dropped == old(dropped)
      ensures forall t :: t in keys ==> t.0 !in live
      ensures calm ==>
                && ok && r !in server.s.sweeps
                && Swept(old(server.s), server.s, r, keys)
                && CountsMatch(old(server.s), keys, requeued - old(requeued), failed - old(failed),
                               dropped - old(dropped))
      ensures calm && liveKnown ==>
                forall t :: Orphaned(old(server.s), live, t) && InScan(batches, |batches|, t) ==> t in keys
      ensures calm && liveKnown && (forall t :: Orphaned(old(server.s), live, t) ==> InScan(batches, |batches|, t)) ==>
                NoneLeft(old(server.s), server.s, live)
    {
      ok, keys := true, [];
      if !liveKnown {
        return;
      }
      ghost var s0 := server.s;
      ok, keys := SelectLists(live, batches, calm);
      if !ok {
        return false, [];
      }
      ghost var s1 := server.s;
      DrainAll(keys, calm);
      ghost var s2 := server.s;
      server.Do(Stop(r));
      if calm {
        SweptFromStart(s0, s1, s2, server.s, r, keys);
        if forall t :: Orphaned(s0, live, t) ==> InScan(batches, |batches|, t) {
          AllFound(s0, server.s, r, keys, live);
        }
      }
    }

    /** Snapshot and scan, up to the first RPOP; after a failed scan the sweep is over. */
    method SelectLists(live: set<WorkerId>, batches: seq<seq<ListId>>, calm: bool) returns (ok: bool, keys: seq<ListId>)
      requires server.Valid() && r !in server.s.sweeps && At(server.s, InHand(r)) == []
      modifies server
      ensures server.Valid() && old(server.trace) <= server.trace
      ensures LooksOnly(OwnSteps(server.trace, |old(server.trace)|, Sweeper(r)))
      ensures ok ==>
                && Idle(server.s, r) && server.s.sweeps[r] == Draining(AsSet(keys), {}, Empty)
                && forall t :: t in keys ==> t.0 !in live && Started(server.s, t)
      ensures calm ==> ok && SameBooks(old(server.s), server.s)
      ensures calm ==> forall t :: Orphaned(old(server.s), live, t) && InScan(batches, |batches|, t) ==> t in keys
    {
      Open(live);
      ghost var tr := server.trace;
      ok, keys := OrphanLists(batches, calm);
      OwnStepsJoin(tr, server.trace, |old(server.trace)|, Sweeper(r));
      ghost var tr1 := server.trace;
      if ok {
        Begin(keys);
      } else {
        Close();
      }
      OwnStepsJoin(tr1, server.trace, |old(server.trace)|, Sweeper(r));
    }

    method Open(live: set<WorkerId>)
      requires server.Valid() && r !in server.s.sweeps
      modifies server
      ensures server.Valid() && server.trace == old(server.trace) + [Snapshot(r, live)]
      ensures SameBooks(old(server.s), server.s)
      ensures r in server.s.sweeps && server.s.sweeps[r] == Scanning(live, {})
      ensures LooksOnly(OwnSteps(server.trace, |old(server.trace)|, Sweeper(r)))
    {
      server.Do(Snapshot(r, live));
      OneStep(old(server.trace), Snapshot(r, live));
    }

    method Begin(keys: seq<ListId>)
      requires server.Valid() && r in server.s.sweeps && server.s.sweeps[r].Scanning?
      requires server.s.sweeps[r].targets == AsSet(keys)
      modifies server
      ensures server.Valid() && old(server.trace) <= server.trace && SameBooks(old(server.s), server.s)
      ensures r in server.s.sweeps && server.s.sweeps[r] == Draining(AsSet(keys), {}, Empty)
      ensures LooksOnly(OwnSteps(server.trace, |old(server.trace)|, Sweeper(r)))
    {
      server.Do(BeginDrain(r));
      OneStep(old(server.trace), BeginDrain(r));
    }

    method Close()
      requires server.Valid() && r in server.s.sweeps
      modifies server
      ensures server.Valid() && old(server.trace) <= server.trace && r !in server.s.sweeps
      ensures LooksOnly(OwnSteps(server.trace, |old(server.trace)|, Sweeper(r)))
    {
      server.Do(Stop(r));
      OneStep(old(server.trace), Stop(r));
    }

    lemma OneStep(trace: seq<Action>, a: Action)
      ensures OwnSteps(trace + [a], |trace|, Sweeper(r)) == if By(a, Sweeper(r)) then [a] else []
    {
      NoneOwnYet(trace, Sweeper(r));
      StepAdded(trace, a, |trace|, Sweeper(r));
    }

    /** Drains the lists one after the other. */
    method DrainAll(keys: seq<ListId>, calm: bool)
      requires server.Valid() && Idle(server.s, r) && server.s.sweeps[r].targets == AsSet(keys)
      requires server.s.sweeps[r].handled == {}
      requires forall t :: t in keys ==> Started(server.s, t)
      modifies server, this
      ensures server.Valid() && old(server.trace) <= server.trace
      ensures Idle(server.s, r)
      ensures calm ==>
                && Swept(old(server.s), server.s, r, keys)
                && CountsMatch(old(server.s), keys, requeued - old(requeued), failed - old(failed),
                               dropped - old(dropped))
    {
      ghost var s0, a, b, c := server.s, requeued, failed, dropped;
      var i := 0;
      NothingSwept(s0, r);
      assert keys[..0] == [];
      while i < |keys|
        invariant 0 <= i <= |keys| && server.Valid() && old(server.trace) <= server.trace
        invariant Idle(server.s, r) && server.s.sweeps[r].targets == AsSet(keys)
        invariant forall t :: t in keys ==> Started(server.s, t)
        invariant calm ==> SweptSoFar(s0, server.s, r, keys[..i], requeued - a, failed - b, dropped - c)
      {
        DrainNext(s0, keys, i, calm, a, b, c);
        i := i + 1;
      }
      assert keys[..|keys|] == keys;
    }

    method DrainNext(ghost s0: State, keys: seq<ListId>, i: nat, calm: bool, ghost requeued0: int, ghost failed0: int,
                     ghost dropped0: int)
      requires server.Valid() && Idle(server.s, r) && server.s.sweeps[r].targets == AsSet(keys) && i < |keys|
      requires forall t :: t in keys ==> Started(server.s, t)
      requires calm ==> SweptSoFar(s0, server.s, r, keys[..i], requeued - requeued0, failed - failed0,
                                   dropped - dropped0)
      modifies server, this
      ensures server.Valid() && old(server.trace) <= server.trace
      ensures Idle(server.s, r) && server.s.sweeps[r].targets == AsSet(keys)
      ensures forall t :: t in keys ==> Started(server.s, t)
      ensures calm ==>
                SweptSoFar(s0, server.s, r, keys[..i + 1], requeued - requeued0, failed - failed0, dropped - dropped0)
    {
      ghost var tr, s1 := server.trace, server.s;
      assert Started(server.s, keys[i]) && keys[i] in keys;
      DrainList(keys[i], calm);
      assert server.trace[..|tr|] == tr;
      DeadTargets(server.trace, |tr|, keys);
      if calm {
        SoFarGrows(s0, s1, server.s, r, keys, i, old(requeued) - requeued0, old(failed) - failed0,
                   old(dropped) - dropped0, requeued - old(requeued), failed - old(failed), dropped - old(dropped));
      }
    }
  }

  // Several lists -------------------------------------------------------

  /** None of these steps takes a payload or writes anything. */
  predicate LooksOnly(steps: seq<Action>) {
    forall i :: 0 <= i < |steps| ==> steps[i].Snapshot? || steps[i].Scan? || steps[i].BeginDrain? || steps[i].Stop?
  }

  function AsSet(keys: seq<ListId>): set<ListId> { set t | t in keys }

  predicate InScan(batches: seq<seq<ListId>>, n: nat, t: ListId)
    requires n <= |batches|
  {
    exists i :: 0 <= i < n && t in batches[i]
  }

  /** A non-empty list of a worker that runs no more and is not in the snapshot. */
  predicate Orphaned(s: State, live: set<WorkerId>, t: ListId) {
    t.0 !in live && t.0 !in s.fleet.running && At(s, Processing(t.0, t.1)) != []
  }

  /** The lists of stopped workers outside the snapshot are empty. */
  ghost predicate NoneLeft(s0: State, s: State, live: set<WorkerId>) {
    forall t: ListId :: t.0 !in live && t.0 !in s0.fleet.running ==> At(s, Processing(t.0, t.1)) == []
  }

  lemma AllFound(s0: State, s: State, r: SweepId, keys: seq<ListId>, live: set<WorkerId>)
    requires Swept(s0, s, r, keys) && forall t :: Orphaned(s0, live, t) ==> t in keys
    ensures NoneLeft(s0, s, live)
  {
    forall t: ListId | t.0 !in live && t.0 !in s0.fleet.running
      ensures At(s, Processing(t.0, t.1)) == []
    {
      assert ListSwept(s0, s, keys, t) && (Orphaned(s0, live, t) ==> t in keys);
    }
  }

  predicate SameBooks(s: State, s': State) {
    s'.store == s.store && s'.keys == s.keys && s'.log == s.log && s'.fleet == s.fleet
  }

  /** What is in the last list when its turn comes; a list named twice is empty the second time. */
  function LastEntries(s: State, keys: seq<ListId>): seq<Payload>
    requires keys != []
  {
    if Last(keys) in Front(keys) then [] else At(s, Processing(Last(keys).0, Last(keys).1))
  }

  /** The keys handled by the drain of these lists. */
  function HandledAfter(s: State, keys: seq<ListId>): set<string>
    decreases |keys|
  {
    if keys == [] then {} else HandledAfter(s, Front(keys)) + KeysOf(LastEntries(s, keys))
  }

  /** What the drains push onto the queue of priority `p`, in order. */
  function Given(s: State, keys: seq<ListId>, p: Priority): seq<Payload>
    decreases |keys|
  {
    if keys == [] then []
    else Given(s, Front(keys), p)
         + (if Last(keys).1 == p then Retried(s, HandledAfter(s, Front(keys)), LastEntries(s, keys)) else [])
  }

  /** The jobs the drains report failed, in order. */
  function AllRefused(s: State, keys: seq<ListId>): seq<Job>
    decreases |keys|
  {
    if keys == [] then []
    else AllRefused(s, Front(keys)) + Refused(s, HandledAfter(s, Front(keys)), LastEntries(s, keys))
  }

  function CountGiven(s: State, keys: seq<ListId>): nat
    decreases |keys|
  {
    if keys == [] then 0
    else CountGiven(s, Front(keys)) + |Retried(s, HandledAfter(s, Front(keys)), LastEntries(s, keys))|
  }

  function CountDiscards(s: State, keys: seq<ListId>): nat
    decreases |keys|
  {
    if keys == [] then 0
    else CountDiscards(s, Front(keys)) + Discards(HandledAfter(s, Front(keys)), LastEntries(s, keys))
  }

  /** The sweep's result counts what was put back, what was reported and what was dropped. */
  predicate CountsMatch(s: State, keys: seq<ListId>, requeued: int, failed: int, dropped: int) {
    requeued == CountGiven(s, keys) && failed == |AllRefused(s, keys)| && dropped == CountDiscards(s, keys)
  }

  predicate QueueSwept(s0: State, s: State, keys: seq<ListId>, p: Priority) {
    At(s, Queue(p)) == At(s0, Queue(p)) + Given(s0, keys, p)
  }

  predicate ListSwept(s0: State, s: State, keys: seq<ListId>, t: ListId) {
    At(s, Processing(t.0, t.1)) == if t in keys then [] else At(s0, Processing(t.0, t.1))
  }

  /** Markers are as they were, and so are the counters of keys that were not handled. */
  ghost predicate KeysSwept(s0: State, s: State, handled: set<string>) {
    s.keys.published == s0.keys.published && forall k :: k !in handled ==> Reclaims(s, k) == Reclaims(s0, k)
  }

  /** The state after an undisturbed drain of these lists. */
  ghost predicate Swept(s0: State, s: State, r: SweepId, keys: seq<ListId>) {
    && (forall p :: QueueSwept(s0, s, keys, p))
    && (forall t :: ListSwept(s0, s, keys, t))
    && KeysSwept(s0, s, HandledAfter(s0, keys))
    && Reports(s0.log, s.log, AllRefused(s0, keys))
  }

  ghost predicate SweptSoFar(s0: State, s: State, r: SweepId, keys: seq<ListId>, requeued: int,
                             failed: int, dropped: int)
    requires Idle(s, r)
  {
    && Swept(s0, s, r, keys) && s.sweeps[r].handled == HandledAfter(s0, keys)
    && CountsMatch(s0, keys, requeued, failed, dropped)
  }

  lemma NothingSwept(s: State, r: SweepId)
    requires Idle(s, r) && s.sweeps[r].handled == {}
    ensures SweptSoFar(s, s, r, [], 0, 0, 0)
  {
  }

  lemma {:induction false} RetriedSame(s0: State, s1: State, handled: set<string>, xs: seq<Payload>)
    requires KeysSwept(s0, s1, handled)
    ensures Retried(s1, handled, xs) == Retried(s0, handled, xs) && Refused(s1, handled, xs) == Refused(s0, handled, xs)
    decreases |xs|
  {
    if xs != [] {
      var x := Last(xs);
      if x.Garbage? || x.job.key in handled {
        RetriedSame(s0, s1, handled, Front(xs));
      } else {
        assert Retriable(s1, x.job.key) == Retriable(s0, x.job.key);
        RetriedSame(s0, s1, handled + {x.job.key}, Front(xs));
      }
    }
  }

  lemma ReportsChain(a: seq<Entry>, b: seq<Entry>, c: seq<Entry>, ks: seq<Job>, ls: seq<Job>)
    requires Reports(a, b, ks) && Reports(b, c, ls)
    ensures Reports(a, c, ks + ls)
  {
    forall i | 0 <= i < |ks + ls|
      ensures IsFailureFor(c[|a| + i], (ks + ls)[i])
    {
      if i < |ks| {
        assert c[|a| + i] == b[|a| + i];
      } else {
        assert c[|b| + (i - |ks|)] == c[|a| + i];
      }
    }
  }

  /** How the accounts grow with one more list, whose entries are `xs` when its turn comes. */
  lemma AccountsGrow(s: State, keys: seq<ListId>, t: ListId, xs: seq<Payload>)
    requires xs == LastEntries(s, keys + [t])
    ensures HandledAfter(s, keys + [t]) == HandledAfter(s, keys) + KeysOf(xs)
    ensures AllRefused(s, keys + [t]) == AllRefused(s, keys) + Refused(s, HandledAfter(s, keys), xs)
    ensures CountGiven(s, keys + [t]) == CountGiven(s, keys) + |Retried(s, HandledAfter(s, keys), xs)|
    ensures CountDiscards(s, keys + [t]) == CountDiscards(s, keys) + Discards(HandledAfter(s, keys), xs)
  {
    assert Front(keys + [t]) == keys;
  }

  lemma GivenGrows(s: State, keys: seq<ListId>, t: ListId, xs: seq<Payload>, p: Priority)
    requires xs == LastEntries(s, keys + [t])
    ensures Given(s, keys + [t], p)
         == Given(s, keys, p) + (if t.1 == p then Retried(s, HandledAfter(s, keys), xs) else [])
  {
    assert Front(keys + [t]) == keys;
  }

  lemma EntriesLeft(s0: State, s1: State, keys: seq<ListId>, t: ListId)
    requires ListSwept(s0, s1, keys, t)
    ensures At(s1, Processing(t.0, t.1)) == LastEntries(s0, keys + [t])
  {
    assert Front(keys + [t]) == keys;
  }

  lemma QueueGrows(s0: State, s1: State, s2: State, r: SweepId, keys: seq<ListId>, t: ListId, p: Priority)
    requires Idle(s1, r) && Idle(s2, r) && Emptied(s1, s2, r, t) && QueueSwept(s0, s1, keys, p)
    requires s1.sweeps[r].handled == HandledAfter(s0, keys) && KeysSwept(s0, s1, HandledAfter(s0, keys))
    requires ListSwept(s0, s1, keys, t)
    ensures QueueSwept(s0, s2, keys + [t], p)
  {
    var xs := At(s1, Processing(t.0, t.1));
    EntriesLeft(s0, s1, keys, t);
    GivenGrows(s0, keys, t, xs, p);
    if p != t.1 {
      QueueAlone(s1, s2, r, t, p);
      assert Given(s0, keys, p) + [] == Given(s0, keys, p);
    } else {
      RetriedSame(s0, s1, HandledAfter(s0, keys), xs);
      Regroup(At(s0, Queue(p)), Given(s0, keys, p), Retried(s0, HandledAfter(s0, keys), xs));
    }
  }

  lemma QueueAlone(s1: State, s2: State, r: SweepId, t: ListId, p: Priority)
    requires Idle(s1, r) && Idle(s2, r) && Emptied(s1, s2, r, t) && p != t.1
    ensures At(s2, Queue(p)) == At(s1, Queue(p))
  {
  }

  lemma Regroup(a: seq<Payload>, b: seq<Payload>, c: seq<Payload>)
    ensures (a + b) + c == a + (b + c)
  {
  }

  lemma ListGrows(s0: State, s1: State, s2: State, r: SweepId, keys: seq<ListId>, t: ListId, u: ListId)
    requires Idle(s1, r) && Idle(s2, r) && Emptied(s1, s2, r, t) && ListSwept(s0, s1, keys, u)
    ensures ListSwept(s0, s2, keys + [t], u)
  {
    if u != t {
      assert At(s2, Processing(u.0, u.1)) == At(s1, Processing(u.0, u.1));
    }
  }

  /** One more list. */
  lemma SweptGrows(s0: State, s1: State, s2: State, r: SweepId, keys: seq<ListId>, t: ListId)
    requires Idle(s1, r) && Idle(s2, r) && Swept(s0, s1, r, keys) && s1.sweeps[r].handled == HandledAfter(s0, keys)
    requires Emptied(s1, s2, r, t)
    ensures Swept(s0, s2, r, keys + [t]) && s2.sweeps[r].handled == HandledAfter(s0, keys + [t])
    ensures CountGiven(s0, keys + [t])
         == CountGiven(s0, keys) + |Retried(s1, s1.sweeps[r].handled, At(s1, Processing(t.0, t.1)))|
    ensures |AllRefused(s0, keys + [t])|
         == |AllRefused(s0, keys)| + |Refused(s1, s1.sweeps[r].handled, At(s1, Processing(t.0, t.1)))|
    ensures CountDiscards(s0, keys + [t])
         == CountDiscards(s0, keys) + Discards(s1.sweeps[r].handled, At(s1, Processing(t.0, t.1)))
  {
    var xs := At(s1, Processing(t.0, t.1));
    assert ListSwept(s0, s1, keys, t);
    EntriesLeft(s0, s1, keys, t);
    AccountsGrow(s0, keys, t, xs);
    RetriedSame(s0, s1, HandledAfter(s0, keys), xs);
    ReportsChain(s0.log, s1.log, s2.log, AllRefused(s0, keys), Refused(s0, HandledAfter(s0, keys), xs));
    forall p
      ensures QueueSwept(s0, s2, keys + [t], p)
    {
      assert QueueSwept(s0, s1, keys, p);
      QueueGrows(s0, s1, s2, r, keys, t, p);
    }
    forall u
      ensures ListSwept(s0, s2, keys + [t], u)
    {
      assert ListSwept(s0, s1, keys, u);
      ListGrows(s0, s1, s2, r, keys, t, u);
    }
  }

  lemma SoFarGrows(s0: State, s1: State, s2: State, r: SweepId, keys: seq<ListId>, i: nat,
                   requeued: int, failed: int, dropped: int, a: int, b: int, c: int)
    requires i < |keys| && Idle(s1, r) && Idle(s2, r)
    requires SweptSoFar(s0, s1, r, keys[..i], requeued, failed, dropped) && Emptied(s1, s2, r, keys[i])
    requires var xs := At(s1, Processing(keys[i].0, keys[i].1));
             && a == |Retried(s1, s1.sweeps[r].handled, xs)| && b == |Refused(s1, s1.sweeps[r].handled, xs)|
             && c == Discards(s1.sweeps[r].handled, xs)
    ensures SweptSoFar(s0, s2, r, keys[..i + 1], requeued + a, failed + b, dropped + c)
  {
    assert keys[..i + 1] == keys[..i] + [keys[i]];
    SweptGrows(s0, s1, s2, r, keys[..i], keys[i]);
  }

  /** Snapshot and scan change nothing of this, nor does letting go of the sweep. */
  lemma SweptFromStart(s0: State, s1: State, s2: State, s3: State, r: SweepId, keys: seq<ListId>)
    requires SameBooks(s0, s1) && Swept(s1, s2, r, keys)
    requires s3.store == s2.store && s3.keys == s2.keys && s3.log == s2.log
    ensures Swept(s0, s3, r, keys)
    ensures CountGiven(s1, keys) == CountGiven(s0, keys) && AllRefused(s1, keys) == AllRefused(s0, keys)
    ensures CountDiscards(s1, keys) == CountDiscards(s0, keys)
  {
    SameAccounts(s0, s1, keys);
    forall p
      ensures QueueSwept(s0, s3, keys, p)
    {
      assert QueueSwept(s1, s2, keys, p);
      SameGiven(s0, s1, keys, p);
    }
    forall t
      ensures ListSwept(s0, s3, keys, t)
    {
      assert ListSwept(s1, s2, keys, t);
    }
  }

  lemma {:induction false} SameAccounts(s0: State, s1: State, keys: seq<ListId>)
    requires SameBooks(s0, s1)
    ensures HandledAfter(s1, keys) == HandledAfter(s0, keys) && AllRefused(s1, keys) == AllRefused(s0, keys)
    ensures CountGiven(s1, keys) == CountGiven(s0, keys) && CountDiscards(s1, keys) == CountDiscards(s0, keys)
    decreases |keys|
  {
    if keys != [] {
      SameAccounts(s0, s1, Front(keys));
      RetriedSame(s0, s1, HandledAfter(s0, Front(keys)), LastEntries(s0, keys));
    }
  }

  lemma {:induction false} SameGiven(s0: State, s1: State, keys: seq<ListId>, p: Priority)
    requires SameBooks(s0, s1)
    ensures Given(s1, keys, p) == Given(s0, keys, p)
    decreases |keys|
  {
    if keys != [] {
      SameGiven(s0, s1, Front(keys), p);
      SameAccounts(s0, s1, Front(keys));
      RetriedSame(s0, s1, HandledAfter(s0, Front(keys)), LastEntries(s0, keys));
    }
  }

  predicate Started(s: State, t: ListId) { Dead(s, t.0) }

  lemma DeadTargets(tr: seq<Action>, n: nat, keys: seq<ListId>)
    requires Runs(INITIAL, tr) && n <= |tr| && Runs(INITIAL, tr[..n])
    requires forall t :: t in keys ==> Started(After(INITIAL, tr[..n]), t)
    ensures forall t :: t in keys ==> Started(After(INITIAL, tr), t)
  {
    forall t | t in keys
      ensures Started(After(INITIAL, tr), t)
    {
      assert Started(After(INITIAL, tr[..n]), t);
      DeadListShrinks(tr, n, t);
    }
  }

  /** A non-empty processing list belongs to a worker that was started. */
  lemma ScanStarts(tr: seq<Action>, found: set<ListId>, live: set<WorkerId>)
    requires Runs(INITIAL, tr)
    requires forall t :: t in found ==> At(After(INITIAL, tr), Processing(t.0, t.1)) != []
    requires forall t :: t in found && t.0 !in live ==> t.0 !in After(INITIAL, tr).fleet.running
    ensures forall t :: t in found && t.0 !in live ==> Started(After(INITIAL, tr), t)
  {
    forall t | t in found && t.0 !in live
      ensures Started(After(INITIAL, tr), t)
    {
      FilledIsStarted(tr, t.0, t.1);
    }
  }

  lemma {:induction false} FilledIsStarted(tr: seq<Action>, w: WorkerId, p: Priority)
    requires Runs(INITIAL, tr)
    ensures w !in After(INITIAL, tr).fleet.started ==>
              w !in After(INITIAL, tr).fleet.running && At(After(INITIAL, tr), Processing(w, p)) == []
    decreases |tr|
  {
    if tr != [] {
      FilledIsStarted(Front(tr), w, p);
      var s, a := After(INITIAL, Front(tr)), Last(tr);
      FleetGrows(s, a);
      if w !in s.fleet.started && !Touches(s, a, w, p) {
        ListFrame(s, a, w, p);
      }
    }
  }

  /** A calm step from `s0` to `s` let go of the held job and appended it to its queue exactly when `back`. */
  ghost predicate Appended(s0: State, s: State, r: SweepId, back: bool)
    requires Holds(s0, r)
  {
    var p := s0.sweeps[r].hand.priority;
    && At(s, Queue(p)) == At(s0, Queue(p)) + (if back then [Held(s0, r)] else [])
    && OnlyQueue(s0, s, r, p)
    && Reports(s0.log, s.log, if back then [] else Notice(Held(s0, r).job))
    && s.keys.published == s0.keys.published
    && (forall k :: k != HeldKey(s0, r) ==> Reclaims(s, k) == Reclaims(s0, k))
  }

  /** What a round does with the oldest entry: put it back, or not. */
  function RetryOf(s: State, r: SweepId, t: ListId): seq<Payload>
    requires Idle(s, r) && At(s, Processing(t.0, t.1)) != []
  {
    var x := Last(At(s, Processing(t.0, t.1)));
    if x.Wire? && x.job.key !in s.sweeps[r].handled && Retriable(s, x.job.key) then [x] else []
  }

  /** What a round reports failed. */
  function Refusal(s: State, r: SweepId, t: ListId): seq<Job>
    requires Idle(s, r) && At(s, Processing(t.0, t.1)) != []
  {
    var x := Last(At(s, Processing(t.0, t.1)));
    if x.Wire? && x.job.key !in s.sweeps[r].handled && !Retriable(s, x.job.key) then Notice(x.job) else []
  }

  predicate Discarded(s: State, r: SweepId, t: ListId)
    requires Idle(s, r) && At(s, Processing(t.0, t.1)) != []
  {
    var x := Last(At(s, Processing(t.0, t.1)));
    x.Garbage? || x.job.key in s.sweeps[r].handled
  }

  ghost predicate Round(s: State, s': State, r: SweepId, t: ListId)
    requires Idle(s, r) && At(s, Processing(t.0, t.1)) != [] && Idle(s', r)
  {
    var l := Processing(t.0, t.1);
    var x := Last(At(s, l));
    && At(s', l) == Front(At(s, l))
    && At(s', Queue(t.1)) == At(s, Queue(t.1)) + RetryOf(s, r, t)
    && Reports(s.log, s'.log, Refusal(s, r, t))
    && s'.sweeps[r].handled == s.sweeps[r].handled + (if x.Wire? then {x.job.key} else {})
    && s'.keys.published == s.keys.published
    && (forall k :: k !in s'.sweeps[r].handled ==> Reclaims(s', k) == Reclaims(s, k))
    && (forall m :: m != Queue(t.1) && m != InHand(r) && m != l ==> At(s', m) == At(s, m))
  }

  lemma PopRound(s: State, r: SweepId, t: ListId, reply: Reply)
    requires Enabled(s, Pop(r, t, reply))
    ensures var s' := DoPop(s, r, t, reply);
            var x := Last(At(s, Processing(t.0, t.1)));
            && Popped(s, s', r, t) && s'.fleet == s.fleet
            && r in s'.sweeps && s'.sweeps[r].Draining? && s'.sweeps[r].targets == s.sweeps[r].targets
            && (if reply.Lost? || x.Garbage? || x.job.key in s.sweeps[r].handled
                then Idle(s', r) && s'.sweeps[r].handled == s.sweeps[r].handled
                else Holds(s', r) && Held(s', r) == x && s'.sweeps[r].hand == Holding(t.1, Counting)
                     && s'.sweeps[r].handled == s.sweeps[r].handled + {x.job.key})
  {
  }

  /** What the pop alone has changed. */
  ghost predicate Popped(s: State, s': State, r: SweepId, t: ListId)
    requires At(s, Processing(t.0, t.1)) != []
  {
    && At(s', Processing(t.0, t.1)) == Front(At(s, Processing(t.0, t.1)))
    && (forall m :: m != Processing(t.0, t.1) && m != InHand(r) ==> At(s', m) == At(s, m))
    && s'.keys == s.keys && s'.log == s.log
  }

  lemma DiscardRound(s: State, s': State, r: SweepId, t: ListId)
    requires Idle(s, r) && At(s, Processing(t.0, t.1)) != [] && Idle(s', r) && Popped(s, s', r, t)
    requires s'.sweeps[r].handled == s.sweeps[r].handled
    requires var x := Last(At(s, Processing(t.0, t.1))); x.Garbage? || x.job.key in s.sweeps[r].handled
    ensures Round(s, s', r, t) && RetryOf(s, r, t) == [] && Refusal(s, r, t) == []
  {
    var x := Last(At(s, Processing(t.0, t.1)));
    assert s'.sweeps[r].handled == s.sweeps[r].handled + (if x.Wire? then {x.job.key} else {});
  }

  lemma ReclaimRound(s: State, s1: State, s2: State, r: SweepId, t: ListId)
    requires Idle(s, r) && At(s, Processing(t.0, t.1)) != [] && Popped(s, s1, r, t)
    requires Holds(s1, r) && s1.sweeps[r].hand.priority == t.1 && Held(s1, r) == Last(At(s, Processing(t.0, t.1)))
    requires s1.sweeps[r].handled == s.sweeps[r].handled + {HeldKey(s1, r)} && HeldKey(s1, r) !in s.sweeps[r].handled
    requires LetGo(s1, s2, r) && Appended(s1, s2, r, Retriable(s1, HeldKey(s1, r)))
    ensures Round(s, s2, r, t)
    ensures |RetryOf(s, r, t)| == (if Retriable(s1, HeldKey(s1, r)) then 1 else 0)
    ensures Refusal(s, r, t) == (if Retriable(s1, HeldKey(s1, r)) then [] else Notice(Held(s1, r).job))
    ensures !Discarded(s, r, t)
  {
    assert At(s2, Processing(t.0, t.1)) == At(s1, Processing(t.0, t.1));
    forall m | m != Queue(t.1) && m != InHand(r) && m != Processing(t.0, t.1)
      ensures At(s2, m) == At(s, m)
    {
      assert At(s2, m) == At(s1, m);
    }
  }

  /** The refused jobs that have been passed are reported, the others are still to come. */
  predicate ReportedSoFar(s0: State, s: State, r: SweepId, t: ListId)
    requires r in s0.sweeps && s0.sweeps[r].Draining? && r in s.sweeps && s.sweeps[r].Draining?
  {
    var all := Refused(s0, s0.sweeps[r].handled, At(s0, Processing(t.0, t.1)));
    var rest := Refused(s0, s.sweeps[r].handled, At(s, Processing(t.0, t.1)));
    |rest| <= |all| && all[|all| - |rest|..] == rest && Reports(s0.log, s.log, all[..|all| - |rest|])
  }

  /** Progress of an undisturbed drain: what is queued plus what will still be pushed is fixed. */
  ghost predicate Drained(s0: State, s: State, r: SweepId, t: ListId)
    requires r in s0.sweeps && s0.sweeps[r].Draining? && r in s.sweeps && s.sweeps[r].Draining?
  {
    && At(s, Queue(t.1)) + Retried(s0, s.sweeps[r].handled, At(s, Processing(t.0, t.1)))
       == At(s0, Queue(t.1)) + Retried(s0, s0.sweeps[r].handled, At(s0, Processing(t.0, t.1)))
    && ReportedSoFar(s0, s, r, t)
    && s.sweeps[r].handled + KeysOf(At(s, Processing(t.0, t.1)))
       == s0.sweeps[r].handled + KeysOf(At(s0, Processing(t.0, t.1)))
    && s.keys.published == s0.keys.published
    && (forall k :: k !in s.sweeps[r].handled ==> Reclaims(s, k) == Reclaims(s0, k))
    && (forall l :: l != Queue(t.1) && l != InHand(r) && l != Processing(t.0, t.1) ==> At(s, l) == At(s0, l))
  }

  /** The end of an undisturbed drain: the list is empty, exactly the retriable jobs are queued, oldest first, and
      exactly the others are reported. */
  ghost predicate Emptied(s0: State, s: State, r: SweepId, t: ListId)
    requires Idle(s0, r) && Idle(s, r)
  {
    var l := Processing(t.0, t.1);
    && At(s, l) == []
    && At(s, Queue(t.1)) == At(s0, Queue(t.1)) + Retried(s0, s0.sweeps[r].handled, At(s0, l))
    && Reports(s0.log, s.log, Refused(s0, s0.sweeps[r].handled, At(s0, l)))
    && s.sweeps[r].handled == s0.sweeps[r].handled + KeysOf(At(s0, l))
    && s.keys.published == s0.keys.published
    && (forall k :: k !in s.sweeps[r].handled ==> Reclaims(s, k) == Reclaims(s0, k))
    && (forall m :: m != Queue(t.1) && m != InHand(r) && m != l ==> At(s, m) == At(s0, m))
  }

  lemma DrainStarts(s: State, r: SweepId, t: ListId)
    requires Idle(s, r)
    ensures Drained(s, s, r, t)
  {
    var all := Refused(s, s.sweeps[r].handled, At(s, Processing(t.0, t.1)));
    assert all[|all| - |all|..] == all && all[..|all| - |all|] == [];
  }

  lemma DrainEnds(s0: State, s: State, r: SweepId, t: ListId)
    requires Idle(s0, r) && Idle(s, r) && Drained(s0, s, r, t) && At(s, Processing(t.0, t.1)) == []
    ensures Emptied(s0, s, r, t)
  {
    var all := Refused(s0, s0.sweeps[r].handled, At(s0, Processing(t.0, t.1)));
    assert all[..|all|] == all;
    assert Retried(s0, s.sweeps[r].handled, []) == [] && Refused(s0, s.sweeps[r].handled, []) == [];
  }

  lemma ReportsNext(a: seq<Entry>, b: seq<Entry>, c: seq<Entry>, all: seq<Job>, rest: seq<Job>, mid: seq<Job>,
                    now: seq<Job>)
    requires |mid| <= |all| && all[|all| - |mid|..] == mid && Reports(a, b, all[..|all| - |mid|])
    requires mid == now + rest && Reports(b, c, now)
    ensures |rest| <= |all| && all[|all| - |rest|..] == rest && Reports(a, c, all[..|all| - |rest|])
  {
    ReportsChain(a, b, c, all[..|all| - |mid|], now);
    assert all == all[..|all| - |mid|] + mid;
    assert all == (all[..|all| - |mid|] + now) + rest;
  }

  lemma RoundKeeps(s0: State, s1: State, s2: State, r: SweepId, t: ListId)
    requires Idle(s0, r) && Idle(s1, r) && Idle(s2, r) && At(s1, Processing(t.0, t.1)) != []
    requires Drained(s0, s1, r, t) && Round(s1, s2, r, t)
    ensures Drained(s0, s2, r, t)
    ensures |Retried(s0, s1.sweeps[r].handled, At(s1, Processing(t.0, t.1)))|
         == |RetryOf(s1, r, t)| + |Retried(s0, s2.sweeps[r].handled, At(s2, Processing(t.0, t.1)))|
    ensures |Refused(s0, s1.sweeps[r].handled, At(s1, Processing(t.0, t.1)))|
         == |Refusal(s1, r, t)| + |Refused(s0, s2.sweeps[r].handled, At(s2, Processing(t.0, t.1)))|
    ensures Discards(s1.sweeps[r].handled, At(s1, Processing(t.0, t.1)))
         == (if Discarded(s1, r, t) then 1 else 0) + Discards(s2.sweeps[r].handled, At(s2, Processing(t.0, t.1)))
  {
    RoundSplits(s0, s1, s2, r, t);
    RoundElsewhere(s0, s1, s2, r, t);
    RoundReports(s0, s1, s2, r, t);
    RoundQueue(s0, s1, s2, r, t);
  }

  lemma RoundReports(s0: State, s1: State, s2: State, r: SweepId, t: ListId)
    requires Idle(s0, r) && Idle(s1, r) && Idle(s2, r) && At(s1, Processing(t.0, t.1)) != []
    requires Drained(s0, s1, r, t) && Round(s1, s2, r, t)
    ensures ReportedSoFar(s0, s2, r, t)
  {
    var l := Processing(t.0, t.1);
    RoundSplits(s0, s1, s2, r, t);
    ReportsNext(s0.log, s1.log, s2.log, Refused(s0, s0.sweeps[r].handled, At(s0, l)),
                Refused(s0, s2.sweeps[r].handled, At(s2, l)), Refused(s0, s1.sweeps[r].handled, At(s1, l)),
                Refusal(s1, r, t));
  }

  lemma RoundQueue(s0: State, s1: State, s2: State, r: SweepId, t: ListId)
    requires Idle(s0, r) && Idle(s1, r) && Idle(s2, r) && At(s1, Processing(t.0, t.1)) != []
    requires Drained(s0, s1, r, t) && Round(s1, s2, r, t)
    ensures At(s2, Queue(t.1)) + Retried(s0, s2.sweeps[r].handled, At(s2, Processing(t.0, t.1)))
         == At(s0, Queue(t.1)) + Retried(s0, s0.sweeps[r].handled, At(s0, Processing(t.0, t.1)))
  {
    RoundSplits(s0, s1, s2, r, t);
    Regroup(At(s1, Queue(t.1)), RetryOf(s1, r, t), Retried(s0, s2.sweeps[r].handled, At(s2, Processing(t.0, t.1))));
  }

  /** Other lists, markers and the counters of keys not handled are as at the start. */
  lemma RoundElsewhere(s0: State, s1: State, s2: State, r: SweepId, t: ListId)
    requires Idle(s0, r) && Idle(s1, r) && Idle(s2, r) && At(s1, Processing(t.0, t.1)) != []
    requires Drained(s0, s1, r, t) && Round(s1, s2, r, t)
    ensures s2.keys.published == s0.keys.published
    ensures forall k :: k !in s2.sweeps[r].handled ==> Reclaims(s2, k) == Reclaims(s0, k)
    ensures forall l :: l != Queue(t.1) && l != InHand(r) && l != Processing(t.0, t.1) ==> At(s2, l) == At(s0, l)
  {
    forall l | l != Queue(t.1) && l != InHand(r) && l != Processing(t.0, t.1)
      ensures At(s2, l) == At(s0, l)
    {
      assert At(s2, l) == At(s1, l);
    }
  }

  /** The oldest entry's verdict comes off the front of what is still to be given back or reported. */
  lemma RoundSplits(s0: State, s1: State, s2: State, r: SweepId, t: ListId)
    requires Idle(s0, r) && Idle(s1, r) && Idle(s2, r) && At(s1, Processing(t.0, t.1)) != []
    requires Drained(s0, s1, r, t) && Round(s1, s2, r, t)
    ensures Retried(s0, s1.sweeps[r].handled, At(s1, Processing(t.0, t.1)))
         == RetryOf(s1, r, t) + Retried(s0, s2.sweeps[r].handled, At(s2, Processing(t.0, t.1)))
    ensures Refused(s0, s1.sweeps[r].handled, At(s1, Processing(t.0, t.1)))
         == Refusal(s1, r, t) + Refused(s0, s2.sweeps[r].handled, At(s2, Processing(t.0, t.1)))
    ensures s2.sweeps[r].handled + KeysOf(At(s2, Processing(t.0, t.1)))
         == s1.sweeps[r].handled + KeysOf(At(s1, Processing(t.0, t.1)))
    ensures Discards(s1.sweeps[r].handled, At(s1, Processing(t.0, t.1)))
         == (if Discarded(s1, r, t) then 1 else 0) + Discards(s2.sweeps[r].handled, At(s2, Processing(t.0, t.1)))
  {
    var x := Last(At(s1, Processing(t.0, t.1)));
    if x.Garbage? || x.job.key in s1.sweeps[r].handled {
      assert s2.sweeps[r].handled == s1.sweeps[r].handled;
    } else {
      assert Retriable(s1, x.job.key) == Retriable(s0, x.job.key);
    }
  }
}
