/** Checking jobs out of the queues and acknowledging them, as the consumer's code does it. */
module JobConsumer {
  import opened Protocol
  import opened Server

  const PRIORITIES: seq<Priority> := [Critical, High, Normal, Low]

  datatype Swept =
    | Delivered(exec: ExecId)
    | NothingQueued
    | Undecodable(exec: ExecId, cleared: bool)
    | Failed
    | WorkerDied

  /** Nothing more urgent is waiting. */
  predicate NothingAbove(s: State, p: Priority) {
    match p
    case Critical => true
    case High => At(s, Queue(Critical)) == []
    case Normal => At(s, Queue(Critical)) == [] && At(s, Queue(High)) == []
    case Low => At(s, Queue(Critical)) == [] && At(s, Queue(High)) == [] && At(s, Queue(Normal)) == []
  }

  /** There is a job in this queue and none in a more urgent one. */
  predicate Highest(s: State, p: Priority) {
    At(s, Queue(p)) != [] && NothingAbove(s, p)
  }

  /** The position from which on something is waiting, the queues before it being empty. */
  predicate EmptyBefore(s: State, i: nat)
    requires i <= |PRIORITIES|
  {
    forall j :: 0 <= j < i ==> At(s, Queue(PRIORITIES[j])) == []
  }

  /** The drain order is the order of urgency. */
  lemma DrainOrder(s: State, i: nat)
    requires i <= |PRIORITIES| && EmptyBefore(s, i)
    ensures i < |PRIORITIES| ==> NothingAbove(s, PRIORITIES[i])
    ensures i == |PRIORITIES| ==> forall p :: At(s, Queue(p)) == []
  {
    forall p | i == |PRIORITIES|
      ensures At(s, Queue(p)) == []
    {
      Listed(p);
    }
    if i == 1 { assert At(s, Queue(PRIORITIES[0])) == []; }
    if i == 2 { assert At(s, Queue(PRIORITIES[0])) == [] && At(s, Queue(PRIORITIES[1])) == []; }
    if i == 3 {
      assert At(s, Queue(PRIORITIES[0])) == [] && At(s, Queue(PRIORITIES[1])) == [];
      assert At(s, Queue(PRIORITIES[2])) == [];
    }
  }

  /** The oldest entry of the queue has been taken: a job is now the worker's, at the head of its list; an undecodable
      payload is gone; nothing else has moved. */
  ghost predicate Taken(r: Swept, s0: State, s: State, w: WorkerId, p: Priority) {
    && At(s0, Queue(p)) != [] && At(s, Queue(p)) == Front(At(s0, Queue(p)))
    && var x := Last(At(s0, Queue(p)));
    && (r.Delivered? ==>
          && x.Wire? && At(s, Processing(w, p)) == [x] + At(s0, Processing(w, p))
          && r.exec in s.fleet.checkouts && s.fleet.checkouts[r.exec] == Checkout(w, p, x, Fresh))
    && (r.Undecodable? ==> x.Garbage? && At(s, Processing(w, p)) == At(s0, Processing(w, p)))
    && (forall l :: l != Queue(p) && l != Processing(w, p) ==> At(s, l) == At(s0, l))
  }

  /** The LMOVE alone. */
  ghost predicate Moved(s: State, t: State, w: WorkerId, p: Priority, e: ExecId) {
    && At(s, Queue(p)) != [] && At(t, Queue(p)) == Front(At(s, Queue(p)))
    && At(t, Processing(w, p)) == [Last(At(s, Queue(p)))] + At(s, Processing(w, p))
    && (forall l :: l != Queue(p) && l != Processing(w, p) ==> At(t, l) == At(s, l))
    && e == s.fleet.nextExec && e in t.fleet.checkouts
    && t.fleet.checkouts[e] == Checkout(w, p, Last(At(s, Queue(p))), t.fleet.checkouts[e].pc)
  }

  lemma MovedIsTaken(s: State, t: State, w: WorkerId, p: Priority, e: ExecId)
    requires Moved(s, t, w, p, e) && Last(At(s, Queue(p))).Wire? && PcOf(t, e).Fresh?
    ensures Taken(Delivered(e), s, t, w, p)
  {
  }

  /** The LREM alone: the first equal entry goes. */
  ghost predicate Cleared(s: State, t: State, e: ExecId)
    requires e in s.fleet.checkouts
  {
    var c := s.fleet.checkouts[e];
    var l := Processing(c.worker, c.priority);
    && At(t, l) == RemoveFirst(At(s, l), c.payload)
    && forall m :: m != l ==> At(t, m) == At(s, m)
  }

  lemma RemoveClears(s: State, e: ExecId)
    requires Enabled(s, Remove(e, Ok))
    ensures Cleared(s, DoRemove(s, e, Ok), e)
  {
  }

  /** It takes the head of the list, which is where the LMOVE has put the entry. */
  lemma ClearsAgain(r: Swept, s0: State, s1: State, s2: State, w: WorkerId, p: Priority, e: ExecId)
    requires Moved(s0, s1, w, p, e) && Cleared(s1, s2, e) && r.Undecodable? && Last(At(s0, Queue(p))).Garbage?
    ensures Taken(r, s0, s2, w, p)
  {
    var x, rest := Last(At(s0, Queue(p))), At(s0, Processing(w, p));
    assert RemoveFirst([x] + rest, x) == rest;
  }

  /** At some moment since `from` the queue was empty. */
  ghost predicate WasEmpty(trace: seq<Action>, from: nat, p: Priority) {
    exists n :: from <= n <= |trace| && EmptyAt(trace, n, p)
  }

  predicate EmptyAt(trace: seq<Action>, n: nat, p: Priority)
    requires n <= |trace|
  {
    Runs(INITIAL, trace[..n]) && At(After(INITIAL, trace[..n]), Queue(p)) == []
  }

  /** Every more urgent queue was seen empty before this one was tried. */
  ghost predicate AboveWasEmpty(trace: seq<Action>, from: nat, p: Priority) {
    && (!p.Critical? ==> WasEmpty(trace, from, Critical))
    && (p.Normal? || p.Low? ==> WasEmpty(trace, from, High))
    && (p.Low? ==> WasEmpty(trace, from, Normal))
  }

  ghost predicate SeenEmpty(trace: seq<Action>, from: nat, i: nat)
    requires i <= |PRIORITIES|
  {
    forall j :: 0 <= j < i ==> WasEmpty(trace, from, PRIORITIES[j])
  }

  lemma WasEmptyStays(before: seq<Action>, after: seq<Action>, from: nat, p: Priority)
    requires before <= after && WasEmpty(before, from, p)
    ensures WasEmpty(after, from, p)
  {
    var n :| from <= n <= |before| && EmptyAt(before, n, p);
    assert after[..n] == before[..n];
    assert EmptyAt(after, n, p);
  }

  lemma SeenStays(before: seq<Action>, after: seq<Action>, from: nat, i: nat)
    requires before <= after && i <= |PRIORITIES| && SeenEmpty(before, from, i)
    ensures SeenEmpty(after, from, i)
  {
    forall j | 0 <= j < i
      ensures WasEmpty(after, from, PRIORITIES[j])
    {
      WasEmptyStays(before, after, from, PRIORITIES[j]);
    }
  }

  lemma SeenAbove(before: seq<Action>, after: seq<Action>, from: nat, i: nat)
    requires before <= after && i < |PRIORITIES| && SeenEmpty(before, from, i)
    ensures AboveWasEmpty(after, from, PRIORITIES[i])
  {
    SeenStays(before, after, from, i);
    assert 0 < i ==> WasEmpty(after, from, PRIORITIES[0]);
    assert 1 < i ==> WasEmpty(after, from, PRIORITIES[1]);
    assert 2 < i ==> WasEmpty(after, from, PRIORITIES[2]);
  }

  lemma SeenNext(before: seq<Action>, after: seq<Action>, from: nat, i: nat)
    requires before <= after && i < |PRIORITIES| && SeenEmpty(before, from, i) && from <= |after|
    requires Runs(INITIAL, after) && At(After(INITIAL, after), Queue(PRIORITIES[i])) == []
    ensures SeenEmpty(after, from, i + 1)
  {
    SeenStays(before, after, from, i);
    assert after[..|after|] == after;
    assert EmptyAt(after, |after|, PRIORITIES[i]);
  }

  lemma SeenAll(trace: seq<Action>, from: nat)
    requires SeenEmpty(trace, from, |PRIORITIES|)
    ensures forall p :: WasEmpty(trace, from, p)
  {
    forall p
      ensures WasEmpty(trace, from, p)
    {
      Listed(p);
    }
  }

  class Consumer {
    const server: RedisServer
    const workerId: WorkerId

    constructor (server: RedisServer, workerId: WorkerId)
      ensures this.server == server && this.workerId == workerId
    {
      this.server, this.workerId := server, workerId;
    }

    /** One non-blocking pass over the priorities. Without interference it takes the oldest job of the most urgent
        non-empty queue and nothing else, and finds nothing exactly when all queues are empty. */
    method Sweep(calm: bool) returns (r: Swept)
      requires server.Valid() && workerId in server.s.fleet.running
      modifies server
      ensures server.Valid() && old(server.trace) <= server.trace
      ensures calm && (r.Delivered? || r.Undecodable?) ==>
                exists p :: Highest(old(server.s), p) && Taken(r, old(server.s), server.s, workerId, p)
                            && server.trace == old(server.trace) + TakingSteps(r, p)
      ensures calm && r.NothingQueued? ==>
                server.trace == old(server.trace) && forall p :: At(old(server.s), Queue(p)) == []
      ensures r.Delivered? || r.Undecodable? ==>
                exists p :: AboveWasEmpty(server.trace, |old(server.trace)|, p)
                            && OwnSteps(server.trace, |old(server.trace)|, Taker(workerId)) == [Move(workerId, p, Ok)]
      ensures r.NothingQueued? ==> forall p :: WasEmpty(server.trace, |old(server.trace)|, p)
      ensures calm ==> !r.Failed? && !r.WorkerDied?
      ensures Steps(r, server.trace, |old(server.trace)|)
    {
      var i := 0;
      while i < |PRIORITIES|
        invariant 0 <= i <= |PRIORITIES|
        invariant server.Valid() && old(server.trace) <= server.trace
        invariant workerId in server.s.fleet.running
        invariant OwnSteps(server.trace, |old(server.trace)|, Taker(workerId)) == []
        invariant calm ==> server.trace == old(server.trace) && EmptyBefore(server.s, i)
        invariant SeenEmpty(server.trace, |old(server.trace)|, i)
      {
        ghost var tr := server.trace;
        server.Others(calm, Taker(workerId));
        OwnStepsKept(tr, server.trace, |old(server.trace)|, Taker(workerId));
        if workerId !in server.s.fleet.running {
          return WorkerDied;
        }
        ghost var tr1, s1 := server.trace, server.s;
        r := Take(calm, PRIORITIES[i]);
        StepsFrom(r, tr1, server.trace, |old(server.trace)|);
        if !r.NothingQueued? {
          if calm { DrainOrder(s1, i); }
          SeenAbove(tr, server.trace, |old(server.trace)|, i);
          return;
        }
        SeenNext(tr, server.trace, |old(server.trace)|, i);
        i := i + 1;
      }
      if calm { DrainOrder(server.s, i); }
      SeenAll(server.trace, |old(server.trace)|);
      return NothingQueued;
    }

    /** One LMOVE; `NothingQueued` is Redis answering that the source list does not exist. */
    method Take(calm: bool, p: Priority) returns (r: Swept)
      requires server.Valid() && workerId in server.s.fleet.running
      modifies server
      ensures server.Valid() && old(server.trace) <= server.trace
      ensures r.NothingQueued? ==> server.trace == old(server.trace) && At(old(server.s), Queue(p)) == []
      ensures calm && (r.Delivered? || r.Undecodable?) ==>
                && Taken(r, old(server.s), server.s, workerId, p)
                && server.trace == old(server.trace) + TakingSteps(r, p)
      ensures r.Delivered? || r.Undecodable? ==>
                OwnSteps(server.trace, |old(server.trace)|, Taker(workerId)) == [Move(workerId, p, Ok)]
      ensures calm ==> !r.Failed? && !r.WorkerDied?
      ensures Steps(r, server.trace, |old(server.trace)|)
      ensures r.Delivered? || r.Undecodable? ==> r.exec >= old(server.s).fleet.nextExec
    {
      var reply := server.Answer(calm);
      if reply.Error? {
        return Failed;
      }
      if At(server.s, Queue(p)) == [] {
        NoneOwnYet(server.trace, Taker(workerId));
        return NothingQueued;
      }
      r := MoveOver(calm, p, reply);
    }

    /** The LMOVE itself, when there is something to move. */
    method MoveOver(calm: bool, p: Priority, reply: Reply) returns (r: Swept)
      requires server.Valid() && workerId in server.s.fleet.running && At(server.s, Queue(p)) != []
      requires !reply.Error? && (calm ==> reply.Ok?)
      modifies server
      ensures server.Valid() && old(server.trace) <= server.trace && !r.NothingQueued?
      ensures calm && (r.Delivered? || r.Undecodable?) ==>
                && Taken(r, old(server.s), server.s, workerId, p)
                && server.trace == old(server.trace) + TakingSteps(r, p)
      ensures r.Delivered? || r.Undecodable? ==>
                OwnSteps(server.trace, |old(server.trace)|, Taker(workerId)) == [Move(workerId, p, Ok)]
      ensures calm ==> !r.Failed? && !r.WorkerDied?
      ensures Steps(r, server.trace, |old(server.trace)|)
      ensures r.Delivered? || r.Undecodable? ==> r.exec >= old(server.s).fleet.nextExec
    {
      var x := Last(At(server.s, Queue(p)));
      ghost var before, s0 := server.trace, server.s;
      var e := LMove(p, reply);
      JustMoved(before, p, reply, e);
      if reply.Lost? {
        return Failed;
      }
      if x.Wire? {
        if calm { MovedIsTaken(s0, server.s, workerId, p, e); }
        return Delivered(e);
      }
      r := Expel(calm, p, e, before, s0);
    }

    /** A payload that does not decode has been moved over: out with it. */
    method Expel(calm: bool, p: Priority, e: ExecId, ghost before: seq<Action>, ghost s0: State) returns (r: Swept)
      requires server.Valid() && server.trace == before + [Move(workerId, p, Ok)]
      requires Moved(s0, server.s, workerId, p, e) && Last(At(s0, Queue(p))).Garbage?
      requires Active(server.s, e) && PcOf(server.s, e) == Removing(Malformed)
      modifies server
      ensures server.Valid() && old(server.trace) <= server.trace
      ensures r.WorkerDied? || (r.Undecodable? && r.exec == e)
      ensures calm ==> r.Undecodable? && Taken(r, s0, server.s, workerId, p)
                       && server.trace == before + TakingSteps(r, p)
      ensures Steps(r, server.trace, |before|)
      ensures OwnSteps(server.trace, |before|, Taker(workerId)) == [Move(workerId, p, Ok)]
    {
      ghost var s1 := server.s;
      r := Discard(calm, e);
      if calm {
        ClearsAgain(r, s0, s1, server.s, workerId, p, e);
        BothSteps(before, r, p);
      }
      MovedThen(r, before, p, server.trace, e);
    }

    method LMove(p: Priority, reply: Reply) returns (e: ExecId)
      requires server.Valid() && workerId in server.s.fleet.running && At(server.s, Queue(p)) != [] && !reply.Error?
      modifies server
      ensures server.Valid() && server.trace == old(server.trace) + [Move(workerId, p, reply)]
      ensures Moved(old(server.s), server.s, workerId, p, e) && Active(server.s, e)
      ensures var x := Last(At(old(server.s), Queue(p)));
              PcOf(server.s, e) == (if reply.Lost? then Stranded else if x.Garbage? then Removing(Malformed) else Fresh)
    {
      e := server.s.fleet.nextExec;
      MoveGives(server.s, workerId, p, reply);
      server.Do(Move(workerId, p, reply));
    }

    /** What the consumer does to take from this queue: one LMOVE, and one LREM if the payload does not decode. */
    function TakingSteps(r: Swept, p: Priority): seq<Action> {
      if r.Undecodable? then [Move(workerId, p, Ok), Remove(r.exec, Ok)] else [Move(workerId, p, Ok)]
    }

    lemma BothSteps(before: seq<Action>, r: Swept, p: Priority)
      requires r.Undecodable?
      ensures before + [Move(workerId, p, Ok)] + [Remove(r.exec, Ok)] == before + TakingSteps(r, p)
    {
    }

    /** The consumer's own steps, whatever others do: at most one LMOVE, none when nothing was queued, and for a
        delivery or an undecodable payload exactly one that was answered; then no step, or one clearing LREM. */
    ghost predicate Steps(r: Swept, trace: seq<Action>, from: nat)
      requires from <= |trace|
    {
      var moves := OwnSteps(trace, from, Taker(workerId));
      && |moves| <= 1
      && (r.NothingQueued? ==> moves == [])
      && (r.Delivered? ==>
            (exists p :: moves == [Move(workerId, p, Ok)]) && OwnSteps(trace, from, Exec(r.exec)) == [])
      && (r.Undecodable? ==>
            && (exists p :: moves == [Move(workerId, p, Ok)])
            && (exists reply :: OwnSteps(trace, from, Exec(r.exec)) == [Remove(r.exec, reply)]
                                && (r.cleared <==> reply.Ok?)))
    }

    lemma FirstStep(trace: seq<Action>, a: Action, e: ExecId)
      requires a.Move? && a.worker == workerId
      ensures OwnSteps(trace + [a], |trace|, Taker(workerId)) == [a]
      ensures OwnSteps(trace + [a], |trace|, Exec(e)) == []
    {
      NoneOwnYet(trace, Taker(workerId));
      NoneOwnYet(trace, Exec(e));
      StepAdded(trace, a, |trace|, Taker(workerId));
      StepAdded(trace, a, |trace|, Exec(e));
    }

    lemma JustMoved(trace: seq<Action>, p: Priority, reply: Reply, e: ExecId)
      requires !reply.Error?
      ensures Steps(Failed, trace + [Move(workerId, p, reply)], |trace|)
      ensures reply.Ok? ==> Steps(Delivered(e), trace + [Move(workerId, p, reply)], |trace|)
      ensures OwnSteps(trace + [Move(workerId, p, reply)], |trace|, Taker(workerId)) == [Move(workerId, p, reply)]
    {
      FirstStep(trace, Move(workerId, p, reply), e);
    }

    lemma MovedThen(r: Swept, before: seq<Action>, p: Priority, after: seq<Action>, e: ExecId)
      requires before + [Move(workerId, p, Ok)] <= after && (r.WorkerDied? || (r.Undecodable? && r.exec == e))
      requires OwnSteps(after, |before| + 1, Taker(workerId)) == []
      requires r.Undecodable? ==>
                 exists reply :: OwnSteps(after, |before| + 1, Exec(e)) == [Remove(e, reply)]
                   && (r.cleared <==> reply.Ok?)
      ensures Steps(r, after, |before|) && OwnSteps(after, |before|, Taker(workerId)) == [Move(workerId, p, Ok)]
    {
      var moved := before + [Move(workerId, p, Ok)];
      FirstStep(before, Move(workerId, p, Ok), e);
      OwnStepsJoin(moved, after, |before|, Taker(workerId));
      OwnStepsJoin(moved, after, |before|, Exec(e));
    }

    /** Seen from earlier on, when the consumer has done nothing yet. */
    lemma StepsFrom(r: Swept, before: seq<Action>, after: seq<Action>, from: nat)
      requires from <= |before| && before <= after && Runs(INITIAL, before) && Steps(r, after, |before|)
      requires OwnSteps(before, from, Taker(workerId)) == []
      requires r.Delivered? || r.Undecodable? ==> r.exec >= After(INITIAL, before).fleet.nextExec
      ensures Steps(r, after, from)
      ensures OwnSteps(after, from, Taker(workerId)) == OwnSteps(after, |before|, Taker(workerId))
    {
      OwnStepsJoin(before, after, from, Taker(workerId));
      if r.Delivered? || r.Undecodable? {
        NoStepsYet(before, from, r.exec);
        OwnStepsJoin(before, after, from, Exec(r.exec));
      }
    }

    /** Clears a payload that does not decode out of the processing list again. */
    method Discard(calm: bool, e: ExecId) returns (r: Swept)
      requires server.Valid() && Active(server.s, e) && PcOf(server.s, e) == Removing(Malformed)
      modifies server
      ensures server.Valid() && old(server.trace) <= server.trace
      ensures r.WorkerDied? || (r.Undecodable? && r.exec == e)
      ensures calm ==> r == Undecodable(e, true) && server.trace == old(server.trace) + [Remove(e, Ok)]
                       && Cleared(old(server.s), server.s, e)
      ensures OwnSteps(server.trace, |old(server.trace)|, Taker(workerId)) == []
      ensures r.Undecodable? ==>
                exists reply :: OwnSteps(server.trace, |old(server.trace)|, Exec(e)) == [Remove(e, reply)]
                                && (r.cleared <==> reply.Ok?)
    {
      server.Others(calm, TakerWith(workerId, e));
      NoneByBoth(server.trace, |old(server.trace)|, workerId, e);
      OwnStepsKept(old(server.trace), server.trace, |old(server.trace)|, Taker(workerId));
      OwnStepsKept(old(server.trace), server.trace, |old(server.trace)|, Exec(e));
      DeliveryKept(server.trace, |old(server.trace)|, e) by {
        assert server.trace[..|old(server.trace)|] == old(server.trace);
        KnownExec(old(server.trace), e);
      }
      assert server.trace[..|old(server.trace)|] == old(server.trace);
      if !Active(server.s, e) {
        return WorkerDied;
      }
      var reply := server.Answer(calm);
      if calm { RemoveClears(server.s, e); }
      server.Do(Remove(e, reply));
      return Undecodable(e, reply.Ok?);
    }
  }

  lemma MoveGives(s: State, w: WorkerId, p: Priority, reply: Reply)
    requires Enabled(s, Move(w, p, reply))
    ensures var t := DoMove(s, w, p, reply);
            var e := s.fleet.nextExec;
            && Moved(s, t, w, p, e) && Active(t, e)
            && PcOf(t, e) == (if reply.Lost? then Stranded
                              else if Last(At(s, Queue(p))).Garbage? then Removing(Malformed) else Fresh)
  {
  }

  lemma Listed(p: Priority)
    ensures exists i :: 0 <= i < |PRIORITIES| && PRIORITIES[i] == p
  {
    var i := match p case Critical => 0 case High => 1 case Normal => 2 case Low => 3;
    assert PRIORITIES[i] == p;
  }

  lemma KnownExec(tr: seq<Action>, e: ExecId)
    requires Runs(INITIAL, tr) && e in After(INITIAL, tr).fleet.checkouts
    ensures e < After(INITIAL, tr).fleet.nextExec
  {
    PublishOrder.ExecAlways(tr, e);
  }
}
