/** The shared Redis server as an object whose state changes command by command, with everyone else's commands in
    between. `trace` records all of them, so whatever the code below does is a run of the protocol. */
module Server {
  import opened Events
  import opened Protocol
  import opened Frames
  import opened ProcessingLists
  import opened PublishOrder

  /** Whose steps are meant: one delivery's, one sweep's, a worker's checkouts, or these and one delivery's. */
  datatype Agent =
    | Exec(exec: ExecId)
    | Sweeper(sweep: SweepId)
    | Taker(worker: WorkerId)
    | TakerWith(worker: WorkerId, exec: ExecId)

  predicate By(a: Action, me: Agent) {
    match me
    case Exec(e) => ByExec(a, e)
    case Sweeper(r) => BySweepAction(a) && a.sweep == r
    case Taker(w) => a.Move? && a.worker == w
    case TakerWith(w, e) => (a.Move? && a.worker == w) || ByExec(a, e)
  }

  ghost predicate NoneBy(acts: seq<Action>, from: nat, me: Agent) {
    forall i :: from <= i < |acts| ==> !By(acts[i], me)
  }

  class RedisServer {
    var s: State
    ghost var trace: seq<Action>

    ghost predicate Valid()
      reads this
    {
      Runs(INITIAL, trace) && s == After(INITIAL, trace)
    }

    constructor ()
      ensures Valid() && trace == []
    {
      s, trace := INITIAL, [];
    }

    /** One command of the calling agent. */
    method Do(a: Action)
      requires Valid() && Enabled(s, a)
      modifies this
      ensures Valid() && trace == old(trace) + [a] && s == Apply(old(s), a)
    {
      s := Apply(s, a);
      trace := trace + [a];
      assert Front(trace) == old(trace);
    }

    /** Any number of commands of others, none when `calm`. */
    method Others(calm: bool, ghost me: Agent)
      requires Valid()
      modifies this
      ensures Valid() && old(trace) <= trace && NoneBy(trace, |old(trace)|, me)
      ensures calm ==> trace == old(trace)
    {
    }

    /** How a command of ours is answered: arbitrarily, except that a calm server always answers. */
    method Answer(calm: bool) returns (reply: Reply)
      ensures calm ==> reply.Ok?
    {
      reply := *;
      if calm {
        reply := Ok;
      }
    }

    /** How a completion event fares: validation comes first, and what it refuses is never sent. */
    method Publish(calm: bool, event: CompletedEvent) returns (reply: Reply)
      ensures !Sendable(event) ==> reply.Error?
      ensures calm && Sendable(event) ==> reply.Ok?
    {
      if !Sendable(event) {
        return Error;
      }
      reply := Answer(calm);
    }
  }

  lemma {:induction false} HandKept(tr: seq<Action>, n: nat, r: SweepId)
    requires Runs(INITIAL, tr) && n <= |tr| && Runs(INITIAL, tr[..n]) && NoneBy(tr, n, Sweeper(r))
    ensures SameHand(After(INITIAL, tr[..n]), After(INITIAL, tr), r)
    decreases |tr|
  {
    if n == |tr| {
      assert tr[..n] == tr;
    } else {
      assert Front(tr)[..n] == tr[..n];
      HandKept(Front(tr), n, r);
      var s, a := After(INITIAL, Front(tr)), Last(tr);
      if BySweepAction(a) {
        SweepFrame(s, a, r);
      } else {
        FleetFrame(s, a);
      }
      assert SameHand(s, Apply(s, a), r);
    }
  }

  /** A delivery in work is left alone by everybody else, unless its worker crashes. */
  lemma {:induction false} DeliveryKept(tr: seq<Action>, n: nat, e: ExecId)
    requires Runs(INITIAL, tr) && n <= |tr| && Runs(INITIAL, tr[..n]) && NoneBy(tr, n, Exec(e))
    requires e < After(INITIAL, tr[..n]).fleet.nextExec
    ensures SameExec(After(INITIAL, tr[..n]), After(INITIAL, tr), e)
    decreases |tr|
  {
    if n == |tr| {
      assert tr[..n] == tr;
    } else {
      assert Front(tr)[..n] == tr[..n];
      DeliveryKept(Front(tr), n, e);
      ExecFrame(After(INITIAL, Front(tr)), Last(tr), e);
    }
  }

  /** The owner has been started and has stopped: nobody will add to its lists again. */
  predicate Dead(s: State, w: WorkerId) {
    w in s.fleet.started && w !in s.fleet.running
  }

  lemma DeadListStep(s: State, a: Action, t: ListId)
    requires Enabled(s, a) && Dead(s, t.0)
    ensures Dead(Apply(s, a), t.0)
    ensures |At(Apply(s, a), Processing(t.0, t.1))| <= |At(s, Processing(t.0, t.1))|
  {
    FleetGrows(s, a);
    if !Touches(s, a, t.0, t.1) {
      ListFrame(s, a, t.0, t.1);
    }
  }

  lemma {:induction false} DeadListShrinks(tr: seq<Action>, n: nat, t: ListId)
    requires Runs(INITIAL, tr) && n <= |tr| && Runs(INITIAL, tr[..n]) && Dead(After(INITIAL, tr[..n]), t.0)
    ensures Dead(After(INITIAL, tr), t.0)
    ensures |At(After(INITIAL, tr), Processing(t.0, t.1))| <= |At(After(INITIAL, tr[..n]), Processing(t.0, t.1))|
    decreases |tr|
  {
    if n == |tr| {
      assert tr[..n] == tr;
    } else {
      assert Front(tr)[..n] == tr[..n];
      DeadListShrinks(Front(tr), n, t);
      DeadListStep(After(INITIAL, Front(tr)), Last(tr), t);
    }
  }

  /** The steps an agent itself has made from some point on, in order. */
  function OwnSteps(acts: seq<Action>, from: nat, me: Agent): seq<Action>
    requires from <= |acts|
    decreases |acts|
  {
    if |acts| == from then []
    else OwnSteps(Front(acts), from, me) + (if By(Last(acts), me) then [Last(acts)] else [])
  }

  lemma NoneOwnYet(acts: seq<Action>, me: Agent)
    ensures OwnSteps(acts, |acts|, me) == []
  {
  }

  lemma StepAdded(acts: seq<Action>, a: Action, from: nat, me: Agent)
    requires from <= |acts|
    ensures OwnSteps(acts + [a], from, me) == OwnSteps(acts, from, me) + (if By(a, me) then [a] else [])
  {
    assert Front(acts + [a]) == acts && Last(acts + [a]) == a;
  }

  lemma {:induction false} OwnStepsKept(before: seq<Action>, after: seq<Action>, from: nat, me: Agent)
    requires before <= after && from <= |before| && NoneBy(after, |before|, me)
    ensures OwnSteps(after, from, me) == OwnSteps(before, from, me)
    decreases |after|
  {
    if |after| > |before| {
      assert before <= Front(after);
      OwnStepsKept(before, Front(after), from, me);
    } else {
      assert before == after;
    }
  }

  lemma {:induction false} OwnStepsJoin(before: seq<Action>, after: seq<Action>, from: nat, me: Agent)
    requires before <= after && from <= |before|
    ensures OwnSteps(after, from, me) == OwnSteps(before, from, me) + OwnSteps(after, |before|, me)
    decreases |after|
  {
    if |after| > |before| {
      assert before <= Front(after);
      OwnStepsJoin(before, Front(after), from, me);
    } else {
      assert before == after;
    }
  }

  lemma NoneByBoth(acts: seq<Action>, from: nat, w: WorkerId, e: ExecId)
    requires NoneBy(acts, from, TakerWith(w, e))
    ensures NoneBy(acts, from, Taker(w)) && NoneBy(acts, from, Exec(e))
  {
    forall i | from <= i < |acts|
      ensures !By(acts[i], Taker(w)) && !By(acts[i], Exec(e))
    {
      assert !By(acts[i], TakerWith(w, e));
    }
  }

  lemma StepNeedsDelivery(s: State, a: Action, e: ExecId)
    requires Enabled(s, a) && ByExec(a, e)
    ensures e in s.fleet.checkouts
  {
  }

  lemma ExecsGrow(s: State, a: Action)
    requires Enabled(s, a)
    ensures s.fleet.nextExec <= Apply(s, a).fleet.nextExec
  {
    if BySweepAction(a) {
      SweepKeeps(s, a);
    }
  }

  /** A delivery makes no step before it exists. */
  lemma {:induction false} NoStepsYet(acts: seq<Action>, from: nat, e: ExecId)
    requires Runs(INITIAL, acts) && from <= |acts| && e >= After(INITIAL, acts).fleet.nextExec
    ensures OwnSteps(acts, from, Exec(e)) == []
    decreases |acts|
  {
    if |acts| > from {
      var s, a := After(INITIAL, Front(acts)), Last(acts);
      ExecsGrow(s, a);
      NoStepsYet(Front(acts), from, e);
      if ByExec(a, e) {
        StepNeedsDelivery(s, a, e);
        ExecAlways(Front(acts), e);
      }
    }
  }
}
