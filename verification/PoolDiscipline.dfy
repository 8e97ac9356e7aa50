/** Why a checkout may be returned only once: a run in which one double return breaks the pool. */
module PoolDiscipline {
  import opened WarmPool

  lemma Extend(acts: seq<Action>, a: Action)
    requires Runs(Initial(1), acts) && Enabled(After(Initial(1), acts), a)
    ensures Runs(Initial(1), acts + [a]) && After(Initial(1), acts + [a]) == Apply(After(Initial(1), acts), a)
  {
    assert (acts + [a])[..|acts + [a]| - 1] == acts;
  }

  /** One caller, one container: where both are. */
  predicate Snapshot(s: State, pc: Pc, held: seq<Container>, warm: seq<Container>, size: int) {
    && PcOf(s, 0) == pc && At(s, With(0)) == held && At(s, Channel) == warm && s.size == size
    && s.maxSize == 1 && s.phase.Open? && s.produced == 1
  }

  lemma Reserved() returns (acts: seq<Action>)
    ensures Runs(Initial(1), acts) && |acts| == 3
    ensures After(Initial(1), acts) == Initial(1).(size := 1, callers := map[0 := SpinningUp])
  {
    Extend([], Begin(0));
    Extend([Begin(0)], FastMiss(0));
    Extend([Begin(0)] + [FastMiss(0)], Reserve(0));
    acts := [Begin(0)] + [FastMiss(0)] + [Reserve(0)];
  }

  lemma CheckedOut() returns (acts: seq<Action>)
    ensures Runs(Initial(1), acts) && |acts| == 4
    ensures Snapshot(After(Initial(1), acts), Using, [0], [], 1)
  {
    acts := Reserved();
    Extend(acts, SpinUp(0, true));
    acts := acts + [SpinUp(0, true)];
  }

  lemma CleanAndSend(acts: seq<Action>) returns (acts': seq<Action>)
    requires Runs(Initial(1), acts) && PcOf(After(Initial(1), acts), 0).Cleaning?
    requires var s := After(Initial(1), acts); At(s, With(0)) == [0] && s.maxSize == 1 && s.phase.Open?
    ensures Runs(Initial(1), acts') && acts' == acts + [CleanUp(0, true)] + [PutBack(0)]
    ensures var s, t := After(Initial(1), acts), After(Initial(1), acts');
            && t.maxSize == 1 && t.phase.Open? && t.produced == s.produced
            && (if |At(s, Channel)| < 1
                then PcOf(t, 0).Idle? && At(t, With(0)) == [] && At(t, Channel) == At(s, Channel) + [0]
                     && t.size == s.size
                else PcOf(t, 0).Overflow? && At(t, With(0)) == [0] && At(t, Channel) == At(s, Channel)
                     && t.size == s.size - 1)
  {
    Extend(acts, CleanUp(0, true));
    Extend(acts + [CleanUp(0, true)], PutBack(0));
    acts' := acts + [CleanUp(0, true)] + [PutBack(0)];
  }

  /** After a checkout, its return, and a second return of the same container, a pool of one has the container
      warm and at the same time on its way to being stopped, with a size of zero. */
  lemma DoubleReturnBreaks() returns (acts: seq<Action>)
    ensures Runs(Initial(1), acts) && !Disciplined(acts)
    ensures var s := After(Initial(1), acts);
            PcOf(s, 0).Overflow? && At(s, With(0)) == [0] && At(s, Channel) == [0] && s.size == 0
  {
    acts := CheckedOut();
    Extend(acts, GiveBack(0));
    acts := acts + [GiveBack(0)];
    acts := CleanAndSend(acts);
    var a := ReturnAgain(0, 0);
    Extend(acts, a);
    ghost var n := |acts|;
    acts := acts + [a];
    assert acts[n].ReturnAgain?;
    acts := CleanAndSend(acts);
    assert acts[n].ReturnAgain?;
  }
}
