/** What one step, and a run of steps, promise about the session state. */
module Properties {
  import opened Constants
  import opened SimState
  import opened StepEngine

  /** Truncating to the last `n` entries after each append keeps the same entries as
      appending everything first and truncating once: the log holds the most recent ones. */
  lemma {:induction false} LastNAppend<T>(xs: seq<T>, ys: seq<T>, n: nat)
    requires n > 0
    ensures LastN(LastN(xs, n) + ys, n) == LastN(xs + ys, n)
  {
    var r := LastN(xs, n);
    if |xs| > n {
      assert r == xs[|xs| - n..];
      var k := |r + ys| - |LastN(r + ys, n)|;
      var m := |xs + ys| - |LastN(xs + ys, n)|;
      assert |LastN(r + ys, n)| == |LastN(xs + ys, n)| == n;
      assert m == k + (|xs| - n);
      forall i | 0 <= i < n
        ensures LastN(r + ys, n)[i] == LastN(xs + ys, n)[i]
      {
        if k + i < |r| {
          assert (r + ys)[k + i] == r[k + i] == xs[|xs| - n + k + i];
        } else {
          assert (r + ys)[k + i] == ys[k + i - |r|];
        }
      }
    }
  }

  /** The log entries of the drop phase, from the state it starts in. */
  function DropEntries(s: State): seq<LogEntry>
  {
    var choice := ChooseDrop(s.blocksTopA, s.blocksTopB, s.lastDropSide);
    if choice.Some? then [DropLog(choice.value, Tied(s, Opposite(choice.value))), AddLog(Opposite(choice.value))] else []
  }

  /** The log entries of the big-cycle phase when `stored` kg are in storage. */
  function CycleEntries(stored: int): seq<LogEntry>
  {
    if stored >= STORAGE_THRESHOLD then [BigCycleStartLog(stored), BigCycleLog(stored)] else []
  }

  /** The log entries one step adds, defined from the state before the step alone. */
  function StepEntries(s: State): seq<LogEntry>
  {
    var drop := DropEntries(s);
    [StateLog(s.stepCount + 1)] + drop + CycleEntries(TotalStorage(s) + if drop == [] then 0 else 10)
  }

  /** The power draw touches neither the piles nor the alternation memory. */
  lemma ConsumePhaseKeeps(s: State)
    ensures var s1 := ConsumePhase(s);
      s1.blocksTopA == s.blocksTopA && s1.blocksTopB == s.blocksTopB &&
      s1.tiedBottomC == s.tiedBottomC && s1.tiedBottomD == s.tiedBottomD &&
      s1.storageLeft == s.storageLeft && s1.storageRight == s.storageRight &&
      s1.lastDropSide == s.lastDropSide && DropEntries(s1) == DropEntries(s)
  {
  }

  lemma DropPhaseLogs(s: State)
    ensures DropPhase(s).logs == LastN(s.logs + DropEntries(s), MAX_LOGS) || (DropEntries(s) == [] && DropPhase(s).logs == s.logs)
    ensures TotalStorage(DropPhase(s)) == TotalStorage(s) + if DropEntries(s) == [] then 0 else 10
  {
    var choice := ChooseDrop(s.blocksTopA, s.blocksTopB, s.lastDropSide);
    if choice.Some? {
      match choice.value
      case Left =>
      case Right =>
    }
  }

  lemma CyclePhaseLogs(s: State)
    ensures CyclePhase(s).logs == LastN(s.logs + CycleEntries(TotalStorage(s)), MAX_LOGS) ||
            (CycleEntries(TotalStorage(s)) == [] && CyclePhase(s).logs == s.logs)
  {
  }

  /** After a step the log holds at most MAX_LOGS entries, and they are the most recent
      entries of the old log followed by this step's entries. */
  lemma {:induction false} NextLogs(s: State)
    ensures Next(s).logs == LastN(s.logs + StepEntries(s), MAX_LOGS)
    ensures |Next(s).logs| <= MAX_LOGS
  {
    var s1 := ConsumePhase(s);
    var s2 := DropPhase(s1);
    var l0 := s.logs + [StateLog(s.stepCount + 1)];
    assert s1.logs == LastN(l0, MAX_LOGS);
    var d := DropEntries(s1);
    DropPhaseLogs(s1);
    if d == [] { assert l0 + d == l0; }
    LastNAppend(l0, d, MAX_LOGS);
    assert s2.logs == LastN(l0 + d, MAX_LOGS);
    var c := CycleEntries(TotalStorage(s2));
    CyclePhaseLogs(s2);
    if c == [] { assert l0 + d + c == l0 + d; }
    LastNAppend(l0 + d, c, MAX_LOGS);
    assert Next(s).logs == LastN(l0 + d + c, MAX_LOGS);
    ConsumePhaseKeeps(s);
    assert StepEntries(s) == [StateLog(s.stepCount + 1)] + d + c;
    assert s.logs + StepEntries(s) == l0 + d + c;
  }

  /** Drop selection and its effect on the piles, as seen across a whole step. */
  lemma NextDrop(s: State)
    ensures var choice := ChooseDrop(s.blocksTopA, s.blocksTopB, s.lastDropSide);
      match choice
      case None =>
        // no drop: top and tied counts and the alternation memory are unchanged, and so
        // are the storages unless they had already reached the threshold
        Next(s).blocksTopA == s.blocksTopA && Next(s).blocksTopB == s.blocksTopB &&
        Next(s).tiedBottomC == s.tiedBottomC && Next(s).tiedBottomD == s.tiedBottomD &&
        Next(s).lastDropSide == s.lastDropSide &&
        (TotalStorage(s) < STORAGE_THRESHOLD ==>
           Next(s).storageLeft == s.storageLeft && Next(s).storageRight == s.storageRight)
      case Some(side) =>
        Next(s).lastDropSide == Some(side) &&
        Top(Next(s), side) == Top(s, side) - 2 &&
        Tied(Next(s), side) == Tied(s, side) + 1 &&
        Top(Next(s), Opposite(side)) == Top(s, Opposite(side)) + Tied(s, Opposite(side)) + 1 &&
        Tied(Next(s), Opposite(side)) == 0 &&
        (if TotalStorage(s) + 10 < STORAGE_THRESHOLD then
           Storage(Next(s), side) == Storage(s, side) + 10 &&
           Storage(Next(s), Opposite(side)) == Storage(s, Opposite(side))
         else
           Next(s).storageLeft == 0 && Next(s).storageRight == 0)
  {
    var s1 := ConsumePhase(s);
    assert Top(s1, Left) == Top(s, Left) && Top(s1, Right) == Top(s, Right);
    assert Tied(s1, Left) == Tied(s, Left) && Tied(s1, Right) == Tied(s, Right);
    assert Storage(s1, Left) == Storage(s, Left) && Storage(s1, Right) == Storage(s, Right);
  }

  /** The big cycle fires exactly when the storages reach 80 kg after the drop phase;
      it empties both storages and leaves battery 2 no fuller than it was. */
  lemma NextBigCycle(s: State)
    requires s.storageLeft >= 0 && s.storageRight >= 0
    ensures var choice := ChooseDrop(s.blocksTopA, s.blocksTopB, s.lastDropSide);
      var stored := TotalStorage(s) + if choice.Some? then 10 else 0;
      var before := ConsumePhase(s).battery2;
      if stored >= STORAGE_THRESHOLD then
        Next(s).storageLeft == 0 && Next(s).storageRight == 0 &&
        (before >= 0.0 ==> Next(s).battery2 <= before)
      else
        TotalStorage(Next(s)) == stored && Next(s).battery2 == before
  {
    var s1 := ConsumePhase(s);
    var choice := ChooseDrop(s.blocksTopA, s.blocksTopB, s.lastDropSide);
    if choice.Some? {
      var s2 := Drop(s1, choice.value);
      assert TotalStorage(s2) == TotalStorage(s) + 10 by {
        match choice.value
        case Left =>
        case Right =>
      }
    }
  }

  /** Mass in blocks: a drop adds exactly one block (10 kg), and a big cycle removes
      everything that was stored. */
  lemma NextMass(s: State)
    requires s.storageLeft % 10 == 0 && s.storageRight % 10 == 0
    ensures var choice := ChooseDrop(s.blocksTopA, s.blocksTopB, s.lastDropSide);
      var dropped := if choice.Some? then 10 else 0;
      var stored := TotalStorage(s) + dropped;
      TotalMass(Next(s)) == TotalMass(s) + dropped - (if stored >= STORAGE_THRESHOLD then stored else 0)
  {
    var s1 := ConsumePhase(s);
    var s2 := DropPhase(s1);
    var choice := ChooseDrop(s.blocksTopA, s.blocksTopB, s.lastDropSide);
    assert TotalMass(s1) == TotalMass(s);
    assert s2.storageLeft % 10 == 0 && s2.storageRight % 10 == 0 &&
           TotalStorage(s2) == TotalStorage(s) + (if choice.Some? then 10 else 0) by {
      if choice.Some? {
        match choice.value
        case Left =>
        case Right =>
      }
    }
    assert 10 * (s2.storageLeft / 10 + s2.storageRight / 10) == TotalStorage(s2);
  }

  /** The loose blocks (top piles and tied points) are only rearranged by a step. */
  lemma NextLooseBlocks(s: State)
    ensures LooseBlocks(Next(s)) == LooseBlocks(s)
  {
    var s1 := ConsumePhase(s);
    assert LooseBlocks(s1) == LooseBlocks(s);
  }

  /** Every step bumps the counter by one; the generator turns 70.632 degrees per drop
      and 0.35316 degrees per stored kg in a big cycle, so it never turns backwards. */
  lemma NextBookkeeping(s: State)
    requires s.storageLeft >= 0 && s.storageRight >= 0
    ensures Next(s).stepCount == s.stepCount + 1
    ensures var choice := ChooseDrop(s.blocksTopA, s.blocksTopB, s.lastDropSide);
      var stored := TotalStorage(s) + if choice.Some? then 10 else 0;
      Next(s).generatorAngle ==
        s.generatorAngle + (if choice.Some? then 70.632 else 0.0) +
        (if stored >= STORAGE_THRESHOLD then (stored as real) * 0.35316 else 0.0)
    ensures Next(s).generatorAngle >= s.generatorAngle
  {
    var s1 := ConsumePhase(s);
    var choice := ChooseDrop(s.blocksTopA, s.blocksTopB, s.lastDropSide);
    if choice.Some? {
      assert TotalStorage(Drop(s1, choice.value)) == TotalStorage(s) + 10 by {
        match choice.value
        case Left =>
        case Right =>
      }
    }
  }

  /** Battery 1 only loses to the houses and gains from drops, battery 2 only loses
      to the houses and the lift; both stay within [0, 100], and houses_lit is the
      state of the batteries right after the power draw, before any drop. */
  lemma NextBatteries(s: State)
    requires 0.0 <= s.battery1 <= 100.0 && 0.0 <= s.battery2 <= 100.0
    requires s.storageLeft >= 0 && s.storageRight >= 0
    ensures 0.0 <= Next(s).battery1 <= 100.0 && 0.0 <= Next(s).battery2 <= 100.0
    ensures var b := Consume(s.battery1, s.battery2);
      Next(s).housesLit == (b.0 > 0.0 || b.1 > 0.0) &&
      Next(s).battery2 <= b.1 &&
      Next(s).battery1 == (if ChooseDrop(s.blocksTopA, s.blocksTopB, s.lastDropSide).Some?
                           then Min(b.0 + 19.62, 100.0) else b.0)
  {
    var s1 := ConsumePhase(s);
    var s2 := DropPhase(s1);
    assert s2.battery2 == s1.battery2 && TotalStorage(s2) >= 0;
  }

  /** A step keeps every bound in `Inv`; in particular the storages stay at or below
      70 kg, because a drop adds 10 kg and a total of 80 kg or more is emptied. */
  lemma NextInv(s: State)
    requires Inv(s)
    ensures Inv(Next(s))
  {
    var s1 := ConsumePhase(s);
    var s2 := DropPhase(s1);
    var choice := ChooseDrop(s.blocksTopA, s.blocksTopB, s.lastDropSide);
    assert s2.blocksTopA >= 0 && s2.blocksTopB >= 0 && s2.tiedBottomC >= 0 && s2.tiedBottomD >= 0 &&
           s2.storageLeft % 10 == 0 && s2.storageRight % 10 == 0 &&
           s2.storageLeft >= 0 && s2.storageRight >= 0 &&
           TotalStorage(s2) <= TotalStorage(s) + 10 by {
      if choice.Some? {
        match choice.value
        case Left =>
        case Right =>
      }
    }
    NextBatteries(s);
    NextLogs(s);
    NextBookkeeping(s);
    assert TotalStorage(s2) < STORAGE_THRESHOLD ==> TotalStorage(s2) <= STORAGE_THRESHOLD - 10;
  }

  /** The block cap survives stepping: the loose blocks never change, so the top piles
      cannot outgrow MAX_TOTAL_BLOCKS even though a drop adds a block from nowhere. */
  lemma NextCapped(s: State)
    requires Capped(s)
    ensures Capped(Next(s))
    ensures Next(s).blocksTopA + Next(s).blocksTopB <= MAX_TOTAL_BLOCKS
  {
    NextInv(s);
    NextLooseBlocks(s);
  }

  /** When both piles can drop, two consecutive steps drop from opposite sides: the
      first picks left exactly when right dropped last, the second the other side. */
  lemma Alternation(s: State)
    requires s.blocksTopA >= 2 && s.blocksTopB >= 2
    requires s.tiedBottomC >= 0 && s.tiedBottomD >= 0
    ensures var first := if s.lastDropSide == Some(Right) then Left else Right;
      Next(s).lastDropSide == Some(first) &&
      Next(Next(s)).lastDropSide == Some(Opposite(first))
  {
    var first := if s.lastDropSide == Some(Right) then Left else Right;
    NextDrop(s);
    var t := Next(s);
    assert Top(t, Opposite(first)) >= 3;
    assert t.tiedBottomC >= 0 && t.tiedBottomD >= 0;
    NextDrop(t);
  }

  /** `n` steps in a row. */
  function Run(s: State, n: nat): State
    decreases n
  {
    if n == 0 then s else Next(Run(s, n - 1))
  }

  lemma RunNext(s: State, n: nat)
    ensures Run(s, n + 1) == Next(Run(s, n))
  {
  }

  /** Any number of steps from a capped state keeps the bounds and the block cap. */
  lemma {:induction false} RunCapped(s: State, n: nat)
    requires Capped(s)
    ensures Capped(Run(s, n))
    decreases n
  {
    if n > 0 {
      RunCapped(s, n - 1);
      NextCapped(Run(s, n - 1));
    }
  }

  /** Any number of steps advances the step counter by exactly the number of steps and
      never turns the generator backwards. */
  lemma {:induction false} RunBookkeeping(s: State, n: nat)
    requires s.storageLeft >= 0 && s.storageRight >= 0
    ensures Run(s, n).stepCount == s.stepCount + n
    ensures Run(s, n).storageLeft >= 0 && Run(s, n).storageRight >= 0
    ensures Run(s, n).generatorAngle >= s.generatorAngle
    decreases n
  {
    if n > 0 {
      RunBookkeeping(s, n - 1);
      NextBookkeeping(Run(s, n - 1));
      NextStorageNonNegative(Run(s, n - 1));
    }
  }

  /** The storages never go negative. */
  lemma NextStorageNonNegative(s: State)
    requires s.storageLeft >= 0 && s.storageRight >= 0
    ensures Next(s).storageLeft >= 0 && Next(s).storageRight >= 0
  {
    var s1 := ConsumePhase(s);
    var choice := ChooseDrop(s.blocksTopA, s.blocksTopB, s.lastDropSide);
    if choice.Some? {
      match choice.value
      case Left =>
      case Right =>
    }
  }

  /** Start yields a capped state from any state whose top piles are within the cap. */
  lemma StartedCapped(s: State)
    requires s.blocksTopA >= 0 && s.blocksTopB >= 0
    requires s.blocksTopA + s.blocksTopB <= MAX_TOTAL_BLOCKS
    requires s.generatorAngle >= 0.0
    ensures Capped(Started(s))
    ensures Started(Started(s)) == Started(s)
  {
  }

  /** Start keeps the bounds: it zeroes what `Inv` bounds except the piles and the
      generator, which it leaves as they were. */
  lemma StartedInv(s: State)
    requires Inv(s)
    ensures Inv(Started(s))
  {
  }

  /** An accepted reconfiguration always respects the cap, a rejected one keeps the old
      piles; either way the bounds of `Inv` survive for inputs the widgets allow. */
  lemma ReconfiguredInv(s: State, blocksA: int, blocksB: int)
    requires Inv(s)
    requires 0 <= blocksA <= MAX_TOTAL_BLOCKS && 0 <= blocksB <= MAX_TOTAL_BLOCKS
    ensures Inv(Reconfigured(s, blocksA, blocksB).0)
    ensures var r := Reconfigured(s, blocksA, blocksB).0;
      s.blocksTopA + s.blocksTopB <= MAX_TOTAL_BLOCKS ==> r.blocksTopA + r.blocksTopB <= MAX_TOTAL_BLOCKS
    ensures Capped(s) && s.tiedBottomC == 0 && s.tiedBottomD == 0 ==>
      Capped(Reconfigured(s, blocksA, blocksB).0)
  {
  }

  /** Start with the default piles (1, 2), then step once: only B can drop, so the
      right side drops 20 kg and battery 1 reaches 19.62 %. */
  lemma FirstStepScenario()
    ensures var r := Next(Started(Initial()));
      r.lastDropSide == Some(Right) &&
      r.blocksTopB == 0 && r.blocksTopA == 2 &&
      r.storageRight == 10 && r.storageLeft == 0 &&
      r.tiedBottomD == 1 && r.tiedBottomC == 0 &&
      r.battery1 == 19.62 && r.battery2 == 0.0 &&
      r.generatorAngle == 70.632 && r.stepCount == 1 && !r.housesLit
  {
  }

  /** Start from the defaults is where the eight-step run below begins. */
  lemma DefaultStartPosition()
    ensures CyclePosition(Started(Initial()), 0)
  {
  }

  /** With 40 kg stored on each side and nothing to drop, the next step runs the big
      cycle and empties both storages. */
  lemma BigCycleScenario(s: State)
    requires s.storageLeft == 40 && s.storageRight == 40
    requires s.blocksTopA < 2 && s.blocksTopB < 2
    ensures Next(s).storageLeft == 0 && Next(s).storageRight == 0
    ensures |Next(s).logs| > 0 && Next(s).logs[|Next(s).logs| - 1] == BigCycleLog(80)
  {
    NextLogs(s);
    assert StepEntries(s) == [StateLog(s.stepCount + 1), BigCycleStartLog(80), BigCycleLog(80)];
  }

  /** Piles (2, 0) with one block tied under the right: the left side drops. */
  lemma LeftDropOfCycle(s: State)
    requires s.blocksTopA == 2 && s.blocksTopB == 0 && s.tiedBottomC == 0 && s.tiedBottomD == 1
    requires s.storageLeft >= 0 && s.storageRight >= 0 && TotalStorage(s) < STORAGE_THRESHOLD
    ensures var r := Next(s);
      r.blocksTopA == 0 && r.blocksTopB == 2 && r.tiedBottomC == 1 && r.tiedBottomD == 0 &&
      r.storageLeft >= 0 && r.storageRight >= 0 && r.stepCount == s.stepCount + 1 &&
      TotalStorage(r) == (if TotalStorage(s) + 10 < STORAGE_THRESHOLD then TotalStorage(s) + 10 else 0)
  {
    NextDrop(s);
    NextBigCycle(s);
    NextBookkeeping(s);
  }

  /** Piles (0, 2), or the default (1, 2), with nothing tied under the right: the right
      side drops. */
  lemma RightDropOfCycle(s: State)
    requires s.blocksTopA < 2 && s.blocksTopB == 2 && s.tiedBottomC == 1 - s.blocksTopA && s.tiedBottomD == 0
    requires s.storageLeft >= 0 && s.storageRight >= 0 && TotalStorage(s) < STORAGE_THRESHOLD
    ensures var r := Next(s);
      r.blocksTopA == 2 && r.blocksTopB == 0 && r.tiedBottomC == 0 && r.tiedBottomD == 1 &&
      r.storageLeft >= 0 && r.storageRight >= 0 && r.stepCount == s.stepCount + 1 &&
      TotalStorage(r) == (if TotalStorage(s) + 10 < STORAGE_THRESHOLD then TotalStorage(s) + 10 else 0)
  {
    NextDrop(s);
    NextBigCycle(s);
    NextBookkeeping(s);
  }

  /** The piles of the default run after `k` alternating drops, before any big cycle. */
  predicate CyclePosition(t: State, k: nat)
  {
    t.storageLeft >= 0 && t.storageRight >= 0 && TotalStorage(t) == 10 * k && t.stepCount == k &&
    if k % 2 == 0 then
      t.blocksTopA == (if k == 0 then 1 else 0) && t.blocksTopB == 2 &&
      t.tiedBottomC == 1 - t.blocksTopA && t.tiedBottomD == 0
    else
      t.blocksTopA == 2 && t.blocksTopB == 0 && t.tiedBottomC == 0 && t.tiedBottomD == 1
  }

  /** From the default piles after Start, each of the first seven steps drops, the sides
      alternate and the storages grow by 10 kg a step. */
  lemma {:induction false} SevenSteps(s: State, k: nat)
    requires CyclePosition(s, 0)
    requires k <= 7
    ensures CyclePosition(Run(s, k), k)
    decreases k
  {
    if k > 0 {
      SevenSteps(s, k - 1);
      StepOfCycle(Run(s, k - 1), k - 1);
    }
  }

  /** One step of the default run advances it to the next position. */
  lemma StepOfCycle(t: State, j: nat)
    requires CyclePosition(t, j) && j < 7
    ensures CyclePosition(Next(t), j + 1)
  {
    if j % 2 == 0 {
      RightDropOfCycle(t);
    } else {
      LeftDropOfCycle(t);
    }
  }

  /** The eighth drop of the default run brings the storages to 80 kg and runs the big
      cycle, whose entry closes the log. */
  lemma EighthStep(t: State)
    requires CyclePosition(t, 7)
    ensures var r := Next(t);
      r.storageLeft == 0 && r.storageRight == 0 && r.stepCount == 8 &&
      r.blocksTopA == 0 && r.blocksTopB == 2 &&
      |r.logs| > 0 && r.logs[|r.logs| - 1] == BigCycleLog(80)
  {
    LeftDropOfCycle(t);
    NextLogs(t);
    assert DropEntries(t) == [DropLog(Left, 1), AddLog(Right)];
    assert StepEntries(t) == [StateLog(8), DropLog(Left, 1), AddLog(Right), BigCycleStartLog(80), BigCycleLog(80)];
  }

  /** The eighth step of the default run runs the big cycle. */
  lemma EightStepsEmptyStorage(s: State)
    requires CyclePosition(s, 0)
    ensures var r := Run(s, 8);
      r.storageLeft == 0 && r.storageRight == 0 && r.stepCount == 8 &&
      |r.logs| > 0 && r.logs[|r.logs| - 1] == BigCycleLog(80)
  {
    SevenSteps(s, 7);
    RunNext(s, 7);
    EighthStep(Run(s, 7));
  }

  /** From the default piles after Start, seven drops store 70 kg and the eighth
      reaches 80 kg and runs the big cycle, emptying the storages. */
  lemma EightStepScenario(s: State)
    requires CyclePosition(s, 0)
    ensures forall k: nat :: 1 <= k <= 7 ==> TotalStorage(Run(s, k)) == 10 * k
    ensures var r := Run(s, 8);
      r.storageLeft == 0 && r.storageRight == 0 && r.stepCount == 8 &&
      |r.logs| > 0 && r.logs[|r.logs| - 1] == BigCycleLog(80)
  {
    forall k: nat | 1 <= k <= 7
      ensures TotalStorage(Run(s, k)) == 10 * k
    {
      SevenSteps(s, k);
    }
    EightStepsEmptyStorage(s);
  }
}
