/** The Streamlit session of the simulation: one object whose fields are the entries of
    `st.session_state`, updated in place by the Start button, the pile inputs and the
    simulation block that runs on every rerun. */
module Session {
  import opened Constants
  import opened SimState
  import opened StepEngine
  import Properties

  class Simulation {
    var blocksTopA: int
    var blocksTopB: int
    var tiedBottomC: int
    var tiedBottomD: int
    var storageLeft: int
    var storageRight: int
    var battery1: real
    var battery2: real
    var generatorAngle: real
    var housesLit: bool
    var logs: seq<LogEntry>
    var stepCount: int
    var lastDropSide: Option<Side>
    /** Whether the simulation block runs on the next rerun. */
    var running: bool

    /** The session state as a value. */
    function Snapshot(): State
      reads this
    {
      State(blocksTopA, blocksTopB, tiedBottomC, tiedBottomD, storageLeft, storageRight,
            battery1, battery2, generatorAngle, housesLit, logs, stepCount, lastDropSide)
    }

    /** The bounds that every operation of the session keeps. */
    predicate Valid()
      reads this
    {
      Inv(Snapshot())
    }

    /** The first render fills in the defaults (appp.py:20-49). */
    constructor ()
      ensures Snapshot() == Initial() && !running
      ensures Valid() && Capped(Snapshot())
    {
      blocksTopA := 1;
      blocksTopB := 2;
      tiedBottomC := 0;
      tiedBottomD := 0;
      storageLeft := 0;
      storageRight := 0;
      battery1 := 0.0;
      battery2 := 0.0;
      generatorAngle := 0.0;
      housesLit := false;
      running := false;
      logs := [];
      stepCount := 0;
      lastDropSide := None;
    }

    /** The Start button (appp.py:164-174). */
    method Start()
      modifies this
      ensures Snapshot() == Started(old(Snapshot()))
      ensures running
      ensures old(Valid()) ==> Valid()
      ensures (blocksTopA >= 0 && blocksTopB >= 0 && blocksTopA + blocksTopB <= MAX_TOTAL_BLOCKS &&
               generatorAngle >= 0.0) ==> Capped(Snapshot())
    {
      ghost var s0 := Snapshot();
      running := true;
      logs := [];
      stepCount := 0;
      battery1 := 0.0;
      battery2 := 0.0;
      storageLeft := 0;
      storageRight := 0;
      tiedBottomC := 0;
      tiedBottomD := 0;
      assert Snapshot() == Started(s0);
      if Inv(s0) {
        Properties.StartedInv(s0);
      }
      if blocksTopA >= 0 && blocksTopB >= 0 && blocksTopA + blocksTopB <= MAX_TOTAL_BLOCKS &&
         generatorAngle >= 0.0 {
        Properties.StartedCapped(s0);
      }
    }

    /** The Stop button (appp.py:175-177). */
    method Stop()
      modifies this`running
      ensures !running
    {
      running := false;
    }

    /** The two pile inputs (appp.py:180-186): each widget yields 0..MAX_TOTAL_BLOCKS,
        and the pair is applied only when it fits within the cap. */
    method Reconfigure(blocksA: int, blocksB: int) returns (accepted: bool)
      requires 0 <= blocksA <= MAX_TOTAL_BLOCKS && 0 <= blocksB <= MAX_TOTAL_BLOCKS
      modifies this
      ensures (Snapshot(), accepted) == Reconfigured(old(Snapshot()), blocksA, blocksB)
      ensures running == old(running)
      ensures old(Valid()) ==> Valid()
    {
      if blocksA + blocksB <= MAX_TOTAL_BLOCKS {
        blocksTopA := blocksA;
        blocksTopB := blocksB;
        accepted := true;
      } else {
        accepted := false;
      }
      if old(Valid()) {
        Properties.ReconfiguredInv(old(Snapshot()), blocksA, blocksB);
      }
    }

    /** One rerun of the simulation block (appp.py:218-358), without the animations:
        a whole step when the simulation is running, nothing otherwise. */
    method Step()
      modifies this
      ensures Snapshot() == if old(running) then Next(old(Snapshot())) else old(Snapshot())
      ensures running == old(running)
      ensures old(Valid()) ==> Valid()
      ensures old(Capped(Snapshot())) ==> Capped(Snapshot())
    {
      if !running {
        return;
      }
      ConsumePower();
      DropIfAble();
      BigCycleIfFull();
      if old(Valid()) {
        Properties.NextInv(old(Snapshot()));
      }
      if old(Capped(Snapshot())) {
        Properties.NextCapped(old(Snapshot()));
      }
    }

    /** The power draw, battery 1 first, then houses_lit, the step counter and the
        state log (appp.py:225-252). */
    method ConsumePower()
      modifies this
      ensures Snapshot() == ConsumePhase(old(Snapshot()))
      ensures running == old(running)
    {
      var consumedEnergy := POWER_CONSUMPTION_RATE;
      if battery1 > 0.0 {
        var b1Joules := (battery1 / 100.0) * B1_CAPACITY;
        if b1Joules >= consumedEnergy {
          battery1 := battery1 - (consumedEnergy / B1_CAPACITY) * 100.0;
        } else {
          battery1 := 0.0;
          var remainingConsumption := consumedEnergy - b1Joules;
          battery2 := Max(battery2 - (remainingConsumption / B2_CAPACITY) * 100.0, 0.0);
        }
      } else {
        battery2 := Max(battery2 - (consumedEnergy / B2_CAPACITY) * 100.0, 0.0);
      }
      housesLit := battery1 > 0.0 || battery2 > 0.0;
      stepCount := stepCount + 1;
      logs := LastN(logs + [StateLog(stepCount)], MAX_LOGS);
    }

    /** At most one small drop, its charge of battery 1, the generator turn and the
        replenishment block (appp.py:254-325). */
    method DropIfAble()
      modifies this
      ensures Snapshot() == DropPhase(old(Snapshot()))
      ensures running == old(running)
    {
      var dropped := false;
      var side: Side := Left;
      var lifted := 0;
      if blocksTopA >= 2 && blocksTopB < 2 {
        lifted := DropLeft();
        side := Left;
        dropped := true;
      } else if blocksTopB >= 2 && blocksTopA < 2 {
        lifted := DropRight();
        side := Right;
        dropped := true;
      } else if blocksTopA >= 2 && blocksTopB >= 2 {
        // alternate drops when both sides have two or more blocks
        if lastDropSide == Some(Right) {
          lifted := DropLeft();
          side := Left;
        } else {
          lifted := DropRight();
          side := Right;
        }
        dropped := true;
      }

      if dropped {
        GeneratePower(side, lifted);
      }
    }

    /** The charge of battery 1, the generator turn, the action log and the block added
        to the side opposite the drop (appp.py:305-325). */
    method GeneratePower(side: Side, lifted: int)
      modifies this
      ensures Snapshot() == Generate(old(Snapshot()), side, lifted)
      ensures running == old(running)
    {
      var energyJoules := DROP_ENERGY;
      battery1 := Min(battery1 + (energyJoules / B1_CAPACITY) * 100.0, 100.0);
      generatorAngle := generatorAngle + (energyJoules / B1_CAPACITY) * 360.0;
      var opposite := Opposite(side);
      // add one block to the opposite side
      if opposite == Left {
        blocksTopA := blocksTopA + 1;
      } else {
        blocksTopB := blocksTopB + 1;
      }
      logs := LastN(logs + [DropLog(side, lifted), AddLog(opposite)], MAX_LOGS);
    }

    /** The block moves of a drop from the left (appp.py:258-265). */
    method DropLeft() returns (lifted: int)
      modifies this
      ensures Snapshot() == Move(old(Snapshot()), Left)
      ensures lifted == old(tiedBottomD)
      ensures running == old(running)
    {
      blocksTopA := blocksTopA - 2;
      storageLeft := storageLeft + 10;
      tiedBottomC := tiedBottomC + 1;
      lifted := tiedBottomD;
      blocksTopB := blocksTopB + lifted;
      tiedBottomD := 0;
      lastDropSide := Some(Left);
    }

    /** The block moves of a drop from the right (appp.py:270-277). */
    method DropRight() returns (lifted: int)
      modifies this
      ensures Snapshot() == Move(old(Snapshot()), Right)
      ensures lifted == old(tiedBottomC)
      ensures running == old(running)
    {
      blocksTopB := blocksTopB - 2;
      storageRight := storageRight + 10;
      tiedBottomD := tiedBottomD + 1;
      lifted := tiedBottomC;
      blocksTopA := blocksTopA + lifted;
      tiedBottomC := 0;
      lastDropSide := Some(Right);
    }

    /** The big cycle once the storages hold 80 kg (appp.py:330-352). */
    method BigCycleIfFull()
      modifies this
      ensures Snapshot() == CyclePhase(old(Snapshot()))
      ensures running == old(running)
    {
      ghost var s0 := Snapshot();
      var totalStorage := storageLeft + storageRight;
      if totalStorage >= STORAGE_THRESHOLD {
        // power generation from dropping the stored blocks
        var energyGenerated := (totalStorage as real) * GRAVITY * HEIGHT;
        battery2 := Min(battery2 + (energyGenerated / B2_CAPACITY) * 100.0, 100.0);
        generatorAngle := generatorAngle + (energyGenerated / B2_CAPACITY) * 360.0;
        // power cost of lifting them back to the top
        var liftEnergyCost := ((totalStorage as real) * GRAVITY * HEIGHT) / LIFT_ENERGY_EFFICIENCY;
        battery2 := Max(battery2 - (liftEnergyCost / B2_CAPACITY) * 100.0, 0.0);
        storageLeft := 0;
        storageRight := 0;
        logs := LastN(logs + [BigCycleStartLog(totalStorage), BigCycleLog(totalStorage)], MAX_LOGS);
        assert Snapshot() == BigCycle(s0);
      }
    }
  }
}
