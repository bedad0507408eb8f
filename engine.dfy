/** The step engine: one rerun of the simulation block (appp.py:218-358) as a function
    from the old session state to the new one, split into the phases the code runs in
    order, together with the Start reset and the reconfiguration of the top piles. */
module StepEngine {
  import opened Constants
  import opened SimState

  /** Energy held by the two batteries, in joules. */
  function Joules(b1: real, b2: real): real
  {
    (b1 / 100.0) * B1_CAPACITY + (b2 / 100.0) * B2_CAPACITY
  }

  /** Power draw of one step, battery 1 first and then battery 2 (appp.py:225-236).
      Result: the new (battery1, battery2) percentages. */
  function Consume(b1: real, b2: real): (r: (real, real))
    // battery 1 can cover the draw: it loses 2 % and battery 2 is untouched
    ensures b1 >= 2.0 ==> r == (b1 - 2.0, b2)
    // battery 1 runs out: battery 2 pays the shortfall, never going below zero
    ensures 0.0 < b1 < 2.0 ==> r == (0.0, Max(b2 - (2.0 - b1) / 10.0, 0.0))
    // battery 1 is empty: battery 2 pays the whole 2 kJ, i.e. 0.2 %
    ensures b1 <= 0.0 ==> r == (b1, Max(b2 - 0.2, 0.0))
    // on charges within [0, 100] exactly 2 kJ leave the batteries, or they end up empty
    ensures 0.0 <= b1 <= 100.0 && 0.0 <= b2 <= 100.0 ==>
              0.0 <= r.0 <= b1 && 0.0 <= r.1 <= b2 &&
              Joules(r.0, r.1) == Max(Joules(b1, b2) - POWER_CONSUMPTION_RATE, 0.0)
  {
    if b1 > 0.0 then
      var b1Joules := (b1 / 100.0) * B1_CAPACITY;
      if b1Joules >= POWER_CONSUMPTION_RATE then
        (b1 - (POWER_CONSUMPTION_RATE / B1_CAPACITY) * 100.0, b2)
      else
        var remaining := POWER_CONSUMPTION_RATE - b1Joules;
        (0.0, Max(b2 - (remaining / B2_CAPACITY) * 100.0, 0.0))
    else
      (b1, Max(b2 - (POWER_CONSUMPTION_RATE / B2_CAPACITY) * 100.0, 0.0))
  }

  /** Which side drops, given the two top piles and the side that dropped last
      (appp.py:255-303). */
  function ChooseDrop(a: int, b: int, last: Option<Side>): (r: Option<Side>)
    // a side drops only when its pile holds two blocks, and one drops whenever one can
    ensures r == Some(Left) ==> a >= 2
    ensures r == Some(Right) ==> b >= 2
    ensures r == None <==> a < 2 && b < 2
    // when both can drop, left is chosen exactly when right dropped last
    ensures a >= 2 && b >= 2 ==> (r == Some(Left) <==> last == Some(Right))
  {
    if a >= 2 && b < 2 then Some(Left)
    else if b >= 2 && a < 2 then Some(Right)
    else if a >= 2 && b >= 2 then
      if last == Some(Right) then Some(Left) else Some(Right)
    else None
  }

  /** The block moves of a drop from `side` (appp.py:258-265 for left, 270-277 for
      right): two blocks leave the top pile, ten kg go to storage and one block is
      tied, and the opposite tied blocks are lifted onto the opposite top pile. */
  function Move(s: State, side: Side): State
  {
    match side
    case Left =>
      s.(blocksTopA := s.blocksTopA - 2,
         storageLeft := s.storageLeft + 10,
         tiedBottomC := s.tiedBottomC + 1,
         blocksTopB := s.blocksTopB + s.tiedBottomD,
         tiedBottomD := 0,
         lastDropSide := Some(Left))
    case Right =>
      s.(blocksTopB := s.blocksTopB - 2,
         storageRight := s.storageRight + 10,
         tiedBottomD := s.tiedBottomD + 1,
         blocksTopA := s.blocksTopA + s.tiedBottomC,
         tiedBottomC := 0,
         lastDropSide := Some(Right))
  }

  /** What follows every drop (appp.py:305-325): battery 1 is charged with the drop's
      energy, the generator turns, the two action entries are logged and one new
      block appears on the side opposite the drop. */
  function Generate(s: State, side: Side, lifted: int): State
  {
    var energyJoules := DROP_ENERGY;
    var s1 := s.(battery1 := Min(s.battery1 + (energyJoules / B1_CAPACITY) * 100.0, 100.0),
                 generatorAngle := s.generatorAngle + (energyJoules / B1_CAPACITY) * 360.0);
    var opposite := Opposite(side);
    var s2 := match opposite
              case Left => s1.(blocksTopA := s1.blocksTopA + 1)
              case Right => s1.(blocksTopB := s1.blocksTopB + 1);
    s2.(logs := LastN(s2.logs + [DropLog(side, lifted), AddLog(opposite)], MAX_LOGS))
  }

  /** A complete small drop from `side`. */
  function Drop(s: State, side: Side): (r: State)
    ensures Top(r, side) == Top(s, side) - 2
    ensures Storage(r, side) == Storage(s, side) + 10
    ensures Tied(r, side) == Tied(s, side) + 1
    ensures Top(r, Opposite(side)) == Top(s, Opposite(side)) + Tied(s, Opposite(side)) + 1
    ensures Tied(r, Opposite(side)) == 0
    ensures Storage(r, Opposite(side)) == Storage(s, Opposite(side))
    ensures r.lastDropSide == Some(side)
    // 20 kg over 100 m gives 19620 J: +19.62 % on battery 1, +70.632 degrees
    ensures r.battery1 == Min(s.battery1 + 19.62, 100.0)
    ensures r.generatorAngle == s.generatorAngle + 70.632
    ensures r.logs == LastN(s.logs + [DropLog(side, Tied(s, Opposite(side))), AddLog(Opposite(side))], MAX_LOGS)
    // one block comes from nowhere, and the loose blocks are only rearranged
    ensures TotalMass(r) == TotalMass(s) + 10
    ensures LooseBlocks(r) == LooseBlocks(s)
    ensures r.battery2 == s.battery2 && r.housesLit == s.housesLit && r.stepCount == s.stepCount
  {
    match side
    case Left => Generate(Move(s, Left), Left, s.tiedBottomD)
    case Right => Generate(Move(s, Right), Right, s.tiedBottomC)
  }

  /** The big cycle (appp.py:337-352): the stored mass falls and charges battery 2,
      lifting it back costs twice that energy from battery 2, and both storages are
      emptied without returning any block to the top piles. */
  function BigCycle(s: State): (r: State)
    ensures r.storageLeft == 0 && r.storageRight == 0
    ensures r.blocksTopA == s.blocksTopA && r.blocksTopB == s.blocksTopB
    ensures r.tiedBottomC == s.tiedBottomC && r.tiedBottomD == s.tiedBottomD
    // the stored mass leaves the system
    ensures TotalMass(r) == TotalMass(s) - 10 * (s.storageLeft / 10 + s.storageRight / 10)
    // each kg stored turns the generator by 981 J / 1 MJ of a turn
    ensures r.generatorAngle == s.generatorAngle + (TotalStorage(s) as real) * 0.35316
    // battery 2 stays within [0, 100] and never gains: the lift costs double the gain
    ensures r.battery2 >= 0.0
    ensures TotalStorage(s) >= 0 && s.battery2 >= 0.0 ==> r.battery2 <= s.battery2
    ensures r.battery2 == Max(Min(s.battery2 + (TotalStorage(s) as real) * 0.0981, 100.0)
                          - (TotalStorage(s) as real) * 0.1962, 0.0)
    ensures r.logs == LastN(s.logs + [BigCycleStartLog(TotalStorage(s)), BigCycleLog(TotalStorage(s))], MAX_LOGS)
    ensures r.battery1 == s.battery1 && r.housesLit == s.housesLit && r.stepCount == s.stepCount
    ensures r.lastDropSide == s.lastDropSide
  {
    var totalStorage := s.storageLeft + s.storageRight;
    var energyGenerated := (totalStorage as real) * GRAVITY * HEIGHT;
    var b2 := Min(s.battery2 + (energyGenerated / B2_CAPACITY) * 100.0, 100.0);
    var angle := s.generatorAngle + (energyGenerated / B2_CAPACITY) * 360.0;
    var liftEnergyCost := ((totalStorage as real) * GRAVITY * HEIGHT) / LIFT_ENERGY_EFFICIENCY;
    var b2' := Max(b2 - (liftEnergyCost / B2_CAPACITY) * 100.0, 0.0);
    s.(battery2 := b2', generatorAngle := angle, storageLeft := 0, storageRight := 0,
       logs := LastN(s.logs + [BigCycleStartLog(totalStorage), BigCycleLog(totalStorage)], MAX_LOGS))
  }

  /** Phase 1 (appp.py:225-252): power draw, houses_lit, step counter and state log. */
  function ConsumePhase(s: State): State
  {
    var b := Consume(s.battery1, s.battery2);
    var count := s.stepCount + 1;
    s.(battery1 := b.0, battery2 := b.1, housesLit := b.0 > 0.0 || b.1 > 0.0,
       stepCount := count, logs := LastN(s.logs + [StateLog(count)], MAX_LOGS))
  }

  /** Phase 2 (appp.py:254-328): at most one small drop. */
  function DropPhase(s: State): State
  {
    var choice := ChooseDrop(s.blocksTopA, s.blocksTopB, s.lastDropSide);
    if choice.Some? then Drop(s, choice.value) else s
  }

  /** Phase 3 (appp.py:330-354): the big cycle when the storages reach the threshold. */
  function CyclePhase(s: State): State
  {
    if TotalStorage(s) >= STORAGE_THRESHOLD then BigCycle(s) else s
  }

  /** One simulation step (appp.py:218-358), with the animations left out. */
  function Next(s: State): State
  {
    CyclePhase(DropPhase(ConsumePhase(s)))
  }

  /** The session state before any button is pressed (appp.py:20-49). */
  function Initial(): (r: State)
    ensures Capped(r)
  {
    State(1, 2, 0, 0, 0, 0, 0.0, 0.0, 0.0, false, [], 0, None)
  }

  /** The Start button (appp.py:164-174). */
  function Started(s: State): (r: State)
    // the logs, the counter, both batteries, both storages and both tied counts are zeroed
    ensures r.logs == [] && r.stepCount == 0
    ensures r.battery1 == 0.0 && r.battery2 == 0.0
    ensures r.storageLeft == 0 && r.storageRight == 0
    ensures r.tiedBottomC == 0 && r.tiedBottomD == 0
    // the top piles, the generator, houses_lit and the alternation memory are kept
    ensures r.blocksTopA == s.blocksTopA && r.blocksTopB == s.blocksTopB
    ensures r.generatorAngle == s.generatorAngle && r.lastDropSide == s.lastDropSide
    ensures r.housesLit == s.housesLit
  {
    s.(logs := [], stepCount := 0, battery1 := 0.0, battery2 := 0.0,
       storageLeft := 0, storageRight := 0, tiedBottomC := 0, tiedBottomD := 0)
  }

  /** The reconfiguration of the top piles (appp.py:182-186). The flag says whether
      the new piles were accepted; on rejection the state is unchanged. */
  function Reconfigured(s: State, blocksA: int, blocksB: int): (r: (State, bool))
    ensures r.1 <==> blocksA + blocksB <= MAX_TOTAL_BLOCKS
    ensures r.1 ==> r.0 == s.(blocksTopA := blocksA, blocksTopB := blocksB)
    ensures !r.1 ==> r.0 == s
  {
    if blocksA + blocksB <= MAX_TOTAL_BLOCKS then
      (s.(blocksTopA := blocksA, blocksTopB := blocksB), true)
    else
      (s, false)
  }
}
