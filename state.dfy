/** The simulation state that the Streamlit session keeps between reruns, as a value. */
module SimState {
  import opened Constants

  datatype Option<T> = None | Some(value: T)

  /** The two sides of the seesaw: left is top pile A over bottom point C, right is
      top pile B over bottom point D. */
  datatype Side = Left | Right

  function Opposite(side: Side): (o: Side)
    ensures o != side
  {
    match side
    case Left => Right
    case Right => Left
  }

  /** Log entries are opaque apart from what kind of event they record. */
  datatype LogEntry =
    | StateLog(step: int)                   // the per-step state dump (appp.py:243-250)
    | DropLog(side: Side, lifted: int)      // a small drop from `side` lifting `lifted` blocks
    | AddLog(side: Side)                    // one replenishment block added on `side`
    | BigCycleStartLog(total: int)          // the big cycle was triggered with `total` kg stored
    | BigCycleLog(total: int)               // the big cycle finished

  /** One field per `st.session_state` entry that the step reads or writes.
      Block counts are in 10 kg blocks, storages in kg, batteries in percent. */
  datatype State = State(
    blocksTopA: int,
    blocksTopB: int,
    tiedBottomC: int,
    tiedBottomD: int,
    storageLeft: int,
    storageRight: int,
    battery1: real,
    battery2: real,
    generatorAngle: real,
    housesLit: bool,
    logs: seq<LogEntry>,
    stepCount: int,
    lastDropSide: Option<Side>)

  function Min(x: real, y: real): (m: real)
    ensures m <= x && m <= y && (m == x || m == y)
  {
    if x <= y then x else y
  }

  function Max(x: real, y: real): (m: real)
    ensures m >= x && m >= y && (m == x || m == y)
  {
    if x >= y then x else y
  }

  /** Python's `xs[-n:]` for a positive `n`: the last `n` elements of `xs`, or all of
      them when fewer. (For `n == 0` Python would keep the whole list.) */
  function LastN<T>(xs: seq<T>, n: nat): (r: seq<T>)
    requires n > 0
    ensures |r| == if |xs| <= n then |xs| else n
  {
    if |xs| <= n then xs else xs[|xs| - n..]
  }

  /** What `LastN` keeps is a suffix of its input: its last elements, in order. */
  lemma LastNSuffix<T>(xs: seq<T>, n: nat, i: nat)
    requires n > 0 && i < |LastN(xs, n)|
    ensures LastN(xs, n)[i] == xs[|xs| - |LastN(xs, n)| + i]
  {
  }

  /** The top pile of `side`. */
  function Top(s: State, side: Side): int
  {
    match side
    case Left => s.blocksTopA
    case Right => s.blocksTopB
  }

  /** The tied-bottom count under `side`. */
  function Tied(s: State, side: Side): int
  {
    match side
    case Left => s.tiedBottomC
    case Right => s.tiedBottomD
  }

  /** The long-term storage, in kg, under `side`. */
  function Storage(s: State, side: Side): int
  {
    match side
    case Left => s.storageLeft
    case Right => s.storageRight
  }

  function TotalStorage(s: State): int
  {
    s.storageLeft + s.storageRight
  }

  /** Total mass in kg as the status panel reports it (appp.py:194-196); Python's `//`
      with a positive divisor floors, and so does Dafny's `/`. */
  function TotalMass(s: State): int
  {
    (s.blocksTopA + s.blocksTopB + s.tiedBottomC + s.tiedBottomD +
     s.storageLeft / 10 + s.storageRight / 10) * 10
  }

  /** Blocks that are not in long-term storage: the two top piles and the two tied points. */
  function LooseBlocks(s: State): int
  {
    s.blocksTopA + s.blocksTopB + s.tiedBottomC + s.tiedBottomD
  }

  /** The bounds that every step keeps: non-negative counts, storages in whole blocks
      whose sum stays below the big-cycle threshold, batteries within [0, 100], a
      bounded log and a non-negative step counter and generator angle. */
  predicate Inv(s: State)
  {
    s.blocksTopA >= 0 && s.blocksTopB >= 0 &&
    s.tiedBottomC >= 0 && s.tiedBottomD >= 0 &&
    s.storageLeft >= 0 && s.storageRight >= 0 &&
    s.storageLeft % 10 == 0 && s.storageRight % 10 == 0 &&
    TotalStorage(s) <= STORAGE_THRESHOLD - 10 &&
    0.0 <= s.battery1 <= 100.0 && 0.0 <= s.battery2 <= 100.0 &&
    |s.logs| <= MAX_LOGS &&
    s.stepCount >= 0 && s.generatorAngle >= 0.0
  }

  /** `Inv` together with the block cap: the loose blocks fit within MAX_TOTAL_BLOCKS,
      so in particular the two top piles do. */
  predicate Capped(s: State)
  {
    Inv(s) && LooseBlocks(s) <= MAX_TOTAL_BLOCKS
  }
}
