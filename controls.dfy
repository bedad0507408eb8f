/** The controls and the simulation block interleaved in any order: the pile inputs,
    the Start button and reruns of the step, replayed over the session state. This is
    where the block cap of the top piles is decided across a whole session. */
module Controls {
  import opened Constants
  import opened SimState
  import opened StepEngine
  import Properties

  /** What can change the session state between two renders. `Stepped` is one rerun of
      the simulation block while running. The Stop button changes only `running`,
      which the state value does not hold, so it is no event here, and a rerun that
      is not running leaves the state alone. */
  datatype Event = PilesSet(blocksA: int, blocksB: int) | StartPressed | Stepped

  /** The pile inputs with the check that the block cap evidently intends: the new
      piles are accepted only when they fit together with the tied blocks, which a
      later drop lifts back onto the top piles. On rejection the state is unchanged. */
  function ReconfiguredCapped(s: State, blocksA: int, blocksB: int): (r: (State, bool))
    ensures r.1 <==> blocksA + blocksB + s.tiedBottomC + s.tiedBottomD <= MAX_TOTAL_BLOCKS
    ensures r.1 ==> r.0 == s.(blocksTopA := blocksA, blocksTopB := blocksB)
    ensures !r.1 ==> r.0 == s
    // the cap on loose blocks survives, whatever the tied counts are
    ensures Capped(s) && blocksA >= 0 && blocksB >= 0 ==> Capped(r.0)
  {
    if blocksA + blocksB + s.tiedBottomC + s.tiedBottomD <= MAX_TOTAL_BLOCKS then
      (s.(blocksTopA := blocksA, blocksTopB := blocksB), true)
    else
      (s, false)
  }

  /** One event. With `checkTied` the pile inputs use the corrected check
      (`ReconfiguredCapped`), without it the check as written (`Reconfigured`). */
  function Apply(s: State, e: Event, checkTied: bool): State
  {
    match e
    case PilesSet(a, b) =>
      if checkTied then ReconfiguredCapped(s, a, b).0 else Reconfigured(s, a, b).0
    case StartPressed => Started(s)
    case Stepped => Next(s)
  }

  /** The events of `es`, in order. */
  function Replay(s: State, es: seq<Event>, checkTied: bool): State
    decreases |es|
  {
    if es == [] then s else Replay(Apply(s, es[0], checkTied), es[1..], checkTied)
  }

  /** Every pile input lies within its widget's range, 0..MAX_TOTAL_BLOCKS. */
  predicate WidgetRange(es: seq<Event>)
  {
    forall i :: 0 <= i < |es| && es[i].PilesSet? ==>
      0 <= es[i].blocksA <= MAX_TOTAL_BLOCKS && 0 <= es[i].blocksB <= MAX_TOTAL_BLOCKS
  }

  /** With the corrected check, every event keeps the bounds and the block cap. */
  lemma ApplyCapped(s: State, e: Event)
    requires Capped(s)
    requires e.PilesSet? ==> e.blocksA >= 0 && e.blocksB >= 0
    ensures Capped(Apply(s, e, true))
  {
    match e
    case PilesSet(a, b) =>
    case StartPressed => Properties.StartedCapped(s);
    case Stepped => Properties.NextCapped(s);
  }

  /** With the corrected check, any session that starts within the cap stays within
      it, in whatever order the controls and the steps come: the top piles never
      hold more than MAX_TOTAL_BLOCKS blocks together. */
  lemma {:induction false} ReplayCapped(s: State, es: seq<Event>)
    requires Capped(s) && WidgetRange(es)
    ensures Capped(Replay(s, es, true))
    ensures Replay(s, es, true).blocksTopA + Replay(s, es, true).blocksTopB <= MAX_TOTAL_BLOCKS
    decreases |es|
  {
    if es != [] {
      ApplyCapped(s, es[0]);
      var rest := es[1..];
      assert WidgetRange(rest) by {
        forall i | 0 <= i < |rest| && rest[i].PilesSet?
          ensures 0 <= rest[i].blocksA <= MAX_TOTAL_BLOCKS && 0 <= rest[i].blocksB <= MAX_TOTAL_BLOCKS
        {
          assert rest[i] == es[i + 1];
        }
      }
      ReplayCapped(Apply(s, es[0], true), rest);
    }
  }

  /** As written, every event keeps the bounds of `Inv` (all counts non-negative,
      storages below the threshold, batteries in range, a bounded log), even though
      the block cap can break. */
  lemma ApplyInvAsWritten(s: State, e: Event)
    requires Inv(s)
    requires e.PilesSet? ==> 0 <= e.blocksA <= MAX_TOTAL_BLOCKS && 0 <= e.blocksB <= MAX_TOTAL_BLOCKS
    ensures Inv(Apply(s, e, false))
  {
    match e
    case PilesSet(a, b) => Properties.ReconfiguredInv(s, a, b);
    case StartPressed =>
    case Stepped => Properties.NextInv(s);
  }

  /** As written, any session that starts within the bounds of `Inv` stays within them,
      in whatever order the controls and the steps come. */
  lemma {:induction false} ReplayInvAsWritten(s: State, es: seq<Event>)
    requires Inv(s) && WidgetRange(es)
    ensures Inv(Replay(s, es, false))
    decreases |es|
  {
    if es != [] {
      ApplyInvAsWritten(s, es[0]);
      var rest := es[1..];
      assert WidgetRange(rest) by {
        forall i | 0 <= i < |rest| && rest[i].PilesSet?
          ensures 0 <= rest[i].blocksA <= MAX_TOTAL_BLOCKS && 0 <= rest[i].blocksB <= MAX_TOTAL_BLOCKS
        {
          assert rest[i] == es[i + 1];
        }
      }
      ReplayInvAsWritten(Apply(s, es[0], false), rest);
    }
  }

  /** Every state a session reaches from the defaults, with the corrected check. */
  lemma ReachableCapped(es: seq<Event>)
    requires WidgetRange(es)
    ensures Replay(Initial(), es, true).blocksTopA + Replay(Initial(), es, true).blocksTopB <= MAX_TOTAL_BLOCKS
  {
    ReplayCapped(Initial(), es);
  }

  lemma ReplayCons(s: State, e: Event, es: seq<Event>, checkTied: bool)
    ensures Replay(s, [e] + es, checkTied) == Replay(Apply(s, e, checkTied), es, checkTied)
  {
    assert ([e] + es)[1..] == es;
  }

  /** A session the widgets allow: 20 blocks on A, Start, two left drops that tie two
      blocks at C, then the piles set to (18, 2) while those two are tied. */
  function OverfillingRun(): (es: seq<Event>)
    ensures WidgetRange(es)
  {
    [PilesSet(20, 0), StartPressed, Stepped, Stepped, PilesSet(18, 2), Stepped]
  }

  /** Two drops from the full left pile: the left drops twice, tying two blocks at C. */
  lemma TwoLeftDrops(s: State)
    requires s.blocksTopA == 20 && s.blocksTopB == 0 && s.tiedBottomC == 0 && s.tiedBottomD == 0
    ensures var r := Next(Next(s));
      r.blocksTopA == 16 && r.blocksTopB == 2 && r.tiedBottomC == 2 && r.tiedBottomD == 0 &&
      r.lastDropSide == Some(Left)
  {
    Properties.NextDrop(s);
    Properties.NextDrop(Next(s));
  }

  /** The right drop after two left ones lifts both blocks tied at C onto A. */
  lemma RightDropLiftsTied(s: State)
    requires s.blocksTopA == 18 && s.blocksTopB == 2 && s.tiedBottomC == 2 && s.lastDropSide == Some(Left)
    ensures Next(s).blocksTopA == 21 && Next(s).blocksTopB == 0
  {
    Properties.NextDrop(s);
  }

  /** The shape of the overfilling run, event by event, as written. */
  lemma ReplayOverfilling(s: State, a1: int, b1: int, a2: int, b2: int)
    ensures Replay(s, [PilesSet(a1, b1), StartPressed, Stepped, Stepped, PilesSet(a2, b2), Stepped], false) ==
            Next(Reconfigured(Next(Next(Started(Reconfigured(s, a1, b1).0))), a2, b2).0)
  {
    var s1 := Reconfigured(s, a1, b1).0;
    var s2 := Started(s1);
    var s3 := Next(s2);
    var s4 := Next(s3);
    var s5 := Reconfigured(s4, a2, b2).0;
    ReplayCons(s, PilesSet(a1, b1), [StartPressed, Stepped, Stepped, PilesSet(a2, b2), Stepped], false);
    ReplayCons(s1, StartPressed, [Stepped, Stepped, PilesSet(a2, b2), Stepped], false);
    ReplayCons(s2, Stepped, [Stepped, PilesSet(a2, b2), Stepped], false);
    ReplayCons(s3, Stepped, [PilesSet(a2, b2), Stepped], false);
    ReplayCons(s4, PilesSet(a2, b2), [Stepped], false);
    ReplayCons(s5, Stepped, [], false);
  }

  /** As written, the pile check counts only A + B, so (18, 2) is accepted with two
      blocks tied at C. The next drop, from the right, lifts both onto A and adds a
      new one: A holds 21 blocks, more than the cap and more than the widget allows. */
  lemma CapBrokenAsWritten()
    ensures var r := Replay(Initial(), OverfillingRun(), false);
      r.blocksTopA == 21 && r.blocksTopB == 0 && r.blocksTopA + r.blocksTopB > MAX_TOTAL_BLOCKS
  {
    var s2 := Started(Reconfigured(Initial(), 20, 0).0);
    TwoLeftDrops(s2);
    var s5 := Reconfigured(Next(Next(s2)), 18, 2);
    assert s5.1;
    RightDropLiftsTied(s5.0);
    ReplayOverfilling(Initial(), 20, 0, 18, 2);
  }
}
