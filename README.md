# Gravity battery seesaw: a verified model of the simulation step

The gravity battery toy simulates two 10 kg block piles at the top of a seesaw, A on the left and B on the right.
On every tick the houses draw 2 kJ of power, battery 1 first and then battery 2.
Then a side that holds two blocks drops them. The drop charges battery 1 and turns the generator.
One block of the drop goes into the bottom storage on its side (C under A, D under B) and the other stays tied there.
The blocks tied on the opposite side are lifted back onto the opposite top pile, and a new block appears there.
When the two storages hold 80 kg together, a "big cycle" drops the stored mass.
That charges battery 2, lifting the mass back costs twice that energy, and the storages are emptied.

The project models this engine, meaning the constants, the session state, one step, the Start reset and the
reconfiguration of the top piles, and proves what a step promises.

- `constants.dfy` (module `Constants`): the physical constants. Battery and generator quantities are exact
  `real`s (`GRAVITY` is 981/100), so one drop gives exactly 19 620 J: +19.62 % on battery 1 and +70.632°.
- `state.dfy` (module `SimState`): the session state as a value (`State`), the sides, the opaque log entries,
  Python's `logs[-100:]` (`LastN`), the panel's total mass (`TotalMass`) and the bounds a step keeps (`Inv`,
  `Capped`).
- `engine.dfy` (module `StepEngine`): each phase of the step as a function. `Consume`, `ChooseDrop`, `Move`,
  `Generate` and `Drop` cover the power draw and the drop, and `BigCycle` the big cycle.
  `ConsumePhase`, `DropPhase`, `CyclePhase` and `Next` are the phases and the whole step, in the order the code runs them.
  `Initial` is the state before any button is pressed, and `Started` and `Reconfigured` are the two controls.
- `properties.dfy` (module `Properties`): lemmas about `Next` and about runs of steps.
- `session.dfy` (module `Session`): the class `Simulation`, whose fields are the `st.session_state` entries.
  Its methods change them in place, phase by phase, as the script does.
  Each method's postcondition ties the new `Snapshot()` to the matching function of the old one.
- `controls.dfy` (module `Controls`): sessions as sequences of control events (pile inputs, Start, steps) replayed
  over the state, the run that overfills the top piles, and the corrected pile check.

The model keeps some of the code's behaviour exactly as written, even where the intent might seem different:
- After a big cycle the code does not put the stored mass back on the top piles. It zeroes both storages and
  nothing more (appp.py:346-347), so that mass leaves the system. `BigCycle` and `NextMass` state this.
- When both sides can drop and nothing has dropped yet, the code picks the right side (appp.py:281-302).
- `houses_lit` is `battery1 > 0 or battery2 > 0`. It is evaluated right after the power draw, before the drop, and
  the big cycle does not recompute it (appp.py:238).
- The 20-block cap is checked only when the piles are reconfigured (appp.py:182), and that check counts A + B
  but not the tied blocks. A drop leaves the number of loose blocks (tops plus tied) unchanged, and the big cycle
  does not touch them (`NextLooseBlocks`, `NextCapped`, `RunCapped`). So from Start the cap holds until the piles
  are reconfigured while blocks are tied. Such a reconfiguration can be accepted and then overfill the top piles
  (see "## Findings").
- Start resets neither `houses_lit`, the generator angle nor `last_drop_side` (appp.py:164-174).

## Model

| member | source | states |
|---|---|---|
| `StepEngine.Consume` | appp.py:225-236 | Battery 1 ≥ 2 % loses exactly 2 % and leaves battery 2 alone. A battery 1 strictly between 0 and 2 % is emptied, and battery 2 pays the shortfall, clamped at 0. A battery 1 that is empty leaves battery 2 to lose 0.2 %, clamped at 0. For charges in [0, 100], exactly 2 kJ leave the pair, or both end empty, and neither battery gains. |
| `StepEngine.ChooseDrop` | appp.py:255-303 | A side is chosen only if its pile has ≥ 2 blocks. There is no drop iff both piles have < 2. When both have ≥ 2, left is chosen exactly when right dropped last, so the default is right. |
| `StepEngine.Drop` | appp.py:254-325 | The dropping side loses 2 top blocks and gains 10 kg of storage and 1 tied block. The opposite tied blocks move onto the opposite pile, plus one replenishment block, and the opposite tied count becomes 0. `last_drop_side` becomes the side. Battery 1 becomes min(b1 + 19.62, 100) and the angle grows by 70.632. Two log entries are appended and the log truncated. Total mass rises by exactly 10 kg, and the loose blocks are rearranged without changing their number. |
| `StepEngine.BigCycle` | appp.py:330-352 | Both storages become 0 and the piles and tied counts are untouched. All stored mass leaves the total. The angle grows by 0.35316° per stored kg. Battery 2 becomes max(min(b2 + 0.0981·kg, 100) − 0.1962·kg, 0): it stays ≥ 0 and never exceeds its value before the cycle. |
| `StepEngine.Initial` | appp.py:20-49 | The defaults, piles (1, 2) with everything else zero or empty, satisfy the bounds and the block cap. |
| `StepEngine.Started` | appp.py:164-174 | Start zeroes the logs, the step counter, both batteries, both storages and both tied counts. It keeps the top piles, the generator angle, `houses_lit` and `last_drop_side`. |
| `StepEngine.Reconfigured` | appp.py:182-186 | The new piles are accepted iff blocks_a + blocks_b ≤ 20. If accepted, only the two top piles change. If rejected, the state is unchanged. |
| `StepEngine.Move` | appp.py:258-277 | No contract of its own. It covers the left branch (258-265) and the right branch (270-277). Its effect on piles, storages, tied counts and `last_drop_side` is stated by `StepEngine.Drop` and `Properties.NextDrop`. |
| `StepEngine.Generate` | appp.py:305-325 | No contract of its own. The charge, the generator turn, the replenishment block and the two log entries are stated by `StepEngine.Drop`. |
| `StepEngine.ConsumePhase` | appp.py:225-252 | No contract of its own. Stated by `StepEngine.Consume`, `Properties.ConsumePhaseKeeps` (piles, storages and alternation memory untouched), `Properties.NextBatteries` and `Properties.NextLogs`. |
| `StepEngine.DropPhase` | appp.py:254-328 | No contract of its own. Stated by `StepEngine.ChooseDrop`, `StepEngine.Drop`, `Properties.DropPhaseLogs` and `Properties.NextDrop`. |
| `StepEngine.CyclePhase` | appp.py:330-354 | No contract of its own. Stated by `StepEngine.BigCycle`, `Properties.CyclePhaseLogs` and `Properties.NextBigCycle`. |
| `StepEngine.Next` | appp.py:218-358 | No contract of its own. The whole step is stated by the `Properties.Next*` lemmas (`NextLogs`, `NextDrop`, `NextBigCycle`, `NextMass`, `NextLooseBlocks`, `NextBookkeeping`, `NextBatteries`, `NextInv`, `NextCapped`, `NextStorageNonNegative`). |
| `SimState.TotalMass` | appp.py:194-196 | No contract of its own. It is the panel's mass measure, and `StepEngine.Drop`, `StepEngine.BigCycle` and `Properties.NextMass` state how a step changes it. |
| `SimState.LastN` | appp.py:252 | For n > 0, `xs[-n:]` keeps min(\|xs\|, n) elements. |
| `SimState.LastNSuffix` | appp.py:252 | For n > 0, the elements `xs[-n:]` keeps are the last ones of `xs`, in order. |
| `Properties.LastNAppend` | appp.py:251-252 | For n > 0, appending and truncating to the last n, repeated, keeps the same entries as appending everything and truncating once. |
| `Properties.NextLogs` | appp.py:240-352 | After a step the log holds at most 100 entries. They are the last 100 of the old log and the step's own entries taken together: the state entry, the two drop entries if a side dropped, and the two big-cycle entries if it fired. |
| `Properties.NextDrop` | appp.py:254-325 | Across a whole step: with no drop, the piles, tied counts and `last_drop_side` are unchanged, and so are the storages when below 80 kg. With a drop from S: S loses 2 top blocks and gains 1 tied block. The opposite pile gains the lifted blocks plus one, and the opposite tied count becomes 0. S's storage gains 10 kg unless the big cycle empties both. |
| `Properties.NextBigCycle` | appp.py:330-347 | The big cycle fires iff the storage after the drop phase (old total plus 10 kg per drop) reaches 80 kg. If it fires, both storages become 0 and battery 2 ends no higher than after the power draw. If not, storage and battery 2 are unchanged. |
| `Properties.NextMass` | appp.py:194-196 | Measured as the status panel measures it, a step's total mass changes by +10 kg for a drop, minus all stored mass when the big cycle fires. |
| `Properties.NextLooseBlocks` | appp.py:258-322 | A step leaves tops A + B plus tied C + D unchanged. |
| `Properties.NextBookkeeping` | appp.py:242-340 | `step_count` grows by exactly 1. The generator angle grows by 70.632 per drop plus 0.35316 per stored kg when the big cycle fires, so it never decreases. |
| `Properties.NextBatteries` | appp.py:225-344 | Both batteries stay in [0, 100]. `houses_lit` equals (b1 > 0 or b2 > 0), taken right after the power draw. Battery 2 never exceeds its value after the draw. Battery 1 is min(b1 + 19.62, 100) after a drop and unchanged otherwise. |
| `Properties.NextInv` | appp.py:218-358 | A step keeps all of these: counts ≥ 0, storages that are multiples of 10 with total ≤ 70 kg, batteries in [0, 100], at most 100 log entries, and a non-negative counter and angle. |
| `Properties.NextCapped` | appp.py:255-322 | When the loose blocks fit within 20, they still do after a step, so tops A + B ≤ 20 even though a drop adds a block. |
| `Properties.Alternation` | appp.py:279-303 | When both piles hold ≥ 2 blocks, the step drops from the side that did not drop last (right if none did). The step after it drops from the other side. |
| `Properties.RunCapped` | appp.py:218-358 | Any number of steps from a capped state keeps the bounds and the cap. |
| `Properties.RunBookkeeping` | appp.py:242-340 | n steps raise `step_count` by exactly n, keep the storages non-negative and never turn the generator backwards. |
| `Properties.NextStorageNonNegative` | appp.py:259-347 | A step never makes a storage negative. |
| `Properties.StartedInv` | appp.py:164-174 | Start from a state within the bounds of `Inv` gives a state within them. |
| `Properties.StartedCapped` | appp.py:164-174 | Start from top piles within the cap yields a state within all bounds and the cap. Starting twice equals starting once. |
| `Properties.ReconfiguredInv` | appp.py:180-186 | For inputs the widgets allow, reconfiguration keeps the bounds. The top piles stay within the cap whenever they were within it before. With nothing tied, the full cap is kept. |
| `Properties.FirstStepScenario` | appp.py:218-325 | Start from the defaults (1, 2), then one step: the right side drops, leaving the piles at (2, 0), 10 kg in right storage, 1 block tied at D and battery 1 at exactly 19.62 %. |
| `Properties.BigCycleScenario` | appp.py:330-352 | With 40 kg stored on each side and no drop possible, the step runs the big cycle. Both storages become 0 and the big-cycle entry is the last in the log. |
| `Properties.DefaultStartPosition` | appp.py:164-174 | Start from the defaults gives piles (1, 2) with nothing tied or stored and the counter at 0, where the eight-step run begins. |
| `Properties.SevenSteps` | appp.py:218-325 | From piles (1, 2) with nothing tied or stored, each of the first k ≤ 7 steps drops, the sides alternate (right first), and after step k the storages hold 10·k kg and the counter is k. |
| `Properties.EightStepScenario` | appp.py:218-358 | From piles (1, 2) with nothing tied or stored, steps 1 to 7 each drop, and storage is 10·k kg after step k. Step 8 reaches 80 kg and fires the big cycle, which empties the storages and writes the last log entry. |
| `Session.Simulation.constructor` | appp.py:20-49 | The new session holds the default state and is not running. |
| `Session.Simulation.Start` | appp.py:164-174 | The new state is `Started` of the old one, and `running` is set. The bounds are kept. When the old piles are within the cap, the new state satisfies the cap. |
| `Session.Simulation.Stop` | appp.py:175-177 | Clears `running` and nothing else. |
| `Session.Simulation.Reconfigure` | appp.py:180-186 | The new state and the accepted flag are `Reconfigured` of the old state, and the bounds are kept. |
| `Session.Simulation.Step` | appp.py:218-358 | When running, the new state is `Next` of the old one, and otherwise nothing changes. The bounds and the block cap are kept. |
| `Session.Simulation.ConsumePower` | appp.py:225-252 | The in-place power draw, `houses_lit`, counter and state log yield `ConsumePhase` of the old state. |
| `Session.Simulation.DropIfAble` | appp.py:254-325 | The in-place drop selection and drop yield `DropPhase` of the old state. |
| `Session.Simulation.GeneratePower` | appp.py:305-325 | The in-place charge, generator turn, action log and replenishment block yield `Generate` of the old state. |
| `Session.Simulation.DropLeft` | appp.py:258-265 | The in-place left block moves yield `Move(old, Left)`, lifting the old tied count at D. |
| `Session.Simulation.DropRight` | appp.py:270-277 | The in-place right block moves yield `Move(old, Right)`, lifting the old tied count at C. |
| `Session.Simulation.BigCycleIfFull` | appp.py:330-352 | The in-place big cycle yields `CyclePhase` of the old state. |
| `Controls.ReconfiguredCapped` | appp.py:182-186 | Corrected pile check: the new piles are accepted iff A + B plus the tied blocks fit within 20. If accepted, only the top piles change; if rejected, nothing does. A capped state stays capped for any non-negative input. |
| `Controls.ApplyCapped` | appp.py:164-186 | With the corrected check, one pile input, Start or step keeps a capped state capped. |
| `Controls.ReplayCapped` | appp.py:164-186 | With the corrected check, any sequence of pile inputs in widget range, Starts and steps keeps a capped state capped, so A + B ≤ 20 throughout. |
| `Controls.ApplyInvAsWritten` | appp.py:164-186 | As written, one pile input in widget range, Start or step keeps the bounds of `Inv`. |
| `Controls.ReplayInvAsWritten` | appp.py:164-186 | As written, any session of pile inputs in widget range, Starts and steps keeps all counts non-negative, the storages below 80 kg, the batteries in [0, 100] and the log bounded, although the block cap can break. |
| `Controls.ReachableCapped` | appp.py:20-186 | With the corrected check, every state reached from the defaults has A + B ≤ 20. |
| `Controls.OverfillingRun` | appp.py:180-186 | The overfilling session only sets piles within the widgets' range. |
| `Controls.ReplayOverfilling` | appp.py:164-186 | The overfilling session, replayed as written, is the six events applied in order. |
| `Controls.TwoLeftDrops` | appp.py:255-265 | From (20, 0) with nothing tied, two steps drop from the left and leave (16, 2) with two blocks tied at C. |
| `Controls.RightDropLiftsTied` | appp.py:279-303 | From (18, 2) with two blocks tied at C and left dropped last, a step drops from the right and leaves A at 21. |
| `Controls.CapBrokenAsWritten` | appp.py:182-186 | As written, the session (20, 0), Start, two steps, (18, 2), one step ends with 21 blocks on A, above the cap. |

## Findings

| source | as written | input that shows it | evidently intended | confidence | as-written member | corrected member |
|---|---|---|---|---|---|---|
| appp.py:182 | The pile check accepts new piles when blocks_a + blocks_b ≤ 20 and ignores the blocks tied at C and D, which the next drop lifts onto the top piles. | Set piles (20, 0), Start, step twice (two left drops tie two blocks at C), set piles (18, 2), step once: the right drop lifts both tied blocks onto A and adds one, so A = 21. This is more than the cap and more than the widget's max_value at appp.py:180. | The top piles hold at most 20 blocks (200 kg) in every reachable state. That holds when the check also counts the tied blocks. | not executed | `Controls.CapBrokenAsWritten` | `Controls.ReconfiguredCapped`, `Controls.ReachableCapped` |

The session class (`Session.Simulation.Reconfigure`) and `StepEngine.Reconfigured` keep the check as written. The
corrected check is used by the replays in `Controls`, where `ReplayCapped` proves the intended cap for it.

## Left out

- `draw_scene` (appp.py:52-144) is the Plotly figure: seesaw angle, block rectangles and the `% 360` angle shown. It is presentation only.
- `animate_fall` (appp.py:146-155) is the frame loop with `time.sleep`. Its `False` result only sets
  `stop_requested`, and the state changes regardless, so every drop is modelled as unconditional.
- `stop_requested`, `time.sleep` and `st.rerun` (appp.py:328, 354, 357-358) are tick plumbing, and so is once-per-rerun
  execution. `Step` models one execution of the guarded block, and the caller decides how often it runs.
- `Step` is atomic. Streamlit stops a running script at its next `st` call when a widget is used, for example inside
  `animate_fall` (appp.py:153). The changes made before that point stay, such as the power drawn and `step_count`
  bumped with no drop. Such a partly applied step is not modelled.
- Layout, the status panel text, the log text area and the error message (appp.py:158-215, 360-362) are UI output.
  Log entries are opaque values that record only their kind and a few counts. Their text formatting is not modelled.
- The widgets hand back their last value on every rerun. How often the pile inputs are re-applied is
  Streamlit behaviour, so `Reconfigure` models one application of appp.py:182-186.
- IEEE floating-point rounding of the battery and angle arithmetic is not modelled: exact rationals stand for it.
