# Soroban abacus model

This project models the abacus (soroban) part of the Digital-Computing-Tools desktop application.

A soroban has a fixed number of rods. Each rod has:
- one upper bead, worth 5 when it is counted (`upper_beads[rod]` is 0 or 1);
- four lower beads, worth 1 for each one raised to the beam (`lower_beads[rod]` is 0..4).

The number shown is read rod by rod as a base-10 numeral, with rod 0 as the most significant digit.

The model has three parts:

- `abacus_spec.dfy` (module `AbacusSpec`) is the model on values. It defines the bead state (`Beads`) and the clamping invariant (`WellFormed`). The number shown is a recursive, most-significant-first reading (`Positional`, `Value`). The three one-rod moves are functions (`BeadUp`, `BeadDown`, `ToggleUpper`). Lemmas about them give the bounds of the reading, the digit at each place, how each move changes the reading, the inverse pairs and the saturation at four beads. `Resolve` models the Python list subscript the moves go through: indices `0..n-1` name the slot directly, `-n..-1` count from the end, and any index outside `-n..n-1` raises `IndexError`.
- `soroban.dfy` (module `Abacus`) is the `Soroban` class. Its two bead lists are `array<int>`s that the methods update in place. Each method's postcondition ties the new state to the matching value-level move. `Calculate` is the source's accumulating loop. Its loop invariant says the running total is the prefix read so far, shifted by the remaining places.
- `click.dfy` (module `Click`) models the click handler of the soroban window. `ClickedRod` and `ClickedAction` are the if/elif chains on the click's x and y. `ApplyClick` is the resulting change of state. `HandleClick` is the handler applied to a `Soroban` object.

A click whose x lies in no rod band leaves the handler's `rod` variable unassigned. Python then raises as soon as `rod` is used: in the bead call of line 243, 246 or 248, or in the print of line 251. Either way this happens before any bead moves. The model returns `Err(UnboundRod)` for it.

Error cases and edge cases follow the code:
- The moves raise `IndexError` for a rod index outside the lists, and the click handler raises for a click between rod bands. Both are modelled as error results.
- `Soroban.__init__` accepts any integer, and a negative count gives empty lists (`RodSlots`).
- The click bands are hard-coded for the five-rod canvas, and the model keeps those five bands whatever the rod count.

## Model

| member | source | states |
|---|---|---|
| AbacusSpec.Empty | calculatoare.py:164-167 | a new abacus has both bead lists of `rods` entries (none when `rods` is negative), all zero, and satisfies the clamping invariant |
| AbacusSpec.Resolve | calculatoare.py:169-178 | the subscript `beads[rod]` succeeds exactly for `-n <= rod < n` and names the slot congruent to `rod` modulo `n`; otherwise it raises |
| AbacusSpec.BeadUp | calculatoare.py:169-171 | raising a bead changes only `lower[r]`, never the upper beads, and keeps the clamping invariant |
| AbacusSpec.BeadDown | calculatoare.py:173-175 | lowering a bead changes only `lower[r]`, never the upper beads, and keeps the clamping invariant |
| AbacusSpec.ToggleUpper | calculatoare.py:177-178 | flipping changes only `upper[r]`, never the lower beads, and keeps the clamping invariant |
| AbacusSpec.BeadUpValue | calculatoare.py:169-171 | below four beads the rod gains exactly one bead and the reading rises by exactly 10^(n-r-1); at four nothing changes |
| AbacusSpec.BeadDownValue | calculatoare.py:173-175 | above zero the rod loses exactly one bead and the reading falls by exactly 10^(n-r-1); at zero nothing changes |
| AbacusSpec.ToggleUpperValue | calculatoare.py:177-178 | 0 becomes 1 and the reading rises by 5·10^(n-r-1); 1 becomes 0 and it falls by the same amount |
| AbacusSpec.ToggleUpperTwice | calculatoare.py:177-178 | flipping the same upper bead twice restores the whole state |
| AbacusSpec.BeadUpDownInverse | calculatoare.py:169-175 | under the invariant, a raise that moved a bead is undone by a lower, and a lower that moved one is undone by a raise |
| AbacusSpec.BeadUpSaturates | calculatoare.py:169-171 | k raises leave min(lower[r] + k, 4) beads and keep the invariant |
| AbacusSpec.FiveRaisesOnEmptyRod | calculatoare.py:164-171 | five raises on a rod of a fresh abacus leave it at four beads |
| AbacusSpec.EmptyValue | calculatoare.py:180-184 | a fresh abacus reads 0 |
| AbacusSpec.ValueDigits | calculatoare.py:180-184 | under the invariant the reading lies in [0, 10^n - 1] and its digit in place n-i-1 is 5·upper[i] + lower[i] |
| AbacusSpec.FiveRodReadings | calculatoare.py:180-184 | on five rods, 5+3 on rod 0 reads 80000 and the upper bead of rod 2 alone reads 500 |
| Abacus.Soroban.constructor | calculatoare.py:164-167 | the object keeps `rods` and two fresh arrays of `[0] * rods`, so its state is `Empty(rods)` |
| Abacus.Soroban.MoveBeadUp | calculatoare.py:169-171 | raises `IndexError` and changes nothing for an index outside the list; otherwise the new state is `BeadUp` of the old one |
| Abacus.Soroban.MoveBeadDown | calculatoare.py:173-175 | raises `IndexError` and changes nothing for an index outside the list; otherwise the new state is `BeadDown` of the old one |
| Abacus.Soroban.MoveUpperBead | calculatoare.py:177-178 | raises `IndexError` and changes nothing for an index outside the list; otherwise the new state is `ToggleUpper` of the old one |
| Abacus.Soroban.Calculate | calculatoare.py:180-184 | the accumulating loop returns the most-significant-first reading `Value` of the state |
| Abacus.FreshFiveRods | calculatoare.py:164-184 | a `Soroban(5)` reads 0, and five `move_bead_up(0)` calls leave four beads on rod 0 |
| Abacus.RodTwoUpperBead | calculatoare.py:177-184 | on a `Soroban(5)`, `move_upper_bead(2)` followed by `calculate()` gives 500 |
| Click.ClickedRod | calculatoare.py:232-241 | the rod chosen is exactly the k in 0..4 whose line at x = 50 + 50k lies within 10 pixels of the click; no rod is chosen when none does |
| Click.ClickedActionZones | calculatoare.py:242-248 | y in [30,80] toggles the upper bead; in [150,300], split into 30-pixel bands starting at 150 + 30·i, the top half of each band raises and the bottom half lowers; any other y does nothing |
| Click.ClickOutcome | calculatoare.py:231-248 | a click fails with UnboundRod exactly when it is near no rod line; on five or more rods nothing else fails; a successful click keeps the invariant and leaves every other rod unchanged |
| Click.ClickUpperTwice | calculatoare.py:242-243 | two clicks in the upper zone of the same rod restore the state |
| Click.ClickRodTwoUpper | calculatoare.py:231-243 | a click at (150, 50) on a fresh five-rod abacus makes it read 500 |
| Click.HandleClick | calculatoare.py:231-248 | the handler fails with the error of `ApplyClick` and changes nothing, or leaves the object in the state `ApplyClick` gives |

## Left out

- The calculator (`AdvancedAnalogCalculator`, `CalculatorApp`, calculatoare.py:8-160): floating-point arithmetic, trigonometric and logarithmic functions, and text parsing of a widget's contents. A float model would add nothing worth proving.
- All tkinter drawing, layout and event binding (`create_ui`, `draw_soroban`, `draw_beads`, `draw_number`) and `MainMenu` window switching and image loading. These are presentation only. The rod positions (line 203) and the start of the lower bead area at y = 150 (line 221) appear only as the geometry the click lemmas refer to.
- The redraw and the console print at the end of `handle_click` (lines 249-251). Apart from the `UnboundRod` error they can raise, they produce only output.
- Non-integer arguments (a float or string `rods` or `rod`, which Python rejects with `TypeError`) are not modelled: every index and count is a Dafny `int`.
- Python integers are unbounded, and so are Dafny's; there is no overflow to model. Click coordinates are integers, and `y % 30` is taken only for `y` in [150, 300], where Python's floor modulo and Dafny's Euclidean modulo agree.
- The bead lists can hold any integer in Python, so the clamping invariant (`WellFormed`) is not part of the object's `Valid()`. It is a property that the constructor establishes and that each move preserves.
