# Three-pulse extended phase graph, in Dafny

`updatePhaseGraph` in `interactivePhaseGraph.py` draws the extended phase
graph of a three-pulse magnetic-resonance experiment. Three instantaneous
pulses with flip angles a1, a2 and a3 act on longitudinal magnetisation. The
pulses come at times 0, Tau12 = 1 and Tau12 + Tau23, where Tau23 = tfrac · Tau12.
The observation ends at 7.

Every pulse splits each coherence pathway into branches. The diagram lists the
resulting 20 segments by hand: 2 after the first pulse, 5 after the second and
13 after the third. Each segment has:

- a start and end phase;
- a start and end time;
- an amplitude, which is a product of sines, cosines and squared half-angle
  functions;
- a flag saying whether it is longitudinal;
- an echo time, where 0 means "no echo".

The segments are then reordered by amplitude magnitude, so that the strongest
pathways are drawn last. A red marker at phase 0 is put at each positive echo
time.

This project models that computation and proves what the table satisfies.

- `model.dfy` (module `Model`) holds the data model and the fixed timing:
  - the `Segment` record;
  - a `Rotation` that holds the four trigonometric factors of one pulse as
    abstract reals;
  - Tau12, Tau23 and TauPost.
- `splitting.dfy` (module `Splitting`) is an independent reference for the
  hand-written table.
  - It states the splitting rules of the extended phase graph: dephase,
    refocus or store a transverse pathway; excite or keep a longitudinal one.
  - It states the pathway tree: which segment descends from which, and
    through which branch.
  - From these it defines what each segment's window, phase, amplitude and
    flag must be.
- `phase_graph.dfy` (module `PhaseGraph`) holds the table itself (`Build`).
  Its lemmas show that the table is exactly what the splitting rules produce,
  plus its timing, phase, echo and amplitude properties.
- `argsort.dfy` (module `ArgSort`) holds the argsort-and-gather idiom of lines
  253–262, modelled as follows:
  - one index order that sorts the keys;
  - gathering a sequence through an index order;
  - a proof that gathering through a permutation loses, duplicates or alters
    no element.
- `display.dfy` (module `Display`) holds the reordered table and the echo
  markers: which times get a marker under the code's test, and under the
  corrected test described in "Findings".
- `energy.dfy` (module `Energy`) holds the sums of squared amplitudes per
  window. They show that the table's amplitudes are not a partition of unit
  magnetisation.

The trigonometric values are parameters. The `Rotation` predicates `Bounded`
and `Consistent` state the ranges and identities a lemma needs. The amplitudes
are reals: the code stores them as complex numbers, but every one is a real
product.

Facts about the program that the model records:

- The squared amplitudes of a window do not sum to 1. After the first pulse
  the sum is 1 (`Energy.FirstWindowPower`); after the second it is
  1 + sin²a1 · sin²a2 / 2 (`Energy.SecondWindowPower`).
- The code computes no echo classification. It writes five echo times by
  hand, one of them on the second-window segment 6, and marks every positive
  one.
- The code validates no input, so the model has no error path.
- The echo formulas of segments 13 and 14 are each the zero crossing of their
  own segment's phase line (`PhaseGraph.EchoAtZeroCrossing`).

## Model

| member | source | states |
|---|---|---|
| `PhaseGraph.Build` | interactivePhaseGraph.py:87-251 | the table has exactly 20 segments |
| `PhaseGraph.BuildFollowsSplitting` | interactivePhaseGraph.py:100-251 | every segment is what the splitting rules make of its parent: it spans its window, starts where the parent ended (same phase, negated phase after a refocusing or excitation, 0 for fresh magnetisation), dephases at unit rate exactly when transverse, and carries the parent's amplitude times its branch's factor |
| `Splitting.LineageWellFormed` | interactivePhaseGraph.py:100-251 | every segment's parent lives in the window before it, and its branch is one that applies to a parent of that kind |
| `Splitting.ChildOfInvertsLineage` | interactivePhaseGraph.py:115-251 | no two segments share a parent and a branch |
| `Splitting.LineageComplete` | interactivePhaseGraph.py:115-251 | every pathway of the first two windows has a segment for each branch that applies to it, and the tree has no other segments |
| `PhaseGraph.SegmentWindows` | interactivePhaseGraph.py:80-249 | with both later windows positive: segments 0–1 span [0, Tau12], 2–6 span [Tau12, Tau12 + Tau23], 7–19 span [Tau12 + Tau23, 7], and each starts before it ends |
| `PhaseGraph.LongitudinalSegments` | interactivePhaseGraph.py:100-251 | exactly segments 1, 3, 5, 12, 15, 17, 18 and 19 are longitudinal; their phase is constant; every other segment gains phase equal to its elapsed time |
| `Splitting.UntippedSegments` | interactivePhaseGraph.py:105-243 | the magnetisation no pulse has tipped (every branch from equilibrium is Remain) is exactly segments 1, 5 and 18 |
| `PhaseGraph.FreshPathwaysStartAtZero` | interactivePhaseGraph.py:130-243 | every segment made from never-tipped magnetisation starts at phase 0 |
| `PhaseGraph.EchoAtZeroCrossing` | interactivePhaseGraph.py:145-227 | each segment that records an echo (a refocused one, or a stored one tipped back) records the time its phase line crosses zero; every other segment records 0 |
| `PhaseGraph.EchoSegments` | interactivePhaseGraph.py:93-227 | with the third pulse strictly after the second, exactly segments 6, 11, 13, 14 and 16 have a positive echo time: 2 Tau12, 2 Tau23, 2 Tau12 + Tau23, Tau12 + 2 Tau23 and 2 (Tau12 + Tau23) |
| `PhaseGraph.ZeroFlipAngles` | interactivePhaseGraph.py:105-250 | with all three flip angles 0, segments 1, 5 and 18 have amplitude 1 and the other 17 have amplitude 0 |
| `PhaseGraph.AmplitudesBounded` | interactivePhaseGraph.py:105-250 | when every trigonometric factor lies in its natural range, every amplitude has magnitude at most 1 |
| `PhaseGraph.AmplitudeBoundedAt` | interactivePhaseGraph.py:105-250 | the bound holds along the pathway tree, since each amplitude is its parent's times a factor of magnitude at most 1 |
| `Energy.FirstWindowPower` | interactivePhaseGraph.py:105-112 | after the first pulse the squared amplitudes sum to 1 |
| `Energy.SecondWindowPower` | interactivePhaseGraph.py:120-150 | after the second pulse the squared amplitudes sum to 1 + sin²a1 · sin²a2 / 2, which exceeds 1 whenever sin a1 and sin a2 are both non-zero (both flip angles strictly between 0° and 180°) |
| `ArgSort.Argsort` | interactivePhaseGraph.py:253 | the index order lists every index exactly once and the keys never decrease along it |
| `ArgSort.SortPrefix` | interactivePhaseGraph.py:253 | the first n indices, each exactly once, in an order whose keys never decrease |
| `ArgSort.Insert` | interactivePhaseGraph.py:253 | inserting an index into a key-sorted order keeps it sorted and adds exactly that index |
| `ArgSort.GatherPermutation` | interactivePhaseGraph.py:256-262 | gathering through a permutation of the indices yields a permutation of the elements |
| `ArgSort.GatherSameIndices` | interactivePhaseGraph.py:256-262 | two index orders that list the same indices gather the same elements |
| `Display.Reorder` | interactivePhaseGraph.py:253-262 | the reordered table holds the same records, each intact, and amplitude magnitudes never decrease along it |
| `Display.UpdatePhaseGraph` | interactivePhaseGraph.py:75-262 | the drawn segments are the 20 segments of the table, each intact, in order of non-decreasing amplitude magnitude |
| `Display.Markers` | interactivePhaseGraph.py:277-282 | a time is marked exactly when some segment passes the marker test with that echo time |
| `Display.MarkersOfReorder` | interactivePhaseGraph.py:253-282 | reordering the segments does not change which times are marked |
| `Display.MarkedTimesAsWritten` | interactivePhaseGraph.py:93-278 | for any Tau23 > 0, with the code's test (echo time > 0), the marked times are exactly 2 Tau12, 2 Tau23, 2 Tau12 + Tau23, Tau12 + 2 Tau23 and 2 (Tau12 + Tau23) |
| `Display.LayoutMarkersAsWritten` | interactivePhaseGraph.py:253-278 | for any reordering of a table whose echoes lie where the code puts them, the code's test marks exactly the five echo times |
| `Display.PhantomEchoAsWritten` | interactivePhaseGraph.py:181-278 | for tfrac = 0.75 the drawing puts a marker at 1.5 while no drawn transverse segment's phase line is at 0 then; the marker is segment 11's, which starts only at 1.75, at phase +0.25, and moves away from zero |
| `Display.MarkersAreRefocusings` | interactivePhaseGraph.py:277-282 | with the corrected test, every marked time is one where some drawn transverse segment's phase line, at or after its start, is 0 |
| `Display.ReorderedMarkersRefocus` | interactivePhaseGraph.py:253-282 | for any reordering of a table whose echoes lie on their segments' phase lines, every marker of the corrected test lies where some transverse segment's phase line, extended forward from its start, crosses zero |
| `Display.LayoutMarkers` | interactivePhaseGraph.py:253-278 | for any reordering of a table whose echoes lie where the code puts them, the corrected test marks 2 Tau12, 2 Tau12 + Tau23, Tau12 + 2 Tau23 and 2 (Tau12 + Tau23), and marks 2 Tau23 exactly when Tau23 ≥ Tau12 |
| `Display.MarkedTimes` | interactivePhaseGraph.py:93-278 | for any Tau23 > 0, with the corrected test, the four echoes other than segment 11's are always marked, and 2 Tau23 is marked exactly when Tau23 ≥ Tau12 |

## Left out

- The web application is not modelled: its layout, the four sliders, the
  callback wiring, the figure, the colour map, the hex colour strings and the
  axis styling (lines 1–74, 264–276 and 283–304). These are presentation and
  foreign-library calls.
- Evaluating sine and cosine, and converting degrees to radians (lines 77–79),
  are not modelled. Each pulse is an abstract `Rotation`.
- float32 and complex64 storage is not modelled: all quantities are exact
  reals. Rounding is therefore out of scope.
- Tau23 is written as tfrac rather than tfrac · Tau12. The two are equal
  because Tau12 is the constant 1.
- ArgSort.Argsort: numpy's tie order for equal magnitudes is not modelled.
  The contract promises only some order with non-decreasing keys. The
  insertion sort puts a later index before earlier equal ones.
- PhaseGraph.AmplitudesBounded: only the range of each trigonometric factor
  is assumed, not the identities between them. The bound is therefore stated
  for a wider class of inputs than real angles.
- PhaseGraph.SegmentWindows: the whole lemma, window placement included, is
  stated only when both later windows are positive. The slider range for tfrac (0.5 to 2.5,
  line 59) always gives such windows.
- Display.MarkedTimesAsWritten: states which times carry a marker, not how
  many markers land on the same time.
- Display.MarkedTimes: likewise states which times carry a marker, not how
  many.
- Display.LayoutMarkersAsWritten: likewise.
- Display.LayoutMarkers: likewise.
- Energy.SecondWindowPower: the third window's sum is not stated.

## Findings

| source | as written | input that shows it | evidently intended | confidence | as-written member | corrected member |
|---|---|---|---|---|---|---|
| interactivePhaseGraph.py:187 | segment 11 always records echo time 2 Tau12 + 2 (Tau23 − Tau12) = 2 Tau23, and line 278 marks it because it is positive | tfrac = 0.75, which the slider allows: the marker is at 1.5, but segment 11 starts at 1.75 with phase +0.25 and only moves away from zero, so no drawn segment refocuses at 1.5 | mark an echo only if it is not earlier than the start of the segment that records it; segment 11 then refocuses only when Tau23 ≥ Tau12 | not executed | `Display.PhantomEchoAsWritten` | `Display.MarkersAreRefocusings` |
