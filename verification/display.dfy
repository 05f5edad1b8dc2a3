/** What the diagram draws: the segments reordered by amplitude magnitude,
    so that the strongest pathways are drawn last, and a marker at phase 0
    for every recorded echo. */
module Display {
  import opened Model
  import opened Splitting
  import opened PhaseGraph
  import opened ArgSort

  function Magnitudes(segs: seq<Segment>): (key: seq<real>)
    ensures |key| == |segs|
    ensures forall i | 0 <= i < |segs| :: key[i] == Abs(segs[i].amplitude)
  {
    seq(|segs|, i requires 0 <= i < |segs| => Abs(segs[i].amplitude))
  }

  /** Amplitude magnitudes never decrease along `segs`. */
  predicate ByMagnitude(segs: seq<Segment>) {
    forall i | 0 <= i < |segs| - 1 :: Abs(segs[i].amplitude) <= Abs(segs[i + 1].amplitude)
  }

  /** One index order, sorting the magnitudes, is applied to every field
      at once, so each record stays intact: the result holds the same
      records, ordered by magnitude. */
  function Reorder(segs: seq<Segment>): (r: seq<Segment>)
    ensures |r| == |segs|
    ensures multiset(r) == multiset(segs)
    ensures ByMagnitude(r)
  {
    var key := Magnitudes(segs);
    var inds := Argsort(key);
    GatherPermutation(segs, inds);
    Gather(segs, inds)
  }

  /** The segments of the diagram for the given timing ratio and pulses,
      in drawing order. */
  function UpdatePhaseGraph(tfrac: real, r1: Rotation, r2: Rotation, r3: Rotation): (segs: seq<Segment>)
    ensures |segs| == SegmentCount
    ensures multiset(segs) == multiset(Build(tfrac, r1, r2, r3))
    ensures ByMagnitude(segs)
  {
    Reorder(Build(tfrac, r1, r2, r3))
  }

  /** Which segments get an echo marker. */
  datatype MarkerRule =
    | AsWritten       // any positive echo time
    | AtOrAfterStart  // a positive echo time no earlier than the segment itself

  predicate Marked(rule: MarkerRule, s: Segment) {
    match rule
    case AsWritten => s.echoTime > 0.0
    case AtOrAfterStart => s.echoTime > 0.0 && s.echoTime >= s.startTime
  }

  /** The echo times that receive a marker, in drawing order. */
  function Markers(rule: MarkerRule, segs: seq<Segment>): (times: seq<real>)
    ensures |times| <= |segs|
    ensures forall i | 0 <= i < |segs| && Marked(rule, segs[i]) :: segs[i].echoTime in times
    ensures forall e | e in times :: exists i | 0 <= i < |segs| :: Marked(rule, segs[i]) && segs[i].echoTime == e
  {
    if |segs| == 0 then
      []
    else
      var rest := Markers(rule, segs[1..]);
      assert forall i | 1 <= i < |segs| :: segs[i] == segs[1..][i - 1];
      if Marked(rule, segs[0]) then [segs[0].echoTime] + rest else rest
  }

  /** The phase line of a transverse segment, extended forward at unit rate
      from its start (possibly past its end), passes through zero at time t,
      no earlier than the segment begins. */
  predicate RefocusesAt(s: Segment, t: real) {
    !s.isLongitudinal && s.startTime <= t && s.startPhase + (t - s.startTime) == 0.0
  }

  /** Reordering does not change which times are marked. */
  lemma MarkersOfReorder(rule: MarkerRule, segs: seq<Segment>, e: real)
    ensures e in Markers(rule, Reorder(segs)) <==> e in Markers(rule, segs)
  {
    var r := Reorder(segs);
    if e in Markers(rule, r) {
      var i :| 0 <= i < |r| && Marked(rule, r[i]) && r[i].echoTime == e;
      assert r[i] in multiset(segs);
    }
    if e in Markers(rule, segs) {
      var i :| 0 <= i < |segs| && Marked(rule, segs[i]) && segs[i].echoTime == e;
      assert segs[i] in multiset(r);
    }
  }

  /** Where the echoes of the table lie: exactly the segments 6, 11, 13, 14
      and 16 carry one, at the times and with the start times given here. */
  predicate EchoLayout(segs: seq<Segment>, tfrac: real) {
    && |segs| == SegmentCount
    && (forall k | 0 <= k < |segs| :: segs[k].echoTime > 0.0 <==> k in {6, 11, 13, 14, 16})
    && segs[6].echoTime == 2.0 * Tau12 && segs[6].startTime == Tau12
    && segs[11].echoTime == 2.0 * Tau23(tfrac) && segs[11].startTime == Tau12 + Tau23(tfrac)
    && segs[13].echoTime == 2.0 * Tau12 + Tau23(tfrac) && segs[13].startTime == Tau12 + Tau23(tfrac)
    && segs[14].echoTime == Tau12 + 2.0 * Tau23(tfrac) && segs[14].startTime == Tau12 + Tau23(tfrac)
    && segs[16].echoTime == 2.0 * (Tau12 + Tau23(tfrac)) && segs[16].startTime == Tau12 + Tau23(tfrac)
  }

  lemma BuildEchoLayout(tfrac: real, r1: Rotation, r2: Rotation, r3: Rotation)
    requires Tau23(tfrac) > 0.0
    ensures EchoLayout(Build(tfrac, r1, r2, r3), tfrac)
  {
    EchoSegments(tfrac, r1, r2, r3);
    BuildFollowsSplitting(tfrac, r1, r2, r3);
  }

  /** The diagram's marker test puts a marker at each of the five recorded
      echo times. */
  lemma MarkedTimesAsWritten(tfrac: real, r1: Rotation, r2: Rotation, r3: Rotation, e: real)
    requires Tau23(tfrac) > 0.0
    ensures var tau23 := Tau23(tfrac);
      e in Markers(AsWritten, UpdatePhaseGraph(tfrac, r1, r2, r3)) <==>
        e in {2.0 * Tau12, 2.0 * tau23, 2.0 * Tau12 + tau23, Tau12 + 2.0 * tau23, 2.0 * (Tau12 + tau23)}
  {
    BuildEchoLayout(tfrac, r1, r2, r3);
    LayoutMarkersAsWritten(Build(tfrac, r1, r2, r3), tfrac, e);
  }

  /** The code's test on any reordering of a table with this echo layout. */
  lemma LayoutMarkersAsWritten(segs: seq<Segment>, tfrac: real, e: real)
    requires EchoLayout(segs, tfrac)
    ensures var tau23 := Tau23(tfrac);
      e in Markers(AsWritten, Reorder(segs)) <==>
        e in {2.0 * Tau12, 2.0 * tau23, 2.0 * Tau12 + tau23, Tau12 + 2.0 * tau23, 2.0 * (Tau12 + tau23)}
  {
    MarkersOfReorder(AsWritten, segs, e);
    TableMarkersAsWritten(segs, tfrac, e);
  }

  lemma TableMarkersAsWritten(segs: seq<Segment>, tfrac: real, e: real)
    requires EchoLayout(segs, tfrac)
    ensures var tau23 := Tau23(tfrac);
      e in Markers(AsWritten, segs) <==>
        e in {2.0 * Tau12, 2.0 * tau23, 2.0 * Tau12 + tau23, Tau12 + 2.0 * tau23, 2.0 * (Tau12 + tau23)}
  {
    if e in Markers(AsWritten, segs) {
      var i :| 0 <= i < |segs| && Marked(AsWritten, segs[i]) && segs[i].echoTime == e;
      assert i in {6, 11, 13, 14, 16};
    }
    if e == 2.0 * Tau12 { assert Marked(AsWritten, segs[6]); }
    if e == 2.0 * Tau23(tfrac) { assert Marked(AsWritten, segs[11]); }
    if e == 2.0 * Tau12 + Tau23(tfrac) { assert Marked(AsWritten, segs[13]); }
    if e == Tau12 + 2.0 * Tau23(tfrac) { assert Marked(AsWritten, segs[14]); }
    if e == 2.0 * (Tau12 + Tau23(tfrac)) { assert Marked(AsWritten, segs[16]); }
  }

  /** When the third pulse comes less than Tau12 after the second, the
      diagram still marks an echo of segment 11 at 2 Tau23. Here Tau23 is
      0.75: the drawing puts a marker at 1.5, yet no drawn transverse
      segment's phase line is at 0 then (the longitudinal segment 5 lies on
      phase 0, but it carries no echo). Segment 11 begins only at 1.75, at phase +0.25, and only
      moves away from zero. */
  lemma PhantomEchoAsWritten(r1: Rotation, r2: Rotation, r3: Rotation)
    ensures var out := UpdatePhaseGraph(0.75, r1, r2, r3);
      && 1.5 in Markers(AsWritten, out)
      && forall i | 0 <= i < |out| :: !RefocusesAt(out[i], 1.5)
    ensures var s := Build(0.75, r1, r2, r3)[11];
      && Marked(AsWritten, s)
      && s.echoTime == 1.5 && s.startTime == 1.75 && s.startPhase == 0.25
      && !s.isLongitudinal && s.endPhase > s.startPhase
      && !RefocusesAt(s, s.echoTime)
  {
    PhantomMarkerDrawn(r1, r2, r3);
    PhantomSegment(r1, r2, r3);
  }

  lemma PhantomMarkerDrawn(r1: Rotation, r2: Rotation, r3: Rotation)
    ensures var out := UpdatePhaseGraph(0.75, r1, r2, r3);
      && 1.5 in Markers(AsWritten, out)
      && forall i | 0 <= i < |out| :: !RefocusesAt(out[i], 1.5)
  {
    MarkedTimesAsWritten(0.75, r1, r2, r3, 1.5);
    NothingRefocusesAtPhantom(r1, r2, r3);
    ReorderedNoRefocusing(Build(0.75, r1, r2, r3), 1.5);
  }

  lemma PhantomSegment(r1: Rotation, r2: Rotation, r3: Rotation)
    ensures var s := Build(0.75, r1, r2, r3)[11];
      && Marked(AsWritten, s)
      && s.echoTime == 1.5 && s.startTime == 1.75 && s.startPhase == 0.25
      && !s.isLongitudinal && s.endPhase > s.startPhase
      && !RefocusesAt(s, s.echoTime)
  {
    EchoSegments(0.75, r1, r2, r3);
    EchoAtZeroCrossing(0.75, r1, r2, r3);
    LongitudinalSegments(0.75, r1, r2, r3);
    SegmentWindows(0.75, r1, r2, r3);
  }

  /** At tfrac = 0.75 no transverse segment's phase line of the table is
      at 0 at time 1.5:
      the transverse segments of the first two windows are at phases 1.5,
      1.5, 0.5 and −0.5 then, and the third window has not begun. */
  lemma NothingRefocusesAtPhantom(r1: Rotation, r2: Rotation, r3: Rotation)
    ensures var segs := Build(0.75, r1, r2, r3);
      forall k | 0 <= k < |segs| :: !RefocusesAt(segs[k], 1.5)
  {
    var segs := Build(0.75, r1, r2, r3);
    SegmentWindows(0.75, r1, r2, r3);
    LongitudinalSegments(0.75, r1, r2, r3);
    assert segs[0].startPhase == 0.0 && segs[2].startPhase == 1.0;
    assert segs[4].startPhase == 0.0 && segs[6].startPhase == -1.0;
  }

  /** A time at which no segment refocuses stays so after reordering. */
  lemma ReorderedNoRefocusing(segs: seq<Segment>, t: real)
    requires forall k | 0 <= k < |segs| :: !RefocusesAt(segs[k], t)
    ensures var out := Reorder(segs);
      forall i | 0 <= i < |out| :: !RefocusesAt(out[i], t)
  {
    var out := Reorder(segs);
    forall i | 0 <= i < |out|
      ensures !RefocusesAt(out[i], t)
    {
      assert out[i] in multiset(segs);
      var k :| 0 <= k < |segs| && segs[k] == out[i];
    }
  }

  /** Every recorded echo lies on the segment's own phase line, extended at
      unit rate, where that line crosses zero. */
  predicate EchoesOnPhaseLine(segs: seq<Segment>) {
    forall k | 0 <= k < |segs| && segs[k].echoTime > 0.0 ::
      !segs[k].isLongitudinal && segs[k].echoTime == segs[k].startTime - segs[k].startPhase
  }

  lemma BuildEchoesOnPhaseLine(tfrac: real, r1: Rotation, r2: Rotation, r3: Rotation)
    ensures EchoesOnPhaseLine(Build(tfrac, r1, r2, r3))
  {
    EchoAtZeroCrossing(tfrac, r1, r2, r3);
    LongitudinalSegments(tfrac, r1, r2, r3);
  }

  /** Every marker of the corrected test lies where a drawn transverse
      segment's phase line, extended forward from its start, crosses zero. */
  lemma MarkersAreRefocusings(tfrac: real, r1: Rotation, r2: Rotation, r3: Rotation)
    ensures var out := UpdatePhaseGraph(tfrac, r1, r2, r3);
      forall e | e in Markers(AtOrAfterStart, out) :: exists i | 0 <= i < |out| :: RefocusesAt(out[i], e)
  {
    BuildEchoesOnPhaseLine(tfrac, r1, r2, r3);
    ReorderedMarkersRefocus(Build(tfrac, r1, r2, r3));
  }

  /** Reordering a table whose echoes lie on their phase lines keeps every
      corrected marker on a refocusing. */
  lemma ReorderedMarkersRefocus(segs: seq<Segment>)
    requires EchoesOnPhaseLine(segs)
    ensures var out := Reorder(segs);
      forall e | e in Markers(AtOrAfterStart, out) :: exists i | 0 <= i < |out| :: RefocusesAt(out[i], e)
  {
    var out := Reorder(segs);
    forall e | e in Markers(AtOrAfterStart, out)
      ensures exists i | 0 <= i < |out| :: RefocusesAt(out[i], e)
    {
      var i :| 0 <= i < |out| && Marked(AtOrAfterStart, out[i]) && out[i].echoTime == e;
      assert out[i] in multiset(segs);
      var k :| 0 <= k < |segs| && segs[k] == out[i];
      assert RefocusesAt(out[i], e);
    }
  }

  /** The corrected test keeps all five markers as long as the third pulse
      comes at least Tau12 after the second, and drops only the one at
      2 Tau23 otherwise. */
  lemma MarkedTimes(tfrac: real, r1: Rotation, r2: Rotation, r3: Rotation, e: real)
    requires Tau23(tfrac) > 0.0
    ensures var tau23 := Tau23(tfrac);
      e in Markers(AtOrAfterStart, UpdatePhaseGraph(tfrac, r1, r2, r3)) <==>
        || e in {2.0 * Tau12, 2.0 * Tau12 + tau23, Tau12 + 2.0 * tau23, 2.0 * (Tau12 + tau23)}
        || (e == 2.0 * tau23 && tau23 >= Tau12)
  {
    BuildEchoLayout(tfrac, r1, r2, r3);
    LayoutMarkers(Build(tfrac, r1, r2, r3), tfrac, e);
  }

  /** The corrected test on any reordering of a table with this echo layout. */
  lemma LayoutMarkers(segs: seq<Segment>, tfrac: real, e: real)
    requires EchoLayout(segs, tfrac) && Tau23(tfrac) > 0.0
    ensures var tau23 := Tau23(tfrac);
      e in Markers(AtOrAfterStart, Reorder(segs)) <==>
        || e in {2.0 * Tau12, 2.0 * Tau12 + tau23, Tau12 + 2.0 * tau23, 2.0 * (Tau12 + tau23)}
        || (e == 2.0 * tau23 && tau23 >= Tau12)
  {
    MarkersOfReorder(AtOrAfterStart, segs, e);
    TableMarkers(segs, tfrac, e);
  }

  lemma TableMarkers(segs: seq<Segment>, tfrac: real, e: real)
    requires EchoLayout(segs, tfrac) && Tau23(tfrac) > 0.0
    ensures var tau23 := Tau23(tfrac);
      e in Markers(AtOrAfterStart, segs) <==>
        || e in {2.0 * Tau12, 2.0 * Tau12 + tau23, Tau12 + 2.0 * tau23, 2.0 * (Tau12 + tau23)}
        || (e == 2.0 * tau23 && tau23 >= Tau12)
  {
    if e in Markers(AtOrAfterStart, segs) {
      var i :| 0 <= i < |segs| && Marked(AtOrAfterStart, segs[i]) && segs[i].echoTime == e;
      assert i in {6, 11, 13, 14, 16};
    }
    if e == 2.0 * Tau12 { assert Marked(AtOrAfterStart, segs[6]); }
    if e == 2.0 * Tau23(tfrac) && Tau23(tfrac) >= Tau12 { assert Marked(AtOrAfterStart, segs[11]); }
    if e == 2.0 * Tau12 + Tau23(tfrac) { assert Marked(AtOrAfterStart, segs[13]); }
    if e == Tau12 + 2.0 * Tau23(tfrac) { assert Marked(AtOrAfterStart, segs[14]); }
    if e == 2.0 * (Tau12 + Tau23(tfrac)) { assert Marked(AtOrAfterStart, segs[16]); }
  }
}
