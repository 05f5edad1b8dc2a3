/** The 20 coherence-pathway segments of the three-pulse phase graph, as the
    diagram lists them before reordering, and what they satisfy. */
module PhaseGraph {
  import opened Model
  import opened Splitting

  /** The segment table, one entry per pathway in the order of the diagram:
      2 segments after pulse 1, 5 after pulse 2 and 13 after pulse 3. */
  function Build(tfrac: real, r1: Rotation, r2: Rotation, r3: Rotation): (segs: seq<Segment>)
    ensures |segs| == SegmentCount
  {
    seq(SegmentCount, k requires 0 <= k < SegmentCount => Entry(k, tfrac, r1, r2, r3))
  }

  /** Entry k of the table. A later entry reads its start phase from the
      entry of the pathway it continues, as the diagram's arrays do. */
  function Entry(k: nat, tfrac: real, r1: Rotation, r2: Rotation, r3: Rotation): Segment
    requires k < SegmentCount
  {
    var tau12 := Tau12;
    var tau23 := Tau23(tfrac);
    var tauPost := TauPost(tfrac);
    var t2 := tau12;
    var t3 := tau12 + tau23;
    var tEnd := tau12 + tau23 + tauPost;
    match k
    // pulse 1: FID and remaining longitudinal magnetisation
    case 0 => Segment(0.0, tau12, 0.0, tau12, r1.sin, false, 0.0)
    case 1 => Segment(0.0, 0.0, 0.0, tau12, r1.cos, true, 0.0)
    // pulse 2
    case 2 =>
      var p := Entry(0, tfrac, r1, r2, r3).endPhase;
      Segment(p, p + tau23, t2, t3, r1.sin * r2.cosHalfSq, false, 0.0)
    case 3 =>
      var p := Entry(0, tfrac, r1, r2, r3).endPhase;
      Segment(p, p, t2, t3, r1.sin * r2.sin, true, 0.0)
    case 4 => Segment(0.0, tau23, t2, t3, r1.cos * r2.sin, false, 0.0)
    case 5 => Segment(0.0, 0.0, t2, t3, r1.cos * r2.cos, true, 0.0)
    case 6 =>
      var p := -Entry(0, tfrac, r1, r2, r3).endPhase;
      Segment(p, p + tau23, t2, t3, r1.sin * r2.sinHalfSq, false, 2.0 * tau12)
    // pulse 3
    case 7 =>
      var p := Entry(2, tfrac, r1, r2, r3).endPhase;
      Segment(p, p + tauPost, t3, tEnd, r1.sin * r2.cosHalfSq * r3.cosHalfSq, false, 0.0)
    case 8 =>
      var p := Entry(4, tfrac, r1, r2, r3).endPhase;
      Segment(p, p + tauPost, t3, tEnd, r1.cos * r2.sin * r3.cosHalfSq, false, 0.0)
    case 9 =>
      var p := Entry(6, tfrac, r1, r2, r3).endPhase;
      Segment(p, p + tauPost, t3, tEnd, r1.sin * r2.sinHalfSq * r3.cosHalfSq, false, 0.0)
    case 10 => Segment(0.0, tauPost, t3, tEnd, r1.cos * r2.cos * r3.sin, false, 0.0)
    case 11 =>
      var p := -Entry(6, tfrac, r1, r2, r3).endPhase;
      Segment(p, p + tauPost, t3, tEnd, r1.sin * r2.sinHalfSq * r3.sinHalfSq, false, 2.0 * tau12 + 2.0 * (tau23 - tau12))
    case 12 =>
      var p := Entry(2, tfrac, r1, r2, r3).endPhase;
      Segment(p, p, t3, tEnd, r1.sin * r2.cosHalfSq * r3.sin, true, 0.0)
    case 13 =>
      var p := -Entry(3, tfrac, r1, r2, r3).endPhase;
      Segment(p, p + tauPost, t3, tEnd, r1.sin * r2.sin * r3.sin, false, tau23 + 2.0 * tau12)
    case 14 =>
      var p := -Entry(4, tfrac, r1, r2, r3).endPhase;
      Segment(p, p + tauPost, t3, tEnd, r1.cos * r2.sin * r3.sinHalfSq, false, tau12 + 2.0 * tau23)
    case 15 =>
      var p := Entry(4, tfrac, r1, r2, r3).endPhase;
      Segment(p, p, t3, tEnd, r1.cos * r2.sin * r3.sin, true, 0.0)
    case 16 =>
      var p := -Entry(2, tfrac, r1, r2, r3).endPhase;
      Segment(p, p + tauPost, t3, tEnd, r1.sin * r2.cosHalfSq * r3.sinHalfSq, false, 2.0 * (tau12 + tau23))
    case 17 =>
      var p := Entry(6, tfrac, r1, r2, r3).endPhase;
      Segment(p, p, t3, tEnd, r1.sin * r2.sinHalfSq * r3.sin, true, 0.0)
    case 18 => Segment(0.0, 0.0, t3, tEnd, r1.cos * r2.cos * r3.cos, true, 0.0)
    case 19 =>
      var p := Entry(3, tfrac, r1, r2, r3).endPhase;
      Segment(p, p, t3, tEnd, r1.sin * r2.sin * r3.cos, true, 0.0)
  }

  /** The table is exactly what the splitting rules generate. */
  lemma BuildFollowsSplitting(tfrac: real, r1: Rotation, r2: Rotation, r3: Rotation)
    ensures var segs := Build(tfrac, r1, r2, r3);
      forall k | 0 <= k < |segs| :: Obeys(segs, k, tfrac, r1, r2, r3)
  {
    ShapedBeforePulse3(tfrac, r1, r2, r3);
    ShapedAfterPulse3(tfrac, r1, r2, r3);
    WeightedBeforePulse3(tfrac, r1, r2, r3);
    WeightedAfterPulse3(tfrac, r1, r2, r3);
  }

  // The rules are checked window by window to keep each proof small.

  lemma ShapedBeforePulse3(tfrac: real, r1: Rotation, r2: Rotation, r3: Rotation)
    ensures forall k | 0 <= k < 7 :: Shaped(Build(tfrac, r1, r2, r3), k, tfrac)
  {
  }

  lemma ShapedAfterPulse3(tfrac: real, r1: Rotation, r2: Rotation, r3: Rotation)
    ensures forall k | 7 <= k < SegmentCount :: Shaped(Build(tfrac, r1, r2, r3), k, tfrac)
  {
  }

  lemma WeightedBeforePulse3(tfrac: real, r1: Rotation, r2: Rotation, r3: Rotation)
    ensures forall k | 0 <= k < 7 :: Weighted(Build(tfrac, r1, r2, r3), k, r1, r2, r3)
  {
  }

  lemma WeightedAfterPulse3(tfrac: real, r1: Rotation, r2: Rotation, r3: Rotation)
    ensures forall k | 7 <= k < SegmentCount :: Weighted(Build(tfrac, r1, r2, r3), k, r1, r2, r3)
  {
    WeightedFromTransverse(tfrac, r1, r2, r3);
    WeightedFromLongitudinal(tfrac, r1, r2, r3);
  }

  /** Window-3 descendants of the transverse pathways 2, 4 and 6. */
  lemma WeightedFromTransverse(tfrac: real, r1: Rotation, r2: Rotation, r3: Rotation)
    ensures forall k | 7 <= k < 13 :: Weighted(Build(tfrac, r1, r2, r3), k, r1, r2, r3)
  {
  }

  lemma WeightedFromLongitudinal(tfrac: real, r1: Rotation, r2: Rotation, r3: Rotation)
    ensures forall k | 13 <= k < SegmentCount :: Weighted(Build(tfrac, r1, r2, r3), k, r1, r2, r3)
  {
  }

  /** Every recorded echo time is the instant at which the segment's phase
      line, extended at unit rate, crosses zero; the other segments keep 0. */
  lemma EchoAtZeroCrossing(tfrac: real, r1: Rotation, r2: Rotation, r3: Rotation)
    ensures var segs := Build(tfrac, r1, r2, r3);
      forall k | 0 <= k < |segs| ::
        if RecordsEcho(k) then segs[k].echoTime == segs[k].startTime - segs[k].startPhase
        else segs[k].echoTime == 0.0
  {
    var segs := Build(tfrac, r1, r2, r3);
    // the end phases the refocused segments start from
    assert segs[0].endPhase == Tau12;
    assert segs[2].endPhase == Tau12 + Tau23(tfrac);
    assert segs[3].endPhase == Tau12;
    assert segs[4].endPhase == Tau23(tfrac);
    assert segs[6].endPhase == Tau23(tfrac) - Tau12;
    forall k | 0 <= k < |segs|
      ensures if RecordsEcho(k) then segs[k].echoTime == segs[k].startTime - segs[k].startPhase
              else segs[k].echoTime == 0.0
    {
      if k < 7 {
      } else if k < 13 {
      } else {
      }
    }
  }

  /** The 20 segments fall into the three windows: 2 in [0, Tau12], 5 in
      [Tau12, Tau12 + Tau23] and 13 in [Tau12 + Tau23, Horizon]; with both
      later windows of positive length every segment runs forward in time. */
  lemma SegmentWindows(tfrac: real, r1: Rotation, r2: Rotation, r3: Rotation)
    requires WellTimed(tfrac)
    ensures var segs := Build(tfrac, r1, r2, r3);
      forall k | 0 <= k < |segs| ::
        && (k < 2 ==> segs[k].startTime == 0.0 && segs[k].endTime == Tau12)
        && (2 <= k < 7 ==> segs[k].startTime == Tau12 && segs[k].endTime == Tau12 + Tau23(tfrac))
        && (7 <= k ==> segs[k].startTime == Tau12 + Tau23(tfrac) && segs[k].endTime == Horizon)
        && segs[k].startTime < segs[k].endTime
  {
    BuildFollowsSplitting(tfrac, r1, r2, r3);
  }

  /** Exactly the eight segments 1, 3, 5, 12, 15, 17, 18 and 19 are
      longitudinal; they keep a constant phase, and every other segment
      dephases at unit rate. */
  lemma LongitudinalSegments(tfrac: real, r1: Rotation, r2: Rotation, r3: Rotation)
    ensures var segs := Build(tfrac, r1, r2, r3);
      forall k | 0 <= k < |segs| ::
        && (segs[k].isLongitudinal <==> k in {1, 3, 5, 12, 15, 17, 18, 19})
        && (segs[k].isLongitudinal ==> segs[k].endPhase == segs[k].startPhase)
        && (!segs[k].isLongitudinal ==> segs[k].endPhase - segs[k].startPhase == segs[k].endTime - segs[k].startTime)
  {
    BuildFollowsSplitting(tfrac, r1, r2, r3);
  }

  /** Magnetisation that no pulse has tipped yet carries no phase, so every
      segment created from it (4, 5, 10 and 18) starts at phase 0. */
  lemma FreshPathwaysStartAtZero(tfrac: real, r1: Rotation, r2: Rotation, r3: Rotation)
    ensures var segs := Build(tfrac, r1, r2, r3);
      forall k | 0 <= k < |segs| && Lineage(k).Child? && NeverTipped(Lineage(k).parent) ::
        segs[k].startPhase == 0.0
  {
    BuildFollowsSplitting(tfrac, r1, r2, r3);
  }

  /** With the third pulse strictly after the second, exactly the segments
      6, 11, 13, 14 and 16 record an echo, at 2 Tau12, 2 Tau23,
      2 Tau12 + Tau23, Tau12 + 2 Tau23 and 2 (Tau12 + Tau23) respectively. */
  lemma EchoSegments(tfrac: real, r1: Rotation, r2: Rotation, r3: Rotation)
    requires Tau23(tfrac) > 0.0
    ensures var segs := Build(tfrac, r1, r2, r3);
      && (forall k | 0 <= k < |segs| :: segs[k].echoTime > 0.0 <==> k in {6, 11, 13, 14, 16})
      && segs[6].echoTime == 2.0 * Tau12
      && segs[11].echoTime == 2.0 * Tau23(tfrac)
      && segs[13].echoTime == 2.0 * Tau12 + Tau23(tfrac)
      && segs[14].echoTime == Tau12 + 2.0 * Tau23(tfrac)
      && segs[16].echoTime == 2.0 * (Tau12 + Tau23(tfrac))
  {
    EchoAtZeroCrossing(tfrac, r1, r2, r3);
    BuildFollowsSplitting(tfrac, r1, r2, r3);
  }

  /** With all three flip angles zero nothing is ever tipped: the untouched
      longitudinal segments 1, 5 and 18 carry amplitude 1 and the other 17
      carry 0. */
  lemma ZeroFlipAngles(tfrac: real)
    ensures var segs := Build(tfrac, NoRotation, NoRotation, NoRotation);
      forall k | 0 <= k < |segs| ::
        segs[k].amplitude == if k in {1, 5, 18} then 1.0 else 0.0
  {
    BuildFollowsSplitting(tfrac, NoRotation, NoRotation, NoRotation);
  }

  /** Every amplitude is a product of bounded factors, so its magnitude is
      at most 1. */
  lemma AmplitudesBounded(tfrac: real, r1: Rotation, r2: Rotation, r3: Rotation)
    requires r1.Bounded() && r2.Bounded() && r3.Bounded()
    ensures var segs := Build(tfrac, r1, r2, r3);
      forall k | 0 <= k < |segs| :: Abs(segs[k].amplitude) <= 1.0
  {
    var segs := Build(tfrac, r1, r2, r3);
    BuildFollowsSplitting(tfrac, r1, r2, r3);
    assert forall j | 0 <= j < SegmentCount :: Weighted(segs, j, r1, r2, r3) by {
      forall j | 0 <= j < SegmentCount
        ensures Weighted(segs, j, r1, r2, r3)
      {
        assert Obeys(segs, j, tfrac, r1, r2, r3);
      }
    }
    forall k | 0 <= k < SegmentCount
      ensures Abs(segs[k].amplitude) <= 1.0
    {
      AmplitudeBoundedAt(segs, k, tfrac, r1, r2, r3);
    }
  }

  /** Induction along the pathway tree: a segment's amplitude is its
      parent's times a bounded factor. */
  lemma {:induction false} AmplitudeBoundedAt(segs: seq<Segment>, k: nat, tfrac: real, r1: Rotation, r2: Rotation, r3: Rotation)
    requires |segs| == SegmentCount && k < SegmentCount
    requires r1.Bounded() && r2.Bounded() && r3.Bounded()
    requires forall j | 0 <= j < SegmentCount :: Weighted(segs, j, r1, r2, r3)
    ensures Abs(segs[k].amplitude) <= 1.0
    decreases k
  {
    var b := BranchOf(k);
    assert Weighted(segs, k, r1, r2, r3);
    match Lineage(k)
    case Equilibrium(_) =>
      FactorBounded(b, r1);
    case Child(p, _) =>
      var rot := Pulse(Window(k), r1, r2, r3);
      AmplitudeBoundedAt(segs, p, tfrac, r1, r2, r3);
      FactorBounded(b, rot);
      ProductBounded(segs[p].amplitude, b.Factor(rot));
  }

  lemma FactorBounded(b: Branch, rot: Rotation)
    requires rot.Bounded()
    ensures Abs(b.Factor(rot)) <= 1.0
  {
  }

  lemma ProductBounded(x: real, y: real)
    requires Abs(x) <= 1.0 && Abs(y) <= 1.0
    ensures Abs(x * y) <= 1.0
  {
    assert Abs(x * y) == Abs(x) * Abs(y);
    assert Abs(x) * Abs(y) <= 1.0 * Abs(y);
  }
}
