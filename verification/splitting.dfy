/** The splitting rules of the extended phase graph, written as a table
    independent of the hand-written segment list: which pathway each segment
    descends from, through which branch of which pulse, and what that branch
    does to phase and amplitude. */
module Splitting {
  import opened Model

  /** What one pulse does to a pathway:
      - a transverse pathway continues dephasing (Dephase, × cos²(a/2)),
        is refocused to the conjugate phase (Refocus, × sin²(a/2)), or is
        stored along the longitudinal axis (Store, × sin a);
      - a longitudinal pathway is tipped into the transverse plane
        (Excite, × sin a) or stays longitudinal (Remain, × cos a). */
  datatype Branch = Dephase | Refocus | Store | Excite | Remain
  {
    /** The child accrues phase at unit rate. */
    predicate Transverse() {
      Dephase? || Refocus? || Excite?
    }

    /** The child starts at the negated phase of its parent. */
    predicate Conjugates() {
      Refocus? || Excite?
    }

    /** The branch applies to a parent of the given kind. */
    predicate AppliesTo(parentTransverse: bool) {
      if parentTransverse then Dephase? || Refocus? || Store? else Excite? || Remain?
    }

    /** The amplitude factor the pulse contributes along this branch. */
    function Factor(rot: Rotation): real {
      match this
      case Dephase => rot.cosHalfSq
      case Refocus => rot.sinHalfSq
      case Store => rot.sin
      case Excite => rot.sin
      case Remain => rot.cos
    }

    /** The phase the child starts at, given the parent's end phase. */
    function StartPhase(parentPhase: real): real {
      if Conjugates() then -parentPhase else parentPhase
    }
  }

  /** Where a segment comes from: the first pulse acting on the unit
      equilibrium magnetisation, or a later pulse acting on a parent segment. */
  datatype Origin = Equilibrium(branch: Branch) | Child(parent: nat, branch: Branch)

  const SegmentCount: nat := 20

  /** The pathway tree of the three-pulse experiment, segment by segment. */
  function Lineage(k: nat): Origin
    requires k < SegmentCount
  {
    match k
    case 0 => Equilibrium(Excite)
    case 1 => Equilibrium(Remain)
    case 2 => Child(0, Dephase)
    case 3 => Child(0, Store)
    case 4 => Child(1, Excite)
    case 5 => Child(1, Remain)
    case 6 => Child(0, Refocus)
    case 7 => Child(2, Dephase)
    case 8 => Child(4, Dephase)
    case 9 => Child(6, Dephase)
    case 10 => Child(5, Excite)
    case 11 => Child(6, Refocus)
    case 12 => Child(2, Store)
    case 13 => Child(3, Excite)
    case 14 => Child(4, Refocus)
    case 15 => Child(4, Store)
    case 16 => Child(2, Refocus)
    case 17 => Child(6, Store)
    case 18 => Child(5, Remain)
    case 19 => Child(3, Remain)
  }

  /** The window (1, 2 or 3) a segment lives in: the number of pulses that
      have acted on it. */
  function Window(k: nat): nat
    requires k < SegmentCount
  {
    if k < 2 then 1 else if k < 7 then 2 else 3
  }

  function WindowStart(w: nat, tfrac: real): real {
    if w == 1 then 0.0 else if w == 2 then Tau12 else Tau12 + Tau23(tfrac)
  }

  function WindowEnd(w: nat, tfrac: real): real {
    if w == 1 then Tau12 else if w == 2 then Tau12 + Tau23(tfrac) else Tau12 + Tau23(tfrac) + TauPost(tfrac)
  }

  /** The pulse that opens window w. */
  function Pulse(w: nat, r1: Rotation, r2: Rotation, r3: Rotation): Rotation {
    if w == 1 then r1 else if w == 2 then r2 else r3
  }

  /** The branch through which segment k was created. */
  function BranchOf(k: nat): Branch
    requires k < SegmentCount
  {
    Lineage(k).branch
  }

  /** The segment with parent p reached through branch b, or -1 when the
      tree has no such segment. */
  function ChildOf(p: nat, b: Branch): int {
    match (p, b)
    case (0, Dephase) => 2
    case (0, Store) => 3
    case (0, Refocus) => 6
    case (1, Excite) => 4
    case (1, Remain) => 5
    case (2, Dephase) => 7
    case (2, Store) => 12
    case (2, Refocus) => 16
    case (3, Excite) => 13
    case (3, Remain) => 19
    case (4, Dephase) => 8
    case (4, Refocus) => 14
    case (4, Store) => 15
    case (5, Excite) => 10
    case (5, Remain) => 18
    case (6, Dephase) => 9
    case (6, Refocus) => 11
    case (6, Store) => 17
    case _ => -1
  }

  /** Segment k of `segs` has the shape the splitting rules give it: it
      opens and closes with its window, starts where its parent ended (in
      time and in phase, negated along a conjugating branch), and dephases at
      unit rate exactly when it is transverse. */
  predicate Shaped(segs: seq<Segment>, k: nat, tfrac: real)
    requires k < |segs| && k < SegmentCount
  {
    var s := segs[k];
    var b := BranchOf(k);
    && s.startTime == WindowStart(Window(k), tfrac)
    && s.endTime == WindowEnd(Window(k), tfrac)
    && s.isLongitudinal == !b.Transverse()
    && s.endPhase == s.startPhase + (if b.Transverse() then s.endTime - s.startTime else 0.0)
    && match Lineage(k)
       case Equilibrium(_) => s.startPhase == 0.0
       case Child(p, _) =>
         && p < k
         && s.startTime == segs[p].endTime
         && s.startPhase == b.StartPhase(segs[p].endPhase)
  }

  /** Segment k of `segs` carries the amplitude the splitting rules give it:
      its parent's amplitude (1 for the equilibrium magnetisation) times the
      factor of its branch under the pulse that created it. */
  predicate Weighted(segs: seq<Segment>, k: nat, r1: Rotation, r2: Rotation, r3: Rotation)
    requires k < |segs| && k < SegmentCount
  {
    var b := BranchOf(k);
    match Lineage(k)
    case Equilibrium(_) => segs[k].amplitude == b.Factor(r1)
    case Child(p, _) =>
      p < k && segs[k].amplitude == segs[p].amplitude * b.Factor(Pulse(Window(k), r1, r2, r3))
  }

  /** Segment k of `segs` is what the splitting rules produce from its origin. */
  predicate Obeys(segs: seq<Segment>, k: nat, tfrac: real, r1: Rotation, r2: Rotation, r3: Rotation)
    requires k < |segs| && k < SegmentCount
  {
    Shaped(segs, k, tfrac) && Weighted(segs, k, r1, r2, r3)
  }

  /** Segment k is longitudinal magnetisation that no pulse has tipped:
      every branch on its way from equilibrium is Remain. */
  predicate NeverTipped(k: nat)
    requires k < SegmentCount
    decreases k
  {
    match Lineage(k)
    case Equilibrium(b) => b.Remain?
    case Child(p, b) => b.Remain? && p < k && NeverTipped(p)
  }

  /** The segments that record an echo: every refocused transverse pathway,
      and the stored pathway tipped back by the third pulse (the stimulated
      echo). Fresh excitations of unstored magnetisation have no echo. */
  predicate RecordsEcho(k: nat)
    requires k < SegmentCount
  {
    match Lineage(k)
    case Equilibrium(_) => false
    case Child(p, b) => b.Refocus? || (b.Excite? && BranchOf(p).Store?)
  }

  /** The untipped pathways are the equilibrium magnetisation left alone by
      each pulse in turn: segments 1, 5 and 18. */
  lemma UntippedSegments()
    ensures forall k | 0 <= k < SegmentCount :: NeverTipped(k) <==> k in {1, 5, 18}
  {
  }

  /** The tree is well formed: every parent lives in the window before its
      child, and the branch fits the parent's kind (transverse or
      longitudinal). The first pulse acts on longitudinal magnetisation. */
  lemma LineageWellFormed()
    ensures forall k | 0 <= k < SegmentCount ::
      match Lineage(k)
      case Equilibrium(b) => Window(k) == 1 && b.AppliesTo(false)
      case Child(p, b) =>
        && p < k
        && Window(p) + 1 == Window(k)
        && b.AppliesTo(BranchOf(p).Transverse())
  {
  }

  /** The tree has no duplicates: ChildOf recovers every segment from its
      parent and branch. */
  lemma ChildOfInvertsLineage()
    ensures forall k | 0 <= k < SegmentCount && Lineage(k).Child? ::
      ChildOf(Lineage(k).parent, Lineage(k).branch) == k
  {
  }

  /** The tree is complete: every pathway of the first two windows has a
      child along each branch that applies to it, and ChildOf names a segment
      for nothing else. */
  lemma LineageComplete()
    ensures forall p: nat, b: Branch | p < SegmentCount && Window(p) < 3 && b.AppliesTo(BranchOf(p).Transverse()) ::
      0 <= ChildOf(p, b) < SegmentCount && Lineage(ChildOf(p, b)) == Child(p, b)
    ensures forall p: nat, b: Branch | !(p < SegmentCount && Window(p) < 3 && b.AppliesTo(BranchOf(p).Transverse())) ::
      ChildOf(p, b) == -1
  {
    forall p: nat, b: Branch | p < SegmentCount && Window(p) < 3 && b.AppliesTo(BranchOf(p).Transverse())
      ensures 0 <= ChildOf(p, b) < SegmentCount && Lineage(ChildOf(p, b)) == Child(p, b)
    {
      if p < 2 {
      } else if p < 4 {
      } else {
      }
    }
  }
}
