/** lasercut/join.py: what a joint plans for each slot position and each
    other panel, and the rows of plans each kind of joint builds. */
module JoinPlans {
  import opened Wrappers
  import opened Solids
  import opened Helper
  import opened Material
  import opened TabProperty
  import opened JoinSlots
  import opened JoinShapes
  import opened Plans

  // Joints. For one slot position and one other panel, a joint plans the
  // solids to fuse onto the tab panel, to cut from it and to cut from the
  // other panel, and whether the tab meets that panel; the slot goes to the
  // first other panel it meets.

  /** `make_tab_join`, for one slot and one other panel. */
  function TabPlan(tab: TabProperties, face: MaterialProperties, plane: MaterialProperties,
                   posY: real, probe: Probe): Plan
  {
    var t := Transform(Cuboid(TabOnFace(face, plane, tab.tabsWidth, posY, true, true)), tab, plane);
    var hole := HoleShape(tab, face, plane, tab.tabsWidth, posY, true, true, probe);
    Plan(Hits(probe, plane, t), [t], [], [Transform(hole, tab, plane)])
  }

  /** Distance from a T-slot's screw to the centre of each of its two tabs. */
  function HalfTabDistance(tab: TabProperties): real
  {
    tab.screwDiameter * tab.halfTabRatio + tab.tabsWidth / 2.0
  }

  /** `make_tslot_tab_join`, for one slot and one other panel: two tabs either
      side of a screw, their two holes, the screw's way through the tab panel
      and its hole through the other panel. It meets the other panel when
      either tab does. */
  function TSlotPlan(tab: TabProperties, face: MaterialProperties, plane: MaterialProperties,
                     spec: ScrewNutSpec, posY: real, probe: Probe): Plan
  {
    var d := HalfTabDistance(tab);
    var left := Transform(Cuboid(TabOnFace(face, plane, tab.tabsWidth, posY - d, true, true)), tab, plane);
    var right := Transform(Cuboid(TabOnFace(face, plane, tab.tabsWidth, posY + d, true, true)), tab, plane);
    var leftHole := HoleShape(tab, face, plane, tab.tabsWidth, posY - d, true, true, probe);
    var rightHole := HoleShape(tab, face, plane, tab.tabsWidth, posY + d, true, true, probe);
    Plan(Hits(probe, plane, right) || Hits(probe, plane, left),
         [left, right],
         [Transform(ScrewWayOnFace(face, plane, spec, posY, tab.dogBone), tab, plane)],
         [Transform(leftHole, tab, plane), Transform(rightHole, tab, plane),
          Transform(ScrewWayOnPlane(plane, spec, posY), tab, plane)])
  }

  /** `make_continuous_tab_joins`, for one segment and one other panel. */
  function ContinuousPlan(tab: TabProperties, face: MaterialProperties, plane: MaterialProperties,
                          width: real, center: real, leftKerf: bool, rightKerf: bool, probe: Probe): Plan
  {
    var t := Transform(Cuboid(TabOnFace(face, plane, width, center, leftKerf, rightKerf)), tab, plane);
    var hole := HoleShape(tab, face, plane, width, center, leftKerf, rightKerf, probe);
    Plan(Hits(probe, plane, t), [t], [], [Transform(hole, tab, plane)])
  }

  // ---------------------------------------------------------------------
  // The rows of plans each kind of joint builds

  function TabRow(tab: TabProperties, face: MaterialProperties, planes: seq<MaterialProperties>,
                  posY: real, probe: Probe): (r: seq<Plan>)
    ensures |r| == |planes|
  {
    seq(|planes|, j requires 0 <= j < |planes| => TabPlan(tab, face, planes[j], posY, probe))
  }

  function TSlotRow(tab: TabProperties, face: MaterialProperties, planes: seq<MaterialProperties>,
                    spec: ScrewNutSpec, posY: real, probe: Probe): (r: seq<Plan>)
    ensures |r| == |planes|
  {
    seq(|planes|, j requires 0 <= j < |planes| => TSlotPlan(tab, face, planes[j], spec, posY, probe))
  }

  /** Width of each of the `tabs_number + 1` segments of a continuous joint. */
  function SegmentLength(tab: TabProperties): real
    requires tab.yLength.Some? && tab.tabsNumber + 1 != 0
  {
    tab.yLength.value / (tab.tabsNumber + 1) as real
  }

  /** Centre of segment `k` of a continuous joint, mirrored by `y_invert`. */
  function SegmentCenter(tab: TabProperties, k: int): real
    requires tab.yLength.Some? && tab.tabsNumber + 1 != 0
  {
    var c := -tab.yLength.value / 2.0 + k as real * SegmentLength(tab) + SegmentLength(tab) / 2.0;
    if tab.yInvert then -c else c
  }

  /** Segment `k`: even segments are tabs of the tab panel, odd ones are left
      to the other panel; only the two ends of the joint have no kerf on
      their outer side. */
  function ContinuousRow(tab: TabProperties, face: MaterialProperties, planes: seq<MaterialProperties>,
                         k: int, probe: Probe): (r: seq<Plan>)
    requires tab.yLength.Some? && tab.tabsNumber + 1 != 0
    ensures k % 2 == 0 ==> |r| == |planes|
    ensures k % 2 != 0 ==> r == []
  {
    if k % 2 != 0 then []
    else
      seq(|planes|, j requires 0 <= j < |planes| =>
        ContinuousPlan(tab, face, planes[j], SegmentLength(tab), SegmentCenter(tab, k),
                       k != 0, k != tab.tabsNumber, probe))
  }

  /** The slot positions `get_slot_positions` gives or the error it raises. */
  function SlotsOf(tab: TabProperties): Result<seq<real>>
  {
    if tab.yLength.None? then Err(AttributeError)
    else if tab.tabsNumber == 0 then Err(ZeroDivisionError)
    else Ok(SlotPositions(tab.yLength.value, tab.tabsNumber, tab.tabsShift, tab.intervalRatio, tab.yInvert))
  }

  /** The error a joint raises before it changes anything, if any. */
  function JoinError(tab: TabProperties): Option<Error>
  {
    match tab.tabType
      case TabKind => if SlotsOf(tab).Err? then Some(SlotsOf(tab).error) else None
      case TSlotKind =>
        if GetScrewNutSpec(tab.screwDiameter, tab.screwLength).Err? then
          Some(GetScrewNutSpec(tab.screwDiameter, tab.screwLength).error)
        else if SlotsOf(tab).Err? then Some(SlotsOf(tab).error)
        else None
      case ContinuousKind =>
        if tab.yLength.None? then Some(AttributeError)
        else if tab.tabsNumber + 1 == 0 then Some(ZeroDivisionError)
        else None
      case NotDefinedKind => Some(ValueError("Unknown tab type"))
  }

  /** One row per slot (per segment for a continuous joint), one plan per other panel. */
  function JoinRows(tab: TabProperties, face: MaterialProperties, planes: seq<MaterialProperties>,
                    probe: Probe): seq<seq<Plan>>
    requires JoinError(tab).None?
  {
    match tab.tabType
      case TabKind => TabRows(tab, face, planes, SlotsOf(tab).value, probe)
      case TSlotKind =>
        TSlotRows(tab, face, planes, GetScrewNutSpec(tab.screwDiameter, tab.screwLength).value, SlotsOf(tab).value, probe)
      case ContinuousKind => ContinuousRows(tab, face, planes, probe)
  }

  function TabRows(tab: TabProperties, face: MaterialProperties, planes: seq<MaterialProperties>,
                   slots: seq<real>, probe: Probe): (r: seq<seq<Plan>>)
    ensures |r| == |slots| && forall i :: 0 <= i < |slots| ==> r[i] == TabRow(tab, face, planes, slots[i], probe)
  {
    seq(|slots|, i requires 0 <= i < |slots| => TabRow(tab, face, planes, slots[i], probe))
  }

  function TSlotRows(tab: TabProperties, face: MaterialProperties, planes: seq<MaterialProperties>,
                     spec: ScrewNutSpec, slots: seq<real>, probe: Probe): (r: seq<seq<Plan>>)
    ensures |r| == |slots| && forall i :: 0 <= i < |slots| ==> r[i] == TSlotRow(tab, face, planes, spec, slots[i], probe)
  {
    seq(|slots|, i requires 0 <= i < |slots| => TSlotRow(tab, face, planes, spec, slots[i], probe))
  }

  /** The `tabs_number + 1` segments; none when that count is negative. */
  function ContinuousRows(tab: TabProperties, face: MaterialProperties, planes: seq<MaterialProperties>,
                          probe: Probe): (r: seq<seq<Plan>>)
    requires tab.yLength.Some? && tab.tabsNumber + 1 != 0
    ensures |r| == (if tab.tabsNumber + 1 > 0 then tab.tabsNumber + 1 else 0)
    ensures forall k :: 0 <= k < |r| ==> r[k] == ContinuousRow(tab, face, planes, k, probe)
  {
    var count := if tab.tabsNumber + 1 > 0 then tab.tabsNumber + 1 else 0;
    seq(count, k requires 0 <= k < count => ContinuousRow(tab, face, planes, k, probe))
  }

  /** A joint without its tab panel, or whose tab has no `transform_matrix`,
      fails on its first plan. */
  predicate NeedsTabPart(tab: TabProperties, others: nat)
    requires JoinError(tab).None?
  {
    others > 0 &&
    match tab.tabType
      case TabKind => |SlotsOf(tab).value| > 0
      case TSlotKind => |SlotsOf(tab).value| > 0
      case ContinuousKind => tab.tabsNumber + 1 > 0
  }

  /** ... and it has a first plan exactly when some row is not empty. */
  lemma NeedsTabPartIff(tab: TabProperties, face: MaterialProperties, planes: seq<MaterialProperties>, probe: Probe)
    requires JoinError(tab).None?
    ensures NeedsTabPart(tab, |planes|) <==>
      exists i :: 0 <= i < |JoinRows(tab, face, planes, probe)| && JoinRows(tab, face, planes, probe)[i] != []
  {
    var rows := JoinRows(tab, face, planes, probe);
    if NeedsTabPart(tab, |planes|) {
      assert rows[0] != [];
    }
  }

  /** The segments of a continuous joint tile the face: segment `k` spans
      `[-y/2 + k v, -y/2 + (k + 1) v]` and the last one ends at `y/2`. */
  lemma ContinuousTiling(tab: TabProperties, k: int)
    requires tab.yLength.Some? && tab.tabsNumber + 1 > 0 && !tab.yInvert
    ensures SegmentCenter(tab, k) - SegmentLength(tab) / 2.0 == -tab.yLength.value / 2.0 + k as real * SegmentLength(tab)
    ensures SegmentCenter(tab, k) + SegmentLength(tab) / 2.0 ==
            -tab.yLength.value / 2.0 + (k + 1) as real * SegmentLength(tab)
    ensures -tab.yLength.value / 2.0 + (tab.tabsNumber + 1) as real * SegmentLength(tab) == tab.yLength.value / 2.0
  {
    var n := (tab.tabsNumber + 1) as real;
    assert n * (tab.yLength.value / n) == tab.yLength.value;
  }

  /** A tab joint gives the tab panel one tab per slot that met a panel and
      nothing to remove, and the other panels one hole in all per such slot. */
  lemma TabJoinCounts(tab: TabProperties, face: MaterialProperties, planes: seq<MaterialProperties>,
                      slots: seq<real>, probe: Probe)
    ensures var rows := TabRows(tab, face, planes, slots, probe);
      |TabAdds(rows)| == HitCount(rows) && |TabRemoves(rows)| == 0 &&
      SumOtherRemoves(rows, |planes|) == HitCount(rows)
  {
    var rows := TabRows(tab, face, planes, slots, probe);
    TabAddsCount(rows, 1);
    TabRemovesCount(rows, 0);
    OtherRemovesCount(rows, |planes|, 1);
  }

  /** A T-slot joint gives the tab panel two tabs and one screw way per slot
      that met a panel, and the other panels three cuts in all per such slot:
      two holes and the screw's hole. */
  lemma TSlotJoinCounts(tab: TabProperties, face: MaterialProperties, planes: seq<MaterialProperties>,
                        spec: ScrewNutSpec, slots: seq<real>, probe: Probe)
    ensures var rows := TSlotRows(tab, face, planes, spec, slots, probe);
      |TabAdds(rows)| == 2 * HitCount(rows) && |TabRemoves(rows)| == HitCount(rows) &&
      SumOtherRemoves(rows, |planes|) == 3 * HitCount(rows)
  {
    var rows := TSlotRows(tab, face, planes, spec, slots, probe);
    TabAddsCount(rows, 2);
    TabRemovesCount(rows, 1);
    OtherRemovesCount(rows, |planes|, 3);
  }
}
