/** lasercut/join.py: tab and slot joints between laser-cut panels. Every
    panel collects the solids to fuse onto it (`toAdd`) and to cut out of it
    (`toRemove`); a joint walks the slot positions of a tab and hands each one
    to the first other panel its tab meets. */
module Join {
  import opened Wrappers
  import opened Solids
  import opened Helper
  import opened Material
  import opened TabProperty
  import opened JoinSlots
  import opened JoinShapes
  import opened Plans
  import opened JoinPlans
  import opened Elements

  /** `make_tab_join`. A joint without its tab panel fails on its first plan
      reading `tab_part.properties`, and one whose tab has no
      `transform_matrix` fails there too, in `transform_part`. */
  method MakeTabJoin(tab: TabProperties, tabPart: MaterialElement?, others: seq<MaterialElement>, probe: Probe)
    returns (r: Result<()>)
    requires tab.tabType == TabKind && tabPart !in others && DistinctElements(others)
    modifies {tabPart} - {null}, set o | o in others
    ensures JoinError(tab).Some? ==> r == Err(JoinError(tab).value)
    ensures JoinError(tab).None? && (tabPart == null || tab.transformMatrix.None?) ==>
      r == (if NeedsTabPart(tab, |others|) then Err(AttributeError) else Ok(()))
    ensures JoinError(tab).None? && tabPart != null && tab.transformMatrix.Some? ==>
      r.Ok? && Applied(tabPart, others, JoinRows(tab, tabPart.properties, PropsOf(others), probe))
    ensures r.Err? || tabPart == null || tab.transformMatrix.None? ==> unchanged(set o | o in others)
    ensures tabPart != null && (r.Err? || tab.transformMatrix.None?) ==> unchanged(tabPart)
  {
    var slots := GetSlotPositions(tab);
    if slots.Err? {
      return Err(slots.error);
    }
    if tabPart == null || tab.transformMatrix.None? {
      if |slots.value| > 0 && |others| > 0 {
        return Err(AttributeError);
      }
      return Ok(());
    }
    var rows := TabRows(tab, tabPart.properties, PropsOf(others), slots.value, probe);
    ApplyRows(tabPart, others, rows);
    return Ok(());
  }

  /** `make_tslot_tab_join`. The nut table lookup comes before the slot positions. */
  method MakeTSlotTabJoin(tab: TabProperties, tabPart: MaterialElement?, others: seq<MaterialElement>, probe: Probe)
    returns (r: Result<()>)
    requires tab.tabType == TSlotKind && tabPart !in others && DistinctElements(others)
    modifies {tabPart} - {null}, set o | o in others
    ensures JoinError(tab).Some? ==> r == Err(JoinError(tab).value)
    ensures JoinError(tab).None? && (tabPart == null || tab.transformMatrix.None?) ==>
      r == (if NeedsTabPart(tab, |others|) then Err(AttributeError) else Ok(()))
    ensures JoinError(tab).None? && tabPart != null && tab.transformMatrix.Some? ==>
      r.Ok? && Applied(tabPart, others, JoinRows(tab, tabPart.properties, PropsOf(others), probe))
    ensures r.Err? || tabPart == null || tab.transformMatrix.None? ==> unchanged(set o | o in others)
    ensures tabPart != null && (r.Err? || tab.transformMatrix.None?) ==> unchanged(tabPart)
  {
    var spec := GetScrewNutSpec(tab.screwDiameter, tab.screwLength);
    if spec.Err? {
      return Err(spec.error);
    }
    var slots := GetSlotPositions(tab);
    if slots.Err? {
      return Err(slots.error);
    }
    if tabPart == null || tab.transformMatrix.None? {
      if |slots.value| > 0 && |others| > 0 {
        return Err(AttributeError);
      }
      return Ok(());
    }
    var rows := TSlotRows(tab, tabPart.properties, PropsOf(others), spec.value, slots.value, probe);
    ApplyRows(tabPart, others, rows);
    return Ok(());
  }

  /** The `y_pos` loop of `make_continuous_tab_joins`: the running start of
      each segment, stepped by the segment length, and its centre. */
  method SegmentCenters(tab: TabProperties) returns (centers: seq<real>)
    requires tab.yLength.Some? && tab.tabsNumber + 1 != 0
    ensures |centers| == (if tab.tabsNumber + 1 > 0 then tab.tabsNumber + 1 else 0)
    ensures forall k :: 0 <= k < |centers| ==> centers[k] == SegmentCenter(tab, k)
  {
    var length := tab.yLength.value / (tab.tabsNumber + 1) as real;
    var count := if tab.tabsNumber + 1 > 0 then tab.tabsNumber + 1 else 0;
    var yPos := -tab.yLength.value / 2.0;
    centers := [];
    var k := 0;
    while k < count
      invariant 0 <= k <= count && |centers| == k
      invariant yPos == -tab.yLength.value / 2.0 + k as real * length
      invariant forall i :: 0 <= i < k ==> centers[i] == SegmentCenter(tab, i)
    {
      var center := yPos + length / 2.0;
      if tab.yInvert {
        center := -center;
      }
      centers := centers + [center];
      yPos := yPos + length;
      k := k + 1;
    }
  }

  /** The rows of the continuous joint, from the segment centres. */
  function ContinuousRowsAt(tab: TabProperties, face: MaterialProperties, planes: seq<MaterialProperties>,
                            centers: seq<real>, probe: Probe): seq<seq<Plan>>
    requires tab.yLength.Some? && tab.tabsNumber + 1 != 0
  {
    seq(|centers|, k requires 0 <= k < |centers| =>
      if k % 2 != 0 then []
      else
        seq(|planes|, j requires 0 <= j < |planes| =>
          ContinuousPlan(tab, face, planes[j], SegmentLength(tab), centers[k],
                         k != 0, k != tab.tabsNumber, probe)))
  }

  /** `make_continuous_tab_joins`. */
  method MakeContinuousTabJoins(tab: TabProperties, tabPart: MaterialElement?, others: seq<MaterialElement>,
                                probe: Probe)
    returns (r: Result<()>)
    requires tab.tabType == ContinuousKind && tabPart !in others && DistinctElements(others)
    modifies {tabPart} - {null}, set o | o in others
    ensures JoinError(tab).Some? ==> r == Err(JoinError(tab).value)
    ensures JoinError(tab).None? && (tabPart == null || tab.transformMatrix.None?) ==>
      r == (if NeedsTabPart(tab, |others|) then Err(AttributeError) else Ok(()))
    ensures JoinError(tab).None? && tabPart != null && tab.transformMatrix.Some? ==>
      r.Ok? && Applied(tabPart, others, JoinRows(tab, tabPart.properties, PropsOf(others), probe))
    ensures r.Err? || tabPart == null || tab.transformMatrix.None? ==> unchanged(set o | o in others)
    ensures tabPart != null && (r.Err? || tab.transformMatrix.None?) ==> unchanged(tabPart)
  {
    if tab.yLength.None? {
      return Err(AttributeError);
    }
    if tab.tabsNumber + 1 == 0 {
      return Err(ZeroDivisionError);
    }
    var centers := SegmentCenters(tab);
    if tabPart == null || tab.transformMatrix.None? {
      if |centers| > 0 && |others| > 0 {
        return Err(AttributeError);
      }
      return Ok(());
    }
    var rows := ContinuousRowsAt(tab, tabPart.properties, PropsOf(others), centers, probe);
    assert rows == ContinuousRows(tab, tabPart.properties, PropsOf(others), probe);
    ApplyRows(tabPart, others, rows);
    return Ok(());
  }

  /** The dispatch of `make_tabs_joins` on the tab's type. */
  method JoinTab(tab: TabProperties, tabPart: MaterialElement?, others: seq<MaterialElement>, probe: Probe)
    returns (r: Result<()>)
    requires tabPart !in others && DistinctElements(others)
    modifies {tabPart} - {null}, set o | o in others
    ensures JoinError(tab).Some? ==> r == Err(JoinError(tab).value)
    ensures JoinError(tab).None? && (tabPart == null || tab.transformMatrix.None?) ==>
      r == (if NeedsTabPart(tab, |others|) then Err(AttributeError) else Ok(()))
    ensures JoinError(tab).None? && tabPart != null && tab.transformMatrix.Some? ==>
      r.Ok? && Applied(tabPart, others, JoinRows(tab, tabPart.properties, PropsOf(others), probe))
    ensures r.Err? || tabPart == null || tab.transformMatrix.None? ==> unchanged(set o | o in others)
    ensures tabPart != null && (r.Err? || tab.transformMatrix.None?) ==> unchanged(tabPart)
  {
    match tab.tabType
    case TabKind =>
      r := MakeTabJoin(tab, tabPart, others, probe);
    case TSlotKind =>
      r := MakeTSlotTabJoin(tab, tabPart, others, probe);
    case ContinuousKind =>
      r := MakeContinuousTabJoins(tab, tabPart, others, probe);
    case NotDefinedKind =>
      r := Err(ValueError("Unknown tab type"));
  }

  // ---------------------------------------------------------------------
  // All the joints of an assembly

  /** Index of the last part whose document object has `name` (`make_tabs_joins`
      keeps the last match as the tab panel), -1 when none has. */
  function LastMatch(parts: seq<MaterialProperties>, name: string): (r: int)
    ensures -1 <= r < |parts|
    ensures r >= 0 ==> parts[r].freecadObject.name == name
    ensures forall k :: r < k < |parts| ==> parts[k].freecadObject.name != name
  {
    if parts == [] then -1
    else if parts[|parts| - 1].freecadObject.name == name then |parts| - 1
    else LastMatch(parts[..|parts| - 1], name)
  }

  /** The parts whose document object is not `name`, in order. */
  function OthersOf(parts: seq<MaterialProperties>, name: string): seq<MaterialProperties>
  {
    if parts == [] then []
    else OthersOf(parts[..|parts| - 1], name) +
         (if parts[|parts| - 1].freecadObject.name != name then [parts[|parts| - 1]] else [])
  }

  function OthersElements(es: seq<MaterialElement>, name: string): seq<MaterialElement>
  {
    if es == [] then []
    else OthersElements(es[..|es| - 1], name) +
         (if es[|es| - 1].properties.freecadObject.name != name then [es[|es| - 1]] else [])
  }

  /** Position of part `i` among the other panels. */
  function OtherPos(parts: seq<MaterialProperties>, name: string, i: nat): nat
    requires i <= |parts|
  {
    |OthersOf(parts[..i], name)|
  }

  lemma {:induction false} OthersElementsProps(es: seq<MaterialElement>, name: string)
    ensures PropsOf(OthersElements(es, name)) == OthersOf(PropsOf(es), name)
  {
    if es != [] {
      OthersElementsProps(es[..|es| - 1], name);
      assert PropsOf(es)[..|es| - 1] == PropsOf(es[..|es| - 1]);
    }
  }

  lemma {:induction false} OthersMembers(es: seq<MaterialElement>, name: string)
    ensures forall o :: o in OthersElements(es, name) ==> o in es && o.properties.freecadObject.name != name
  {
    if es != [] {
      OthersMembers(es[..|es| - 1], name);
    }
  }

  lemma {:induction false} OthersDistinct(es: seq<MaterialElement>, name: string)
    requires DistinctElements(es)
    ensures DistinctElements(OthersElements(es, name))
  {
    if es != [] {
      var init := es[..|es| - 1];
      OthersDistinct(init, name);
      OthersMembers(init, name);
      var o := OthersElements(es, name);
      var oi := OthersElements(init, name);
      forall a, b | 0 <= a < b < |o| ensures o[a] != o[b] {
        if b == |oi| {
          assert o[a] == oi[a] && oi[a] in init;
          assert o[b] == es[|es| - 1];
        } else {
          assert o[a] == oi[a] && o[b] == oi[b];
        }
      }
    }
  }

  lemma {:induction false} OthersPrefix(es: seq<MaterialElement>, name: string, i: nat)
    requires i <= |es|
    ensures |OthersElements(es[..i], name)| <= |OthersElements(es, name)|
    ensures OthersElements(es, name)[..|OthersElements(es[..i], name)|] == OthersElements(es[..i], name)
  {
    if i < |es| {
      var init := es[..|es| - 1];
      OthersPrefix(init, name, i);
      assert init[..i] == es[..i];
    } else {
      assert es[..i] == es;
    }
  }

  /** A part without `name` sits at its position among the other panels. */
  lemma OthersIndex(es: seq<MaterialElement>, name: string, i: nat)
    requires i < |es| && es[i].properties.freecadObject.name != name
    ensures OtherPos(PropsOf(es), name, i) < |OthersElements(es, name)|
    ensures OthersElements(es, name)[OtherPos(PropsOf(es), name, i)] == es[i]
  {
    assert PropsOf(es)[..i] == PropsOf(es[..i]);
    OthersElementsProps(es[..i], name);
    OthersPrefix(es, name, i + 1);
    assert es[..i + 1][..i] == es[..i];
  }

  /** The error the joint of `tab` raises over `parts`, if any. */
  function TabError(parts: seq<MaterialProperties>, tab: TabProperties): Option<Error>
  {
    if JoinError(tab).Some? then JoinError(tab)
    else if (LastMatch(parts, tab.freecadObject.name) < 0 || tab.transformMatrix.None?) &&
            NeedsTabPart(tab, |OthersOf(parts, tab.freecadObject.name)|) then Some(AttributeError)
    else None
  }

  /** The first error of the joints, in the order of the tabs list. */
  function FirstError(parts: seq<MaterialProperties>, tabs: seq<TabProperties>): Option<Error>
  {
    if tabs == [] then None
    else if FirstError(parts, tabs[..|tabs| - 1]).Some? then FirstError(parts, tabs[..|tabs| - 1])
    else TabError(parts, tabs[|tabs| - 1])
  }

  /** Once a joint has failed, the later ones do not change the outcome. */
  lemma {:induction false} FirstErrorPrefix(parts: seq<MaterialProperties>, tabs: seq<TabProperties>, m: nat)
    requires m <= |tabs| && FirstError(parts, tabs[..m]).Some?
    ensures FirstError(parts, tabs) == FirstError(parts, tabs[..m])
  {
    if m < |tabs| {
      assert tabs[..|tabs| - 1][..m] == tabs[..m];
      FirstErrorPrefix(parts, tabs[..|tabs| - 1], m);
    } else {
      assert tabs[..m] == tabs;
    }
  }

  /** The rows of the joint of `tab`, with its tab panel and the other panels. */
  function RowsOf(parts: seq<MaterialProperties>, tab: TabProperties, probe: Probe): seq<seq<Plan>>
    requires JoinError(tab).None? && LastMatch(parts, tab.freecadObject.name) >= 0
  {
    var name := tab.freecadObject.name;
    JoinRows(tab, parts[LastMatch(parts, name)], OthersOf(parts, name), probe)
  }

  /** What the joint of `tab` fuses onto part `i`: only the tab panel gains solids. */
  function AddsFrom(parts: seq<MaterialProperties>, tab: TabProperties, i: nat, probe: Probe): seq<Solid>
  {
    if JoinError(tab).Some? || tab.transformMatrix.None? || LastMatch(parts, tab.freecadObject.name) != i then []
    else TabAdds(RowsOf(parts, tab, probe))
  }

  /** What the joint of `tab` cuts from part `i`: the tab panel its screw ways,
      every other panel the holes of the slots it was the first to meet. */
  function RemovesFrom(parts: seq<MaterialProperties>, tab: TabProperties, i: nat, probe: Probe): seq<Solid>
    requires i < |parts|
  {
    var name := tab.freecadObject.name;
    if JoinError(tab).Some? || tab.transformMatrix.None? || LastMatch(parts, name) < 0 then []
    else if i == LastMatch(parts, name) then TabRemoves(RowsOf(parts, tab, probe))
    else if parts[i].freecadObject.name != name then OtherRemoves(RowsOf(parts, tab, probe), OtherPos(parts, name, i))
    else []
  }

  function AddsAfter(parts: seq<MaterialProperties>, tabs: seq<TabProperties>, i: nat, probe: Probe): seq<Solid>
  {
    if tabs == [] then []
    else AddsAfter(parts, tabs[..|tabs| - 1], i, probe) + AddsFrom(parts, tabs[|tabs| - 1], i, probe)
  }

  function RemovesAfter(parts: seq<MaterialProperties>, tabs: seq<TabProperties>, i: nat, probe: Probe): seq<Solid>
    requires i < |parts|
  {
    if tabs == [] then []
    else RemovesAfter(parts, tabs[..|tabs| - 1], i, probe) + RemovesFrom(parts, tabs[|tabs| - 1], i, probe)
  }

  /** The search of `make_tabs_joins` for a tab's panel and the other panels. */
  method SplitParts(es: seq<MaterialElement>, name: string) returns (tabPart: MaterialElement?, others: seq<MaterialElement>)
    ensures LastMatch(PropsOf(es), name) < 0 ==> tabPart == null
    ensures LastMatch(PropsOf(es), name) >= 0 ==> tabPart == es[LastMatch(PropsOf(es), name)]
    ensures others == OthersElements(es, name)
  {
    tabPart := null;
    others := [];
    var q := 0;
    while q < |es|
      invariant 0 <= q <= |es|
      invariant PropsOf(es)[..q] == PropsOf(es[..q])
      invariant LastMatch(PropsOf(es[..q]), name) < 0 ==> tabPart == null
      invariant LastMatch(PropsOf(es[..q]), name) >= 0 ==> tabPart == es[LastMatch(PropsOf(es[..q]), name)]
      invariant others == OthersElements(es[..q], name)
    {
      assert es[..q + 1][..q] == es[..q];
      assert PropsOf(es[..q + 1])[..q] == PropsOf(es[..q]);
      if es[q].GetName() == name {
        tabPart := es[q];
      } else {
        others := others + [es[q]];
      }
      q := q + 1;
      assert PropsOf(es)[..q] == PropsOf(es[..q]);
    }
    assert es[..q] == es;
  }

  /** `make_tabs_joins`: one element per part, then every tab's joint in
      order. The elements are lost when a joint raises. */
  method MakeTabsJoins(parts: seq<MaterialProperties>, tabs: seq<TabProperties>, probe: Probe)
    returns (r: Result<seq<MaterialElement>>)
    ensures r.Err? <==> FirstError(parts, tabs).Some?
    ensures r.Err? ==> r.error == FirstError(parts, tabs).value
    ensures r.Ok? ==> |r.value| == |parts| && DistinctElements(r.value)
    ensures r.Ok? ==> forall i :: 0 <= i < |parts| ==>
      fresh(r.value[i]) && r.value[i].properties == parts[i] &&
      r.value[i].toAdd == AddsAfter(parts, tabs, i, probe) &&
      r.value[i].toRemove == RemovesAfter(parts, tabs, i, probe)
  {
    var elems: seq<MaterialElement> := [];
    var k := 0;
    while k < |parts|
      invariant 0 <= k <= |parts| && |elems| == k
      invariant DistinctElements(elems)
      invariant forall i :: 0 <= i < k ==>
        fresh(elems[i]) && elems[i].properties == parts[i] && elems[i].toAdd == [] && elems[i].toRemove == []
    {
      var e := new MaterialElement(parts[k]);
      elems := elems + [e];
      k := k + 1;
    }
    assert PropsOf(elems) == parts;
    var m := 0;
    while m < |tabs|
      invariant 0 <= m <= |tabs|
      invariant |elems| == |parts| && PropsOf(elems) == parts && DistinctElements(elems)
      invariant FirstError(parts, tabs[..m]).None?
      invariant forall i :: 0 <= i < |parts| ==>
        fresh(elems[i]) && elems[i].properties == parts[i] &&
        elems[i].toAdd == AddsAfter(parts, tabs[..m], i, probe) &&
        elems[i].toRemove == RemovesAfter(parts, tabs[..m], i, probe)
    {
      assert tabs[..m + 1][..m] == tabs[..m];
      var done := ApplyTab(parts, elems, tabs[m], probe);
      JoinStep(parts, tabs, m, probe);
      if done.Err? {
        FirstErrorPrefix(parts, tabs, m + 1);
        return Err(done.error);
      }
      m := m + 1;
    }
    assert tabs[..m] == tabs;
    return Ok(elems);
  }

  /** One pass of the tabs loop of `make_tabs_joins`. */
  method ApplyTab(parts: seq<MaterialProperties>, elems: seq<MaterialElement>, tab: TabProperties, probe: Probe)
    returns (r: Result<()>)
    requires |elems| == |parts| && PropsOf(elems) == parts && DistinctElements(elems)
    modifies set e | e in elems
    ensures r.Err? <==> TabError(parts, tab).Some?
    ensures r.Err? ==> r.error == TabError(parts, tab).value
    ensures r.Ok? ==> forall i :: 0 <= i < |parts| ==>
      elems[i].toAdd == old(elems[i].toAdd) + AddsFrom(parts, tab, i, probe)
    ensures r.Ok? ==> forall i :: 0 <= i < |parts| ==>
      elems[i].toRemove == old(elems[i].toRemove) + RemovesFrom(parts, tab, i, probe)
  {
    var name := tab.freecadObject.name;
    var tabPart, others := SplitParts(elems, name);
    OthersMembers(elems, name);
    OthersDistinct(elems, name);
    OthersElementsProps(elems, name);
    r := JoinTab(tab, tabPart, others, probe);
    if r.Ok? {
      ghost var ti := LastMatch(parts, name);
      forall i | 0 <= i < |parts|
        ensures elems[i].toAdd == old(elems[i].toAdd) + AddsFrom(parts, tab, i, probe)
        ensures elems[i].toRemove == old(elems[i].toRemove) + RemovesFrom(parts, tab, i, probe)
      {
        if i == ti {
          assert elems[i] == tabPart;
        } else if elems[i].GetName() != name {
          OthersIndex(elems, name, i);
          ghost var j := OtherPos(parts, name, i);
          assert others[j] == elems[i];
          if tabPart != null {
            SpreadIndex(old(RemovesOf(others)), RowsOf(parts, tab, probe), j);
            assert RemovesOf(others)[j] == old(RemovesOf(others))[j] + OtherRemoves(RowsOf(parts, tab, probe), j);
          }
        } else {
          assert elems[i] !in others && elems[i] != tabPart;
        }
      }
    }
  }

  /** One more tab on top of the ones before it. */
  lemma JoinStep(parts: seq<MaterialProperties>, tabs: seq<TabProperties>, m: nat, probe: Probe)
    requires m < |tabs|
    ensures FirstError(parts, tabs[..m + 1]) ==
      (if FirstError(parts, tabs[..m]).Some? then FirstError(parts, tabs[..m]) else TabError(parts, tabs[m]))
    ensures forall i :: 0 <= i < |parts| ==>
      AddsAfter(parts, tabs[..m + 1], i, probe) == AddsAfter(parts, tabs[..m], i, probe) + AddsFrom(parts, tabs[m], i, probe) &&
      RemovesAfter(parts, tabs[..m + 1], i, probe) ==
        RemovesAfter(parts, tabs[..m], i, probe) + RemovesFrom(parts, tabs[m], i, probe)
  {
    assert tabs[..m + 1][..m] == tabs[..m];
  }
}
