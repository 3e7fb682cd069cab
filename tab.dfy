/** panel/tab.py: `TabsList`, the tabs of a joint panel kept in a shared
    `PropertiesList`, where an entry may be a link that borrows the joint
    settings of another tab. */
module TabPanel {
  import opened Wrappers
  import opened Solids
  import opened TabProperty
  import opened PropertyList

  /** The `face` dictionary the selection hands over. */
  datatype FaceSelection = FaceSelection(name: string, face: Face, freecadObject: DocObject)

  /** `TabProperties(freecad_face=..., freecad_obj_name=..., face_name=...,
      tab_type=..., link_name=...)` as `append` and `append_link` call it.
      tab.py passes neither `freecad_object` nor `tab_name`, so the call
      belongs to a revision of the constructor other than the one in
      TabProperty; its outcome, tab name included, is an input. */
  type MakeTab = (FaceSelection, TabType, Option<string>) -> Result<TabProperties>

  function TabName(t: TabProperties): string { t.identity.tabName }

  /** `if tab.link_name:` — a link name that is present and not empty. */
  predicate Linked(t: TabProperties)
  {
    t.identity.linkName.Some? && t.identity.linkName.value != ""
  }

  /** The tab types `createWidgetFromTabProperties` has a widget for; any
      other is "Unknown type of tab". */
  predicate HasWidget(k: TabType)
  {
    k == TabKind || k == TSlotKind || k == ContinuousKind
  }

  /** `isinstance(tab, TabLink)`: the entries are `TabProperties`, never
      `TabLink` widgets, so no entry passes the test. */
  predicate IsTabLinkWidget(t: TabProperties)
  {
    false
  }

  /** What `get(name)` returns besides its widget: the first tab of that
      name, `None` when there is none. Building the widget of a tab that is
      not a link fails for a type without a widget. */
  function Lookup(tabs: seq<TabProperties>, name: string): (r: Result<Option<TabProperties>>)
    ensures r.Err? ==> r == Err(ValueError("Unknown type of tab"))
    ensures r == Ok(None) <==> FirstWith(tabs, TabName, name).None?
    ensures r.Ok? && r.value.Some? ==> r.value.value == tabs[FirstWith(tabs, TabName, name).value]
    ensures r.Err? <==>
      FirstWith(tabs, TabName, name).Some? &&
      !Linked(tabs[FirstWith(tabs, TabName, name).value]) &&
      !HasWidget(tabs[FirstWith(tabs, TabName, name).value].tabType)
  {
    match FirstWith(tabs, TabName, name)
    case None => Ok(None)
    case Some(i) =>
      if !Linked(tabs[i]) && !HasWidget(tabs[i].tabType) then Err(ValueError("Unknown type of tab"))
      else Ok(Some(tabs[i]))
  }

  /** The face geometry `TabProperties` sets from the face's local frame;
      all three stay unset when that lookup fails with a ValueError. */
  predicate HasGeometry(t: TabProperties)
  {
    t.yLength.Some? && t.thickness.Some? && t.transformMatrix.Some?
  }

  /** The copy `get_tabs_properties` makes for a link: the joint settings
      of the source, the identity and face geometry of the link. Reading the
      link's `transform_matrix`, `thickness` or `y_length` fails with an
      AttributeError when its face had no local frame. */
  function Override(src: TabProperties, link: TabProperties): (r: Result<TabProperties>)
    ensures r.Err? <==> !HasGeometry(link)
    ensures r.Err? ==> r == Err(AttributeError)
    ensures r.Ok? ==>
      var t := r.value;
      t.identity == link.identity && t.yInvert == link.yInvert &&
      t.transformMatrix == link.transformMatrix && t.thickness == link.thickness && t.yLength == link.yLength &&
      t.freecadObject == src.freecadObject && t.freecadFace == src.freecadFace && t.tabType == src.tabType &&
      t.tabsNumber == src.tabsNumber && t.tabsWidth == src.tabsWidth && t.tabsShift == src.tabsShift &&
      t.intervalRatio == src.intervalRatio && t.halfTabRatio == src.halfTabRatio &&
      t.screwDiameter == src.screwDiameter && t.screwLength == src.screwLength && t.dogBone == src.dogBone
  {
    if !HasGeometry(link) then Err(AttributeError)
    else
      Ok(src.(identity := link.identity, yInvert := link.yInvert, transformMatrix := link.transformMatrix,
              thickness := link.thickness, yLength := link.yLength))
  }

  /** One entry of `get_tabs_properties`: a copy, or for a link the
      override of its source. A source that is not there leaves
      `copy.deepcopy(None)`, whose attributes cannot be set. */
  function Resolved(tabs: seq<TabProperties>, tab: TabProperties): (r: Result<TabProperties>)
    ensures !Linked(tab) ==> r == Ok(tab)
    ensures Linked(tab) ==>
      (r.Ok? <==> Lookup(tabs, tab.identity.linkName.value).Ok? && Lookup(tabs, tab.identity.linkName.value).value.Some? &&
                  HasGeometry(tab))
    ensures Linked(tab) && Lookup(tabs, tab.identity.linkName.value) == Ok(None) ==> r == Err(AttributeError)
    ensures Linked(tab) && Lookup(tabs, tab.identity.linkName.value).Ok? && !HasGeometry(tab) ==> r == Err(AttributeError)
    ensures r.Ok? ==> r.value.identity == tab.identity
  {
    if !Linked(tab) then Ok(tab)
    else
      match Lookup(tabs, tab.identity.linkName.value)
      case Err(e) => Err(e)
      case Ok(None) => Err(AttributeError)
      case Ok(Some(src)) => Override(src, tab)
  }

  /** The first i entries of `get_tabs_properties`, the sources looked up
      in the whole list. */
  function ResolvedUpTo(tabs: seq<TabProperties>, i: nat): Result<seq<TabProperties>>
    requires i <= |tabs|
  {
    if i == 0 then Ok([])
    else
      match ResolvedUpTo(tabs, i - 1)
      case Err(e) => Err(e)
      case Ok(prev) =>
        match Resolved(tabs, tabs[i - 1])
        case Err(e) => Err(e)
        case Ok(t) => Ok(prev + [t])
  }

  function ResolvedAll(tabs: seq<TabProperties>): Result<seq<TabProperties>>
  {
    ResolvedUpTo(tabs, |tabs|)
  }

  /** The first entry that cannot be resolved decides the error. */
  lemma {:induction false} ResolvedErrorStays(tabs: seq<TabProperties>, i: nat, j: nat)
    requires i <= j <= |tabs|
    requires ResolvedUpTo(tabs, i).Err?
    ensures ResolvedUpTo(tabs, j) == ResolvedUpTo(tabs, i)
    decreases j - i
  {
    if i < j {
      ResolvedErrorStays(tabs, i, j - 1);
    }
  }

  /** The first i resolved entries are the entries resolved one by one;
      the pass fails exactly when one of them cannot be resolved. */
  lemma {:induction false} ResolvedUpToShape(tabs: seq<TabProperties>, i: nat)
    requires i <= |tabs|
    ensures ResolvedUpTo(tabs, i).Ok? <==> forall j :: 0 <= j < i ==> Resolved(tabs, tabs[j]).Ok?
    ensures ResolvedUpTo(tabs, i).Ok? ==>
      |ResolvedUpTo(tabs, i).value| == i &&
      forall j :: 0 <= j < i ==> ResolvedUpTo(tabs, i).value[j] == Resolved(tabs, tabs[j]).value
  {
    if i > 0 {
      ResolvedUpToShape(tabs, i - 1);
    }
  }

  /** `get_tabs_properties` keeps the length, the order and every entry's
      identity (names and link name); an entry that is not a link comes out
      as it was, and a link as the override of the first tab of its link
      name. */
  lemma ResolvedAllShape(tabs: seq<TabProperties>)
    ensures ResolvedAll(tabs).Ok? <==> forall j :: 0 <= j < |tabs| ==> Resolved(tabs, tabs[j]).Ok?
    ensures ResolvedAll(tabs).Ok? ==> |ResolvedAll(tabs).value| == |tabs|
    ensures ResolvedAll(tabs).Ok? ==> forall j :: 0 <= j < |tabs| ==>
      ResolvedAll(tabs).value[j].identity == tabs[j].identity &&
      (!Linked(tabs[j]) ==> ResolvedAll(tabs).value[j] == tabs[j]) &&
      (Linked(tabs[j]) ==>
         Override(tabs[FirstWith(tabs, TabName, tabs[j].identity.linkName.value).value], tabs[j]) ==
         Ok(ResolvedAll(tabs).value[j]))
  {
    ResolvedUpToShape(tabs, |tabs|);
  }

  /** Resolving keeps the tab names distinct. */
  lemma ResolvedKeepsNames(tabs: seq<TabProperties>)
    requires DistinctKeys(tabs, TabName)
    requires ResolvedAll(tabs).Ok?
    ensures DistinctKeys(ResolvedAll(tabs).value, TabName)
  {
    ResolvedAllShape(tabs);
  }

  /** Since no entry counts as linked, `remove` takes out a tab that
      another one links to, and the link can no longer be resolved. */
  lemma RemoveLeavesDanglingLink(a: TabProperties, b: TabProperties)
    requires !Linked(a) && HasWidget(a.tabType)
    requires b.identity.linkName == Some(TabName(a)) && TabName(a) != "" && TabName(b) != TabName(a)
    requires HasGeometry(b)
    ensures ResolvedAll([a, b]).Ok?
    ensures RemoveFirst([a, b], TabName, TabName(a)) == [b]
    ensures ResolvedAll([b]) == Err(AttributeError)
  {
    assert FirstWith([a, b], TabName, TabName(a)) == Some(0);
    assert [a, b][1..] == [b];
    assert FirstWith([b], TabName, TabName(a)).None?;
    assert Lookup([b], TabName(a)) == Ok(None);
    assert Resolved([b], b) == Err(AttributeError);
    assert ResolvedUpTo([b], 1) == Err(AttributeError);
    ResolvedAllShape([a, b]);
  }

  class TabsList {
    const faces: PropertiesList<TabProperties>

    constructor (faces: PropertiesList<TabProperties>)
      ensures this.faces == faces
    {
      this.faces := faces;
    }

    /** `exist`: some entry has that tab name. */
    method Exist(name: string) returns (b: bool)
      ensures b <==> exists j :: 0 <= j < |faces.lst| && faces.lst[j].identity.tabName == name
    {
      for k := 0 to |faces.lst|
        invariant forall j :: 0 <= j < k ==> faces.lst[j].identity.tabName != name
      {
        if faces.lst[k].identity.tabName == name {
          return true;
        }
      }
      return false;
    }

    /** `get`, without the widget. */
    method Get(name: string) returns (r: Result<Option<TabProperties>>)
      ensures r == Lookup(faces.lst, name)
    {
      for index := 0 to |faces.lst|
        invariant FirstWith(faces.lst, TabName, name).None? || FirstWith(faces.lst, TabName, name).value >= index
      {
        if faces.lst[index].identity.tabName == name {
          var face := faces.lst[index];
          if !Linked(face) && !HasWidget(face.tabType) {
            return Err(ValueError("Unknown type of tab"));
          }
          return Ok(Some(face));
        }
      }
      return Ok(None);
    }

    /** `get_linked_tabs`: as written it finds no entry at all. */
    method GetLinkedTabs(name: string) returns (elList: seq<TabProperties>)
      ensures elList == []
    {
      elList := [];
      for k := 0 to |faces.lst|
        invariant elList == []
      {
        var tab := faces.lst[k];
        if IsTabLinkWidget(tab) && tab.identity.linkName == Some(name) {
          elList := elList + [tab];
        }
      }
    }

    /** `append`: a tab whose name is taken is refused, otherwise it goes
        at the end and is returned. */
    method Append(face: FaceSelection, tabType: TabType, make: MakeTab) returns (r: Result<TabProperties>)
      modifies faces
      ensures make(face, tabType, None).Err? ==> r == make(face, tabType, None) && faces.lst == old(faces.lst)
      ensures make(face, tabType, None).Ok? ==>
        var t := make(face, tabType, None).value;
        if FirstWith(old(faces.lst), TabName, TabName(t)).Some? then
          r == Err(ValueError(TabName(t) + " already in interactor tabs list")) && faces.lst == old(faces.lst)
        else
          r == Ok(t) && faces.lst == old(faces.lst) + [t]
      ensures DistinctKeys(old(faces.lst), TabName) ==> DistinctKeys(faces.lst, TabName)
    {
      var tabProperties := make(face, tabType, None);
      if tabProperties.Err? {
        return Err(tabProperties.error);
      }
      var t := tabProperties.value;
      var taken := Exist(t.identity.tabName);
      if taken {
        return Err(ValueError(t.identity.tabName + " already in interactor tabs list"));
      }
      if DistinctKeys(faces.lst, TabName) {
        DistinctAppend(faces.lst, TabName, t);
      }
      faces.Append(t);
      return Ok(faces.lst[|faces.lst| - 1]);
    }

    /** `append_link`: the source must be found and the name free; the new
        entry has no tab type and records the source's name. */
    method AppendLink(face: FaceSelection, srcTabName: string, make: MakeTab) returns (r: Result<TabProperties>)
      modifies faces
      ensures Lookup(old(faces.lst), srcTabName).Err? ==> r == Lookup(old(faces.lst), srcTabName).PropagateFailure()
      ensures Lookup(old(faces.lst), srcTabName) == Ok(None) ==>
        r == Err(ValueError("No original part found (" + srcTabName + ")"))
      ensures Lookup(old(faces.lst), srcTabName).Ok? && Lookup(old(faces.lst), srcTabName).value.Some? ==>
        var built := make(face, NotDefinedKind, Some(srcTabName));
        (built.Err? ==> r == built) &&
        (built.Ok? && FirstWith(old(faces.lst), TabName, TabName(built.value)).Some? ==>
           r == Err(ValueError(TabName(built.value) + " already in interactor tabs list"))) &&
        (built.Ok? && FirstWith(old(faces.lst), TabName, TabName(built.value)).None? ==>
           r == built && faces.lst == old(faces.lst) + [built.value])
      ensures r.Err? ==> faces.lst == old(faces.lst)
      ensures DistinctKeys(old(faces.lst), TabName) ==> DistinctKeys(faces.lst, TabName)
    {
      var srcTabElement := Get(srcTabName);
      if srcTabElement.Err? {
        return Err(srcTabElement.error);
      }
      if srcTabElement.value.None? {
        return Err(ValueError("No original part found (" + srcTabName + ")"));
      }
      var tabProperties := make(face, NotDefinedKind, Some(srcTabName));
      if tabProperties.Err? {
        return Err(tabProperties.error);
      }
      var t := tabProperties.value;
      var taken := Exist(t.identity.tabName);
      if taken {
        return Err(ValueError(t.identity.tabName + " already in interactor tabs list"));
      }
      if DistinctKeys(faces.lst, TabName) {
        DistinctAppend(faces.lst, TabName, t);
      }
      faces.Append(t);
      return Ok(faces.lst[|faces.lst| - 1]);
    }

    /** `remove`: pops the first entry of that name, if any. The guard on
        linked tabs never fires (see GetLinkedTabs). */
    method Remove(name: string) returns (r: Result<()>)
      modifies faces
      ensures r == Ok(())
      ensures faces.lst == RemoveFirst(old(faces.lst), TabName, name)
      ensures DistinctKeys(old(faces.lst), TabName) ==> DistinctKeys(faces.lst, TabName)
    {
      var foundIndex: Option<nat> := None;
      var linkedTabs := GetLinkedTabs(name);
      if |linkedTabs| > 0 {
        return Err(ValueError("Some tabs are linked to this part " + name));
      }
      for index := 0 to |faces.lst|
        invariant FirstWith(faces.lst, TabName, name).None? || FirstWith(faces.lst, TabName, name).value >= index
      {
        if faces.lst[index].identity.tabName == name {
          foundIndex := Some(index);
          break;
        }
      }
      assert foundIndex == FirstWith(faces.lst, TabName, name);
      if DistinctKeys(faces.lst, TabName) {
        DistinctRemove(faces.lst, TabName, name);
      }
      if foundIndex.Some? {
        var popped := faces.Pop(foundIndex.value);
      }
      return Ok(());
    }

    /** `get_tabs_properties`: every link replaced by a copy of its source,
        and the stored list replaced by the result. */
    method GetTabsProperties() returns (r: Result<seq<TabProperties>>)
      modifies faces
      ensures r == ResolvedAll(old(faces.lst))
      ensures r.Ok? ==> faces.lst == r.value
      ensures r.Err? ==> faces.lst == old(faces.lst)
      ensures DistinctKeys(old(faces.lst), TabName) ==> DistinctKeys(faces.lst, TabName)
    {
      var tabsProperties: seq<TabProperties> := [];
      for k := 0 to |faces.lst|
        invariant faces.lst == old(faces.lst)
        invariant ResolvedUpTo(faces.lst, k) == Ok(tabsProperties)
      {
        var tab := faces.lst[k];
        if Linked(tab) {
          var tabLink := Get(tab.identity.linkName.value);
          if tabLink.Err? {
            ResolvedErrorStays(faces.lst, k + 1, |faces.lst|);
            return Err(tabLink.error);
          }
          if tabLink.value.None? {
            ResolvedErrorStays(faces.lst, k + 1, |faces.lst|);
            return Err(AttributeError);
          }
          if tab.transformMatrix.None? || tab.thickness.None? || tab.yLength.None? {
            ResolvedErrorStays(faces.lst, k + 1, |faces.lst|);
            return Err(AttributeError);
          }
          var newTab := tabLink.value.value.(identity := tab.identity, yInvert := tab.yInvert,
                                              transformMatrix := tab.transformMatrix,
                                              thickness := tab.thickness, yLength := tab.yLength);
          tabsProperties := tabsProperties + [newTab];
        } else {
          tabsProperties := tabsProperties + [tab];
        }
      }
      if DistinctKeys(faces.lst, TabName) {
        ResolvedKeepsNames(faces.lst);
      }
      faces.lst := tabsProperties;
      return Ok(tabsProperties);
    }
  }
}
