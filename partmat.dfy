/** panel/partmat.py: `PartsList`, the parts of a joint panel kept in a
    shared `PropertiesList`, where a part may be a link that borrows the
    material settings of another part of the same thickness. */
module PartPanel {
  import opened Wrappers
  import opened Solids
  import opened Helper
  import opened Material
  import opened PropertyList

  function PartName(m: MaterialProperties): string { m.name }

  /** `if part.link_name:` — a link name that is present and not empty. */
  predicate Linked(m: MaterialProperties)
  {
    m.linkName.Some? && m.linkName.value != ""
  }

  /** The keywords `append` and `append_link` build a part with. */
  function PartArgs(obj: DocObject, linkName: Option<string>, settings: PartSettings): MaterialArgs
  {
    MaterialArgs(Some(obj), Some(TypeLaserCut), None, None, None, None,
                 obj.name, obj.userLabel, linkName, settings)
  }

  /** The thickness a new part gets: the estimate, or 5 when it fails with
      a ValueError. */
  function NewThickness(estimate: Result<real>): real
  {
    if estimate.Ok? then estimate.value else 5.0
  }

  /** What `get(name)` returns besides its widget: the first part of that
      name. */
  function Lookup(parts: seq<MaterialProperties>, name: string): (r: Option<MaterialProperties>)
    ensures r.None? <==> forall j :: 0 <= j < |parts| ==> parts[j].name != name
    ensures r.Some? ==> r.value == parts[FirstWith(parts, PartName, name).value]
  {
    match FirstWith(parts, PartName, name)
    case None => None
    case Some(i) => Some(parts[i])
  }

  /** The names of the parts whose link name is `name`, in list order. */
  function LinkedNames(parts: seq<MaterialProperties>, name: string): (r: seq<string>)
    ensures |r| <= |parts|
    ensures forall x :: x in r <==> exists j :: 0 <= j < |parts| && parts[j].linkName == Some(name) && parts[j].name == x
  {
    if |parts| == 0 then []
    else
      var prev := LinkedNames(parts[..|parts| - 1], name);
      var last := parts[|parts| - 1];
      assert forall j :: 0 <= j < |parts| - 1 ==> parts[..|parts| - 1][j] == parts[j];
      if last.linkName == Some(name) then prev + [last.name] else prev
  }

  /** The copy `get_parts_properties` makes for a link: the source's
      material with the link's names. */
  function Override(src: MaterialProperties, link: MaterialProperties): (m: MaterialProperties)
    ensures m.newName == link.newName && m.name == link.name && m.linkName == link.linkName
    ensures m.freecadObject == src.freecadObject && m.kind == src.kind && m.thickness == src.thickness
    ensures m.thicknessTolerance == src.thicknessTolerance && m.laserBeamDiameter == src.laserBeamDiameter
    ensures m.userLabel == src.userLabel && m.settings == src.settings
  {
    src.(newName := link.newName, name := link.name, linkName := link.linkName)
  }

  /** One entry of `get_parts_properties`; a link whose source is gone
      leaves `copy.deepcopy(None)`, whose attributes cannot be set. */
  function Resolved(parts: seq<MaterialProperties>, part: MaterialProperties): (r: Result<MaterialProperties>)
    ensures !Linked(part) ==> r == Ok(part)
    ensures Linked(part) ==> (r.Ok? <==> Lookup(parts, part.linkName.value).Some?)
    ensures r.Err? ==> r == Err(AttributeError)
    ensures r.Ok? ==> r.value.name == part.name && r.value.linkName == part.linkName && r.value.newName == part.newName
  {
    if !Linked(part) then Ok(part)
    else
      match Lookup(parts, part.linkName.value)
      case None => Err(AttributeError)
      case Some(src) => Ok(Override(src, part))
  }

  function ResolvedUpTo(parts: seq<MaterialProperties>, i: nat): Result<seq<MaterialProperties>>
    requires i <= |parts|
  {
    if i == 0 then Ok([])
    else
      match ResolvedUpTo(parts, i - 1)
      case Err(e) => Err(e)
      case Ok(prev) =>
        match Resolved(parts, parts[i - 1])
        case Err(e) => Err(e)
        case Ok(m) => Ok(prev + [m])
  }

  function ResolvedAll(parts: seq<MaterialProperties>): Result<seq<MaterialProperties>>
  {
    ResolvedUpTo(parts, |parts|)
  }

  lemma {:induction false} ResolvedErrorStays(parts: seq<MaterialProperties>, i: nat, j: nat)
    requires i <= j <= |parts|
    requires ResolvedUpTo(parts, i).Err?
    ensures ResolvedUpTo(parts, j) == ResolvedUpTo(parts, i)
    decreases j - i
  {
    if i < j {
      ResolvedErrorStays(parts, i, j - 1);
    }
  }

  lemma {:induction false} ResolvedUpToShape(parts: seq<MaterialProperties>, i: nat)
    requires i <= |parts|
    ensures ResolvedUpTo(parts, i).Ok? <==> forall j :: 0 <= j < i ==> Resolved(parts, parts[j]).Ok?
    ensures ResolvedUpTo(parts, i).Ok? ==>
      |ResolvedUpTo(parts, i).value| == i &&
      forall j :: 0 <= j < i ==> ResolvedUpTo(parts, i).value[j] == Resolved(parts, parts[j]).value
  {
    if i > 0 {
      ResolvedUpToShape(parts, i - 1);
    }
  }

  /** Every link names a part of the list. */
  predicate LinksResolve(parts: seq<MaterialProperties>)
  {
    forall i :: 0 <= i < |parts| && Linked(parts[i]) ==> Lookup(parts, parts[i].linkName.value).Some?
  }

  /** `get_parts_properties` keeps the length, the order, the names and
      link names; it fails exactly when some link names no part, and an
      entry that is not a link comes out as it was. */
  lemma ResolvedAllShape(parts: seq<MaterialProperties>)
    ensures ResolvedAll(parts).Ok? <==> LinksResolve(parts)
    ensures ResolvedAll(parts).Err? ==> ResolvedAll(parts) == Err(AttributeError)
    ensures ResolvedAll(parts).Ok? ==> |ResolvedAll(parts).value| == |parts|
    ensures ResolvedAll(parts).Ok? ==> forall j :: 0 <= j < |parts| ==>
      ResolvedAll(parts).value[j].name == parts[j].name &&
      ResolvedAll(parts).value[j].linkName == parts[j].linkName &&
      (!Linked(parts[j]) ==> ResolvedAll(parts).value[j] == parts[j]) &&
      (Linked(parts[j]) ==>
         ResolvedAll(parts).value[j] == Override(Lookup(parts, parts[j].linkName.value).value, parts[j]))
  {
    ResolvedUpToShape(parts, |parts|);
    if ResolvedAll(parts).Err? {
      var i :| 0 <= i < |parts| && Resolved(parts, parts[i]).Err?;
      ResolvedFirstError(parts, |parts|);
    }
  }

  /** A failing pass fails with the error of an entry. */
  lemma {:induction false} ResolvedFirstError(parts: seq<MaterialProperties>, i: nat)
    requires i <= |parts|
    ensures ResolvedUpTo(parts, i).Err? ==> ResolvedUpTo(parts, i) == Err(AttributeError)
  {
    if i > 0 {
      ResolvedFirstError(parts, i - 1);
    }
  }

  /** Resolving keeps the names distinct and the links resolvable, so a
      second pass cannot fail either. */
  lemma ResolvedKeepsInvariant(parts: seq<MaterialProperties>)
    requires LinksResolve(parts)
    ensures ResolvedAll(parts).Ok?
    ensures DistinctKeys(parts, PartName) ==> DistinctKeys(ResolvedAll(parts).value, PartName)
    ensures LinksResolve(ResolvedAll(parts).value)
  {
    ResolvedAllShape(parts);
    var r := ResolvedAll(parts).value;
    forall i | 0 <= i < |r| && Linked(r[i])
      ensures Lookup(r, r[i].linkName.value).Some?
    {
      var target := r[i].linkName.value;
      assert Linked(parts[i]);
      var j := FirstWith(parts, PartName, target).value;
      assert r[j].name == target;
    }
  }

  /** A name still in the list after an append. */
  lemma LookupAppend(parts: seq<MaterialProperties>, m: MaterialProperties, name: string)
    requires Lookup(parts, name).Some?
    ensures Lookup(parts + [m], name).Some?
  {
    var j := FirstWith(parts, PartName, name).value;
    assert (parts + [m])[j] == parts[j];
  }

  /** Appending a part whose link, if any, names a part of the list keeps
      every link resolvable. */
  lemma AppendKeepsLinks(parts: seq<MaterialProperties>, m: MaterialProperties)
    requires LinksResolve(parts)
    requires Linked(m) ==> Lookup(parts, m.linkName.value).Some?
    ensures LinksResolve(parts + [m])
  {
    var t := parts + [m];
    forall i | 0 <= i < |t| && Linked(t[i])
      ensures Lookup(t, t[i].linkName.value).Some?
    {
      LookupAppend(parts, m, t[i].linkName.value);
    }
  }

  /** No part links to a name whose list of linked parts is empty. */
  lemma NoLinkTo(parts: seq<MaterialProperties>, name: string, i: nat)
    requires LinkedNames(parts, name) == []
    requires i < |parts|
    ensures parts[i].linkName != Some(name)
  {
    var x := parts[i].name;
    assert x !in LinkedNames(parts, name);
  }

  /** A name other than the removed one is still found after the removal. */
  lemma LookupWithout(parts: seq<MaterialProperties>, k: nat, target: string)
    requires k < |parts|
    requires Lookup(parts, target).Some?
    requires parts[k].name != target
    ensures Lookup(Without(parts, k), target).Some?
  {
    var j := FirstWith(parts, PartName, target).value;
    var r := Without(parts, k);
    var j' := if j < k then j else j - 1;
    assert r[j'] == parts[j];
  }

  /** Removing a name no part links to keeps every link resolvable. */
  lemma RemoveKeepsLinks(parts: seq<MaterialProperties>, name: string)
    requires LinksResolve(parts)
    requires LinkedNames(parts, name) == []
    ensures LinksResolve(RemoveFirst(parts, PartName, name))
  {
    var f := FirstWith(parts, PartName, name);
    if f.Some? {
      var k := f.value;
      var r := Without(parts, k);
      forall i | 0 <= i < |r| && Linked(r[i])
        ensures Lookup(r, r[i].linkName.value).Some?
      {
        var i' := if i < k then i else i + 1;
        assert r[i] == parts[i'];
        NoLinkTo(parts, name, i');
        LookupWithout(parts, k, r[i].linkName.value);
      }
    }
  }

  // `link_name` as partmat.py is written. `append` passes no `link_name`
  // and nothing else sets one on a part, so a plain part has no such
  // attribute and every read of it raises an AttributeError. The rest of
  // this module reads a plain part's link name as None (`linkName == None`),
  // as the `Part` widget sets it on itself and as `get` and
  // `get_parts_properties` test it (`if not material.link_name`).

  /** `get_linked_parts` as written: the first plain part raises. */
  function LinkedNamesAsWritten(parts: seq<MaterialProperties>, name: string): (r: Result<seq<string>>)
    ensures r.Err? <==> exists j :: 0 <= j < |parts| && parts[j].linkName.None?
    ensures r.Err? ==> r == Err(AttributeError)
    ensures r.Ok? ==> r.value == LinkedNames(parts, name)
  {
    if |parts| == 0 then Ok([])
    else
      var init := parts[..|parts| - 1];
      var last := parts[|parts| - 1];
      assert forall j :: 0 <= j < |parts| - 1 ==> init[j] == parts[j];
      match LinkedNamesAsWritten(init, name)
      case Err(e) => Err(e)
      case Ok(prev) =>
        if last.linkName.None? then Err(AttributeError)
        else if last.linkName == Some(name) then Ok(prev + [last.name])
        else Ok(prev)
  }

  /** `remove` as written: its call to `get_linked_parts` raises on a list
      holding a plain part, before anything is popped. */
  function RemoveAsWritten(parts: seq<MaterialProperties>, name: string): (r: Result<seq<MaterialProperties>>)
    ensures (exists j :: 0 <= j < |parts| && parts[j].linkName.None?) ==> r == Err(AttributeError)
    ensures (forall j :: 0 <= j < |parts| ==> parts[j].linkName.Some?) ==>
      r == (if LinkedNames(parts, name) != [] then Err(ValueError("Some parts are linked to this part " + name))
            else Ok(RemoveFirst(parts, PartName, name)))
  {
    match LinkedNamesAsWritten(parts, name)
    case Err(e) => Err(e)
    case Ok(linked) =>
      if |linked| > 0 then Err(ValueError("Some parts are linked to this part " + name))
      else Ok(RemoveFirst(parts, PartName, name))
  }

  /** `get` as written: building the widget of the part found reads its
      `link_name`, which raises for a plain part. */
  function GetAsWritten(parts: seq<MaterialProperties>, name: string): (r: Result<Option<MaterialProperties>>)
    ensures r.Err? <==> Lookup(parts, name).Some? && Lookup(parts, name).value.linkName.None?
    ensures r.Err? ==> r == Err(AttributeError)
    ensures r.Ok? ==> r.value == Lookup(parts, name)
  {
    match Lookup(parts, name)
    case None => Ok(None)
    case Some(m) => if m.linkName.None? then Err(AttributeError) else Ok(Some(m))
  }

  /** One entry of `get_parts_properties` as written: a plain part raises at
      `if part.link_name:`, and so does a link whose source is plain, in
      `get`. */
  function ResolvedAsWritten(parts: seq<MaterialProperties>, part: MaterialProperties): (r: Result<MaterialProperties>)
    ensures part.linkName.None? ==> r == Err(AttributeError)
    ensures r.Err? ==> r == Err(AttributeError)
    ensures r.Ok? ==> r == Resolved(parts, part)
    ensures Linked(part) ==>
      (r.Ok? <==> Lookup(parts, part.linkName.value).Some? && Lookup(parts, part.linkName.value).value.linkName.Some?)
  {
    if part.linkName.None? then Err(AttributeError)
    else if !Linked(part) then Ok(part)
    else
      match GetAsWritten(parts, part.linkName.value)
      case Err(e) => Err(e)
      case Ok(None) => Err(AttributeError)
      case Ok(Some(src)) => Ok(Override(src, part))
  }

  function ResolvedUpToAsWritten(parts: seq<MaterialProperties>, i: nat): Result<seq<MaterialProperties>>
    requires i <= |parts|
  {
    if i == 0 then Ok([])
    else
      match ResolvedUpToAsWritten(parts, i - 1)
      case Err(e) => Err(e)
      case Ok(prev) =>
        match ResolvedAsWritten(parts, parts[i - 1])
        case Err(e) => Err(e)
        case Ok(m) => Ok(prev + [m])
  }

  /** The first i entries of `get_parts_properties` as written fail when
      one of them fails, and then with an AttributeError. */
  lemma {:induction false} ResolvedUpToAsWrittenFails(parts: seq<MaterialProperties>, i: nat, j: nat)
    requires j < i <= |parts|
    requires ResolvedAsWritten(parts, parts[j]).Err?
    ensures ResolvedUpToAsWritten(parts, i) == Err(AttributeError)
  {
    if j < i - 1 {
      ResolvedUpToAsWrittenFails(parts, i - 1, j);
    } else {
      AsWrittenErrorKind(parts, i - 1);
    }
  }

  /** Every failure of the as-written pass is an AttributeError. */
  lemma {:induction false} AsWrittenErrorKind(parts: seq<MaterialProperties>, i: nat)
    requires i <= |parts|
    ensures ResolvedUpToAsWritten(parts, i).Err? ==> ResolvedUpToAsWritten(parts, i) == Err(AttributeError)
  {
    if i > 0 {
      AsWrittenErrorKind(parts, i - 1);
    }
  }

  /** A single part that `append` created (it has no link name) makes the
      parts list unusable as written: `remove` raises for every name,
      `get_parts_properties` raises, and `get` of that part raises, and with
      it `append_link` from that part. Read as None, the same part is
      simply kept as it is by `get_parts_properties`. */
  lemma PlainPartBreaksPartsList(parts: seq<MaterialProperties>, i: nat, name: string)
    requires i < |parts| && parts[i].linkName.None?
    ensures RemoveAsWritten(parts, name) == Err(AttributeError)
    ensures ResolvedUpToAsWritten(parts, |parts|) == Err(AttributeError)
    ensures FirstWith(parts, PartName, parts[i].name) == Some(i) ==>
      GetAsWritten(parts, parts[i].name) == Err(AttributeError)
    ensures Resolved(parts, parts[i]) == Ok(parts[i])
  {
    ResolvedUpToAsWrittenFails(parts, |parts|, i);
  }

  class PartsList {
    const partList: PropertiesList<MaterialProperties>

    constructor (parts: PropertiesList<MaterialProperties>)
      ensures partList == parts
    {
      partList := parts;
    }

    /** `exist`: some part has that name. */
    method Exist(name: string) returns (b: bool)
      ensures b <==> exists j :: 0 <= j < |partList.lst| && partList.lst[j].name == name
    {
      for k := 0 to |partList.lst|
        invariant forall j :: 0 <= j < k ==> partList.lst[j].name != name
      {
        if partList.lst[k].name == name {
          return true;
        }
      }
      return false;
    }

    /** `get`, without the widget: the first part of that name. */
    method Get(name: string) returns (r: Option<MaterialProperties>)
      ensures r == Lookup(partList.lst, name)
    {
      for index := 0 to |partList.lst|
        invariant FirstWith(partList.lst, PartName, name).None? || FirstWith(partList.lst, PartName, name).value >= index
      {
        if partList.lst[index].name == name {
          return Some(partList.lst[index]);
        }
      }
      return None;
    }

    /** `get_linked_parts`. */
    method GetLinkedParts(name: string) returns (elList: seq<string>)
      ensures elList == LinkedNames(partList.lst, name)
    {
      var partLst := partList.lst;
      elList := [];
      for k := 0 to |partLst|
        invariant elList == LinkedNames(partLst[..k], name)
      {
        assert partLst[..k + 1][..k] == partLst[..k];
        if partLst[k].linkName == Some(name) {
          elList := elList + [partLst[k].name];
        }
      }
      assert partLst[..|partLst|] == partLst;
    }

    /** `append`: a new laser-cut part for the object, refused when its
        name is taken. `estimate` is the object's thickness estimate. */
    method Append(obj: DocObject, estimate: Result<real>, settings: PartSettings) returns (r: Result<MaterialProperties>)
      modifies partList
      ensures Lookup(old(partList.lst), obj.name).Some? ==>
        r == Err(ValueError(obj.name + " already in interactor parts list"))
      ensures Lookup(old(partList.lst), obj.name).None? && estimate.Err? && !estimate.error.ValueError? ==>
        r == Err(estimate.error)
      ensures r.Ok? <==> Lookup(old(partList.lst), obj.name).None? && (estimate.Err? ==> estimate.error.ValueError?)
      ensures r.Err? ==> partList.lst == old(partList.lst)
      ensures r.Ok? ==>
        partList.lst == old(partList.lst) + [r.value] &&
        r.value.name == obj.name && r.value.userLabel == obj.userLabel && r.value.freecadObject == obj &&
        r.value.linkName == None && r.value.kind == TypeLaserCut &&
        r.value.thickness == NewThickness(estimate) && r.value.settings == settings
      ensures DistinctKeys(old(partList.lst), PartName) ==> DistinctKeys(partList.lst, PartName)
      ensures LinksResolve(old(partList.lst)) ==> LinksResolve(partList.lst)
    {
      var taken := Exist(obj.name);
      if taken {
        return Err(ValueError(obj.name + " already in interactor parts list"));
      }
      var material := NewMaterialProperties(PartArgs(obj, None, settings), estimate);
      if material.Err? {
        return Err(material.error);
      }
      var m := material.value;
      if DistinctKeys(partList.lst, PartName) {
        DistinctAppend(partList.lst, PartName, m);
      }
      if LinksResolve(partList.lst) {
        AppendKeepsLinks(partList.lst, m);
      }
      partList.Append(m);
      return Ok(partList.lst[|partList.lst| - 1]);
    }

    /** `append_link`: a part linked to the object `src`, refused when its
        name is taken, when `src` is not in the list, or when its thickness
        is not within `eps` of the source's (`compare_value`). */
    method AppendLink(obj: DocObject, src: DocObject, estimate: Result<real>, settings: PartSettings, eps: real)
      returns (r: Result<MaterialProperties>)
      modifies partList
      ensures Lookup(old(partList.lst), obj.name).Some? ==>
        r == Err(ValueError(obj.name + " already in interactor parts list"))
      ensures Lookup(old(partList.lst), obj.name).None? && Lookup(old(partList.lst), src.name).None? ==>
        r == Err(ValueError("No original part found"))
      ensures Lookup(old(partList.lst), obj.name).None? && Lookup(old(partList.lst), src.name).Some? ==>
        (estimate.Err? && !estimate.error.ValueError? ==> r == Err(estimate.error)) &&
        ((estimate.Ok? || estimate.error.ValueError?) &&
         !CompareValue(NewThickness(estimate), Lookup(old(partList.lst), src.name).value.thickness, eps) ==>
           r == Err(ValueError(obj.name + " does not have the same thickness")))
      ensures r.Ok? <==>
        Lookup(old(partList.lst), obj.name).None? && Lookup(old(partList.lst), src.name).Some? &&
        (estimate.Err? ==> estimate.error.ValueError?) &&
        CompareValue(NewThickness(estimate), Lookup(old(partList.lst), src.name).value.thickness, eps)
      ensures r.Err? ==> partList.lst == old(partList.lst)
      ensures r.Ok? ==>
        partList.lst == old(partList.lst) + [r.value] &&
        r.value.name == obj.name && r.value.linkName == Some(src.name) && r.value.freecadObject == obj &&
        r.value.thickness == NewThickness(estimate) && r.value.settings == settings
      ensures DistinctKeys(old(partList.lst), PartName) ==> DistinctKeys(partList.lst, PartName)
      ensures LinksResolve(old(partList.lst)) ==> LinksResolve(partList.lst)
    {
      var taken := Exist(obj.name);
      if taken {
        return Err(ValueError(obj.name + " already in interactor parts list"));
      }
      var srcPartElement := Get(src.name);
      if srcPartElement.None? {
        return Err(ValueError("No original part found"));
      }
      var material := NewMaterialProperties(PartArgs(obj, Some(src.name), settings), estimate);
      if material.Err? {
        return Err(material.error);
      }
      var m := material.value;
      if !CompareValue(m.thickness, srcPartElement.value.thickness, eps) {
        return Err(ValueError(obj.name + " does not have the same thickness"));
      }
      if DistinctKeys(partList.lst, PartName) {
        DistinctAppend(partList.lst, PartName, m);
      }
      if LinksResolve(partList.lst) {
        AppendKeepsLinks(partList.lst, m);
      }
      partList.Append(m);
      return Ok(partList.lst[|partList.lst| - 1]);
    }

    /** `remove`: refused while some part links to the name, otherwise the
        first part of that name, if any, is popped. */
    method Remove(name: string) returns (r: Result<()>)
      modifies partList
      ensures r.Err? <==> LinkedNames(old(partList.lst), name) != []
      ensures r.Err? ==> r == Err(ValueError("Some parts are linked to this part " + name)) &&
                         partList.lst == old(partList.lst)
      ensures r.Ok? ==> partList.lst == RemoveFirst(old(partList.lst), PartName, name)
      ensures DistinctKeys(old(partList.lst), PartName) ==> DistinctKeys(partList.lst, PartName)
      ensures LinksResolve(old(partList.lst)) ==> LinksResolve(partList.lst)
    {
      var foundIndex: Option<nat> := None;
      var linkedParts := GetLinkedParts(name);
      if |linkedParts| > 0 {
        return Err(ValueError("Some parts are linked to this part " + name));
      }
      for index := 0 to |partList.lst|
        invariant FirstWith(partList.lst, PartName, name).None? || FirstWith(partList.lst, PartName, name).value >= index
      {
        if partList.lst[index].name == name {
          foundIndex := Some(index);
          break;
        }
      }
      assert foundIndex == FirstWith(partList.lst, PartName, name);
      if DistinctKeys(partList.lst, PartName) {
        DistinctRemove(partList.lst, PartName, name);
      }
      if LinksResolve(partList.lst) {
        RemoveKeepsLinks(partList.lst, name);
      }
      if foundIndex.Some? {
        var popped := partList.Pop(foundIndex.value);
      }
      return Ok(());
    }

    /** `get_parts_properties`: every link replaced by a copy of its
        source, and the stored list replaced by the result. */
    method GetPartsProperties() returns (r: Result<seq<MaterialProperties>>)
      modifies partList
      ensures r == ResolvedAll(old(partList.lst))
      ensures r.Ok? ==> partList.lst == r.value
      ensures r.Err? ==> partList.lst == old(partList.lst)
      ensures LinksResolve(old(partList.lst)) ==> r.Ok? && LinksResolve(partList.lst)
      ensures LinksResolve(old(partList.lst)) && DistinctKeys(old(partList.lst), PartName) ==>
        DistinctKeys(partList.lst, PartName)
    {
      var partProperties: seq<MaterialProperties> := [];
      for k := 0 to |partList.lst|
        invariant partList.lst == old(partList.lst)
        invariant ResolvedUpTo(partList.lst, k) == Ok(partProperties)
      {
        var part := partList.lst[k];
        if Linked(part) {
          var partLink := Get(part.linkName.value);
          if partLink.None? {
            ResolvedErrorStays(partList.lst, k + 1, |partList.lst|);
            return Err(AttributeError);
          }
          var newPart := partLink.value.(newName := part.newName, name := part.name, linkName := part.linkName);
          partProperties := partProperties + [newPart];
        } else {
          partProperties := partProperties + [part];
        }
      }
      if LinksResolve(partList.lst) {
        ResolvedKeepsInvariant(partList.lst);
      }
      partList.lst := partProperties;
      return Ok(partProperties);
    }
  }
}
