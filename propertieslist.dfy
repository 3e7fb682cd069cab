/** panel/propertieslist.py: the list object the parts and tabs panels
    share, a thin wrapper around a Python list with Python's indexing. */
module PropertyList {
  import opened Wrappers

  /** The stored position Python's `lst[index]` and `lst.pop(index)` use:
      a negative index counts from the end, and anything outside the list
      is an IndexError. */
  function PyIndex(index: int, n: nat): (r: Option<nat>)
    ensures r.Some? <==> -(n as int) <= index < n
    ensures r.Some? ==> r.value < n && r.value as int % n == index % n
    ensures r.Some? && index >= 0 ==> r.value == index
  {
    if 0 <= index < n then Some(index)
    else if -(n as int) <= index < 0 then Some(n + index)
    else None
  }

  /** The list with the element at position i taken out. */
  function Without<T>(s: seq<T>, i: nat): (r: seq<T>)
    requires i < |s|
    ensures |r| == |s| - 1
    ensures forall j :: 0 <= j < i ==> r[j] == s[j]
    ensures forall j :: i <= j < |r| ==> r[j] == s[j + 1]
    ensures multiset(r) + multiset{s[i]} == multiset(s)
  {
    assert s == s[..i] + [s[i]] + s[i + 1..];
    s[..i] + s[i + 1..]
  }

  /** Putting an element back where it was taken out gives the list back. */
  lemma WithoutRoundTrip<T>(s: seq<T>, i: nat)
    requires i < |s|
    ensures Without(s, i)[..i] + [s[i]] + Without(s, i)[i..] == s
  {
    var r := Without(s, i);
    var t := r[..i] + [s[i]] + r[i..];
    assert |t| == |s|;
    forall j | 0 <= j < |s|
      ensures t[j] == s[j]
    {
      if j < i {
        assert t[j] == r[j];
      } else if j > i {
        assert t[j] == r[j - 1];
      }
    }
  }

  class PropertiesList<T> {
    var lst: seq<T>

    constructor ()
      ensures lst == []
    {
      lst := [];
    }

    /** `append`: one more element, at the end. */
    method Append(obj: T)
      modifies this
      ensures lst == old(lst) + [obj]
    {
      lst := lst + [obj];
    }

    /** `__getitem__`: the element at a Python index. */
    function GetItem(index: int): (r: Result<T>)
      reads this
      ensures r.Err? <==> PyIndex(index, |lst|).None?
      ensures r.Err? ==> r == Err(IndexError)
      ensures r.Ok? ==> r.value == lst[PyIndex(index, |lst|).value]
    {
      match PyIndex(index, |lst|)
      case None => Err(IndexError)
      case Some(i) => Ok(lst[i])
    }

    /** `__len__`. */
    function Length(): (n: nat)
      reads this
      ensures n == |lst|
    {
      |lst|
    }

    /** `pop`: exactly the element at the index goes, the later ones move
        down by one; an index outside the list changes nothing. */
    method Pop(index: int) returns (r: Result<()>)
      modifies this
      ensures r.Err? <==> PyIndex(index, |old(lst)|).None?
      ensures r.Err? ==> r == Err(IndexError) && lst == old(lst)
      ensures r.Ok? ==> lst == Without(old(lst), PyIndex(index, |old(lst)|).value)
    {
      var i := PyIndex(index, |lst|);
      if i.None? {
        return Err(IndexError);
      }
      lst := Without(lst, i.value);
      return Ok(());
    }
  }

  /** After an append, the new element is the last one, at index -1 as
      well as at the old length, and the earlier ones keep their indexes. */
  lemma AppendThenGet<T>(before: seq<T>, obj: T, index: int)
    requires -(|before| as int) <= index < |before|
    ensures PyIndex(-1, |before + [obj]|) == Some(|before|)
    ensures (before + [obj])[|before|] == obj
    ensures index >= 0 ==> PyIndex(index, |before + [obj]|) == PyIndex(index, |before|)
    ensures index < 0 ==> PyIndex(index - 1, |before + [obj]|) == PyIndex(index, |before|)
  {
  }
  // ---------------------------------------------------------------------
  // Lookups by name, shared by the parts list and the tabs list

  /** The position of the first element whose key is `name`: the loops
      `for index in range(len(lst)): if lst[index].name == name: ...`. */
  function FirstWith<T>(s: seq<T>, key: T -> string, name: string): (r: Option<nat>)
    ensures r.Some? ==> r.value < |s| && key(s[r.value]) == name
    ensures r.Some? ==> forall j :: 0 <= j < r.value ==> key(s[j]) != name
    ensures r.None? <==> forall j :: 0 <= j < |s| ==> key(s[j]) != name
  {
    if |s| == 0 then None
    else if key(s[0]) == name then Some(0)
    else match FirstWith(s[1..], key, name)
      case None => None
      case Some(k) => Some(k + 1)
  }

  /** The list after `remove(name)` pops the first element with that name,
      or the list itself when there is none. */
  function RemoveFirst<T>(s: seq<T>, key: T -> string, name: string): (r: seq<T>)
    ensures FirstWith(s, key, name).None? ==> r == s
    ensures FirstWith(s, key, name).Some? ==> r == Without(s, FirstWith(s, key, name).value)
  {
    match FirstWith(s, key, name)
    case None => s
    case Some(i) => Without(s, i)
  }

  /** No two elements share a name. */
  predicate DistinctKeys<T>(s: seq<T>, key: T -> string)
  {
    forall a, b :: 0 <= a < b < |s| ==> key(s[a]) != key(s[b])
  }

  /** Appending an element whose name is not in the list keeps the names
      distinct. */
  lemma DistinctAppend<T>(s: seq<T>, key: T -> string, x: T)
    requires DistinctKeys(s, key)
    requires FirstWith(s, key, key(x)).None?
    ensures DistinctKeys(s + [x], key)
  {
    var t := s + [x];
    forall a, b | 0 <= a < b < |t|
      ensures key(t[a]) != key(t[b])
    {
      if b == |s| {
        assert t[a] == s[a];
        assert key(s[a]) != key(x);
      } else {
        assert t[a] == s[a] && t[b] == s[b];
      }
    }
  }

  /** Taking an element out keeps the names distinct, and removing a
      name from a list with distinct names leaves no element of that name. */
  lemma DistinctRemove<T>(s: seq<T>, key: T -> string, name: string)
    requires DistinctKeys(s, key)
    ensures DistinctKeys(RemoveFirst(s, key, name), key)
    ensures FirstWith(RemoveFirst(s, key, name), key, name).None?
  {
    var f := FirstWith(s, key, name);
    if f.Some? {
      var i := f.value;
      var r := Without(s, i);
      forall a, b | 0 <= a < b < |r|
        ensures key(r[a]) != key(r[b])
      {
        var a' := if a < i then a else a + 1;
        var b' := if b < i then b else b + 1;
        assert r[a] == s[a'] && r[b] == s[b'];
      }
      forall j | 0 <= j < |r|
        ensures key(r[j]) != name
      {
        var j' := if j < i then j else j + 1;
        assert r[j] == s[j'];
        assert j' != i;
      }
    }
  }
}
