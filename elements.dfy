/** lasercut/join.py: the `MaterialElement` of a panel, which collects the
    solids to fuse onto the panel (`toAdd`) and to cut out of it
    (`toRemove`), and the loops that hand the plans of a joint to the
    elements. */
module Elements {
  import opened Wrappers
  import opened Solids
  import opened Material
  import opened Plans

  // ---------------------------------------------------------------------
  // Assembly of a panel

  /** `assemble_list_element`: the left fold of fuses, `None` for no solid. */
  method AssembleListElement(l: seq<Solid>) returns (r: Option<Solid>)
    ensures l == [] <==> r.None?
    ensures r.Some? ==> r.value == FuseAll(l) && FusedPieces(r.value, |l|) == l
  {
    if |l| == 0 {
      return None;
    }
    var part := l[0];
    var k := 1;
    while k < |l|
      invariant 1 <= k <= |l|
      invariant part == FuseAll(l[..k])
    {
      assert l[..k + 1][..k] == l[..k];
      part := Fuse(part, l[k]);
      k := k + 1;
    }
    assert l[..|l|] == l;
    FuseAllRoundTrip(l);
    return Some(part);
  }

  /** The shape `get_shape` builds: the base fused with the fold of the
      additions, then cut by the fold of the removals; an empty list leaves
      that step out. */
  function ShapeOf(base: Solid, adds: seq<Solid>, removes: seq<Solid>): Solid
  {
    var fused := if adds == [] then base else Fuse(base, FuseAll(adds));
    if removes == [] then fused else Cut(fused, FuseAll(removes))
  }

  /** The shape is the base exactly when there is nothing to add or remove,
      and otherwise both lists can be read back off it. */
  lemma ShapeOfParts(base: Solid, adds: seq<Solid>, removes: seq<Solid>)
    ensures ShapeOf(base, adds, removes) == base <==> adds == [] && removes == []
    ensures adds != [] && removes != [] ==>
      ShapeOf(base, adds, removes).Cut? && ShapeOf(base, adds, removes).a.Fuse? &&
      ShapeOf(base, adds, removes).a.a == base &&
      FusedPieces(ShapeOf(base, adds, removes).a.b, |adds|) == adds &&
      FusedPieces(ShapeOf(base, adds, removes).b, |removes|) == removes
  {
    if adds != [] {
      FuseAllRoundTrip(adds);
    }
    if removes != [] {
      FuseAllRoundTrip(removes);
      var fused := if adds == [] then base else Fuse(base, FuseAll(adds));
      assert fused < Cut(fused, FuseAll(removes));
      assert base == fused || base < fused;
    }
  }

  /** `MaterialElement`: a part with the solids a joint adds to it and cuts from it. */
  class MaterialElement {
    const properties: MaterialProperties
    var toAdd: seq<Solid>
    var toRemove: seq<Solid>

    constructor (properties: MaterialProperties)
      ensures this.properties == properties && toAdd == [] && toRemove == []
    {
      this.properties := properties;
      toAdd := [];
      toRemove := [];
    }

    /** `reset_add_remove`. */
    method ResetAddRemove()
      modifies this
      ensures toAdd == [] && toRemove == []
    {
      toAdd := [];
      toRemove := [];
    }

    /** `get_name`: the document object's internal name. */
    function GetName(): string
    {
      properties.freecadObject.name
    }

    /** `get_new_name`. */
    function GetNewName(): string
    {
      properties.newName
    }

    /** `get_shape`. */
    method GetShape() returns (s: Solid)
      ensures s == ShapeOf(Source(properties.freecadObject.id), toAdd, toRemove)
    {
      s := Source(properties.freecadObject.id);
      var part := AssembleListElement(toAdd);
      if part.Some? {
        s := Fuse(s, part.value);
      }
      part := AssembleListElement(toRemove);
      if part.Some? {
        s := Cut(s, part.value);
      }
    }
  }

  // ---------------------------------------------------------------------
  // Applying the plans

  function PropsOf(elements: seq<MaterialElement>): (r: seq<MaterialProperties>)
    ensures |r| == |elements| && forall j :: 0 <= j < |elements| ==> r[j] == elements[j].properties
  {
    seq(|elements|, j requires 0 <= j < |elements| => elements[j].properties)
  }

  predicate DistinctElements(s: seq<MaterialElement>)
  {
    forall a, b :: 0 <= a < b < |s| ==> s[a] != s[b]
  }

  /** The removal lists of the other panels, as one value. */
  function RemovesOf(es: seq<MaterialElement>): (r: seq<seq<Solid>>)
    reads set e | e in es
    ensures |r| == |es| && forall j :: 0 <= j < |es| ==> r[j] == es[j].toRemove
  {
    seq(|es|, j requires 0 <= j < |es| reads set e | e in es => es[j].toRemove)
  }

  function AddsOf(es: seq<MaterialElement>): (r: seq<seq<Solid>>)
    reads set e | e in es
    ensures |r| == |es| && forall j :: 0 <= j < |es| ==> r[j] == es[j].toAdd
  {
    seq(|es|, j requires 0 <= j < |es| reads set e | e in es => es[j].toAdd)
  }

  /** Each other panel's removals, extended by what one row hands it. */
  function SpreadRow(base: seq<seq<Solid>>, row: seq<Plan>): (r: seq<seq<Solid>>)
    ensures |r| == |base|
  {
    seq(|base|, j requires 0 <= j < |base| => base[j] + HitOtherRemoves(row, j))
  }

  /** The same, row after row. */
  function Spread(base: seq<seq<Solid>>, rows: seq<seq<Plan>>): (r: seq<seq<Solid>>)
    ensures |r| == |base|
  {
    if rows == [] then base else SpreadRow(Spread(base, rows[..|rows| - 1]), rows[|rows| - 1])
  }

  /** Row after row, the `j`-th other panel receives exactly its share. */
  lemma {:induction false} SpreadIndex(base: seq<seq<Solid>>, rows: seq<seq<Plan>>, j: nat)
    requires j < |base|
    ensures Spread(base, rows)[j] == base[j] + OtherRemoves(rows, j)
  {
    if rows != [] {
      var init := rows[..|rows| - 1];
      SpreadIndex(base, init, j);
      assert Spread(base, rows)[j] == Spread(base, init)[j] + HitOtherRemoves(rows[|rows| - 1], j);
    }
  }

  lemma SpreadStep(base: seq<seq<Solid>>, rows: seq<seq<Plan>>, i: nat)
    requires i < |rows|
    ensures SpreadRow(Spread(base, rows[..i]), rows[i]) == Spread(base, rows[..i + 1])
  {
    assert rows[..i + 1][..i] == rows[..i];
  }

  /** The tab panel and the other panels have received what `rows` hand
      them since the earlier state; the other panels' additions are untouched. */
  twostate predicate Applied(tabPart: MaterialElement, others: seq<MaterialElement>, rows: seq<seq<Plan>>)
    reads tabPart, set o | o in others
  {
    tabPart.toAdd == old(tabPart.toAdd) + TabAdds(rows) &&
    tabPart.toRemove == old(tabPart.toRemove) + TabRemoves(rows) &&
    RemovesOf(others) == Spread(old(RemovesOf(others)), rows) &&
    AddsOf(others) == old(AddsOf(others))
  }

  /** The inner loop of the joints: the first other panel the slot meets
      gets its cuts, the tab panel gets its solids, and the loop stops. */
  method ApplyRow(tabPart: MaterialElement, others: seq<MaterialElement>, row: seq<Plan>)
    requires (|row| == |others| || row == []) && tabPart !in others && DistinctElements(others)
    modifies tabPart, set o | o in others
    ensures tabPart.toAdd == old(tabPart.toAdd) + HitTabAdds(row)
    ensures tabPart.toRemove == old(tabPart.toRemove) + HitTabRemoves(row)
    ensures RemovesOf(others) == SpreadRow(old(RemovesOf(others)), row)
    ensures AddsOf(others) == old(AddsOf(others))
  {
    var j := 0;
    while j < |row|
      invariant 0 <= j <= |row|
      invariant forall k :: 0 <= k < j ==> !row[k].hit
      invariant unchanged(tabPart) && unchanged(set o | o in others)
    {
      if row[j].hit {
        FirstHitAt(row, j);
        tabPart.toAdd := tabPart.toAdd + row[j].tabAdd;
        others[j].toRemove := others[j].toRemove + row[j].otherRemove;
        tabPart.toRemove := tabPart.toRemove + row[j].tabRemove;
        assert RemovesOf(others) == SpreadRow(old(RemovesOf(others)), row) by {
          forall k | 0 <= k < |others| ensures RemovesOf(others)[k] == SpreadRow(old(RemovesOf(others)), row)[k] {
            if k != j {
              assert others[k] != others[j];
            }
          }
        }
        return;
      }
      j := j + 1;
    }
    FirstHitAt(row, |row|);
    assert RemovesOf(others) == SpreadRow(old(RemovesOf(others)), row) by {
      forall k | 0 <= k < |others| ensures RemovesOf(others)[k] == SpreadRow(old(RemovesOf(others)), row)[k] {
        assert HitOtherRemoves(row, k) == [];
      }
    }
  }

  /** What one more row adds to the hand-outs of the rows before it. */
  lemma RowsStep(rows: seq<seq<Plan>>, i: nat)
    requires i < |rows|
    ensures TabAdds(rows[..i + 1]) == TabAdds(rows[..i]) + HitTabAdds(rows[i])
    ensures TabRemoves(rows[..i + 1]) == TabRemoves(rows[..i]) + HitTabRemoves(rows[i])
  {
    assert rows[..i + 1][..i] == rows[..i];
  }

  /** One pass of the slot loop: row `i` on top of the rows before it. */
  method ApplyRowAt(tabPart: MaterialElement, others: seq<MaterialElement>, rows: seq<seq<Plan>>, i: nat,
                    ghost adds0: seq<Solid>, ghost removes0: seq<Solid>, ghost otherRemoves0: seq<seq<Solid>>)
    requires i < |rows| && tabPart !in others && DistinctElements(others)
    requires |rows[i]| == |others| || rows[i] == []
    requires tabPart.toAdd == adds0 + TabAdds(rows[..i])
    requires tabPart.toRemove == removes0 + TabRemoves(rows[..i])
    requires RemovesOf(others) == Spread(otherRemoves0, rows[..i])
    modifies tabPart, set o | o in others
    ensures tabPart.toAdd == adds0 + TabAdds(rows[..i + 1])
    ensures tabPart.toRemove == removes0 + TabRemoves(rows[..i + 1])
    ensures RemovesOf(others) == Spread(otherRemoves0, rows[..i + 1])
    ensures AddsOf(others) == old(AddsOf(others))
  {
    ApplyRow(tabPart, others, rows[i]);
    RowsStep(rows, i);
    SpreadStep(otherRemoves0, rows, i);
  }

  /** The slot loop shared by the joints: each row in turn goes through the
      inner loop over the other panels. */
  method ApplyRows(tabPart: MaterialElement, others: seq<MaterialElement>, rows: seq<seq<Plan>>)
    requires tabPart !in others && DistinctElements(others)
    requires forall i :: 0 <= i < |rows| ==> |rows[i]| == |others| || rows[i] == []
    modifies tabPart, set o | o in others
    ensures Applied(tabPart, others, rows)
  {
    ghost var adds0, removes0 := AddsOf(others), RemovesOf(others);
    var i := 0;
    assert rows[..0] == [];
    while i < |rows|
      invariant 0 <= i <= |rows|
      invariant tabPart.toAdd == old(tabPart.toAdd) + TabAdds(rows[..i])
      invariant tabPart.toRemove == old(tabPart.toRemove) + TabRemoves(rows[..i])
      invariant RemovesOf(others) == Spread(removes0, rows[..i])
      invariant AddsOf(others) == adds0
    {
      ApplyRowAt(tabPart, others, rows, i, old(tabPart.toAdd), old(tabPart.toRemove), removes0);
      i := i + 1;
    }
    assert rows[..i] == rows;
  }
}
