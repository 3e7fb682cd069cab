/** lasercut/join.py: the plan a joint makes for one slot and one other
    panel, and what a sequence of rows of plans hands out. A joint walks its
    slots; for each, the plans of the other panels in order form a row, and
    only the first plan that meets its panel is carried out. */
module Plans {
  import opened Solids

  datatype Plan = Plan(hit: bool, tabAdd: seq<Solid>, tabRemove: seq<Solid>, otherRemove: seq<Solid>)

  /** Index of the first plan that meets its panel, `|row|` when none does. */
  function FirstHit(row: seq<Plan>): (k: nat)
    ensures k <= |row|

    ensures k < |row| ==> row[k].hit
  {
    if row == [] then 0 else if row[0].hit then 0 else 1 + FirstHit(row[1..])
  }

  /** The first hit is the plan that meets its panel after plans that do not. */
  lemma {:induction false} FirstHitAt(row: seq<Plan>, j: nat)
    requires j <= |row| && (j < |row| ==> row[j].hit)
    requires forall k :: 0 <= k < j ==> !row[k].hit
    ensures FirstHit(row) == j
  {
    if j > 0 {
      assert forall k :: 0 <= k < j - 1 ==> !row[1..][k].hit by {
        forall k | 0 <= k < j - 1 ensures !row[1..][k].hit {
          assert row[1..][k] == row[k + 1];
        }
      }
      FirstHitAt(row[1..], j - 1);
    }
  }

  function HitTabAdds(row: seq<Plan>): seq<Solid>
  {
    if FirstHit(row) < |row| then row[FirstHit(row)].tabAdd else []
  }

  function HitTabRemoves(row: seq<Plan>): seq<Solid>
  {
    if FirstHit(row) < |row| then row[FirstHit(row)].tabRemove else []
  }

  function HitOtherRemoves(row: seq<Plan>, j: int): seq<Solid>
  {
    if 0 <= j == FirstHit(row) < |row| then row[j].otherRemove else []
  }

  /** What a sequence of rows appends, row by row, to the tab panel's
      additions and removals and to the removals of the `j`-th other panel. */
  function TabAdds(rows: seq<seq<Plan>>): seq<Solid>
  {
    if rows == [] then [] else TabAdds(rows[..|rows| - 1]) + HitTabAdds(rows[|rows| - 1])
  }

  function TabRemoves(rows: seq<seq<Plan>>): seq<Solid>
  {
    if rows == [] then [] else TabRemoves(rows[..|rows| - 1]) + HitTabRemoves(rows[|rows| - 1])
  }

  function OtherRemoves(rows: seq<seq<Plan>>, j: int): seq<Solid>
  {
    if rows == [] then [] else OtherRemoves(rows[..|rows| - 1], j) + HitOtherRemoves(rows[|rows| - 1], j)
  }

  /** Number of rows whose slot met some panel. */
  function HitCount(rows: seq<seq<Plan>>): nat
  {
    if rows == [] then 0
    else HitCount(rows[..|rows| - 1]) + (if FirstHit(rows[|rows| - 1]) < |rows[|rows| - 1]| then 1 else 0)
  }

  /** Every slot that meets a panel adds its tabs once: with `a` tab solids
      per plan, the tab panel gains `a` solids per hit. */
  lemma {:induction false} TabAddsCount(rows: seq<seq<Plan>>, a: nat)
    requires forall i, j :: 0 <= i < |rows| && 0 <= j < |rows[i]| ==> |rows[i][j].tabAdd| == a
    ensures |TabAdds(rows)| == a * HitCount(rows)
  {
    if rows != [] {
      var init: seq<seq<Plan>> := rows[..|rows| - 1];
      var last := rows[|rows| - 1];
      assert forall i, j :: 0 <= i < |init| && 0 <= j < |init[i]| ==> |init[i][j].tabAdd| == a by {
        forall i, j | 0 <= i < |init| && 0 <= j < |init[i]| ensures |init[i][j].tabAdd| == a {
          assert init[i] == rows[i];
        }
      }
      TabAddsCount(init, a);
      assert |TabAdds(rows)| == |TabAdds(init)| + |HitTabAdds(last)|;
      if FirstHit(last) < |last| {
        assert |HitTabAdds(last)| == a by {
          assert |last[FirstHit(last)].tabAdd| == a;
        }
        assert HitCount(rows) == HitCount(init) + 1;
        MulSucc(a, HitCount(init));
      } else {
        assert HitCount(rows) == HitCount(init);
      }
    }
  }

  /** Likewise for the tab panel's removals: `r` solids per plan give `r`
      solids per hit. */
  lemma {:induction false} TabRemovesCount(rows: seq<seq<Plan>>, r: nat)
    requires forall i, j :: 0 <= i < |rows| && 0 <= j < |rows[i]| ==> |rows[i][j].tabRemove| == r
    ensures |TabRemoves(rows)| == r * HitCount(rows)
  {
    if rows != [] {
      var init: seq<seq<Plan>> := rows[..|rows| - 1];
      var last := rows[|rows| - 1];
      assert forall i, j :: 0 <= i < |init| && 0 <= j < |init[i]| ==> |init[i][j].tabRemove| == r by {
        forall i, j | 0 <= i < |init| && 0 <= j < |init[i]| ensures |init[i][j].tabRemove| == r {
          assert init[i] == rows[i];
        }
      }
      TabRemovesCount(init, r);
      assert |TabRemoves(rows)| == |TabRemoves(init)| + |HitTabRemoves(last)|;
      if FirstHit(last) < |last| {
        assert |HitTabRemoves(last)| == r by {
          assert |last[FirstHit(last)].tabRemove| == r;
        }
        assert HitCount(rows) == HitCount(init) + 1;
        MulSucc(r, HitCount(init));
      } else {
        assert HitCount(rows) == HitCount(init);
      }
    }
  }

  lemma MulSucc(a: nat, x: nat)
    ensures a * (x + 1) == a * x + a
  {
  }

  /** `f(0) + ... + f(m - 1)`. */
  function Total(f: nat -> nat, m: nat): nat
  {
    if m == 0 then 0 else Total(f, m - 1) + f(m - 1)
  }

  lemma {:induction false} TotalAdd(f: nat -> nat, g: nat -> nat, h: nat -> nat, m: nat)
    requires forall j :: 0 <= j < m ==> f(j) == g(j) + h(j)
    ensures Total(f, m) == Total(g, m) + Total(h, m)
  {
    if m > 0 {
      TotalAdd(f, g, h, m - 1);
    }
  }

  /** How many removals `rows` hand to each other panel, and one row alone. */
  function RemovalCounts(rows: seq<seq<Plan>>): nat -> nat
  {
    j => |OtherRemoves(rows, j)|
  }

  function HitRemovalCounts(row: seq<Plan>): nat -> nat
  {
    j => |HitOtherRemoves(row, j)|
  }

  /** Total length of the removals `rows` hand to the first `m` other panels. */
  function SumOtherRemoves(rows: seq<seq<Plan>>, m: nat): nat
  {
    Total(RemovalCounts(rows), m)
  }

  lemma {:induction false} SumHitOtherRemovesIsFirstHit(row: seq<Plan>, m: nat, c: nat)
    requires m <= |row|
    requires forall j :: 0 <= j < |row| ==> |row[j].otherRemove| == c
    ensures Total(HitRemovalCounts(row), m) == if FirstHit(row) < m then c else 0
  {
    if m > 0 {
      SumHitOtherRemovesIsFirstHit(row, m - 1, c);
    }
  }

  /** The removals of all rows are those of all rows but the last, plus the last row's. */
  lemma SumOtherRemovesSplit(rows: seq<seq<Plan>>, m: nat)
    requires rows != []
    ensures SumOtherRemoves(rows, m) ==
      SumOtherRemoves(rows[..|rows| - 1], m) + Total(HitRemovalCounts(rows[|rows| - 1]), m)
  {
    var init, last := rows[..|rows| - 1], rows[|rows| - 1];
    forall j | 0 <= j < m
      ensures RemovalCounts(rows)(j) == RemovalCounts(init)(j) + HitRemovalCounts(last)(j)
    {
      assert OtherRemoves(rows, j) == OtherRemoves(init, j) + HitOtherRemoves(last, j);
    }
    TotalAdd(RemovalCounts(rows), RemovalCounts(init), HitRemovalCounts(last), m);
  }

  /** Every slot that meets a panel hands its cuts to exactly one other
      panel: with `c` removals per plan and rows as long as the list of other
      panels, the other panels together receive `c` solids per hit. */
  lemma {:induction false} OtherRemovesCount(rows: seq<seq<Plan>>, m: nat, c: nat)
    requires forall i :: 0 <= i < |rows| ==> |rows[i]| == m
    requires forall i, j :: 0 <= i < |rows| && 0 <= j < |rows[i]| ==> |rows[i][j].otherRemove| == c
    ensures SumOtherRemoves(rows, m) == c * HitCount(rows)
  {
    if rows == [] {
      TotalAdd(RemovalCounts(rows), RemovalCounts(rows), RemovalCounts(rows), m);
    } else {
      var init: seq<seq<Plan>> := rows[..|rows| - 1];
      var last := rows[|rows| - 1];
      assert forall i :: 0 <= i < |init| ==> |init[i]| == m by {
        forall i | 0 <= i < |init| ensures |init[i]| == m {
          assert init[i] == rows[i];
        }
      }
      assert forall i, j :: 0 <= i < |init| && 0 <= j < |init[i]| ==> |init[i][j].otherRemove| == c by {
        forall i, j | 0 <= i < |init| && 0 <= j < |init[i]| ensures |init[i][j].otherRemove| == c {
          assert init[i] == rows[i];
        }
      }
      OtherRemovesCount(init, m, c);
      SumOtherRemovesSplit(rows, m);
      assert forall j :: 0 <= j < |last| ==> |last[j].otherRemove| == c;
      SumHitOtherRemovesIsFirstHit(last, m, c);
      if FirstHit(last) < |last| {
        assert HitCount(rows) == HitCount(init) + 1;
        MulSucc(c, HitCount(init));
      } else {
        assert HitCount(rows) == HitCount(init);
      }
    }
  }
}
