/**
 * The render stage: `renderChart`, `renderPDB`, `renderIRT` and
 * `saveToJPeg`, as the calls they make on the kernel.
 *
 * The chart is described twice: `ChartPrimitives` lists the primitives in
 * the order `renderChart` sets them, and `ChartSlot` gives the slot each
 * one is written to when the scene is reused. `Emitted` is the kernel
 * after the whole list; `EmittedOverwrite` and `EmittedAppend` say where
 * every primitive ends up in either mode, and `ChartGap` exposes the ten
 * slots that the reuse path skips before the two side walls.
 */
module Render {
  import opened Common
  import opened Scene
  import opened Engine
  import opened Requests
  import Base64

  /** `material = 100`: ground, back wall and side walls of the chart. */
  const ChartMaterial := 100
  /** Every lamp. */
  const LampMaterial := 129
  /** The floor under a model. */
  const FloorMaterial := 102

  /** The colour of series `s`: `material = 20 + s * 5` at the top of the series loop. */
  function SeriesMaterial(s: nat): int
  {
    20 + s * 5
  }

  /** `sideSize`: the spacing of the columns times the length of the first series, times 0.9. */
  function SideSize(values: seq<seq<real>>): real
    requires |values| > 0
  {
    440.0 * |values[0]| as real * 0.9
  }

  // ---------------------------------------------------------------------
  // The chart as a list of primitives
  // ---------------------------------------------------------------------

  /** Two ground triangles, two back-wall triangles and the lamp. */
  function Fixed(side: real): seq<Drawing>
  {
    [Drawing(Triangle, Ground(0, side), ChartMaterial), Drawing(Triangle, Ground(1, side), ChartMaterial),
     Drawing(Triangle, BackWall(0, side), ChartMaterial), Drawing(Triangle, BackWall(1, side), ChartMaterial),
     Drawing(Sphere, ChartLamp, LampMaterial)]
  }

  /** Triangle `f` of the column for value `c` of series `s`. */
  function Face(s: nat, c: nat, f: nat, value: real): Drawing
  {
    Drawing(Triangle, ColumnFace(s, c, f, value), SeriesMaterial(s))
  }

  /** The ten triangles of one column: front, back, right, left and top, two each. */
  function Faces(s: nat, c: nat, value: real): seq<Drawing>
  {
    seq(10, f requires 0 <= f < 10 => Face(s, c, f, value))
  }

  /** The columns of series `s`, one per value, in order. */
  function SeriesColumns(s: nat, vs: seq<real>): (r: seq<Drawing>)
    ensures |r| == 10 * |vs|
    decreases |vs|
  {
    if |vs| == 0 then []
    else SeriesColumns(s, vs[..|vs| - 1]) + Faces(s, |vs| - 1, vs[|vs| - 1])
  }

  /** The number of values over all series: the chart's `index / 10` after the series loop. */
  function ValueCount(values: seq<seq<real>>): nat
    decreases |values|
  {
    if |values| == 0 then 0 else ValueCount(values[..|values| - 1]) + |values[|values| - 1]|
  }

  /** The columns of every series, series by series. */
  function Columns(values: seq<seq<real>>): (r: seq<Drawing>)
    ensures |r| == 10 * ValueCount(values)
    decreases |values|
  {
    if |values| == 0 then []
    else Columns(values[..|values| - 1]) + SeriesColumns(|values| - 1, values[|values| - 1])
  }

  /** Everything `renderChart` sets, in order: ground, wall, lamp, columns, side walls. */
  function ChartPrimitives(values: seq<seq<real>>): (chart: seq<Drawing>)
    requires |values| > 0
    ensures |chart| == 7 + 10 * ValueCount(values)
  {
    var side := SideSize(values);
    Fixed(side) + Columns(values)
    + [Drawing(Triangle, RightSide(side), ChartMaterial), Drawing(Triangle, LeftSide(side), ChartMaterial)]
  }

  /** Face `f` of column `c` counts ten per column. */
  function FaceIndex(c: int, f: int): int
  {
    10 * c + f
  }

  /** Where face `f` of value `c` of series `s` sits among all columns. */
  function FacePos(values: seq<seq<real>>, s: int, c: int, f: int): int
    requires 0 <= s <= |values|
  {
    10 * ValueCount(values[..s]) + FaceIndex(c, f)
  }

  lemma {:induction false} SeriesColumnsAt(s: nat, vs: seq<real>)
    ensures forall c, f :: 0 <= c < |vs| && 0 <= f < 10 ==>
      SeriesColumns(s, vs)[FaceIndex(c, f)] == Face(s, c, f, vs[c])
    decreases |vs|
  {
    if |vs| > 0 {
      var init := vs[..|vs| - 1];
      SeriesColumnsAt(s, init);
      forall c, f | 0 <= c < |vs| && 0 <= f < 10
        ensures SeriesColumns(s, vs)[FaceIndex(c, f)] == Face(s, c, f, vs[c])
      {
        if c < |vs| - 1 {
          assert init[c] == vs[c];
          assert SeriesColumns(s, init)[FaceIndex(c, f)] == Face(s, c, f, vs[c]);
        } else {
          assert Faces(s, c, vs[c])[f] == Face(s, c, f, vs[c]);
        }
      }
    }
  }

  /** Series `s` adds its own length to the count. */
  lemma ValueCountStep(values: seq<seq<real>>, s: int)
    requires 0 <= s < |values|
    ensures ValueCount(values[..s + 1]) == ValueCount(values[..s]) + |values[s]|
  {
    assert values[..s + 1][..s] == values[..s];
  }

  /** The values before and in series `s` are part of all the values. */
  lemma {:induction false} ValueCountBound(values: seq<seq<real>>, s: int)
    requires 0 <= s < |values|
    ensures ValueCount(values[..s]) + |values[s]| <= ValueCount(values)
    decreases |values|
  {
    var init := values[..|values| - 1];
    if s == |values| - 1 {
      assert init == values[..s];
    } else {
      ValueCountBound(init, s);
      assert init[..s] == values[..s];
    }
  }

  lemma {:induction false} ColumnsAt(values: seq<seq<real>>)
    ensures forall s, c, f :: 0 <= s < |values| && 0 <= c < |values[s]| && 0 <= f < 10 ==>
      FacePos(values, s, c, f) < 10 * ValueCount(values) &&
      Columns(values)[FacePos(values, s, c, f)] == Face(s, c, f, values[s][c])
    decreases |values|
  {
    if |values| > 0 {
      var k := |values| - 1;
      ColumnsAt(values[..k]);
      forall s, c, f | 0 <= s < |values| && 0 <= c < |values[s]| && 0 <= f < 10
        ensures FacePos(values, s, c, f) < 10 * ValueCount(values)
        ensures Columns(values)[FacePos(values, s, c, f)] == Face(s, c, f, values[s][c])
      {
        if s < k {
          ColumnsAtEarlier(values, s, c, f);
        } else {
          ColumnsAtLast(values, c, f);
        }
      }
    }
  }

  /** A face of an earlier series keeps its place when a series is added. */
  lemma ColumnsAtEarlier(values: seq<seq<real>>, s: int, c: int, f: int)
    requires 0 <= s < |values| - 1 && 0 <= c < |values[s]| && 0 <= f < 10
    requires var init := values[..|values| - 1];
      FacePos(init, s, c, f) < 10 * ValueCount(init) &&
      Columns(init)[FacePos(init, s, c, f)] == Face(s, c, f, values[s][c])
    ensures FacePos(values, s, c, f) < 10 * ValueCount(values)
    ensures Columns(values)[FacePos(values, s, c, f)] == Face(s, c, f, values[s][c])
  {
    var k := |values| - 1;
    var init := values[..k];
    assert init[..s] == values[..s];
    assert FacePos(values, s, c, f) == FacePos(init, s, c, f);
    assert Columns(values) == Columns(init) + SeriesColumns(k, values[k]);
  }

  /** A face of the last series sits after the columns of all the others. */
  lemma ColumnsAtLast(values: seq<seq<real>>, c: int, f: int)
    requires |values| > 0 && 0 <= c < |values[|values| - 1]| && 0 <= f < 10
    ensures var k := |values| - 1;
      FacePos(values, k, c, f) < 10 * ValueCount(values) &&
      Columns(values)[FacePos(values, k, c, f)] == Face(k, c, f, values[k][c])
  {
    var k := |values| - 1;
    var init := values[..k];
    SeriesColumnsAt(k, values[k]);
    assert SeriesColumns(k, values[k])[FaceIndex(c, f)] == Face(k, c, f, values[k][c]);
    assert Columns(values) == Columns(init) + SeriesColumns(k, values[k]);
    assert FacePos(values, k, c, f) == 10 * ValueCount(init) + FaceIndex(c, f);
  }

  /**
   * The chart's primitives: ground, wall and lamp first, then ten
   * triangles per value, series after series, in the series' colour,
   * then the right and the left side wall.
   */
  lemma ChartLayout(values: seq<seq<real>>)
    requires |values| > 0
    ensures var n, side, chart := ValueCount(values), SideSize(values), ChartPrimitives(values);
      |chart| == 7 + 10 * n &&
      chart[..5] == Fixed(side) &&
      (forall s, c, f :: 0 <= s < |values| && 0 <= c < |values[s]| && 0 <= f < 10 ==>
        FacePos(values, s, c, f) < 10 * n && chart[5 + FacePos(values, s, c, f)] == Face(s, c, f, values[s][c])) &&
      chart[5 + 10 * n] == Drawing(Triangle, RightSide(side), ChartMaterial) &&
      chart[6 + 10 * n] == Drawing(Triangle, LeftSide(side), ChartMaterial)
  {
    var n, side, columns := ValueCount(values), SideSize(values), Columns(values);
    var chart := ChartPrimitives(values);
    FrameAround(side, columns);
    assert chart == Fixed(side) + columns
      + [Drawing(Triangle, RightSide(side), ChartMaterial), Drawing(Triangle, LeftSide(side), ChartMaterial)];
    ColumnsAt(values);
    forall s, c, f | 0 <= s < |values| && 0 <= c < |values[s]| && 0 <= f < 10
      ensures FacePos(values, s, c, f) < 10 * n && chart[5 + FacePos(values, s, c, f)] == Face(s, c, f, values[s][c])
    {
      assert chart[5 + FacePos(values, s, c, f)] == columns[FacePos(values, s, c, f)];
    }
  }

  /** The first five and the last two primitives, without the columns. */
  lemma ChartEnds(values: seq<seq<real>>)
    requires |values| > 0
    ensures var n, side, chart := ValueCount(values), SideSize(values), ChartPrimitives(values);
      chart[0] == Drawing(Triangle, Ground(0, side), ChartMaterial) &&
      chart[1] == Drawing(Triangle, Ground(1, side), ChartMaterial) &&
      chart[2] == Drawing(Triangle, BackWall(0, side), ChartMaterial) &&
      chart[3] == Drawing(Triangle, BackWall(1, side), ChartMaterial) &&
      chart[4] == Drawing(Sphere, ChartLamp, LampMaterial) &&
      chart[5 + 10 * n] == Drawing(Triangle, RightSide(side), ChartMaterial) &&
      chart[6 + 10 * n] == Drawing(Triangle, LeftSide(side), ChartMaterial)
  {
    var side, columns := SideSize(values), Columns(values);
    FrameAround(side, columns);
    assert ChartPrimitives(values) == Fixed(side) + columns
      + [Drawing(Triangle, RightSide(side), ChartMaterial), Drawing(Triangle, LeftSide(side), ChartMaterial)];
  }

  /** The fixed primitives and the side walls around any column list. */
  lemma FrameAround(side: real, columns: seq<Drawing>)
    ensures var chart := Fixed(side) + columns
        + [Drawing(Triangle, RightSide(side), ChartMaterial), Drawing(Triangle, LeftSide(side), ChartMaterial)];
      chart[..5] == Fixed(side) &&
      chart[0] == Drawing(Triangle, Ground(0, side), ChartMaterial) &&
      chart[1] == Drawing(Triangle, Ground(1, side), ChartMaterial) &&
      chart[2] == Drawing(Triangle, BackWall(0, side), ChartMaterial) &&
      chart[3] == Drawing(Triangle, BackWall(1, side), ChartMaterial) &&
      chart[4] == Drawing(Sphere, ChartLamp, LampMaterial) &&
      (forall i :: 0 <= i < |columns| ==> chart[5 + i] == columns[i]) &&
      chart[5 + |columns|] == Drawing(Triangle, RightSide(side), ChartMaterial) &&
      chart[6 + |columns|] == Drawing(Triangle, LeftSide(side), ChartMaterial)
  {
    var walls := [Drawing(Triangle, RightSide(side), ChartMaterial), Drawing(Triangle, LeftSide(side), ChartMaterial)];
    var chart := Fixed(side) + columns + walls;
    forall k | 0 <= k < 5
      ensures chart[k] == Fixed(side)[k]
    {
    }
    assert chart[..5] == Fixed(side);
  }

  // ---------------------------------------------------------------------
  // Where the chart's primitives go
  // ---------------------------------------------------------------------

  /**
   * The slot of the `k`-th primitive when the scene is reused:
   * `gChartStartIndex + k` up to the last column, ten further on for the
   * side walls (`+index+15`, `+index+16` where `index` is ten per value).
   */
  function ChartSlot(start: int, n: nat, k: int): int
  {
    if k < 5 + 10 * n then start + k else start + k + 10
  }

  /** The kernel after `renderChart` has set `chart`, `n` values in all. */
  function Emitted(st: KernelState, update: bool, start: int, n: nat, chart: seq<Drawing>): KernelState
    decreases |chart|
  {
    if |chart| == 0 then st
    else
      var k := |chart| - 1;
      Placed(Emitted(st, update, start, n, chart[..k]), update, ChartSlot(start, n, k), chart[k])
  }

  /** The `SetPrimitive` calls of a reuse, one per primitive. */
  function Writes(start: int, n: nat, chart: seq<Drawing>): seq<Call>
    decreases |chart|
  {
    if |chart| == 0 then []
    else
      var k := |chart| - 1;
      Writes(start, n, chart[..k]) + [SetPrimitive(ChartSlot(start, n, k), chart[k])]
  }

  /** The `addPrimitive`/`setPrimitive` pairs of a build, from slot `base` on. */
  function Appends(base: int, chart: seq<Drawing>): seq<Call>
    decreases |chart|
  {
    if |chart| == 0 then []
    else
      var k := |chart| - 1;
      Appends(base, chart[..k]) + [AddPrimitive(chart[k].kind), SetPrimitive(base + k, chart[k])]
  }

  /** The slots of the first `m` primitives of a reuse. */
  function SlotsOf(start: int, n: nat, m: int): set<int>
  {
    set k | 0 <= k < m :: ChartSlot(start, n, k)
  }

  lemma EmittedStep(st: KernelState, update: bool, start: int, n: nat, chart: seq<Drawing>, m: int)
    requires 0 <= m < |chart|
    ensures Emitted(st, update, start, n, chart[..m + 1])
         == Placed(Emitted(st, update, start, n, chart[..m]), update, ChartSlot(start, n, m), chart[m])
  {
    assert chart[..m + 1][..m] == chart[..m];
  }

  /** Later primitives get higher slots, so no two share one. */
  lemma ChartSlotIncreasing(start: int, n: nat, i: int, j: int)
    requires i < j
    ensures ChartSlot(start, n, i) < ChartSlot(start, n, j)
  {
  }

  /**
   * Reusing the scene appends nothing: the `k`-th primitive is in slot
   * `ChartSlot(start, n, k)`, every other slot keeps its content, and the
   * calls are one `setPrimitive` per primitive.
   */
  lemma {:induction false} EmittedOverwrite(st: KernelState, start: int, n: nat, chart: seq<Drawing>)
    ensures var r := Emitted(st, false, start, n, chart);
      r.nbActive == st.nbActive &&
      (forall k :: 0 <= k < |chart| ==> ChartSlot(start, n, k) in r.primitives && r.primitives[ChartSlot(start, n, k)] == Drawn(chart[k])) &&
      (forall i :: i in st.primitives && i !in SlotsOf(start, n, |chart|) ==> i in r.primitives && r.primitives[i] == st.primitives[i]) &&
      r.calls == st.calls + Writes(start, n, chart)
    decreases |chart|
  {
    if |chart| > 0 {
      var m := |chart| - 1;
      EmittedOverwrite(st, start, n, chart[..m]);
      EmittedStep(st, false, start, n, chart, m);
      assert chart[..m + 1] == chart;
      var before := Emitted(st, false, start, n, chart[..m]);
      var r := Emitted(st, false, start, n, chart);
      assert r.primitives == before.primitives[ChartSlot(start, n, m) := Drawn(chart[m])];
      forall k | 0 <= k < |chart|
        ensures ChartSlot(start, n, k) in r.primitives && r.primitives[ChartSlot(start, n, k)] == Drawn(chart[k])
      {
        if k < m {
          ChartSlotIncreasing(start, n, k, m);
          assert chart[..m][k] == chart[k];
        }
      }
      assert SlotsOf(start, n, |chart|) == SlotsOf(start, n, m) + {ChartSlot(start, n, m)};
    }
  }

  /**
   * Building the scene ignores the slots: the `k`-th primitive goes to the
   * `k`-th slot past the active ones, which all become active; nothing
   * before them changes.
   */
  lemma {:induction false} EmittedAppend(st: KernelState, start: int, n: nat, chart: seq<Drawing>)
    ensures var r := Emitted(st, true, start, n, chart);
      r.nbActive == st.nbActive + |chart| &&
      (forall i :: st.nbActive <= i < st.nbActive + |chart| ==> i in r.primitives && r.primitives[i] == Drawn(chart[i - st.nbActive])) &&
      (forall i :: i in st.primitives && !(st.nbActive <= i < st.nbActive + |chart|) ==> i in r.primitives && r.primitives[i] == st.primitives[i]) &&
      r.calls == st.calls + Appends(st.nbActive, chart)
    decreases |chart|
  {
    if |chart| > 0 {
      var m := |chart| - 1;
      EmittedAppend(st, start, n, chart[..m]);
      EmittedStep(st, true, start, n, chart, m);
      assert chart[..m + 1] == chart;
      var before := Emitted(st, true, start, n, chart[..m]);
      var r := Emitted(st, true, start, n, chart);
      assert r.primitives == before.primitives[st.nbActive + m := Drawn(chart[m])];
      assert before.nbActive == st.nbActive + m;
      forall i | st.nbActive <= i < st.nbActive + |chart|
        ensures i in r.primitives && r.primitives[i] == Drawn(chart[i - st.nbActive])
      {
        if i < st.nbActive + m {
          assert chart[..m][i - st.nbActive] == chart[i - st.nbActive];
        }
      }
    }
  }

  /**
   * The ten-slot gap of the reuse path: its slots run from `start` to the
   * last column without a hole, none falls in the ten slots after the
   * last column, and the side walls land ten slots further than a build
   * from `start` puts them: past the `7 + 10 n` slots that build made active.
   */
  lemma ChartGap(start: int, n: nat, k: int)
    requires 0 <= k < 7 + 10 * n
    ensures k < 5 + 10 * n ==> ChartSlot(start, n, k) == start + k
    ensures !(start + 5 + 10 * n <= ChartSlot(start, n, k) < start + 15 + 10 * n)
    ensures k >= 5 + 10 * n ==> ChartSlot(start, n, k) == start + k + 10 && ChartSlot(start, n, k) >= start + 7 + 10 * n
  {
  }

  // ---------------------------------------------------------------------
  // renderChart's primitive calls
  // ---------------------------------------------------------------------

  /**
   * One `gNbPrimitives = update ? addPrimitive(kind) : slot` and the
   * `setPrimitive` after it, as the `m`-th primitive of `chart`.
   */
  method Place(kernel: Kernel, update: bool, start: int, ghost n: nat, ghost st0: KernelState,
               ghost chart: seq<Drawing>, ghost m: int, slot: int, p: Drawing)
    returns (nbPrimitives: int)
    requires 0 <= m < |chart| && p == chart[m] && slot == ChartSlot(start, n, m)
    requires kernel.State() == Emitted(st0, update, start, n, chart[..m])
    modifies kernel
    ensures kernel.State() == Emitted(st0, update, start, n, chart[..m + 1])
    ensures update ==> nbPrimitives == old(kernel.nbActive) && kernel.nbActive == nbPrimitives + 1
    ensures !update ==> nbPrimitives == slot && kernel.nbActive == old(kernel.nbActive)
  {
    EmittedStep(st0, update, start, n, chart, m);
    nbPrimitives := Emit(kernel, update, slot, p);
  }

  /** The ten faces of value `c` of series `s` follow one another in the chart. */
  lemma ColumnSlice(values: seq<seq<real>>, s: int, c: int)
    requires 0 <= s < |values| && 0 <= c < |values[s]|
    ensures var index := 10 * (ValueCount(values[..s]) + c);
      15 + index <= |ChartPrimitives(values)| &&
      forall f :: 0 <= f < 10 ==> ChartPrimitives(values)[5 + index + f] == Face(s, c, f, values[s][c])
  {
    ChartLayout(values);
    ValueCountBound(values, s);
    forall f | 0 <= f < 10
      ensures ChartPrimitives(values)[5 + 10 * (ValueCount(values[..s]) + c) + f] == Face(s, c, f, values[s][c])
    {
      assert FacePos(values, s, c, f) == 10 * (ValueCount(values[..s]) + c) + f;
    }
  }

  /** Face `f` of the column for value `c` of series `s`, at its place in the chart. */
  method PlaceFace(kernel: Kernel, update: bool, start: int, ghost st0: KernelState,
                   ghost values: seq<seq<real>>, ghost s: int, ghost c: int, ghost index: int, ghost f: int,
                   slot: int, p: Drawing)
    returns (nbPrimitives: int)
    requires 0 <= s < |values| && 0 <= c < |values[s]| && 0 <= f < 10
    requires index == 10 * (ValueCount(values[..s]) + c) && index + 10 <= 10 * ValueCount(values)
    requires p == Face(s, c, f, values[s][c])
    requires slot == start + 5 + index + f
    requires kernel.State() == Emitted(st0, update, start, ValueCount(values), ChartPrimitives(values)[..5 + index + f])
    modifies kernel
    ensures kernel.State() == Emitted(st0, update, start, ValueCount(values), ChartPrimitives(values)[..5 + index + f + 1])
    ensures update ==> kernel.nbActive == nbPrimitives + 1
    ensures !update ==> nbPrimitives == slot
  {
    ColumnSlice(values, s, c);
    nbPrimitives := Place(kernel, update, start, ValueCount(values), st0, ChartPrimitives(values), 5 + index + f, slot, p);
  }

  /** The ten faces of the column for value `c` of series `s`. */
  method PlaceColumn(kernel: Kernel, update: bool, start: int, ghost st0: KernelState,
                     values: seq<seq<real>>, s: int, c: int, index: int, material: int)
    returns (nbPrimitives: int)
    requires 0 <= s < |values| && 0 <= c < |values[s]|
    requires index == 10 * (ValueCount(values[..s]) + c) && index + 10 <= 10 * ValueCount(values)
    requires material == SeriesMaterial(s)
    requires kernel.State() == Emitted(st0, update, start, ValueCount(values), ChartPrimitives(values)[..5 + index])
    modifies kernel
    ensures kernel.State() == Emitted(st0, update, start, ValueCount(values), ChartPrimitives(values)[..15 + index])
    ensures update ==> kernel.nbActive == nbPrimitives + 1
    ensures !update ==> nbPrimitives == start + 14 + index
  {
    var value := values[s][c];
    nbPrimitives := PlaceFace(kernel, update, start, st0, values, s, c, index, 0, start + 5 + index, Drawing(Triangle, ColumnFace(s, c, 0, value), material));
    nbPrimitives := PlaceFace(kernel, update, start, st0, values, s, c, index, 1, start + 6 + index, Drawing(Triangle, ColumnFace(s, c, 1, value), material));
    nbPrimitives := PlaceFace(kernel, update, start, st0, values, s, c, index, 2, start + 7 + index, Drawing(Triangle, ColumnFace(s, c, 2, value), material));
    nbPrimitives := PlaceFace(kernel, update, start, st0, values, s, c, index, 3, start + 8 + index, Drawing(Triangle, ColumnFace(s, c, 3, value), material));
    nbPrimitives := PlaceFace(kernel, update, start, st0, values, s, c, index, 4, start + 9 + index, Drawing(Triangle, ColumnFace(s, c, 4, value), material));
    nbPrimitives := PlaceFace(kernel, update, start, st0, values, s, c, index, 5, start + 10 + index, Drawing(Triangle, ColumnFace(s, c, 5, value), material));
    nbPrimitives := PlaceFace(kernel, update, start, st0, values, s, c, index, 6, start + 11 + index, Drawing(Triangle, ColumnFace(s, c, 6, value), material));
    nbPrimitives := PlaceFace(kernel, update, start, st0, values, s, c, index, 7, start + 12 + index, Drawing(Triangle, ColumnFace(s, c, 7, value), material));
    nbPrimitives := PlaceFace(kernel, update, start, st0, values, s, c, index, 8, start + 13 + index, Drawing(Triangle, ColumnFace(s, c, 8, value), material));
    nbPrimitives := PlaceFace(kernel, update, start, st0, values, s, c, index, 9, start + 14 + index, Drawing(Triangle, ColumnFace(s, c, 9, value), material));
  }

  /** The columns of series `s`, one per value; `index` grows by ten per column. */
  method PlaceSeries(kernel: Kernel, update: bool, start: int, ghost st0: KernelState,
                     values: seq<seq<real>>, s: int, index: int, material: int, nbPrimitives: int)
    returns (nbPrimitives': int, index': int)
    requires 0 <= s < |values| && index == 10 * ValueCount(values[..s]) && index <= 10 * ValueCount(values)
    requires material == SeriesMaterial(s)
    requires kernel.State() == Emitted(st0, update, start, ValueCount(values), ChartPrimitives(values)[..5 + index])
    requires update ==> nbPrimitives == kernel.nbActive - 1
    modifies kernel
    ensures index' == 10 * ValueCount(values[..s + 1]) && index' <= 10 * ValueCount(values)
    ensures kernel.State() == Emitted(st0, update, start, ValueCount(values), ChartPrimitives(values)[..5 + index'])
    ensures update ==> nbPrimitives' == kernel.nbActive - 1
  {
    ValueCountBound(values, s);
    nbPrimitives', index' := nbPrimitives, index;
    var c := 0;
    while c < |values[s]|
      invariant 0 <= c <= |values[s]|
      invariant index' == 10 * (ValueCount(values[..s]) + c)
      invariant kernel.State() == Emitted(st0, update, start, ValueCount(values), ChartPrimitives(values)[..5 + index'])
      invariant update ==> nbPrimitives' == kernel.nbActive - 1
    {
      nbPrimitives' := PlaceColumn(kernel, update, start, st0, values, s, c, index', material);
      index' := index' + 10;
      c := c + 1;
    }
    ValueCountStep(values, s);
  }

  /**
   * The ground, the back wall and the lamp; when the scene is new,
   * `gChartStartIndex` is set to the slot the first ground triangle got,
   * which is the value it already holds.
   */
  method PlaceFront(kernel: Kernel, values: seq<seq<real>>, update: bool, chartStartIndex: int)
    returns (nbPrimitives: int, startIndex: int)
    requires |values| > 0
    modifies kernel
    ensures startIndex == chartStartIndex
    ensures kernel.State() == Emitted(old(kernel.State()), update, chartStartIndex, ValueCount(values), ChartPrimitives(values)[..5])
    ensures update ==> nbPrimitives == kernel.nbActive - 1
  {
    ghost var st0 := kernel.State();
    ghost var n, chart := ValueCount(values), ChartPrimitives(values);
    var material := ChartMaterial;
    startIndex := chartStartIndex;
    var sideSize := SideSize(values);
    ChartEnds(values);
    assert chart[..0] == [];
    // Ground
    nbPrimitives := Place(kernel, update, startIndex, n, st0, chart, 0, startIndex, Drawing(Triangle, Ground(0, sideSize), material));
    if !update {
      startIndex := nbPrimitives;
    }
    nbPrimitives := Place(kernel, update, startIndex, n, st0, chart, 1, startIndex + 1, Drawing(Triangle, Ground(1, sideSize), material));
    // Wall
    nbPrimitives := Place(kernel, update, startIndex, n, st0, chart, 2, startIndex + 2, Drawing(Triangle, BackWall(0, sideSize), material));
    nbPrimitives := Place(kernel, update, startIndex, n, st0, chart, 3, startIndex + 3, Drawing(Triangle, BackWall(1, sideSize), material));
    // Lamp
    nbPrimitives := Place(kernel, update, startIndex, n, st0, chart, 4, startIndex + 4, Drawing(Sphere, ChartLamp, LampMaterial));
  }

  /** The right and the left side wall, ten slots past the last column when the scene is reused. */
  method PlaceWalls(kernel: Kernel, values: seq<seq<real>>, update: bool, startIndex: int, index: int, ghost st0: KernelState)
    returns (nbPrimitives: int)
    requires |values| > 0 && index == 10 * ValueCount(values)
    requires kernel.State() == Emitted(st0, update, startIndex, ValueCount(values), ChartPrimitives(values)[..5 + index])
    modifies kernel
    ensures kernel.State() == Emitted(st0, update, startIndex, ValueCount(values), ChartPrimitives(values))
    ensures update ==> nbPrimitives == kernel.nbActive - 1
    ensures !update ==> nbPrimitives == startIndex + index + 16
  {
    ghost var n, chart := ValueCount(values), ChartPrimitives(values);
    var material := ChartMaterial;
    var sideSize := SideSize(values);
    ChartEnds(values);
    nbPrimitives := Place(kernel, update, startIndex, n, st0, chart, index + 5, startIndex + index + 15, Drawing(Triangle, RightSide(sideSize), material));
    nbPrimitives := Place(kernel, update, startIndex, n, st0, chart, index + 6, startIndex + index + 16, Drawing(Triangle, LeftSide(sideSize), material));
    assert chart[..index + 7] == chart;
  }

  /**
   * The primitive calls of `renderChart`: ground, wall and lamp, the
   * columns series by series, then the side walls; each appended when
   * `update` and otherwise written at its slot from `gChartStartIndex`.
   * `gChartStartIndex` is only ever assigned its own value.
   */
  method BuildChart(kernel: Kernel, values: seq<seq<real>>, update: bool, chartStartIndex: int)
    returns (nbPrimitives: int, startIndex: int)
    requires |values| == NbMaxSeries
    modifies kernel
    ensures startIndex == chartStartIndex
    ensures kernel.State() == Emitted(old(kernel.State()), update, chartStartIndex, ValueCount(values), ChartPrimitives(values))
    ensures update ==> nbPrimitives == kernel.nbActive - 1
    ensures !update ==> nbPrimitives == chartStartIndex + 10 * ValueCount(values) + 16
  {
    ghost var st0 := kernel.State();
    nbPrimitives, startIndex := PlaceFront(kernel, values, update, chartStartIndex);
    // Columns
    var index := 0;
    for s := 0 to NbMaxSeries
      invariant index == 10 * ValueCount(values[..s]) && index <= 10 * ValueCount(values)
      invariant kernel.State() == Emitted(st0, update, startIndex, ValueCount(values), ChartPrimitives(values)[..5 + index])
      invariant update ==> nbPrimitives == kernel.nbActive - 1
    {
      var material := SeriesMaterial(s);
      nbPrimitives, index := PlaceSeries(kernel, update, startIndex, st0, values, s, index, material, nbPrimitives);
      material := material + 1;
    }
    assert values[..NbMaxSeries] == values;
    // Right and left side
    nbPrimitives := PlaceWalls(kernel, values, update, startIndex, index, st0);
  }

  // ---------------------------------------------------------------------
  // After the primitives: boxes, rotation, effects and the render loop
  // ---------------------------------------------------------------------

  /**
   * The calls every render function makes once its primitives are set:
   * `compactBoxes(update)`, `rotatePrimitives` when the scene is rotated,
   * then one pass per iteration with the derived post-processing and
   * scene, the camera at the view position looking 5000 units ahead.
   */
  function Finished(st: KernelState, view: View, update: bool, rotate: bool): KernelState
  {
    var pp := Effects(view.pp, view.viewPos, view.sceneInfo.maxPathTracingIterations);
    var scene := Lighting(view.sceneInfo, view.pp.ppType);
    st.(calls := st.calls + [CompactBoxes(update)] + (if rotate then [RotatePrimitives(view.rotationAngles)] else [])
      + Passes(scene, pp, view.viewPos, CameraTarget(view.viewPos), view.rotationAngles, view.sceneInfo.maxPathTracingIterations))
  }

  /**
   * Rendering changes no primitive. The trace continues with the box
   * compaction, the rotation if any, then exactly `n` passes (`n` the
   * iteration count, none if `n <= 0`); pass `i` carries iteration `i`,
   * shadows on exactly when the type is not 2, and the effects
   * `EffectsParameters` describes.
   */
  lemma FinishedTrace(st: KernelState, view: View, update: bool, rotate: bool)
    ensures var r, h, n := Finished(st, view, update, rotate), |st.calls| + (if rotate then 2 else 1), view.sceneInfo.maxPathTracingIterations;
      var pp, scene := Effects(view.pp, view.viewPos, n), Lighting(view.sceneInfo, view.pp.ppType);
      r.primitives == st.primitives && r.nbActive == st.nbActive &&
      |r.calls| == h + (if n <= 0 then 0 else 5 * n) &&
      r.calls[..h] == st.calls + [CompactBoxes(update)] + (if rotate then [RotatePrimitives(view.rotationAngles)] else []) &&
      (forall i :: 0 <= i < n ==>
        r.calls[h + 5 * i .. h + 5 * i + 5] == Pass(scene, pp, view.viewPos, CameraTarget(view.viewPos), view.rotationAngles, i)) &&
      (scene.shadowsEnabled <==> view.pp.ppType != 2) && pp.ppType == view.pp.ppType
  {
    var n := view.sceneInfo.maxPathTracingIterations;
    var pp, scene := Effects(view.pp, view.viewPos, n), Lighting(view.sceneInfo, view.pp.ppType);
    var head := st.calls + [CompactBoxes(update)] + (if rotate then [RotatePrimitives(view.rotationAngles)] else []);
    var passes := Passes(scene, pp, view.viewPos, CameraTarget(view.viewPos), view.rotationAngles, n);
    PassesInOrder(scene, pp, view.viewPos, CameraTarget(view.viewPos), view.rotationAngles, n);
    LightingRules(view.sceneInfo, view.pp.ppType);
    forall i | 0 <= i < n
      ensures (head + passes)[|head| + 5 * i .. |head| + 5 * i + 5] == passes[5 * i .. 5 * i + 5]
    {
    }
  }

  /** Rendering leaves the primitives alone and only extends the trace. */
  lemma FinishedKeeps(st: KernelState, view: View, update: bool, rotate: bool)
    ensures var r := Finished(st, view, update, rotate);
      r.primitives == st.primitives && r.nbActive == st.nbActive &&
      |st.calls| < |r.calls| && r.calls[..|st.calls|] == st.calls
  {
  }

  /** The tail of the three render functions, from `compactBoxes` to the last pass. */
  method Finish(kernel: Kernel, view: View, update: bool, rotate: bool)
    modifies kernel
    ensures kernel.State() == Finished(old(kernel.State()), view, update, rotate)
  {
    var cameraOrigin := view.viewPos;
    var cameraTarget := CameraTarget(view.viewPos);
    kernel.Log(CompactBoxes(update));
    // Post processing effects
    var pp := view.pp;
    var iterations := view.sceneInfo.maxPathTracingIterations;
    pp := pp.(param1 := -cameraTarget.z);
    pp := pp.(param2 := if pp.ppType == 0 then iterations as real * 10.0 else 5000.0);
    pp := pp.(param3 := if pp.ppType != 2 then 40 + iterations * 5 else 16);
    // Shadows
    var sceneInfo := view.sceneInfo;
    sceneInfo := sceneInfo.(shadowsEnabled := pp.ppType != 2);
    // Rotation
    if rotate {
      kernel.Log(RotatePrimitives(view.rotationAngles));
    }
    // Background color
    sceneInfo := sceneInfo.(backgroundColor := if pp.ppType == 2 then BkBlack else sceneInfo.backgroundColor);
    RenderPasses(kernel, sceneInfo, pp, cameraOrigin, cameraTarget, view.rotationAngles);
  }

  // ---------------------------------------------------------------------
  // saveToJPeg
  // ---------------------------------------------------------------------

  datatype Header = Header(name: string, value: string)

  /** What has been written to the HTTP response so far. */
  datatype Response = Response(body: string, headers: seq<Header>)

  const NoResponse := Response([], [])

  const JpegPrefix := "data:image/jpg;base64,"

  /** The characters a stream takes from a `char*`: everything before the first NUL. */
  function CString(s: seq<char>): (r: seq<char>)
    ensures '\0' !in r && r <= s
    ensures '\0' !in s ==> r == s
    ensures |r| < |s| ==> s[|r|] == '\0'
    decreases |s|
  {
    if |s| == 0 || s[0] == '\0' then [] else [s[0]] + CString(s[1..])
  }

  lemma {:induction false} CStringTerminated(t: seq<char>, rest: seq<char>)
    requires '\0' !in t
    ensures CString(t + ['\0'] + rest) == t
    decreases |t|
  {
    if |t| > 0 {
      CStringTerminated(t[1..], rest);
      assert (t + ['\0'] + rest)[1..] == t[1..] + ['\0'] + rest;
    }
  }

  /**
   * The response after `saveToJPeg` when reading `fileName` back gives
   * `disk(fileName)`: unchanged if the file cannot be opened, otherwise
   * the data-URL prefix, the base64 of the file, and the CORS header.
   */
  function Saved(response: Response, fileName: string, disk: string -> Option<seq<byte>>): Response
  {
    match disk(fileName)
    case None => response
    case Some(bytes) =>
      Response(response.body + JpegPrefix + Base64.Encode(bytes), response.headers + [Header("Access-Control-Allow-Origin", "*")])
  }

  /** A browser decoding the data URL gets the file's bytes back. */
  lemma SavedDecodes(response: Response, fileName: string, disk: string -> Option<seq<byte>>)
    requires disk(fileName).Some?
    ensures var body, k := Saved(response, fileName, disk).body, |response.body| + |JpegPrefix|;
      k <= |body| && body[..k] == response.body + JpegPrefix &&
      Base64.Decode(body[k..]) == disk(fileName).value
  {
    var bytes := disk(fileName).value;
    var body := response.body + JpegPrefix + Base64.Encode(bytes);
    assert body[|response.body| + |JpegPrefix|..] == Base64.Encode(bytes);
    Base64.DecodeEncode(bytes);
  }

  /**
   * IMVWebServer.cpp `saveToJPeg` after `jo_write_jpg`: `disk` is what
   * `fopen`/`fread` find under the name.
   */
  method SaveToJpeg(response: Response, fileName: string, disk: string -> Option<seq<byte>>) returns (response': Response)
    ensures response' == Saved(response, fileName, disk)
  {
    response' := response;
    var file := disk(fileName);
    if file.Some? {
      var buffer := file.value;
      response' := response'.(body := response'.body + JpegPrefix);
      var encoded, len := Base64.Base64Encode(buffer);
      Base64.EncodeHasNoNul(buffer);
      assert encoded[..] == encoded[..len] + ['\0'] + [];
      CStringTerminated(encoded[..len], []);
      response' := response'.(body := response'.body + CString(encoded[..]));
      response' := response'.(headers := response'.headers + [Header("Access-Control-Allow-Origin", "*")]);
    }
  }

  // ---------------------------------------------------------------------
  // renderChart, renderPDB, renderIRT
  // ---------------------------------------------------------------------

  /** The kernel after `renderChart`: the chart's primitives, then the tail without rotation. */
  function ChartRendered(st: KernelState, info: ChartInfo, update: bool, start: int): KernelState
    requires |info.values| > 0
  {
    Finished(Emitted(st, update, start, ValueCount(info.values), ChartPrimitives(info.values)), info.view, update, false)
  }

  /**
   * A reused chart scene appends nothing and writes the chart's `k`-th
   * primitive at `ChartSlot(start, n, k)`, pairwise distinct slots; a
   * built one appends them all after the active slots.
   */
  lemma ChartRenderedSlots(st: KernelState, info: ChartInfo, update: bool, start: int)
    requires |info.values| > 0
    ensures var r, n, chart := ChartRendered(st, info, update, start), ValueCount(info.values), ChartPrimitives(info.values);
      (!update ==>
        r.nbActive == st.nbActive &&
        forall k :: 0 <= k < |chart| ==> ChartSlot(start, n, k) in r.primitives && r.primitives[ChartSlot(start, n, k)] == Drawn(chart[k])) &&
      (update ==>
        r.nbActive == st.nbActive + 7 + 10 * n &&
        forall i :: st.nbActive <= i < st.nbActive + |chart| ==> i in r.primitives && r.primitives[i] == Drawn(chart[i - st.nbActive]))
  {
    var n, chart := ValueCount(info.values), ChartPrimitives(info.values);
    FinishedTrace(Emitted(st, update, start, n, chart), info.view, update, false);
    if update {
      EmittedAppend(st, start, n, chart);
    } else {
      EmittedOverwrite(st, start, n, chart);
    }
  }

  /** IMVWebServer.cpp `renderChart`, with `gChartStartIndex` and `gNbPrimitives` passed in and out. */
  method RenderChart(kernel: Kernel, info: ChartInfo, update: bool, chartStartIndex: int,
                     response: Response, disk: string -> Option<seq<byte>>)
    returns (nbPrimitives: int, startIndex: int, response': Response)
    requires |info.values| == NbMaxSeries
    modifies kernel
    ensures startIndex == chartStartIndex
    ensures kernel.State() == ChartRendered(old(kernel.State()), info, update, chartStartIndex)
    ensures response' == Saved(response, "chart.jpg", disk)
  {
    nbPrimitives, startIndex := BuildChart(kernel, info.values, update, chartStartIndex);
    Finish(kernel, info.view, update, false);
    response' := SaveToJpeg(response, "chart.jpg", disk);
  }

  /** A primitive handed a fresh slot by `addPrimitive`. */
  function Added(st: KernelState, p: Drawing): KernelState
  {
    Placed(st, true, st.nbActive, p)
  }

  const MoleculeLampDrawing := Drawing(Sphere, MoleculeLamp, LampMaterial)
  const ModelLampDrawing := Drawing(Sphere, ModelLamp, LampMaterial)
  const FloorDrawing := Drawing(Checkerboard, Floor, FloorMaterial)

  /** The PDB file of a molecule: the current protein when no id was given. */
  function MoleculeFile(moleculeId: string, proteinName: string): string
  {
    "./Pdb/" + (if |moleculeId| == 0 then proteinName else moleculeId) + ".pdb"
  }

  /**
   * The kernel after `renderPDB`: a lamp appended whatever `update` says,
   * the reader's `atoms` primitives when `update`, then the rotated tail.
   */
  function MoleculeRendered(st: KernelState, info: MoleculeInfo, update: bool, fileName: string, atoms: nat): KernelState
  {
    var lit := Added(st, MoleculeLampDrawing);
    var loaded := if update then Appended(lit, LoadAtoms(fileName, info.structureType), fileName, atoms) else lit;
    Finished(loaded, info.view, update, true)
  }

  /**
   * The lamp always takes the first free slot, even when the scene is
   * reused; the atoms follow it; nothing active before changes.
   */
  lemma MoleculeLampAppended(st: KernelState, info: MoleculeInfo, update: bool, fileName: string, atoms: nat)
    ensures var r, extra := MoleculeRendered(st, info, update, fileName, atoms), if update then atoms else 0;
      r.nbActive == st.nbActive + 1 + extra &&
      r.primitives[st.nbActive] == Drawn(MoleculeLampDrawing) &&
      (forall i :: st.nbActive < i <= st.nbActive + extra ==> i in r.primitives && r.primitives[i] == Loaded(fileName, i - st.nbActive - 1)) &&
      (forall i :: i in st.primitives && !(st.nbActive <= i <= st.nbActive + extra) ==> i in r.primitives && r.primitives[i] == st.primitives[i]) &&
      r.calls[|st.calls|..|st.calls| + 2] == [AddPrimitive(Sphere), SetPrimitive(st.nbActive, MoleculeLampDrawing)]
  {
    var lit := Added(st, MoleculeLampDrawing);
    var loaded := if update then Appended(lit, LoadAtoms(fileName, info.structureType), fileName, atoms) else lit;
    var extra := if update then atoms else 0;
    FinishedKeeps(loaded, info.view, update, true);
    PlacedSlots(st, true, st.nbActive, MoleculeLampDrawing);
    assert lit.calls == st.calls + [AddPrimitive(Sphere), SetPrimitive(st.nbActive, MoleculeLampDrawing)];
    assert loaded.calls[..|lit.calls|] == lit.calls;
    assert loaded.nbActive == st.nbActive + 1 + extra && loaded.primitives[st.nbActive] == Drawn(MoleculeLampDrawing);
    forall i | st.nbActive < i <= st.nbActive + extra
      ensures i in loaded.primitives && loaded.primitives[i] == Loaded(fileName, i - st.nbActive - 1)
    {
      assert LoadedAt(fileName, lit.nbActive, i) == Loaded(fileName, i - st.nbActive - 1);
    }
    forall i | i in st.primitives && !(st.nbActive <= i <= st.nbActive + extra)
      ensures i in loaded.primitives && loaded.primitives[i] == st.primitives[i]
    {
      assert i in lit.primitives && lit.primitives[i] == st.primitives[i];
    }
  }

  /** IMVWebServer.cpp `renderPDB`; `atoms` is how many primitives the PDB reader adds. */
  method RenderPdb(kernel: Kernel, info: MoleculeInfo, update: bool, proteinName: string, atoms: nat,
                   response: Response, disk: string -> Option<seq<byte>>)
    returns (nbPrimitives: int, response': Response)
    modifies kernel
    ensures kernel.State() == MoleculeRendered(old(kernel.State()), info, update, MoleculeFile(info.moleculeId, proteinName), atoms)
    ensures nbPrimitives == old(kernel.nbActive)
    ensures response' == Saved(response, info.moleculeId + ".jpg", disk)
  {
    var fileName := MoleculeFile(info.moleculeId, proteinName);
    // Lamp
    nbPrimitives := kernel.AddPrimitive(Sphere);
    kernel.SetPrimitive(nbPrimitives, MoleculeLampDrawing);
    if update {
      kernel.Load(LoadAtoms(fileName, info.structureType), fileName, atoms);
    }
    Finish(kernel, info.view, update, true);
    response' := SaveToJpeg(response, info.moleculeId + ".jpg", disk);
  }

  function ModelFile(fileName: string): string
  {
    "./irt/" + fileName + ".irt"
  }

  /**
   * The kernel after `renderIRT`: a lamp appended whatever `update` says;
   * when `update`, the reader's `count` primitives and a checkerboard
   * floor after them; then the tail without rotation.
   */
  function ModelRendered(st: KernelState, info: IrtInfo, update: bool, count: nat): KernelState
  {
    var file := ModelFile(info.fileName);
    var lit := Added(st, ModelLampDrawing);
    var loaded := if update then Added(Appended(lit, LoadModel(file), file, count), FloorDrawing) else lit;
    Finished(loaded, info.view, update, false)
  }

  /**
   * Reusing a model scene grows it by exactly one primitive, the lamp,
   * and keeps every other slot; building it adds the lamp, the model and
   * the floor, in that order.
   */
  lemma ModelReuseGrows(st: KernelState, info: IrtInfo, update: bool, count: nat)
    ensures var r := ModelRendered(st, info, update, count);
      (!update ==> r.nbActive == st.nbActive + 1 && r.primitives == st.primitives[st.nbActive := Drawn(ModelLampDrawing)]) &&
      (update ==>
        r.nbActive == st.nbActive + 2 + count &&
        r.primitives[st.nbActive] == Drawn(ModelLampDrawing) &&
        r.primitives[st.nbActive + 1 + count] == Drawn(FloorDrawing) &&
        (forall i :: st.nbActive < i <= st.nbActive + count ==> i in r.primitives && r.primitives[i] == Loaded(ModelFile(info.fileName), i - st.nbActive - 1)))
  {
    var file := ModelFile(info.fileName);
    var lit := Added(st, ModelLampDrawing);
    var loaded := if update then Added(Appended(lit, LoadModel(file), file, count), FloorDrawing) else lit;
    FinishedTrace(loaded, info.view, update, false);
  }

  /** IMVWebServer.cpp `renderIRT`; `count` is how many primitives the model reader adds. */
  method RenderIrt(kernel: Kernel, info: IrtInfo, update: bool, count: nat,
                   response: Response, disk: string -> Option<seq<byte>>)
    returns (nbPrimitives: int, response': Response)
    modifies kernel
    ensures kernel.State() == ModelRendered(old(kernel.State()), info, update, count)
    ensures nbPrimitives == kernel.nbActive - 1
    ensures response' == Saved(response, info.fileName + ".jpg", disk)
  {
    var fileName := ModelFile(info.fileName);
    // Lamp
    nbPrimitives := kernel.AddPrimitive(Sphere);
    kernel.SetPrimitive(nbPrimitives, ModelLampDrawing);
    if update {
      kernel.Load(LoadModel(fileName), fileName, count);
      nbPrimitives := kernel.AddPrimitive(Checkerboard);
      kernel.SetPrimitive(nbPrimitives, FloorDrawing);
    }
    Finish(kernel, info.view, update, false);
    response' := SaveToJpeg(response, info.fileName + ".jpg", disk);
  }
}
