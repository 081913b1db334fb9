/**
 * The query-parameter interpreters `parseChart`, `parsePDB` and
 * `parseIRT`. Each walks the GET parameters once, in order, updating an
 * info record, the window-size globals and the request log string.
 *
 * `ChartOf`, `MoleculeOf` and `IrtOf` are those walks as folds over the
 * parameter list; `ReadChart`, `ReadMolecule` and `ReadIrt` are the
 * loops, proved equal to the folds. The `...LastWins` lemmas give an
 * independent description: every field is decided by the last parameter
 * of its name alone.
 */
module Requests {
  import opened Common
  import opened Fields
  import opened Scene

  /** `NB_MAX_SERIES`. */
  const NbMaxSeries := 5

  /** `gWindowWidth`, `gWindowHeight`: overwritten by every `size` parameter. */
  datatype Window = Window(width: nat, height: nat)

  const InitialWindow := Window(InitialWindowSize, InitialWindowSize)

  /** The camera and scene part shared by the three info records. */
  datatype View = View(viewPos: Float3, rotationAngles: Float3, sceneInfo: SceneInfo, pp: PostProcessingInfo)

  /** `ChartInfo`; `chartType` is never initialised before a `type` parameter. */
  datatype ChartInfo = ChartInfo(chartType: Option<int>, values: seq<seq<real>>, view: View)

  datatype MoleculeInfo = MoleculeInfo(moleculeId: string, structureType: int, scheme: int, view: View)

  datatype IrtInfo = IrtInfo(fileName: string, view: View)

  /** An info record together with the window globals, as a walk leaves them. */
  datatype Parsed<T> = Parsed(info: T, window: Window)

  /** The two numbers in which the interpreters differ on shared parameters. */
  datatype ViewRules = ViewRules(qualityCap: int, sizeFallback: nat)

  /** Chart and model: quality up to `gMaxPathTracingIterations`, size 512 by default. */
  const ChartRules := ViewRules(MaxPathTracingIterations, 512)
  const IrtRules := ViewRules(MaxPathTracingIterations, 512)
  /** Molecule: quality up to 20, size 768 by default. */
  const MoleculeRules := ViewRules(20, 768)

  /** Every interpreter starts from `gViewPos`, no rotation, `gSceneInfo`, `gPostProcessingInfo`. */
  const DefaultView := View(DefaultViewPos, Float3(0.0, 0.0, 0.0), DefaultSceneInfo, DefaultPostProcessingInfo)

  /** Five empty series and an undefined chart type. */
  const ChartDefaults := ChartInfo(None, [[], [], [], [], []], DefaultView)

  /** The current protein, and a structure and scheme from the first two draws. */
  function MoleculeDefaults(moleculeId: string, rand: nat -> nat): (info: MoleculeInfo)
    ensures 0 <= info.structureType < 5 && 0 <= info.scheme < 3
    ensures info.moleculeId == moleculeId && info.view == DefaultView
  {
    MoleculeInfo(moleculeId, rand(0) % 5, rand(1) % 3, DefaultView)
  }

  /** An empty model file name. */
  const IrtDefaults := IrtInfo([], DefaultView)

  // ---------------------------------------------------------------------
  // The value rules
  // ---------------------------------------------------------------------

  /** The `size` switch: codes 1 to 5 pick a square, anything else the fallback. */
  function SizeSquare(code: int, fallback: nat): nat
  {
    if code == 1 then 1024
    else if code == 2 then 1600
    else if code == 3 then 1920
    else if code == 4 then 2048
    else if code == 5 then 4096
    else fallback
  }

  /**
   * A larger code never gives a smaller image, the five codes give five
   * different sizes of at least 1024, and any other code the fallback.
   */
  lemma SizeSquareOrder(code: int, other: int, fallback: nat)
    ensures 1 <= code < other <= 5 ==> SizeSquare(code, fallback) < SizeSquare(other, fallback)
    ensures 1 <= code <= 5 ==> 1024 <= SizeSquare(code, fallback) <= 4096
    ensures !(1 <= code <= 5) ==> SizeSquare(code, fallback) == fallback
  {
  }

  /** `quality`: an upper cap and no lower one. */
  function Capped(quality: int, cap: int): (r: int)
    ensures r <= cap && r <= quality
    ensures r == quality || r == cap
    ensures quality <= cap ==> r == quality
  {
    if quality > cap then cap else quality
  }

  /** `structure`, `scheme`, `postprocessing`: out of [lo, hi] becomes 0. */
  function ZeroUnlessWithin(v: int, lo: int, hi: int): (r: int)
    ensures lo <= v <= hi ==> r == v
    ensures !(lo <= v <= hi) ==> r == 0
    ensures lo <= 0 <= hi ==> lo <= r <= hi
  {
    if v < lo || v > hi then 0 else v
  }

  /** `M_PI`. */
  const Pi: real := 3.14159265358979323846

  function Radians(degrees: real): real
  {
    degrees / 180.0 * Pi
  }

  /** `rotation`: three angles in degrees, turned into radians. */
  function Angles(value: string, atof: string -> real): Float3
  {
    var d := Float3Of(value, atof);
    Float3(Radians(d.x), Radians(d.y), Radians(d.z))
  }

  /** `bkcolor`: each channel divided by 255, then saturated to [0, 255]; w is kept. */
  function Background(background: Float4, value: string, atof: string -> real): Float4
  {
    var c := Float3Of(value, atof);
    Saturated(Float4(c.x / 255.0, c.y / 255.0, c.z / 255.0, background.w), 0.0, 255.0)
  }

  /**
   * The background colour a `bkcolor` parameter gives: channels in
   * [0, 255] and w unchanged. Because the bounds are applied after the
   * division, a channel given in [0, 65025] is only divided, so "255"
   * gives 1 but "1000" gives 1000 / 255, above 1.
   */
  lemma BackgroundRange(background: Float4, value: string, atof: string -> real)
    ensures var r := Background(background, value, atof);
      0.0 <= r.x <= 255.0 && 0.0 <= r.y <= 255.0 && 0.0 <= r.z <= 255.0 && r.w == background.w
    ensures var c := Float3Of(value, atof);
      0.0 <= c.x <= 65025.0 ==> Background(background, value, atof).x == c.x / 255.0
  {
  }

  /** A draw of `rand() % 30` shifted by 10. */
  function Draw(rand: nat -> nat, k: nat): (r: real)
    ensures 10.0 <= r <= 39.0
  {
    10.0 + (rand(k) % 30) as real
  }

  /** `values`: ten draws appended to each series, series by series. */
  function RandomSeries(values: seq<seq<real>>, rand: nat -> nat, draws: nat): (r: seq<seq<real>>)
    requires |values| == NbMaxSeries
    ensures |r| == NbMaxSeries
  {
    seq(NbMaxSeries, s requires 0 <= s < NbMaxSeries => values[s] + seq(10, i requires 0 <= i < 10 => Draw(rand, draws + 10 * s + i)))
  }

  /**
   * The nested loop of the `values` branch: series `s` gets draws
   * `10s .. 10s + 9` of this parameter's fifty.
   */
  method AppendRandomSeries(values: seq<seq<real>>, rand: nat -> nat, draws: nat) returns (result: seq<seq<real>>)
    requires |values| == NbMaxSeries
    ensures result == RandomSeries(values, rand, draws)
  {
    result := values;
    for s := 0 to NbMaxSeries
      invariant |result| == NbMaxSeries
      invariant forall t :: 0 <= t < s ==> result[t] == RandomSeries(values, rand, draws)[t]
      invariant forall t :: s <= t < NbMaxSeries ==> result[t] == values[t]
    {
      for i := 0 to 10
        invariant |result| == NbMaxSeries
        invariant forall t :: 0 <= t < s ==> result[t] == RandomSeries(values, rand, draws)[t]
        invariant forall t :: s < t < NbMaxSeries ==> result[t] == values[t]
        invariant result[s] == values[s] + seq(i, k requires 0 <= k < i => Draw(rand, draws + 10 * s + k))
      {
        ghost var before := result[s];
        result := result[s := result[s] + [Draw(rand, draws + 10 * s + i)]];
        assert result[s] == values[s] + seq(i + 1, k requires 0 <= k < i + 1 => Draw(rand, draws + 10 * s + k));
      }
    }
  }

  /**
   * Each series grows by ten values, all in [10, 39], after its old
   * contents.
   */
  lemma RandomSeriesShape(values: seq<seq<real>>, rand: nat -> nat, draws: nat)
    requires |values| == NbMaxSeries
    ensures forall s :: 0 <= s < NbMaxSeries ==>
      |RandomSeries(values, rand, draws)[s]| == |values[s]| + 10 &&
      RandomSeries(values, rand, draws)[s][..|values[s]|] == values[s] &&
      forall k :: |values[s]| <= k < |values[s]| + 10 ==> 10.0 <= RandomSeries(values, rand, draws)[s][k] <= 39.0
  {
    forall s | 0 <= s < NbMaxSeries
      ensures |RandomSeries(values, rand, draws)[s]| == |values[s]| + 10
      ensures RandomSeries(values, rand, draws)[s][..|values[s]|] == values[s]
      ensures forall k :: |values[s]| <= k < |values[s]| + 10 ==> 10.0 <= RandomSeries(values, rand, draws)[s][k] <= 39.0
    {
      var added := seq(10, i requires 0 <= i < 10 => Draw(rand, draws + 10 * s + i));
      assert RandomSeries(values, rand, draws)[s] == values[s] + added;
      forall k | |values[s]| <= k < |values[s]| + 10
        ensures 10.0 <= RandomSeries(values, rand, draws)[s][k] <= 39.0
      {
        assert RandomSeries(values, rand, draws)[s][k] == added[k - |values[s]|] == Draw(rand, draws + 10 * s + k - |values[s]|);
      }
    }
  }

  // ---------------------------------------------------------------------
  // Parameter lists
  // ---------------------------------------------------------------------

  /** The parameter names the interpreters compare against. */
  datatype Key =
    | Type | Values | Distance | Rotation | BkColor | Quality | Size | PostProcessing
    | Molecule | Structure | Scheme | Model | Unknown

  /** The `strcmp` chains: which known name, if any, a parameter carries. */
  function KeyOf(name: string): Key
  {
    if name == "type" then Type
    else if name == "values" then Values
    else if name == "distance" then Distance
    else if name == "rotation" then Rotation
    else if name == "bkcolor" then BkColor
    else if name == "quality" then Quality
    else if name == "size" then Size
    else if name == "postprocessing" then PostProcessing
    else if name == "molecule" then Molecule
    else if name == "structure" then Structure
    else if name == "scheme" then Scheme
    else if name == "model" then Model
    else Unknown
  }

  /** The last parameter whose name is one of `keys`, if any. */
  function LastParam(ps: seq<Param>, keys: set<Key>): (r: Option<Param>)
    ensures r.Some? ==> r.value in ps && KeyOf(r.value.name) in keys
    ensures r.None? <==> forall i :: 0 <= i < |ps| ==> KeyOf(ps[i].name) !in keys
    decreases |ps|
  {
    if |ps| == 0 then None
    else if KeyOf(ps[|ps| - 1].name) in keys then Some(ps[|ps| - 1])
    else
      var init := ps[..|ps| - 1];
      var r := LastParam(init, keys);
      assert forall i :: 0 <= i < |init| ==> init[i] == ps[i];
      r
  }

  /** The parameter `LastParam` finds has no parameter with a wanted name after it. */
  lemma {:induction false} LastParamIsLast(ps: seq<Param>, keys: set<Key>)
    ensures LastParam(ps, keys).Some? ==>
      exists i :: 0 <= i < |ps| && ps[i] == LastParam(ps, keys).value && forall j :: i < j < |ps| ==> KeyOf(ps[j].name) !in keys
    decreases |ps|
  {
    if |ps| > 0 && KeyOf(ps[|ps| - 1].name) !in keys {
      var init := ps[..|ps| - 1];
      LastParamIsLast(init, keys);
      if LastParam(init, keys).Some? {
        var i :| 0 <= i < |init| && init[i] == LastParam(init, keys).value && forall j :: i < j < |init| ==> KeyOf(init[j].name) !in keys;
        assert ps[i] == init[i];
        forall j | i < j < |ps|
          ensures KeyOf(ps[j].name) !in keys
        {
          if j < |init| {
            assert ps[j] == init[j];
          }
        }
      }
    } else if |ps| > 0 {
      assert ps[|ps| - 1] == LastParam(ps, keys).value;
    }
  }

  /** How many parameters carry the name `key`. */
  function Count(ps: seq<Param>, key: Key): nat
    decreases |ps|
  {
    if |ps| == 0 then 0
    else Count(ps[..|ps| - 1], key) + (if KeyOf(ps[|ps| - 1].name) == key then 1 else 0)
  }

  /** `name=value`. */
  function Entry(p: Param): string
  {
    p.name + "=" + p.value
  }

  /** The log string: the entries joined by `&`. */
  function Query(ps: seq<Param>): string
    decreases |ps|
  {
    if |ps| == 0 then []
    else Query(ps[..|ps| - 1]) + (if |ps| > 1 then "&" else "") + Entry(ps[|ps| - 1])
  }

  function Entries(ps: seq<Param>): (r: seq<string>)
    ensures |r| == |ps|
    ensures forall k :: 0 <= k < |ps| ==> r[k] == Entry(ps[k])
    decreases |ps|
  {
    if |ps| == 0 then [] else Entries(ps[..|ps| - 1]) + [Entry(ps[|ps| - 1])]
  }

  /** No name or value holds an `&`. */
  ghost predicate Unambiguous(ps: seq<Param>)
  {
    forall k :: 0 <= k < |ps| ==> '&' !in ps[k].name && '&' !in ps[k].value
  }

  /** The log is the entries, each but the last followed by `&`. */
  lemma {:induction false} QueryJoined(ps: seq<Param>)
    requires |ps| > 0
    ensures Query(ps) == Joined(Entries(ps[..|ps| - 1]), '&') + Entry(ps[|ps| - 1])
    decreases |ps|
  {
    var init := ps[..|ps| - 1];
    if |ps| > 1 {
      QueryJoined(init);
      assert init[..|init| - 1] == ps[..|ps| - 2];
      assert Entries(init)[..|init| - 1] == Entries(ps[..|ps| - 2]);
    } else {
      assert Entries(init) == [];
    }
  }

  /**
   * The log string can be split back at its `&` characters into exactly
   * the entries, one per parameter, in order, as long as no name or value
   * holds an `&`.
   */
  lemma QuerySplits(ps: seq<Param>)
    requires |ps| > 0 && Unambiguous(ps)
    ensures Scan(Query(ps), '&') == Split(Entries(ps[..|ps| - 1]), Entry(ps[|ps| - 1]))
  {
    QueryJoined(ps);
    var es := Entries(ps[..|ps| - 1]);
    forall k | 0 <= k < |es|
      ensures '&' !in es[k]
    {
      assert es[k] == ps[k].name + "=" + ps[k].value;
    }
    ScanJoined(es, Entry(ps[|ps| - 1]), '&');
  }

  // ---------------------------------------------------------------------
  // The parameters every interpreter reads
  // ---------------------------------------------------------------------

  /**
   * `distance`, `rotation`, `bkcolor`, `quality` and `size`; any other
   * name leaves the view and the window alone.
   */
  function ViewStep(v: View, w: Window, p: Param, rules: ViewRules, libc: Libc): (View, Window)
  {
    match KeyOf(p.name)
    case Distance =>
      (v.(viewPos := v.viewPos.(z := libc.atoi(p.value) as real)), w)
    case Rotation =>
      (v.(rotationAngles := Angles(p.value, libc.atof)), w)
    case BkColor =>
      (v.(sceneInfo := v.sceneInfo.(backgroundColor := Background(v.sceneInfo.backgroundColor, p.value, libc.atof))), w)
    case Quality =>
      (v.(sceneInfo := v.sceneInfo.(maxPathTracingIterations := Capped(libc.atoi(p.value), rules.qualityCap))), w)
    case Size =>
      var n := SizeSquare(libc.atoi(p.value), rules.sizeFallback);
      (v.(sceneInfo := v.sceneInfo.(width := n, height := n)), Window(n, n))
    case _ => (v, w)
  }

  /**
   * The reference description of the shared parameters: each field is
   * set by the last parameter of its name, and a `size` sets the scene
   * and the window to the same square. Post-processing is not touched.
   */
  function ViewFromLast(v: View, w: Window, ps: seq<Param>, rules: ViewRules, libc: Libc): (View, Window)
  {
    var distance := LastParam(ps, {Distance});
    var rotation := LastParam(ps, {Rotation});
    var bkcolor := LastParam(ps, {BkColor});
    var quality := LastParam(ps, {Quality});
    var size := LastParam(ps, {Size});
    var n := if size.Some? then SizeSquare(libc.atoi(size.value.value), rules.sizeFallback) else 0;
    var scene := v.sceneInfo.(
      backgroundColor := if bkcolor.Some? then Background(v.sceneInfo.backgroundColor, bkcolor.value.value, libc.atof) else v.sceneInfo.backgroundColor,
      maxPathTracingIterations := if quality.Some? then Capped(libc.atoi(quality.value.value), rules.qualityCap) else v.sceneInfo.maxPathTracingIterations,
      width := if size.Some? then n else v.sceneInfo.width,
      height := if size.Some? then n else v.sceneInfo.height);
    (View(
       if distance.Some? then v.viewPos.(z := libc.atoi(distance.value.value) as real) else v.viewPos,
       if rotation.Some? then Angles(rotation.value.value, libc.atof) else v.rotationAngles,
       scene,
       v.pp),
     if size.Some? then Window(n, n) else w)
  }

  /** One more parameter moves the reference description by one `ViewStep`. */
  lemma ViewFromLastStep(v: View, w: Window, ps: seq<Param>, rules: ViewRules, libc: Libc)
    requires |ps| > 0
    ensures var (v', w') := ViewFromLast(v, w, ps[..|ps| - 1], rules, libc);
      ViewFromLast(v, w, ps, rules, libc) == ViewStep(v', w', ps[|ps| - 1], rules, libc)
  {
    var init := ps[..|ps| - 1];
    var p := ps[|ps| - 1];
    match KeyOf(p.name)
    case Distance =>
    case Rotation =>
    case BkColor =>
    case Quality =>
    case Size =>
    case _ =>
      assert LastParam(ps, {Distance}) == LastParam(init, {Distance});
      assert LastParam(ps, {Rotation}) == LastParam(init, {Rotation});
      assert LastParam(ps, {BkColor}) == LastParam(init, {BkColor});
      assert LastParam(ps, {Quality}) == LastParam(init, {Quality});
      assert LastParam(ps, {Size}) == LastParam(init, {Size});
  }

  /** The imperative branches shared by the three loops. */
  method ApplyViewParam(v: View, w: Window, p: Param, rules: ViewRules, libc: Libc) returns (v': View, w': Window)
    ensures (v', w') == ViewStep(v, w, p, rules, libc)
  {
    v', w' := v, w;
    if p.name == "distance" {
      v' := v'.(viewPos := v'.viewPos.(z := libc.atoi(p.value) as real));
    } else if p.name == "rotation" {
      var d := ReadFloat3(p.value, libc.atof);
      v' := v'.(rotationAngles := Float3(Radians(d.x), Radians(d.y), Radians(d.z)));
    } else if p.name == "bkcolor" {
      var c := ReadFloat3(p.value, libc.atof);
      var background := v'.sceneInfo.backgroundColor.(x := c.x / 255.0, y := c.y / 255.0, z := c.z / 255.0);
      background := Saturate(background, 0.0, 255.0);
      v' := v'.(sceneInfo := v'.sceneInfo.(backgroundColor := background));
    } else if p.name == "quality" {
      var quality := libc.atoi(p.value);
      quality := if quality > rules.qualityCap then rules.qualityCap else quality;
      v' := v'.(sceneInfo := v'.sceneInfo.(maxPathTracingIterations := quality));
    } else if p.name == "size" {
      var code := libc.atoi(p.value);
      if code == 1 { w' := Window(1024, 1024); }
      else if code == 2 { w' := Window(1600, 1600); }
      else if code == 3 { w' := Window(1920, 1920); }
      else if code == 4 { w' := Window(2048, 2048); }
      else if code == 5 { w' := Window(4096, 4096); }
      else { w' := Window(rules.sizeFallback, rules.sizeFallback); }
      v' := v'.(sceneInfo := v'.sceneInfo.(width := w'.width, height := w'.height));
    }
  }

  // ---------------------------------------------------------------------
  // parseChart
  // ---------------------------------------------------------------------

  /** One parameter of `parseChart`; `draws` counts the draws made before it. */
  function ChartStep(st: Parsed<ChartInfo>, p: Param, libc: Libc, rand: nat -> nat, draws: nat): (r: Parsed<ChartInfo>)
    requires |st.info.values| == NbMaxSeries
    ensures |r.info.values| == NbMaxSeries
  {
    match KeyOf(p.name)
    case Type => st.(info := st.info.(chartType := Some(libc.atoi(p.value))))
    case Values => st.(info := st.info.(values := RandomSeries(st.info.values, rand, draws)))
    case PostProcessing => st.(info := st.info.(chartType := Some(ZeroUnlessWithin(libc.atoi(p.value), 0, 2))))
    case _ =>
      var (v, w) := ViewStep(st.info.view, st.window, p, ChartRules, libc);
      Parsed(st.info.(view := v), w)
  }

  /** The whole walk of `parseChart`; each `values` parameter makes fifty draws. */
  function ChartOf(st: Parsed<ChartInfo>, ps: seq<Param>, libc: Libc, rand: nat -> nat): (r: Parsed<ChartInfo>)
    requires |st.info.values| == NbMaxSeries
    ensures |r.info.values| == NbMaxSeries
    decreases |ps|
  {
    if |ps| == 0 then st
    else ChartStep(ChartOf(st, ps[..|ps| - 1], libc, rand), ps[|ps| - 1], libc, rand, 50 * Count(ps[..|ps| - 1], Values))
  }

  /** `type` and `postprocessing` both set the chart type; the later one wins. */
  function ChartTypeFromLast(chartType: Option<int>, ps: seq<Param>, libc: Libc): Option<int>
  {
    match LastParam(ps, {Type, PostProcessing})
    case None => chartType
    case Some(p) => Some(if KeyOf(p.name) == Type then libc.atoi(p.value) else ZeroUnlessWithin(libc.atoi(p.value), 0, 2))
  }

  /** The series after `m` `values` parameters, whatever their values and positions. */
  function RepeatedSeries(values: seq<seq<real>>, rand: nat -> nat, m: nat): (r: seq<seq<real>>)
    requires |values| == NbMaxSeries
    ensures |r| == NbMaxSeries
  {
    if m == 0 then values else RandomSeries(RepeatedSeries(values, rand, m - 1), rand, 50 * (m - 1))
  }

  /**
   * One `parseChart` parameter changes only the field its name selects;
   * on the view and the window it acts as the shared rules do.
   */
  lemma ChartStepFields(st: Parsed<ChartInfo>, p: Param, libc: Libc, rand: nat -> nat, draws: nat)
    requires |st.info.values| == NbMaxSeries
    ensures var r := ChartStep(st, p, libc, rand, draws);
      (r.info.view, r.window) == ViewStep(st.info.view, st.window, p, ChartRules, libc) &&
      r.info.values == (if KeyOf(p.name) == Values then RandomSeries(st.info.values, rand, draws) else st.info.values) &&
      r.info.chartType == (if KeyOf(p.name) in {Type, PostProcessing} then ChartTypeFromLast(st.info.chartType, [p], libc) else st.info.chartType)
  {
  }

  /**
   * `parseChart` keeps the last value of every shared parameter, and the
   * post-processing type stays at its starting value.
   */
  lemma {:induction false} ChartViewLastWins(st: Parsed<ChartInfo>, ps: seq<Param>, libc: Libc, rand: nat -> nat)
    requires |st.info.values| == NbMaxSeries
    ensures var r := ChartOf(st, ps, libc, rand);
      (r.info.view, r.window) == ViewFromLast(st.info.view, st.window, ps, ChartRules, libc) &&
      r.info.view.pp == st.info.view.pp
    decreases |ps|
  {
    if |ps| > 0 {
      ChartViewLastWins(st, ps[..|ps| - 1], libc, rand);
      ViewFromLastStep(st.info.view, st.window, ps, ChartRules, libc);
      ChartStepFields(ChartOf(st, ps[..|ps| - 1], libc, rand), ps[|ps| - 1], libc, rand, 50 * Count(ps[..|ps| - 1], Values));
    }
  }

  /** The chart type is that of the last `type` or `postprocessing` parameter. */
  lemma {:induction false} ChartTypeLastWins(st: Parsed<ChartInfo>, ps: seq<Param>, libc: Libc, rand: nat -> nat)
    requires |st.info.values| == NbMaxSeries
    ensures ChartOf(st, ps, libc, rand).info.chartType == ChartTypeFromLast(st.info.chartType, ps, libc)
    decreases |ps|
  {
    if |ps| > 0 {
      ChartTypeLastWins(st, ps[..|ps| - 1], libc, rand);
      ChartStepFields(ChartOf(st, ps[..|ps| - 1], libc, rand), ps[|ps| - 1], libc, rand, 50 * Count(ps[..|ps| - 1], Values));
    }
  }

  /** The series depend only on how many `values` parameters there are. */
  lemma {:induction false} ChartValuesCount(st: Parsed<ChartInfo>, ps: seq<Param>, libc: Libc, rand: nat -> nat)
    requires |st.info.values| == NbMaxSeries
    ensures ChartOf(st, ps, libc, rand).info.values == RepeatedSeries(st.info.values, rand, Count(ps, Values))
    decreases |ps|
  {
    if |ps| > 0 {
      var init, last := ps[..|ps| - 1], ps[|ps| - 1];
      var before, m := ChartOf(st, init, libc, rand), Count(init, Values);
      assert ChartOf(st, ps, libc, rand) == ChartStep(before, last, libc, rand, 50 * m);
      assert Count(ps, Values) == m + (if KeyOf(last.name) == Values then 1 else 0);
      ChartValuesCount(st, init, libc, rand);
      ChartStepValues(before, last, libc, rand, 50 * m);
    }
  }

  /** Only a `values` parameter touches the series, with the draws made so far. */
  lemma ChartStepValues(st: Parsed<ChartInfo>, p: Param, libc: Libc, rand: nat -> nat, draws: nat)
    requires |st.info.values| == NbMaxSeries
    ensures ChartStep(st, p, libc, rand, draws).info.values ==
      if KeyOf(p.name) == Values then RandomSeries(st.info.values, rand, draws) else st.info.values
  {
  }

  /**
   * After `m` `values` parameters every series has grown by 10m values,
   * each in [10, 39], after its old contents.
   */
  lemma {:induction false} RepeatedSeriesShape(values: seq<seq<real>>, rand: nat -> nat, m: nat)
    requires |values| == NbMaxSeries
    ensures forall s :: 0 <= s < NbMaxSeries ==>
      |RepeatedSeries(values, rand, m)[s]| == |values[s]| + 10 * m &&
      RepeatedSeries(values, rand, m)[s][..|values[s]|] == values[s] &&
      forall k :: |values[s]| <= k < |values[s]| + 10 * m ==> 10.0 <= RepeatedSeries(values, rand, m)[s][k] <= 39.0
  {
    if m > 0 {
      var before := RepeatedSeries(values, rand, m - 1);
      RepeatedSeriesShape(values, rand, m - 1);
      RandomSeriesShape(before, rand, 50 * (m - 1));
      forall s | 0 <= s < NbMaxSeries
        ensures RepeatedSeries(values, rand, m)[s][..|values[s]|] == values[s]
        ensures forall k :: |values[s]| <= k < |values[s]| + 10 * m ==> 10.0 <= RepeatedSeries(values, rand, m)[s][k] <= 39.0
      {
        var after := RepeatedSeries(values, rand, m)[s];
        assert after[..|before[s]|] == before[s];
        assert after[..|values[s]|] == before[s][..|values[s]|];
        forall k | |values[s]| <= k < |values[s]| + 10 * m
          ensures 10.0 <= after[k] <= 39.0
        {
          if k < |before[s]| {
            assert after[k] == before[s][k];
          }
        }
      }
    }
  }

  /** One more parameter moves the fold, and the draw count, by one step. */
  lemma ChartOfStep(init: Parsed<ChartInfo>, ps: seq<Param>, j: int, libc: Libc, rand: nat -> nat)
    requires |init.info.values| == NbMaxSeries && 0 <= j < |ps|
    ensures ChartOf(init, ps[..j + 1], libc, rand) == ChartStep(ChartOf(init, ps[..j], libc, rand), ps[j], libc, rand, 50 * Count(ps[..j], Values))
    ensures Count(ps[..j + 1], Values) == Count(ps[..j], Values) + (if ps[j].name == "values" then 1 else 0)
  {
    assert ps[..j + 1][..j] == ps[..j];
  }

  /** The `if`/`else if` chain of `parseChart` for one parameter. */
  method ApplyChartParam(st: Parsed<ChartInfo>, p: Param, libc: Libc, rand: nat -> nat, draws: nat)
    returns (st': Parsed<ChartInfo>, draws': nat)
    requires |st.info.values| == NbMaxSeries
    ensures st' == ChartStep(st, p, libc, rand, draws)
    ensures draws' == draws + (if p.name == "values" then 50 else 0)
  {
    var info, window := st.info, st.window;
    draws' := draws;
    if p.name == "type" {
      info := info.(chartType := Some(libc.atoi(p.value)));
    } else if p.name == "values" {
      var values := AppendRandomSeries(info.values, rand, draws);
      info := info.(values := values);
      draws' := draws + 50;
    } else if p.name == "postprocessing" {
      var postProcessing := libc.atoi(p.value);
      if postProcessing < 0 || postProcessing > 2 {
        postProcessing := 0;
      }
      info := info.(chartType := Some(postProcessing));
    } else {
      var v;
      v, window := ApplyViewParam(info.view, window, p, ChartRules, libc);
      info := info.(view := v);
    }
    st' := Parsed(info, window);
  }

  /** The log text written before parameter `j`. */
  function LogBefore(prefix: string, ps: seq<Param>, j: int): string
    requires 0 <= j <= |ps|
  {
    prefix + Query(ps[..j]) + (if 0 < j < |ps| then "&" else "")
  }

  /**
   * The log writes of one parameter: its name, `=` and its value, then an
   * `&` when another parameter follows.
   */
  method LogParam(log: string, prefix: string, ps: seq<Param>, j: int) returns (log': string)
    requires 0 <= j < |ps| && log == LogBefore(prefix, ps, j)
    ensures log' == LogBefore(prefix, ps, j + 1)
  {
    log' := log + ps[j].name + "=" + ps[j].value;
    QueryStep(prefix, ps, j);
    if j + 1 < |ps| {
      log' := log' + "&";
    }
  }

  /** The log so far, extended by the entry of parameter `j`. */
  lemma QueryStep(prefix: string, ps: seq<Param>, j: int)
    requires 0 <= j < |ps|
    ensures LogBefore(prefix, ps, j) + ps[j].name + "=" + ps[j].value == prefix + Query(ps[..j + 1])
  {
    assert ps[..j + 1][..j] == ps[..j];
    var sep: string := if j > 0 then "&" else "";
    var q := Query(ps[..j]);
    assert Query(ps[..j + 1]) == q + sep + Entry(ps[j]);
    assert LogBefore(prefix, ps, j) == prefix + q + sep;
    calc {
      LogBefore(prefix, ps, j) + ps[j].name + "=" + ps[j].value;
      prefix + q + sep + ps[j].name + "=" + ps[j].value;
      prefix + (q + sep + (ps[j].name + "=" + ps[j].value));
    }
  }

  /**
   * `parseChart`'s loop: the info record and window globals are those of
   * the fold, and `requestStr` gets the log entries.
   */
  method ReadChart(init: Parsed<ChartInfo>, ps: seq<Param>, requestStr: string, libc: Libc, rand: nat -> nat)
    returns (r: Parsed<ChartInfo>, log: string)
    requires |init.info.values| == NbMaxSeries
    ensures r == ChartOf(init, ps, libc, rand)
    ensures log == requestStr + Query(ps)
  {
    r := init;
    var draws := 0;
    log := requestStr;
    var j := 0;
    while j < |ps|
      invariant j <= |ps|
      invariant |r.info.values| == NbMaxSeries
      invariant r == ChartOf(init, ps[..j], libc, rand)
      invariant draws == 50 * Count(ps[..j], Values)
      invariant log == LogBefore(requestStr, ps, j)
    {
      var p := ps[j];
      log := LogParam(log, requestStr, ps, j);
      ChartOfStep(init, ps, j, libc, rand);
      r, draws := ApplyChartParam(r, p, libc, rand, draws);
      j := j + 1;
    }
    assert ps[..|ps|] == ps;
  }

  // ---------------------------------------------------------------------
  // parsePDB
  // ---------------------------------------------------------------------

  /** One parameter of `parsePDB`. */
  function MoleculeStep(st: Parsed<MoleculeInfo>, p: Param, libc: Libc): Parsed<MoleculeInfo>
  {
    match KeyOf(p.name)
    case Molecule => st.(info := st.info.(moleculeId := p.value))
    case Structure => st.(info := st.info.(structureType := ZeroUnlessWithin(libc.atoi(p.value), 0, 4)))
    case Scheme => st.(info := st.info.(scheme := ZeroUnlessWithin(libc.atoi(p.value), 0, 2)))
    case PostProcessing =>
      st.(info := st.info.(view := st.info.view.(pp := st.info.view.pp.(ppType := ZeroUnlessWithin(libc.atoi(p.value), 0, 2)))))
    case _ =>
      var (v, w) := ViewStep(st.info.view, st.window, p, MoleculeRules, libc);
      Parsed(st.info.(view := v), w)
  }

  function MoleculeOf(st: Parsed<MoleculeInfo>, ps: seq<Param>, libc: Libc): Parsed<MoleculeInfo>
    decreases |ps|
  {
    if |ps| == 0 then st else MoleculeStep(MoleculeOf(st, ps[..|ps| - 1], libc), ps[|ps| - 1], libc)
  }

  /** A clamped integer parameter: the last one's value, or `otherwise`. */
  function ClampedFromLast(ps: seq<Param>, key: Key, hi: int, otherwise: int, libc: Libc): int
  {
    match LastParam(ps, {key})
    case None => otherwise
    case Some(p) => ZeroUnlessWithin(libc.atoi(p.value), 0, hi)
  }

  /**
   * One `parsePDB` parameter changes only the field its name selects;
   * on the view and the window it acts as the shared rules do.
   */
  lemma MoleculeStepFields(st: Parsed<MoleculeInfo>, p: Param, libc: Libc)
    ensures var r := MoleculeStep(st, p, libc);
      var k := KeyOf(p.name);
      (r.info.view.(pp := st.info.view.pp), r.window) == ViewStep(st.info.view, st.window, p, MoleculeRules, libc) &&
      r.info.view.pp == st.info.view.pp.(ppType := ClampedFromLast([p], PostProcessing, 2, st.info.view.pp.ppType, libc)) &&
      r.info.moleculeId == (if k == Molecule then p.value else st.info.moleculeId) &&
      r.info.structureType == ClampedFromLast([p], Structure, 4, st.info.structureType, libc) &&
      r.info.scheme == ClampedFromLast([p], Scheme, 2, st.info.scheme, libc)
  {
    assert [p][..0] == [];
  }

  /** `parsePDB` keeps the last value of every shared parameter. */
  lemma {:induction false} MoleculeViewLastWins(st: Parsed<MoleculeInfo>, ps: seq<Param>, libc: Libc)
    ensures var r := MoleculeOf(st, ps, libc);
      (r.info.view.(pp := st.info.view.pp), r.window) == ViewFromLast(st.info.view, st.window, ps, MoleculeRules, libc)
    decreases |ps|
  {
    if |ps| > 0 {
      MoleculeViewLastWins(st, ps[..|ps| - 1], libc);
      ViewFromLastStep(st.info.view, st.window, ps, MoleculeRules, libc);
      MoleculeStepFields(MoleculeOf(st, ps[..|ps| - 1], libc), ps[|ps| - 1], libc);
    }
  }

  /**
   * The post-processing type is the last `postprocessing` value in
   * [0, 2], out-of-range values becoming 0; the parameters stay as they were.
   */
  lemma {:induction false} MoleculeEffectsLastWins(st: Parsed<MoleculeInfo>, ps: seq<Param>, libc: Libc)
    ensures MoleculeOf(st, ps, libc).info.view.pp == st.info.view.pp.(ppType := ClampedFromLast(ps, PostProcessing, 2, st.info.view.pp.ppType, libc))
    decreases |ps|
  {
    if |ps| > 0 {
      MoleculeEffectsLastWins(st, ps[..|ps| - 1], libc);
      MoleculeStepFields(MoleculeOf(st, ps[..|ps| - 1], libc), ps[|ps| - 1], libc);
    }
  }

  /**
   * The molecule is the last `molecule` value; structure and scheme are
   * the last values in [0, 4] and [0, 2], out-of-range values becoming 0.
   */
  lemma {:induction false} MoleculeLastWins(st: Parsed<MoleculeInfo>, ps: seq<Param>, libc: Libc)
    ensures var r := MoleculeOf(st, ps, libc);
      r.info.moleculeId == (match LastParam(ps, {Molecule}) case None => st.info.moleculeId case Some(p) => p.value) &&
      r.info.structureType == ClampedFromLast(ps, Structure, 4, st.info.structureType, libc) &&
      r.info.scheme == ClampedFromLast(ps, Scheme, 2, st.info.scheme, libc)
    decreases |ps|
  {
    if |ps| > 0 {
      MoleculeLastWins(st, ps[..|ps| - 1], libc);
      MoleculeStepFields(MoleculeOf(st, ps[..|ps| - 1], libc), ps[|ps| - 1], libc);
    }
  }

  /** The molecule ranges hold after any walk that starts inside them. */
  lemma MoleculeRanges(st: Parsed<MoleculeInfo>, ps: seq<Param>, libc: Libc)
    requires 0 <= st.info.structureType <= 4 && 0 <= st.info.scheme <= 2 && 0 <= st.info.view.pp.ppType <= 2
    ensures var r := MoleculeOf(st, ps, libc);
      0 <= r.info.structureType <= 4 && 0 <= r.info.scheme <= 2 && 0 <= r.info.view.pp.ppType <= 2 &&
      r.info.view.sceneInfo.maxPathTracingIterations <= (if LastParam(ps, {Quality}).Some? then 20 else st.info.view.sceneInfo.maxPathTracingIterations)
  {
    MoleculeLastWins(st, ps, libc);
    MoleculeViewLastWins(st, ps, libc);
    MoleculeEffectsLastWins(st, ps, libc);
  }

  /** The `if`/`else if` chain of `parsePDB` for one parameter. */
  method ApplyMoleculeParam(info: MoleculeInfo, window: Window, p: Param, libc: Libc)
    returns (info': MoleculeInfo, window': Window)
    ensures Parsed(info', window') == MoleculeStep(Parsed(info, window), p, libc)
  {
    info', window' := info, window;
    if p.name == "molecule" {
      info' := info'.(moleculeId := p.value);
    } else if p.name == "structure" {
      var structureType := libc.atoi(p.value);
      if structureType < 0 || structureType > 4 {
        structureType := 0;
      }
      info' := info'.(structureType := structureType);
    } else if p.name == "scheme" {
      var scheme := libc.atoi(p.value);
      if scheme < 0 || scheme > 2 {
        scheme := 0;
      }
      info' := info'.(scheme := scheme);
    } else if p.name == "postprocessing" {
      var postProcessing := libc.atoi(p.value);
      if postProcessing < 0 || postProcessing > 2 {
        postProcessing := 0;
      }
      info' := info'.(view := info'.view.(pp := info'.view.pp.(ppType := postProcessing)));
    } else {
      var v;
      v, window' := ApplyViewParam(info'.view, window', p, MoleculeRules, libc);
      info' := info'.(view := v);
    }
  }

  /** `parsePDB`'s loop. */
  method ReadMolecule(init: Parsed<MoleculeInfo>, ps: seq<Param>, requestStr: string, libc: Libc)
    returns (r: Parsed<MoleculeInfo>, log: string)
    ensures r == MoleculeOf(init, ps, libc)
    ensures log == requestStr + Query(ps)
  {
    var info, window := init.info, init.window;
    log := requestStr;
    var j := 0;
    while j < |ps|
      invariant j <= |ps|
      invariant Parsed(info, window) == MoleculeOf(init, ps[..j], libc)
      invariant log == LogBefore(requestStr, ps, j)
    {
      var p := ps[j];
      log := LogParam(log, requestStr, ps, j);
      assert ps[..j + 1][..j] == ps[..j];
      info, window := ApplyMoleculeParam(info, window, p, libc);
      j := j + 1;
    }
    assert ps[..|ps|] == ps;
    r := Parsed(info, window);
  }

  // ---------------------------------------------------------------------
  // parseIRT
  // ---------------------------------------------------------------------

  /** One parameter of `parseIRT`; `postprocessing` is read and dropped. */
  function IrtStep(st: Parsed<IrtInfo>, p: Param, libc: Libc): Parsed<IrtInfo>
  {
    match KeyOf(p.name)
    case Model => st.(info := st.info.(fileName := p.value))
    case PostProcessing => st
    case _ =>
      var (v, w) := ViewStep(st.info.view, st.window, p, IrtRules, libc);
      Parsed(st.info.(view := v), w)
  }

  function IrtOf(st: Parsed<IrtInfo>, ps: seq<Param>, libc: Libc): Parsed<IrtInfo>
    decreases |ps|
  {
    if |ps| == 0 then st else IrtStep(IrtOf(st, ps[..|ps| - 1], libc), ps[|ps| - 1], libc)
  }

  /**
   * `parseIRT` keeps the last value of every parameter; a
   * `postprocessing` parameter has no effect at all.
   */
  lemma {:induction false} IrtLastWins(st: Parsed<IrtInfo>, ps: seq<Param>, libc: Libc)
    ensures var r := IrtOf(st, ps, libc);
      (r.info.view, r.window) == ViewFromLast(st.info.view, st.window, ps, IrtRules, libc) &&
      r.info.fileName == (match LastParam(ps, {Model}) case None => st.info.fileName case Some(p) => p.value) &&
      r.info.view.pp == st.info.view.pp
    decreases |ps|
  {
    if |ps| > 0 {
      IrtLastWins(st, ps[..|ps| - 1], libc);
      ViewFromLastStep(st.info.view, st.window, ps, IrtRules, libc);
    }
  }

  /** The `if`/`else if` chain of `parseIRT` for one parameter. */
  method ApplyIrtParam(info: IrtInfo, window: Window, p: Param, libc: Libc)
    returns (info': IrtInfo, window': Window)
    ensures Parsed(info', window') == IrtStep(Parsed(info, window), p, libc)
  {
    info', window' := info, window;
    if p.name == "model" {
      info' := info'.(fileName := p.value);
    } else if p.name == "postprocessing" {
      var postProcessing := libc.atoi(p.value);
      if postProcessing < 0 || postProcessing > 2 {
        postProcessing := 0;
      }
    } else {
      var v;
      v, window' := ApplyViewParam(info'.view, window', p, IrtRules, libc);
      info' := info'.(view := v);
    }
  }

  /** `parseIRT`'s loop. */
  method ReadIrt(init: Parsed<IrtInfo>, ps: seq<Param>, requestStr: string, libc: Libc)
    returns (r: Parsed<IrtInfo>, log: string)
    ensures r == IrtOf(init, ps, libc)
    ensures log == requestStr + Query(ps)
  {
    var info, window := init.info, init.window;
    log := requestStr;
    var j := 0;
    while j < |ps|
      invariant j <= |ps|
      invariant Parsed(info, window) == IrtOf(init, ps[..j], libc)
      invariant log == LogBefore(requestStr, ps, j)
    {
      var p := ps[j];
      log := LogParam(log, requestStr, ps, j);
      assert ps[..j + 1][..j] == ps[..j];
      info, window := ApplyIrtParam(info, window, p, libc);
      j := j + 1;
    }
    assert ps[..|ps|] == ps;
    r := Parsed(info, window);
  }
}
