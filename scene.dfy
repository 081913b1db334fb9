/**
 * The scene and post-processing descriptions the server hands to the
 * rendering kernel, their start-up defaults, and the per-render
 * derivation of post-processing parameters, shadows and background
 * (the same three statements in `renderChart`, `renderPDB` and
 * `renderIRT`).
 */
module Scene {
  import opened Common

  /**
   * The engine's `SceneInfo`, reduced to the fields this server sets.
   * The others (ray iterations, transparency, view distance, shadow
   * intensity, 3D vision, boxes, output type) keep their start-up values
   * on every path and are not modelled.
   */
  datatype SceneInfo = SceneInfo(
    width: int,
    height: int,
    shadowsEnabled: bool,
    backgroundColor: Float4,
    pathTracingIteration: int,
    maxPathTracingIterations: int)

  /** The engine's `PostProcessingInfo`; `ppType` 0 is `ppe_none`, 2 ambient occlusion. */
  datatype PostProcessingInfo = PostProcessingInfo(ppType: int, param1: real, param2: real, param3: int)

  /** `gBkGrey` and `gBkBlack`. */
  const BkGrey := Float4(0.5, 0.5, 0.5, 0.0)
  const BkBlack := Float4(0.0, 0.0, 0.0, 0.0)

  /** `gWindowWidth` and `gWindowHeight` at start-up, and `gWindowDepth`. */
  const InitialWindowSize := 4096
  const WindowDepth := 4

  /** `gMaxPathTracingIterations` (= `gTotalPathTracingIterations`). */
  const MaxPathTracingIterations := 100

  /** `gSceneInfo`: the window size at start-up, shadows on, grey, one iteration. */
  const DefaultSceneInfo := SceneInfo(InitialWindowSize, InitialWindowSize, true, BkGrey, 0, 1)

  /** `gPostProcessingInfo`: `ppe_none`, 1000, 5000, 60. */
  const DefaultPostProcessingInfo := PostProcessingInfo(0, 1000.0, 5000.0, 60)

  /** `gViewPos` and `gViewAngles`. */
  const DefaultViewPos := Float3(0.0, 0.0, -5000.0)
  const DefaultViewAngles := Float3(0.0, 0.0, 0.0)

  /** The camera looks 5000 units further along z than it stands. */
  function CameraTarget(viewPos: Float3): Float3
  {
    viewPos.(z := viewPos.z + 5000.0)
  }

  /**
   * The post-processing parameters of a render: the depth of the camera
   * target (negated), then two values driven by the iteration count.
   */
  function Effects(pp: PostProcessingInfo, viewPos: Float3, iterations: int): PostProcessingInfo
  {
    pp.(param1 := -CameraTarget(viewPos).z,
        param2 := if pp.ppType == 0 then iterations as real * 10.0 else 5000.0,
        param3 := if pp.ppType != 2 then 40 + iterations * 5 else 16)
  }

  /** Shadows off and a black background under ambient occlusion (type 2). */
  function Lighting(scene: SceneInfo, ppType: int): SceneInfo
  {
    scene.(shadowsEnabled := ppType != 2,
           backgroundColor := if ppType == 2 then BkBlack else scene.backgroundColor)
  }

  /**
   * What the render functions promise about post-processing: the type
   * is kept, the first parameter is minus the target depth, the second
   * is ten per iteration without effects and 5000 with, and the third is
   * 16 exactly under ambient occlusion.
   */
  lemma EffectsParameters(pp: PostProcessingInfo, viewPos: Float3, iterations: int)
    ensures var e := Effects(pp, viewPos, iterations);
      e.ppType == pp.ppType &&
      e.param1 == -(viewPos.z + 5000.0) &&
      (pp.ppType == 0 ==> e.param2 == 10.0 * iterations as real) &&
      (pp.ppType != 0 ==> e.param2 == 5000.0) &&
      (e.param3 == 16 <==> pp.ppType == 2) &&
      (pp.ppType != 2 ==> e.param3 - 40 == 5 * iterations)
  {
    var e := Effects(pp, viewPos, iterations);
    if pp.ppType != 2 {
      NoFifthOf24(iterations);
    }
  }

  /** 40 + 5 * n is never 16: 24 is not a multiple of 5. */
  lemma NoFifthOf24(n: int)
    ensures 40 + n * 5 != 16
  {
    if n <= -5 {
      assert n * 5 <= -25;
    } else {
      assert n * 5 >= -20;
    }
  }

  /**
   * Shadows are on exactly when the type is not 2; the background is
   * black under type 2 and untouched otherwise; nothing else changes.
   */
  lemma LightingRules(scene: SceneInfo, ppType: int)
    ensures var s := Lighting(scene, ppType);
      (s.shadowsEnabled <==> ppType != 2) &&
      (ppType == 2 ==> s.backgroundColor == BkBlack) &&
      (ppType != 2 ==> s.backgroundColor == scene.backgroundColor) &&
      s.(shadowsEnabled := scene.shadowsEnabled, backgroundColor := scene.backgroundColor) == scene
  {
  }
}
