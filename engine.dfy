/**
 * The rendering kernel (`CudaKernel`) as the server sees it: a store of
 * primitives indexed by slot, the number of slots handed out by
 * `addPrimitive`, and the trace of every adapter call in order. What
 * the kernel computes from them (boxes, pixels) is outside this model.
 */
module Engine {
  import opened Common
  import opened Scene

  datatype PrimKind = Triangle | Sphere | Checkerboard

  /**
   * What a primitive stands for in the scene. Coordinates are float
   * arithmetic and not modelled; each shape keeps the inputs its
   * coordinates are computed from.
   */
  datatype Shape =
    | Ground(half: nat, side: real)
    | BackWall(half: nat, side: real)
    | ChartLamp
    | ColumnFace(series: nat, column: nat, face: nat, value: real)
    | RightSide(side: real)
    | LeftSide(side: real)
    | MoleculeLamp
    | ModelLamp
    | Floor

  /** What one `setPrimitive` call describes: the kind, what it shows, the material. */
  datatype Drawing = Drawing(kind: PrimKind, shape: Shape, material: int)

  /** A slot's content: set by this server, or added by a file reader. */
  datatype Primitive =
    | Drawn(drawing: Drawing)
    | Loaded(fileName: string, rank: nat)

  /** One call from the server into the kernel. */
  datatype Call =
    | SetSceneInfo(scene: SceneInfo)
    | InitBuffers
    | CreateMaterials(random: bool)
    | AddPrimitive(kind: PrimKind)
    | SetPrimitive(index: int, drawing: Drawing)
    | LoadAtoms(fileName: string, structureType: int)
    | LoadModel(fileName: string)
    | CompactBoxes(update: bool)
    | RotatePrimitives(angles: Float3)
    | SetPostProcessingInfo(pp: PostProcessingInfo)
    | SetCamera(origin: Float3, target: Float3, angles: Float3)
    | RenderBegin
    | RenderEnd

  datatype KernelState = KernelState(primitives: map<int, Primitive>, nbActive: nat, calls: seq<Call>)

  /** A kernel just constructed: no primitive, no call. */
  const Empty := KernelState(map[], 0, [])

  /**
   * `gNbPrimitives = update ? addPrimitive(kind) : slot` followed by
   * `setPrimitive(gNbPrimitives, ...)`: the slot written.
   */
  function Target(st: KernelState, update: bool, slot: int): int
  {
    if update then st.nbActive else slot
  }

  /** The state after that pair of calls. */
  function Placed(st: KernelState, update: bool, slot: int, p: Drawing): (r: KernelState)
  {
    var i := Target(st, update, slot);
    KernelState(
      st.primitives[i := Drawn(p)],
      if update then st.nbActive + 1 else st.nbActive,
      st.calls + (if update then [AddPrimitive(p.kind)] else []) + [SetPrimitive(i, p)])
  }

  /** The primitive a reader put in slot `i`, counting from slot `base`. */
  function LoadedAt(fileName: string, base: int, i: int): Primitive
    requires base <= i
  {
    Loaded(fileName, i - base)
  }

  /** A file reader adds `count` primitives after the active ones. */
  function Appended(st: KernelState, c: Call, fileName: string, count: nat): KernelState
  {
    KernelState(
      st.primitives + map i: int | st.nbActive <= i < st.nbActive + count :: LoadedAt(fileName, st.nbActive, i),
      st.nbActive + count,
      st.calls + [c])
  }

  /**
   * Appending never overwrites: a new primitive goes to the first slot
   * past the active ones, the slots before keep their content, and one
   * more slot is active. Overwriting leaves the active count alone.
   */
  lemma PlacedSlots(st: KernelState, update: bool, slot: int, p: Drawing)
    ensures var r := Placed(st, update, slot, p);
      r.primitives[Target(st, update, slot)] == Drawn(p) &&
      (forall i :: i in st.primitives && i != Target(st, update, slot) ==> i in r.primitives && r.primitives[i] == st.primitives[i]) &&
      (update ==> r.nbActive == st.nbActive + 1 && Target(st, update, slot) == st.nbActive) &&
      (!update ==> r.nbActive == st.nbActive) &&
      |r.calls| == |st.calls| + (if update then 2 else 1)
  {
  }

  /** One accumulation pass of a render loop, at iteration `i`. */
  function Pass(scene: SceneInfo, pp: PostProcessingInfo, origin: Float3, target: Float3, angles: Float3, i: int): seq<Call>
  {
    [SetPostProcessingInfo(pp), SetSceneInfo(scene.(pathTracingIteration := i)),
     SetCamera(origin, target, angles), RenderBegin, RenderEnd]
  }

  /** Passes 0 .. n - 1, in order; none when `n <= 0`. */
  function Passes(scene: SceneInfo, pp: PostProcessingInfo, origin: Float3, target: Float3, angles: Float3, n: int): seq<Call>
    decreases n
  {
    if n <= 0 then [] else Passes(scene, pp, origin, target, angles, n - 1) + Pass(scene, pp, origin, target, angles, n - 1)
  }

  /**
   * The render loop issues exactly `n` passes (none if `n <= 0`), pass
   * `i` occupying calls 5i .. 5i + 4 and carrying iteration number `i`.
   */
  lemma {:induction false} PassesInOrder(scene: SceneInfo, pp: PostProcessingInfo, origin: Float3, target: Float3, angles: Float3, n: int)
    ensures |Passes(scene, pp, origin, target, angles, n)| == if n <= 0 then 0 else 5 * n
    ensures forall i :: 0 <= i < n ==>
      Passes(scene, pp, origin, target, angles, n)[5 * i .. 5 * i + 5] == Pass(scene, pp, origin, target, angles, i)
    decreases n
  {
    if n > 0 {
      PassesInOrder(scene, pp, origin, target, angles, n - 1);
      var before := Passes(scene, pp, origin, target, angles, n - 1);
      var last := Pass(scene, pp, origin, target, angles, n - 1);
      forall i | 0 <= i < n
        ensures (before + last)[5 * i .. 5 * i + 5] == Pass(scene, pp, origin, target, angles, i)
      {
        if i < n - 1 {
          assert (before + last)[5 * i .. 5 * i + 5] == before[5 * i .. 5 * i + 5];
        } else {
          assert (before + last)[5 * i .. 5 * i + 5] == last;
        }
      }
    }
  }

  /** The `CudaKernel` object, with the adapter calls the server makes. */
  class Kernel {
    var primitives: map<int, Primitive>
    var nbActive: nat
    var calls: seq<Call>

    function State(): KernelState
      reads this
    {
      KernelState(primitives, nbActive, calls)
    }

    /** `new CudaKernel(...)`. */
    constructor ()
      ensures State() == Empty
    {
      primitives, nbActive, calls := map[], 0, [];
    }

    /** Any call whose effect lies inside the kernel: `setSceneInfo`, `initBuffers`, `setCamera`, ... */
    method Log(c: Call)
      modifies this
      ensures calls == old(calls) + [c] && primitives == old(primitives) && nbActive == old(nbActive)
    {
      calls := calls + [c];
    }

    /** `addPrimitive`: hands out the next slot. */
    method AddPrimitive(kind: PrimKind) returns (index: int)
      modifies this
      ensures index == old(nbActive)
      ensures State() == old(State()).(nbActive := old(nbActive) + 1, calls := old(calls) + [Call.AddPrimitive(kind)])
    {
      index := nbActive;
      nbActive := nbActive + 1;
      calls := calls + [Call.AddPrimitive(kind)];
    }

    /** `setPrimitive`: writes slot `index`, active or not. */
    method SetPrimitive(index: int, p: Drawing)
      modifies this
      ensures State() == old(State()).(primitives := old(primitives)[index := Drawn(p)], calls := old(calls) + [Call.SetPrimitive(index, p)])
    {
      primitives := primitives[index := Drawn(p)];
      calls := calls + [Call.SetPrimitive(index, p)];
    }

    /**
     * A reader (`PDBReader::loadAtomsFromFile`, `FileMarshaller::loadFromFile`)
     * adding `count` primitives; what it adds depends on the file.
     */
    method Load(c: Call, fileName: string, count: nat)
      modifies this
      ensures State() == Appended(old(State()), c, fileName, count)
    {
      primitives := primitives + map i: int | nbActive <= i < nbActive + count :: LoadedAt(fileName, nbActive, i);
      nbActive := nbActive + count;
      calls := calls + [c];
    }
  }

  /** One primitive: appended when `update`, otherwise written at `slot`. */
  method Emit(kernel: Kernel, update: bool, slot: int, p: Drawing) returns (index: int)
    modifies kernel
    ensures index == Target(old(kernel.State()), update, slot)
    ensures kernel.State() == Placed(old(kernel.State()), update, slot, p)
  {
    if update {
      index := kernel.AddPrimitive(p.kind);
    } else {
      index := slot;
    }
    kernel.SetPrimitive(index, p);
  }

  /**
   * The accumulation loop of the three render functions: one pass per
   * iteration, the scene carrying the iteration number.
   */
  method RenderPasses(kernel: Kernel, scene: SceneInfo, pp: PostProcessingInfo, origin: Float3, target: Float3, angles: Float3)
    modifies kernel
    ensures kernel.State() == old(kernel.State()).(calls := old(kernel.calls) + Passes(scene, pp, origin, target, angles, scene.maxPathTracingIterations))
  {
    var i := 0;
    while i < scene.maxPathTracingIterations
      invariant i == 0 || 0 < i <= scene.maxPathTracingIterations
      invariant kernel.primitives == old(kernel.primitives) && kernel.nbActive == old(kernel.nbActive)
      invariant kernel.calls == old(kernel.calls) + Passes(scene, pp, origin, target, angles, i)
      decreases scene.maxPathTracingIterations - i
    {
      ghost var before := kernel.calls;
      var sceneInfo := scene.(pathTracingIteration := i);
      kernel.Log(SetPostProcessingInfo(pp));
      kernel.Log(SetSceneInfo(sceneInfo));
      kernel.Log(SetCamera(origin, target, angles));
      kernel.Log(RenderBegin);
      kernel.Log(RenderEnd);
      assert kernel.calls == before + Pass(scene, pp, origin, target, angles, i);
      i := i + 1;
    }
  }
}
