/**
 * The request dispatcher: `parseURL` and the `get` branch of `onGet`,
 * over the server's globals (the kernel, the current use case and its
 * value, the request log, the call counter, the round-robin protein and
 * the window size).
 *
 * Whether the kernel is rebuilt is decided by the first GET parameter
 * alone (`Rebuilds`); `NextUseCase` is the use-case state after a request.
 */
module WebServer {
  import opened Common
  import opened Fields
  import opened Scene
  import opened Engine
  import opened Requests
  import opened Render

  /** `UseCase`: `ucUndefined`, `ucChart`, `ucIRT`, `ucPDB`. */
  datatype UseCase = Undefined | Chart | Irt | Pdb

  /** `gProteinNames`, as `initializeMolecules` fills it. */
  const ProteinNames: seq<string> :=
    ["3VM9", "1BNA", "3SUI", "1ACY", "3VHS", "4FMC", "3TGW", "4FI3",
     "3VJM", "4FME", "3U7D", "3U2Z", "3UA5", "3VKL", "3VKM"]

  /** `gCurrentUsecaseValue` before any request. */
  const InitialUseCaseValue := "undefined"

  /** Which interpreter a request reaches, by the name of its first parameter. */
  datatype Route = NoRoute | MoleculeRoute | ModelRoute | ChartRoute

  function RouteOf(ps: seq<Param>): Route
  {
    if |ps| == 0 then NoRoute
    else if ps[0].name == "molecule" then MoleculeRoute
    else if ps[0].name == "model" then ModelRoute
    else ChartRoute
  }

  /**
   * Whether `parseURL` destroys the kernel and builds a new one: always
   * for a molecule, for a model unless the same model is already loaded,
   * for anything else unless a chart is already loaded.
   */
  function Rebuilds(useCase: UseCase, value: string, ps: seq<Param>): bool
  {
    match RouteOf(ps)
    case NoRoute => false
    case MoleculeRoute => true
    case ModelRoute => useCase != Irt || value != ps[0].value
    case ChartRoute => useCase != Chart
  }

  /** `gCurrentUsecase` and `gCurrentUsecaseValue` after a request; a chart keeps the old value. */
  function NextUseCase(useCase: UseCase, value: string, ps: seq<Param>): (UseCase, string)
  {
    if !Rebuilds(useCase, value, ps) then (useCase, value)
    else match RouteOf(ps)
      case MoleculeRoute => (Pdb, ps[0].value)
      case ModelRoute => (Irt, ps[0].value)
      case _ => (Chart, value)
  }

  /**
   * The decision reads the first parameter only: two requests that start
   * with the same parameter are treated alike, whatever follows.
   */
  lemma RebuildFirstOnly(useCase: UseCase, value: string, ps: seq<Param>, qs: seq<Param>)
    requires |ps| > 0 && |qs| > 0 && ps[0] == qs[0]
    ensures Rebuilds(useCase, value, ps) == Rebuilds(useCase, value, qs)
    ensures NextUseCase(useCase, value, ps) == NextUseCase(useCase, value, qs)
  {
  }

  /**
   * A rebuild settles: repeating a model or chart request right after
   * it reuses the scene, while a molecule request rebuilds every time.
   * A request without parameters leaves the use case and its value as they were.
   */
  lemma RebuildSettles(useCase: UseCase, value: string, ps: seq<Param>)
    ensures var (u, v) := NextUseCase(useCase, value, ps);
      (RouteOf(ps) == MoleculeRoute ==> Rebuilds(u, v, ps) && u == Pdb) &&
      (RouteOf(ps) in {ModelRoute, ChartRoute} ==> !Rebuilds(u, v, ps)) &&
      (RouteOf(ps) == NoRoute ==> (u, v) == (useCase, value)) &&
      (Rebuilds(useCase, value, ps) && RouteOf(ps) != ChartRoute ==> v == ps[0].value)
  {
  }

  /**
   * The reuse test compares the model name with the first parameter only,
   * while `parseIRT` loads the last `model` parameter: `model=a&model=b`
   * right after `model=a` keeps the kernel (and model `a`) and names the
   * image after `b`.
   */
  lemma ModelReuseReadsFirstName(first: string, last: string, window: Window, libc: Libc)
    ensures var ps := [Param("model", first), Param("model", last)];
      !Rebuilds(Irt, first, ps) &&
      IrtOf(Parsed(IrtDefaults, window), ps, libc).info.fileName == last
  {
    var ps := [Param("model", first), Param("model", last)];
    IrtLastWins(Parsed(IrtDefaults, window), ps, libc);
    assert LastParam(ps, {Model}) == Some(ps[1]);
  }

  /** The kernel just after `initializeKernel(random)`. */
  function Initialized(random: bool): KernelState
  {
    KernelState(map[], 0, [SetSceneInfo(DefaultSceneInfo), InitBuffers, CreateMaterials(random)])
  }

  /** IMVWebServer.cpp `initializeKernel`. */
  method InitializeKernel(random: bool) returns (kernel: Kernel)
    ensures fresh(kernel) && kernel.State() == Initialized(random)
  {
    kernel := new Kernel();
    kernel.Log(SetSceneInfo(DefaultSceneInfo));
    kernel.Log(InitBuffers);
    kernel.Log(CreateMaterials(random));
  }

  /** The entry `parseURL` stores in `gRequests`; only a molecule is prefixed with the caller and URL. */
  function LogOf(address: string, url: string, ps: seq<Param>): string
  {
    if RouteOf(ps) == MoleculeRoute then address + ": " + url + "?" + Query(ps) else Query(ps)
  }

  /** `gNbCalls` grows once in `parseURL` and once more in `parsePDB`. */
  function CallsOf(ps: seq<Param>): nat
  {
    if RouteOf(ps) == MoleculeRoute then 2 else 1
  }

  /**
   * The entry of a model or chart request can be split back at its `&`
   * characters into one `name=value` per parameter, in order, provided
   * no name or value holds an `&`.
   */
  lemma LogOfParams(address: string, url: string, ps: seq<Param>)
    requires |ps| > 0 && Unambiguous(ps) && RouteOf(ps) != MoleculeRoute
    ensures Scan(LogOf(address, url, ps), '&') == Split(Entries(ps[..|ps| - 1]), Entry(ps[|ps| - 1]))
  {
    QuerySplits(ps);
  }

  /** What the environment supplies: libc, `rand()`, the disk, and what the readers add per file. */
  datatype Environment = Environment(
    libc: Libc,
    rand: nat -> nat,
    disk: string -> Option<seq<byte>>,
    atoms: string -> nat,
    models: string -> nat)

  /** The round robin of `onGet`: the next protein after each `get`. */
  function NextProtein(p: nat): nat
  {
    (p + 1) % |ProteinNames|
  }

  function ProteinAfter(p: nat, k: nat): nat
    decreases k
  {
    if k == 0 then p else NextProtein(ProteinAfter(p, k - 1))
  }

  /** After `k` requests the index has moved `k` places round the list. */
  lemma {:induction false} ProteinRoundRobin(p: nat, k: nat)
    requires p < |ProteinNames|
    ensures ProteinAfter(p, k) == (p + k) % |ProteinNames|
    decreases k
  {
    if k > 0 {
      ProteinRoundRobin(p, k - 1);
      RoundRobinStep(p + k - 1);
    } else {
      assert |ProteinNames| == 15;
    }
  }

  /** Fifteen requests bring the round robin back to where it started. */
  lemma ProteinCycle(p: nat)
    requires p < |ProteinNames|
    ensures ProteinAfter(p, |ProteinNames|) == p
  {
    var n := |ProteinNames|;
    ProteinRoundRobin(p, n);
    assert (p + n) % n == p by {
      assert p + n == 1 * n + p;
    }
  }

  lemma RoundRobinStep(x: nat)
    ensures (x % |ProteinNames| + 1) % |ProteinNames| == (x + 1) % |ProteinNames|
  {
    assert |ProteinNames| == 15;
  }

  /** What a served request leaves behind: the kernel, the window size and the HTTP response. */
  datatype Outcome = Outcome(state: KernelState, window: Window, response: Response)

  /** A molecule request: a new non-random kernel holding the lamp and the atoms of the file. */
  function MoleculeOutcome(ps: seq<Param>, env: Environment, protein: string, window: Window): Outcome
  {
    var parsed := MoleculeOf(Parsed(MoleculeDefaults(protein, env.rand), window), ps, env.libc);
    var file := MoleculeFile(parsed.info.moleculeId, protein);
    Outcome(
      MoleculeRendered(Initialized(false), parsed.info, true, file, env.atoms(file)),
      parsed.window,
      Saved(NoResponse, parsed.info.moleculeId + ".jpg", env.disk))
  }

  /** A model request from kernel state `st`, loading the model only when `update`. */
  function ModelOutcome(st: KernelState, update: bool, ps: seq<Param>, env: Environment, window: Window): Outcome
  {
    var parsed := IrtOf(Parsed(IrtDefaults, window), ps, env.libc);
    Outcome(
      ModelRendered(st, parsed.info, update, env.models(ModelFile(parsed.info.fileName))),
      parsed.window,
      Saved(NoResponse, parsed.info.fileName + ".jpg", env.disk))
  }

  /** A chart request from kernel state `st`, appending when `update` and overwriting from `start` otherwise. */
  function ChartOutcome(st: KernelState, update: bool, ps: seq<Param>, env: Environment, window: Window, start: int): Outcome
  {
    var parsed := ChartOf(Parsed(ChartDefaults, window), ps, env.libc, env.rand);
    Outcome(
      ChartRendered(st, parsed.info, update, start),
      parsed.window,
      Saved(NoResponse, "chart.jpg", env.disk))
  }

  /**
   * The outcome of a request that reaches an interpreter, from kernel
   * state `st` (ignored for a molecule, which always starts afresh).
   */
  function Served(ps: seq<Param>, env: Environment, st: KernelState, update: bool, protein: string, window: Window, start: int): Outcome
    requires RouteOf(ps) != NoRoute
  {
    match RouteOf(ps)
    case MoleculeRoute => MoleculeOutcome(ps, env, protein, window)
    case ModelRoute => ModelOutcome(st, update, ps, env, window)
    case ChartRoute => ChartOutcome(st, update, ps, env, window, start)
  }

  /** The server's globals. */
  class Server {
    /** `gpuKernel`; null until the first request with parameters. */
    var kernel: Kernel?
    var useCase: UseCase
    var useCaseValue: string
    /** `gRequests`: the last log entry per caller address. */
    var requests: map<string, string>
    var nbCalls: nat
    var currentProtein: nat
    var chartStartIndex: int
    /** `gWindowWidth`, `gWindowHeight`. */
    var window: Window

    /** A kernel exists once a use case is set, and the protein index is in range. */
    ghost predicate Valid()
      reads this
    {
      (useCase != Undefined ==> kernel != null) && currentProtein < |ProteinNames|
    }

    /** The globals at start-up. */
    constructor ()
      ensures Valid() && kernel == null && useCase == Undefined && useCaseValue == InitialUseCaseValue
      ensures requests == map[] && nbCalls == 0 && currentProtein == 0
      ensures chartStartIndex == 0 && window == InitialWindow
    {
      kernel := null;
      useCase := Undefined;
      useCaseValue := InitialUseCaseValue;
      requests := map[];
      nbCalls := 0;
      currentProtein := 0;
      chartStartIndex := 0;
      window := InitialWindow;
    }

    /**
     * IMVWebServer.cpp `parsePDB`: the molecule walk starting from the
     * current protein and two draws, then `renderPDB`; it logs the request
     * under the caller's address and counts one call. `loadPDB` is not
     * part of this model.
     */
    method ParsePdb(address: string, url: string, ps: seq<Param>, requestStr: string, update: bool, env: Environment)
      returns (response: Response, requestStr': string)
      requires Valid() && kernel != null
      modifies this, kernel
      ensures Valid() && kernel == old(kernel)
      ensures useCase == old(useCase) && useCaseValue == old(useCaseValue)
      ensures currentProtein == old(currentProtein) && chartStartIndex == old(chartStartIndex)
      ensures var pid := ProteinNames[currentProtein];
        var parsed := MoleculeOf(Parsed(MoleculeDefaults(pid, env.rand), old(window)), ps, env.libc);
        var file := MoleculeFile(parsed.info.moleculeId, pid);
        kernel.State() == MoleculeRendered(old(kernel.State()), parsed.info, update, file, env.atoms(file)) &&
        window == parsed.window && response == Saved(NoResponse, parsed.info.moleculeId + ".jpg", env.disk)
      ensures requestStr' == requestStr + address + ": " + url + "?" + Query(ps)
      ensures requests == old(requests)[address := requestStr'] && nbCalls == old(nbCalls) + 1
    {
      var pid := ProteinNames[currentProtein];
      var init := Parsed(MoleculeDefaults(pid, env.rand), window);
      var parsed;
      parsed, requestStr' := ReadMolecule(init, ps, requestStr + address + ": " + url + "?", env.libc);
      window := parsed.window;
      var file := MoleculeFile(parsed.info.moleculeId, pid);
      var nbPrimitives;
      nbPrimitives, response := RenderPdb(kernel, parsed.info, update, pid, env.atoms(file), NoResponse, env.disk);
      requests := requests[address := requestStr'];
      nbCalls := nbCalls + 1;
    }

    /** IMVWebServer.cpp `parseIRT`: the model walk, then `renderIRT`. */
    method ParseIrt(ps: seq<Param>, requestStr: string, update: bool, env: Environment)
      returns (response: Response, requestStr': string)
      requires Valid() && kernel != null
      modifies this, kernel
      ensures Valid() && kernel == old(kernel)
      ensures useCase == old(useCase) && useCaseValue == old(useCaseValue) && requests == old(requests) && nbCalls == old(nbCalls)
      ensures currentProtein == old(currentProtein) && chartStartIndex == old(chartStartIndex)
      ensures var parsed := IrtOf(Parsed(IrtDefaults, old(window)), ps, env.libc);
        kernel.State() == ModelRendered(old(kernel.State()), parsed.info, update, env.models(ModelFile(parsed.info.fileName))) &&
        window == parsed.window && response == Saved(NoResponse, parsed.info.fileName + ".jpg", env.disk)
      ensures requestStr' == requestStr + Query(ps)
    {
      var parsed;
      parsed, requestStr' := ReadIrt(Parsed(IrtDefaults, window), ps, requestStr, env.libc);
      window := parsed.window;
      var nbPrimitives;
      nbPrimitives, response := RenderIrt(kernel, parsed.info, update, env.models(ModelFile(parsed.info.fileName)), NoResponse, env.disk);
    }

    /** IMVWebServer.cpp `parseChart`: the chart walk, then `renderChart` (`buildChart` is empty). */
    method ParseChart(ps: seq<Param>, requestStr: string, update: bool, env: Environment)
      returns (response: Response, requestStr': string)
      requires Valid() && kernel != null
      modifies this, kernel
      ensures Valid() && kernel == old(kernel)
      ensures useCase == old(useCase) && useCaseValue == old(useCaseValue) && requests == old(requests) && nbCalls == old(nbCalls)
      ensures currentProtein == old(currentProtein) && chartStartIndex == old(chartStartIndex)
      ensures var parsed := ChartOf(Parsed(ChartDefaults, old(window)), ps, env.libc, env.rand);
        kernel.State() == ChartRendered(old(kernel.State()), parsed.info, update, chartStartIndex) &&
        window == parsed.window && response == Saved(NoResponse, "chart.jpg", env.disk)
      ensures requestStr' == requestStr + Query(ps)
    {
      var parsed;
      parsed, requestStr' := ReadChart(Parsed(ChartDefaults, window), ps, requestStr, env.libc, env.rand);
      window := parsed.window;
      var nbPrimitives;
      nbPrimitives, chartStartIndex, response := RenderChart(kernel, parsed.info, update, chartStartIndex, NoResponse, env.disk);
    }

    /** The `molecule` branch of `parseURL`: a fresh kernel every time, then `parsePDB`. */
    method ServeMolecule(address: string, url: string, ps: seq<Param>, env: Environment) returns (response: Response, requestStr: string)
      requires Valid() && RouteOf(ps) == MoleculeRoute
      modifies this, kernel
      ensures Valid() && kernel != null && fresh(kernel)
      ensures (useCase, useCaseValue) == (Pdb, ps[0].value)
      ensures requestStr == address + ": " + url + "?" + Query(ps)
      ensures requests == old(requests)[address := requestStr] && nbCalls == old(nbCalls) + 1
      ensures currentProtein == old(currentProtein) && chartStartIndex == old(chartStartIndex)
      ensures Outcome(kernel.State(), window, response) ==
        Served(ps, env, Initialized(false), true, ProteinNames[currentProtein], old(window), chartStartIndex)
    {
      kernel := null;
      kernel := InitializeKernel(false);
      useCase := Pdb;
      useCaseValue := ps[0].value;
      response, requestStr := ParsePdb(address, url, ps, "", true, env);
      assert "" + address == address;
    }

    /** The `model` branch of `parseURL`: a fresh kernel unless the same model is loaded, then `parseIRT`. */
    method ServeModel(ps: seq<Param>, env: Environment) returns (response: Response, requestStr: string)
      requires Valid() && RouteOf(ps) == ModelRoute
      modifies this, kernel
      ensures Valid() && kernel != null
      ensures (useCase, useCaseValue) == NextUseCase(old(useCase), old(useCaseValue), ps)
      ensures Rebuilds(old(useCase), old(useCaseValue), ps) ==> fresh(kernel)
      ensures !Rebuilds(old(useCase), old(useCaseValue), ps) ==> kernel == old(kernel)
      ensures requests == old(requests) && nbCalls == old(nbCalls) && requestStr == Query(ps)
      ensures currentProtein == old(currentProtein) && chartStartIndex == old(chartStartIndex)
      ensures var rebuild := Rebuilds(old(useCase), old(useCaseValue), ps);
        Outcome(kernel.State(), window, response) ==
        Served(ps, env, if rebuild then Initialized(true) else old(kernel.State()), rebuild, ProteinNames[currentProtein], old(window), chartStartIndex)
    {
      var update := false;
      if useCase != Irt || useCaseValue != ps[0].value {
        kernel := null;
        kernel := InitializeKernel(true);
        useCase := Irt;
        useCaseValue := ps[0].value;
        update := true;
      }
      response, requestStr := ParseIrt(ps, "", update, env);
      assert "" + Query(ps) == Query(ps);
    }

    /** Any other first parameter: a fresh kernel unless a chart is loaded, then `parseChart`. */
    method ServeChart(ps: seq<Param>, env: Environment) returns (response: Response, requestStr: string)
      requires Valid() && RouteOf(ps) == ChartRoute
      modifies this, kernel
      ensures Valid() && kernel != null
      ensures (useCase, useCaseValue) == NextUseCase(old(useCase), old(useCaseValue), ps)
      ensures Rebuilds(old(useCase), old(useCaseValue), ps) ==> fresh(kernel)
      ensures !Rebuilds(old(useCase), old(useCaseValue), ps) ==> kernel == old(kernel)
      ensures requests == old(requests) && nbCalls == old(nbCalls) && requestStr == Query(ps)
      ensures currentProtein == old(currentProtein) && chartStartIndex == old(chartStartIndex)
      ensures var rebuild := Rebuilds(old(useCase), old(useCaseValue), ps);
        Outcome(kernel.State(), window, response) ==
        Served(ps, env, if rebuild then Initialized(true) else old(kernel.State()), rebuild, ProteinNames[currentProtein], old(window), chartStartIndex)
    {
      var update := false;
      if useCase != Chart {
        kernel := null;
        kernel := InitializeKernel(true);
        useCase := Chart;
        update := true;
      }
      response, requestStr := ParseChart(ps, "", update, env);
      assert "" + Query(ps) == Query(ps);
    }

    /** The three branches of `parseURL`, by the first parameter. */
    method Serve(address: string, url: string, ps: seq<Param>, env: Environment) returns (response: Response, requestStr: string)
      requires Valid() && RouteOf(ps) != NoRoute
      modifies this, kernel
      ensures Valid() && kernel != null
      ensures (useCase, useCaseValue) == NextUseCase(old(useCase), old(useCaseValue), ps)
      ensures requestStr == LogOf(address, url, ps)
      ensures requests == (if RouteOf(ps) == MoleculeRoute then old(requests)[address := requestStr] else old(requests))
      ensures nbCalls == old(nbCalls) + CallsOf(ps) - 1
      ensures currentProtein == old(currentProtein) && chartStartIndex == old(chartStartIndex)
      ensures Rebuilds(old(useCase), old(useCaseValue), ps) ==> fresh(kernel)
      ensures !Rebuilds(old(useCase), old(useCaseValue), ps) ==> kernel == old(kernel)
      ensures var rebuild := Rebuilds(old(useCase), old(useCaseValue), ps);
        Outcome(kernel.State(), window, response) ==
        Served(ps, env, if rebuild then Initialized(true) else old(kernel.State()), rebuild, ProteinNames[currentProtein], old(window), chartStartIndex)
    {
      if RouteOf(ps) == MoleculeRoute {
        response, requestStr := ServeMolecule(address, url, ps, env);
      } else if RouteOf(ps) == ModelRoute {
        response, requestStr := ServeModel(ps, env);
      } else {
        response, requestStr := ServeChart(ps, env);
      }
    }

    /**
     * IMVWebServer.cpp `parseURL`: the first parameter picks the
     * interpreter and decides whether the kernel is destroyed and built
     * again; the request is then logged under the caller's address and
     * counted.
     */
    method ParseUrl(address: string, url: string, ps: seq<Param>, env: Environment) returns (response: Response)
      requires Valid()
      modifies this, kernel
      ensures Valid()
      ensures (useCase, useCaseValue) == NextUseCase(old(useCase), old(useCaseValue), ps)
      ensures requests == old(requests)[address := LogOf(address, url, ps)]
      ensures nbCalls == old(nbCalls) + CallsOf(ps)
      ensures currentProtein == old(currentProtein) && chartStartIndex == old(chartStartIndex)
      ensures Rebuilds(old(useCase), old(useCaseValue), ps) ==> kernel != null && fresh(kernel)
      ensures !Rebuilds(old(useCase), old(useCaseValue), ps) ==> kernel == old(kernel)
      ensures RouteOf(ps) == NoRoute ==> response == NoResponse && window == old(window) && (kernel != null ==> unchanged(kernel))
      ensures RouteOf(ps) != NoRoute ==>
        var rebuild := Rebuilds(old(useCase), old(useCaseValue), ps);
        kernel != null && Outcome(kernel.State(), window, response) ==
        Served(ps, env, if rebuild then Initialized(true) else old(kernel.State()), rebuild, ProteinNames[currentProtein], old(window), chartStartIndex)
    {
      response := NoResponse;
      var requestStr: string := "";
      if RouteOf(ps) != NoRoute {
        response, requestStr := Serve(address, url, ps, env);
      }
      requests := requests[address := requestStr];
      nbCalls := nbCalls + 1;
    }

    /**
     * IMVWebServer.cpp `onGet`: for the URL `get`, `parseURL` and then the
     * next protein in the round robin; any other URL only reads the
     * globals for the status page, whose text is not modelled.
     */
    method OnGet(address: string, url: string, ps: seq<Param>, env: Environment) returns (response: Response)
      requires Valid()
      modifies this, kernel
      ensures Valid()
      ensures url != "get" ==> unchanged(this) && (kernel != null ==> unchanged(kernel)) && response == NoResponse
      ensures url == "get" ==> currentProtein == NextProtein(old(currentProtein))
      ensures url == "get" ==> (useCase, useCaseValue) == NextUseCase(old(useCase), old(useCaseValue), ps)
      ensures url == "get" ==> requests == old(requests)[address := LogOf(address, url, ps)]
      ensures url == "get" ==> nbCalls == old(nbCalls) + CallsOf(ps)
      ensures url == "get" ==> chartStartIndex == old(chartStartIndex)
      ensures url == "get" && Rebuilds(old(useCase), old(useCaseValue), ps) ==> kernel != null && fresh(kernel)
      ensures url == "get" && !Rebuilds(old(useCase), old(useCaseValue), ps) ==> kernel == old(kernel)
      ensures url == "get" && RouteOf(ps) == NoRoute ==>
        response == NoResponse && window == old(window) && (kernel != null ==> unchanged(kernel))
      ensures url == "get" && RouteOf(ps) != NoRoute ==>
        var rebuild := Rebuilds(old(useCase), old(useCaseValue), ps);
        kernel != null && Outcome(kernel.State(), window, response) ==
        Served(ps, env, if rebuild then Initialized(true) else old(kernel.State()), rebuild, ProteinNames[old(currentProtein)], old(window), chartStartIndex)
    {
      response := NoResponse;
      if url == "get" {
        response := ParseUrl(address, url, ps, env);
        currentProtein := currentProtein + 1;
        currentProtein := currentProtein % |ProteinNames|;
      }
    }
  }
}
