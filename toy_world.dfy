/**
 * The ToyWorld node of the simulator host (BrainSimToyWorld/Module/ToyWorld.cs): the
 * configuration check run before a simulation, the setup of the game and its three
 * render requests, the binding of each render request's GPU buffer to the node's output
 * block, the input task that turns the control vector into an avatar action, and the
 * update task that forwards the world's log and advances the world by one step.
 *
 * The game controller, the avatar controller and the world's log are collaborators whose
 * code is not part of this model: what the node hands them is recorded in fields
 * (`submitted`, `stepsMade`, `hostLog`), and what they hand back is a parameter
 * (`avatarIds`, the buffer handle, the mapped device pointer, the pending log messages).
 */
module ToyWorldNode {
  import opened Wrappers
  import opened ControlMapper

  // ---------------------------------------------------------------------------------
  // Configuration and its validation
  // ---------------------------------------------------------------------------------

  /**
   * The node's properties. Whether the two resource files exist is the result of a file
   * system query, so it is given here as two flags. `controlsCount` is `None` when no
   * block is connected to the controls input.
   */
  datatype Config = Config(
    saveFileExists: bool,
    tilesetTableExists: bool,
    fofSize: int,
    fofResWidth: int,
    fofResHeight: int,
    fovSize: int,
    fovResWidth: int,
    fovResHeight: int,
    centerX: real,
    centerY: real,
    width: real,
    height: real,
    resolutionWidth: int,
    resolutionHeight: int,
    controlsCount: Option<int>)

  /** One error `Validate` can report, one per check it makes. */
  datatype ConfigError =
    | MissingSaveFile
    | MissingTilesetTable
    | FofSizeNotPositive
    | FofResWidthNotPositive
    | FofResHeightNotPositive
    | FovSizeNotPositive
    | FovResWidthNotPositive
    | FovResHeightNotPositive
    | FreeWidthNotPositive
    | FreeHeightNotPositive
    | FreeResWidthNotPositive
    | FreeResHeightNotPositive
    | BadControlsSize

  /** The condition under which `Validate` reports `e`. */
  predicate Violates(cfg: Config, e: ConfigError) {
    match e
    case MissingSaveFile => !cfg.saveFileExists
    case MissingTilesetTable => !cfg.tilesetTableExists
    case FofSizeNotPositive => cfg.fofSize <= 0
    case FofResWidthNotPositive => cfg.fofResWidth <= 0
    case FofResHeightNotPositive => cfg.fofResHeight <= 0
    case FovSizeNotPositive => cfg.fovSize <= 0
    case FovResWidthNotPositive => cfg.fovResWidth <= 0
    case FovResHeightNotPositive => cfg.fovResHeight <= 0
    case FreeWidthNotPositive => cfg.width <= 0.0
    case FreeHeightNotPositive => cfg.height <= 0.0
    case FreeResWidthNotPositive => cfg.resolutionWidth <= 0
    case FreeResHeightNotPositive => cfg.resolutionHeight <= 0
    case BadControlsSize => cfg.controlsCount.Some? && !ControlsCountAccepted(cfg.controlsCount.value)
  }

  /** The checks of `ToyWorld.Validate`, in the order it makes them. */
  const ValidationOrder: seq<ConfigError> :=
    [MissingSaveFile, MissingTilesetTable,
     FofSizeNotPositive, FofResWidthNotPositive, FofResHeightNotPositive,
     FovSizeNotPositive, FovResWidthNotPositive, FovResHeightNotPositive,
     FreeWidthNotPositive, FreeHeightNotPositive, FreeResWidthNotPositive, FreeResHeightNotPositive,
     BadControlsSize]

  /** The position of each check in `ValidationOrder`. */
  function CheckRank(e: ConfigError): nat {
    match e
    case MissingSaveFile => 0
    case MissingTilesetTable => 1
    case FofSizeNotPositive => 2
    case FofResWidthNotPositive => 3
    case FofResHeightNotPositive => 4
    case FovSizeNotPositive => 5
    case FovResWidthNotPositive => 6
    case FovResHeightNotPositive => 7
    case FreeWidthNotPositive => 8
    case FreeHeightNotPositive => 9
    case FreeResWidthNotPositive => 10
    case FreeResHeightNotPositive => 11
    case BadControlsSize => 12
  }

  /** Checks made in a strictly increasing order of rank. */
  predicate Ranked(checks: seq<ConfigError>) {
    forall i, j | 0 <= i < j < |checks| :: CheckRank(checks[i]) < CheckRank(checks[j])
  }

  /** Runs `checks` in order; each failing one (`validator.AssertError`) reports its error. */
  function FailedChecks(cfg: Config, checks: seq<ConfigError>): (errors: seq<ConfigError>)
    ensures forall e :: e in errors <==> e in checks && Violates(cfg, e)
    ensures |errors| <= |checks|
  {
    if checks == [] then []
    else (if Violates(cfg, checks[0]) then [checks[0]] else []) + FailedChecks(cfg, checks[1..])
  }

  /** Two ranked runs, the first wholly below the second, make a ranked run. */
  lemma RankedAppend(lower: seq<ConfigError>, upper: seq<ConfigError>)
    requires Ranked(lower) && Ranked(upper)
    requires forall x, y | x in lower && y in upper :: CheckRank(x) < CheckRank(y)
    ensures Ranked(lower + upper)
  {
    var joined := lower + upper;
    forall i, j | 0 <= i < j < |joined| ensures CheckRank(joined[i]) < CheckRank(joined[j]) {
      if j < |lower| {
        assert joined[i] == lower[i] && joined[j] == lower[j];
      } else if i < |lower| {
        assert joined[i] in lower && joined[j] in upper;
      } else {
        assert joined[i] == upper[i - |lower|] && joined[j] == upper[j - |lower|];
      }
    }
  }

  /** Checks made in rank order report their errors in rank order, hence each at most once. */
  lemma {:induction false} FailedChecksOrdered(cfg: Config, checks: seq<ConfigError>)
    requires Ranked(checks)
    ensures Ranked(FailedChecks(cfg, checks))
  {
    if checks != [] {
      var rest := FailedChecks(cfg, checks[1..]);
      FailedChecksOrdered(cfg, checks[1..]);
      var head: seq<ConfigError> := if Violates(cfg, checks[0]) then [checks[0]] else [];
      assert FailedChecks(cfg, checks) == head + rest;
      forall x, y | x in head && y in rest ensures CheckRank(x) < CheckRank(y) {
        var k :| 0 <= k < |checks[1..]| && checks[1..][k] == y;
        assert checks[k + 1] == y;
      }
      RankedAppend(head, rest);
    }
  }

  /** `ValidationOrder` lists the checks by rank. */
  lemma ValidationOrderRanked()
    ensures Ranked(ValidationOrder)
  {
    assert forall k | 0 <= k < |ValidationOrder| :: CheckRank(ValidationOrder[k]) == k;
  }

  /** Every error kind is checked. */
  lemma AllChecksMade(e: ConfigError)
    ensures e in ValidationOrder
  {
    assert ValidationOrder[0] == MissingSaveFile && ValidationOrder[1] == MissingTilesetTable;
    assert ValidationOrder[2] == FofSizeNotPositive && ValidationOrder[3] == FofResWidthNotPositive;
    assert ValidationOrder[4] == FofResHeightNotPositive && ValidationOrder[5] == FovSizeNotPositive;
    assert ValidationOrder[6] == FovResWidthNotPositive && ValidationOrder[7] == FovResHeightNotPositive;
    assert ValidationOrder[8] == FreeWidthNotPositive && ValidationOrder[9] == FreeHeightNotPositive;
    assert ValidationOrder[10] == FreeResWidthNotPositive && ValidationOrder[11] == FreeResHeightNotPositive;
    assert ValidationOrder[12] == BadControlsSize;
  }

  /**
   * `ToyWorld.Validate`: the two file checks, the ten positivity checks of the view sizes
   * and resolutions, and, when a control block is connected, its length (13, or 84 and
   * more). An error is reported exactly when its check fails; errors come in the order the
   * checks are made, each at most once.
   */
  function Validate(cfg: Config): (errors: seq<ConfigError>)
    ensures forall e :: e in errors <==> Violates(cfg, e)
    ensures forall i, j | 0 <= i < j < |errors| :: CheckRank(errors[i]) < CheckRank(errors[j])
    ensures |errors| <= 13
  {
    forall e ensures e in ValidationOrder { AllChecksMade(e); }
    ValidationOrderRanked();
    FailedChecksOrdered(cfg, ValidationOrder);
    FailedChecks(cfg, ValidationOrder)
  }

  /** The guard at the top of `UpdateMemoryBlocks`: setup goes ahead only if it holds. */
  predicate SetupProceeds(cfg: Config) {
    !(!cfg.saveFileExists || !cfg.tilesetTableExists || cfg.fofSize <= 0 || cfg.fovSize <= 0
      || cfg.width <= 0.0 || cfg.height <= 0.0 || cfg.resolutionWidth <= 0 || cfg.resolutionHeight <= 0
      || cfg.fofResHeight <= 0 || cfg.fofResWidth <= 0 || cfg.fovResHeight <= 0 || cfg.fovResWidth <= 0)
  }

  /**
   * The setup guard and the validator agree: setup goes ahead exactly when the validator
   * reports nothing but, possibly, the control-vector length.
   */
  lemma {:induction false} SetupGuardMatchesValidate(cfg: Config)
    ensures SetupProceeds(cfg) <==> forall e | e in Validate(cfg) :: e == BadControlsSize
  {
    var errors := Validate(cfg);
    if !SetupProceeds(cfg) {
      var e :=
        if !cfg.saveFileExists then MissingSaveFile
        else if !cfg.tilesetTableExists then MissingTilesetTable
        else if cfg.fofSize <= 0 then FofSizeNotPositive
        else if cfg.fovSize <= 0 then FovSizeNotPositive
        else if cfg.width <= 0.0 then FreeWidthNotPositive
        else if cfg.height <= 0.0 then FreeHeightNotPositive
        else if cfg.resolutionWidth <= 0 then FreeResWidthNotPositive
        else if cfg.resolutionHeight <= 0 then FreeResHeightNotPositive
        else if cfg.fofResHeight <= 0 then FofResHeightNotPositive
        else if cfg.fofResWidth <= 0 then FofResWidthNotPositive
        else if cfg.fovResHeight <= 0 then FovResHeightNotPositive
        else FovResWidthNotPositive;
      assert Violates(cfg, e);
      assert e in errors;
    }
  }

  // ---------------------------------------------------------------------------------
  // Render requests
  // ---------------------------------------------------------------------------------

  /**
   * What a render request is anchored to: the avatar's field of view, its field of focus
   * (which follows a field-of-view request once one is linked), or a free view of the map.
   */
  datatype ViewAnchor =
    | FovView(avatarId: int)
    | FofView(avatarId: int, fovRequest: Option<RenderRequest>)
    | FreeView

  /** The properties of a render request the node sets. */
  datatype RenderRequest = RenderRequest(
    anchor: ViewAnchor,
    size: (real, real),
    resolution: (int, int),
    gatherImage: bool,
    flipYAxis: bool,
    positionCenter: (real, real))

  /**
   * A request as the game registers it, before the node configures it. The game's own
   * defaults are not part of this model; every property the node relies on is set
   * afterwards, so they are represented by zeros.
   */
  function Registered(anchor: ViewAnchor): RenderRequest {
    RenderRequest(anchor, (0.0, 0.0), (0, 0), false, false, (0.0, 0.0))
  }

  /**
   * The part of `InitRR` that configures the request: image gathering and the flipped
   * y axis are switched on first, then the caller's initializer runs, if there is one.
   */
  function InitRR(rr: RenderRequest, initializer: Option<RenderRequest -> RenderRequest>): RenderRequest {
    var flagged := rr.(gatherImage := true, flipYAxis := true);
    match initializer
    case None => flagged
    case Some(init) => init(flagged)
  }

  /** The initializer of the field-of-view request. */
  function FovInitializer(cfg: Config): RenderRequest -> RenderRequest {
    (rr: RenderRequest) => rr.(size := (cfg.fovSize as real, cfg.fovSize as real),
              resolution := (cfg.fovResWidth, cfg.fovResHeight))
  }

  /** The initializer of the field-of-focus request: it links the field-of-view request. */
  function FofInitializer(cfg: Config, fov: RenderRequest): RenderRequest -> RenderRequest {
    (rr: RenderRequest) => rr.(anchor := if rr.anchor.FofView? then rr.anchor.(fovRequest := Some(fov)) else rr.anchor,
              size := (cfg.fofSize as real, cfg.fofSize as real),
              resolution := (cfg.fofResWidth, cfg.fofResHeight))
  }

  /** The initializer of the free-view request. */
  function FreeInitializer(cfg: Config): RenderRequest -> RenderRequest {
    (rr: RenderRequest) => rr.(size := (cfg.width, cfg.height),
              resolution := (cfg.resolutionWidth, cfg.resolutionHeight))
  }

  function FovRequest(cfg: Config, avatarId: int): RenderRequest {
    InitRR(Registered(FovView(avatarId)), Some(FovInitializer(cfg)))
  }

  function FofRequest(cfg: Config, avatarId: int): RenderRequest {
    InitRR(Registered(FofView(avatarId, None)), Some(FofInitializer(cfg, FovRequest(cfg, avatarId))))
  }

  /** The free view, with the centre `SetPositionCenter` gives it after it is configured. */
  function FreeRequest(cfg: Config): RenderRequest {
    InitRR(Registered(FreeView), Some(FreeInitializer(cfg))).(positionCenter := (cfg.centerX, cfg.centerY))
  }

  /**
   * What setup configures: all three requests gather their image with a flipped y axis,
   * take size and resolution from the node's properties, the two avatar views follow the
   * given avatar, the focus view is linked to the field-of-view request, and the free view
   * is centred on (CenterX, CenterY).
   */
  lemma {:induction false} ConfiguredRequests(cfg: Config, avatarId: int)
    ensures var fov := FovRequest(cfg, avatarId);
      && fov.anchor == FovView(avatarId)
      && fov.gatherImage && fov.flipYAxis
      && fov.size == (cfg.fovSize as real, cfg.fovSize as real)
      && fov.resolution == (cfg.fovResWidth, cfg.fovResHeight)
    ensures var fof := FofRequest(cfg, avatarId);
      && fof.anchor == FofView(avatarId, Some(FovRequest(cfg, avatarId)))
      && fof.gatherImage && fof.flipYAxis
      && fof.size == (cfg.fofSize as real, cfg.fofSize as real)
      && fof.resolution == (cfg.fofResWidth, cfg.fofResHeight)
    ensures var free := FreeRequest(cfg);
      && free.anchor == FreeView
      && free.gatherImage && free.flipYAxis
      && free.size == (cfg.width, cfg.height)
      && free.resolution == (cfg.resolutionWidth, cfg.resolutionHeight)
      && free.positionCenter == (cfg.centerX, cfg.centerY)
  {
  }

  // ---------------------------------------------------------------------------------
  // The GPU-buffer binding of one render request
  // ---------------------------------------------------------------------------------

  /**
   * A CUDA view of the renderer's buffer object: which object it was created for, and
   * whether it is currently mapped. `id` tells apart resources created at different times.
   */
  datatype Resource = Resource(id: nat, handle: nat, mapped: bool)

  /** Why a post-render notification fails. */
  datatype BindingError =
    | NoResource    // no pre-render notification came first: `renderResource` is null
    | AlreadyMapped // the resource is mapped twice without an unmap in between

  /**
   * The state the pre- and post-render handlers of `InitRR` share: the last buffer handle,
   * the current interop resource, and the target output block's external pointer and
   * dimensions. Resources that were replaced are kept in `disposed`, in order.
   */
  class RenderBinding {
    var handle: nat
    var resource: Option<Resource>
    var disposed: seq<Resource>
    var created: nat
    var externalPointer: int
    var dims: (int, int)

    /** Every resource in use or disposed was created here, and the current one is for `handle`. */
    ghost predicate Valid()
      reads this
    {
      && (resource.Some? ==> resource.value.handle == handle && resource.value.id < created)
      && (forall i | 0 <= i < |disposed| :: disposed[i].id < created)
    }

    /**
     * The end of `InitRR`: no resource yet, handle 0, a placeholder external pointer of 1
     * and the target block sized to the request's resolution.
     */
    constructor (resolution: (int, int))
      ensures Valid()
      ensures handle == 0 && resource == None && disposed == [] && created == 0
      ensures externalPointer == 1 && dims == resolution
    {
      handle := 0;
      resource := None;
      disposed := [];
      created := 0;
      externalPointer := 1;
      dims := resolution;
    }

    /**
     * The pre-render handler for buffer `vbo`: a new resource is created (the old one
     * disposed) exactly when there is none or the handle changed; otherwise the same
     * resource is kept. Either way the resource is left unmapped.
     */
    method PreRender(vbo: nat)
      requires Valid()
      modifies this
      ensures Valid()
      ensures handle == vbo && resource.Some? && resource.value.handle == vbo && !resource.value.mapped
      ensures old(resource).None? || vbo != old(handle) ==>
        && resource.value.id == old(created) && created == old(created) + 1
        && disposed == old(disposed) + (if old(resource).Some? then [old(resource).value] else [])
      ensures old(resource).Some? && vbo == old(handle) ==>
        && resource.value.id == old(resource).value.id && created == old(created)
        && disposed == old(disposed)
      ensures externalPointer == old(externalPointer) && dims == old(dims)
    {
      if resource.None? || vbo != handle {
        if resource.Some? {
          disposed := disposed + [resource.value];
        }
        handle := vbo;
        resource := Some(Resource(created, vbo, false));
        created := created + 1;
      }
      if resource.value.mapped {
        resource := Some(resource.value.(mapped := false));
      }
    }

    /**
     * The post-render handler: maps the current resource and publishes its device pointer
     * (supplied by the driver as `mappedPointer`) as the target block's external pointer.
     * Without a resource, or with one already mapped, it fails and changes nothing.
     */
    method PostRender(mappedPointer: int) returns (r: Result<(), BindingError>)
      requires Valid()
      modifies this
      ensures Valid()
      ensures old(resource).None? ==> r == Failure(NoResource) && unchanged(this)
      ensures old(resource).Some? && old(resource).value.mapped ==> r == Failure(AlreadyMapped) && unchanged(this)
      ensures old(resource).Some? && !old(resource).value.mapped ==>
        && r.Success?
        && resource == Some(old(resource).value.(mapped := true))
        && externalPointer == mappedPointer
        && handle == old(handle) && disposed == old(disposed) && created == old(created) && dims == old(dims)
    {
      if resource.None? {
        return Failure(NoResource);
      }
      if resource.value.mapped {
        return Failure(AlreadyMapped);
      }
      resource := Some(resource.value.(mapped := true));
      externalPointer := mappedPointer;
      r := Success(());
    }
  }

  // ---------------------------------------------------------------------------------
  // The node and its setup
  // ---------------------------------------------------------------------------------

  const NoAvatarMessage: string := "No avatar found in map!"

  /** The node's state that `UpdateMemoryBlocks` sets up. */
  class ToyWorld {
    var gameStarted: bool
    var avatarId: Option<int>
    var fovRR: Option<RenderRequest>
    var fofRR: Option<RenderRequest>
    var freeRR: Option<RenderRequest>
    var fovBinding: RenderBinding?
    var fofBinding: RenderBinding?
    var freeBinding: RenderBinding?
    var errorLog: seq<string>

    constructor ()
      ensures !gameStarted && avatarId == None
      ensures fovRR == None && fofRR == None && freeRR == None
      ensures fovBinding == null && fofBinding == null && freeBinding == null
      ensures errorLog == []
    {
      gameStarted := false;
      avatarId := None;
      fovRR, fofRR, freeRR := None, None, None;
      fovBinding, fofBinding, freeBinding := null, null, null;
      errorLog := [];
    }

    /**
     * `UpdateMemoryBlocks`: nothing happens unless the setup guard holds. Otherwise the game
     * is started with the avatars `avatarIds` it reports; with none, an error is logged and
     * no render request is registered; with some, the first avatar is used and the three
     * requests are registered and bound to fresh output blocks sized to their resolution.
     */
    method UpdateMemoryBlocks(cfg: Config, avatarIds: seq<int>)
      modifies this
      ensures !SetupProceeds(cfg) ==> unchanged(this)
      ensures SetupProceeds(cfg) ==> gameStarted
      ensures SetupProceeds(cfg) && avatarIds == [] ==>
        && errorLog == old(errorLog) + [NoAvatarMessage]
        && avatarId == old(avatarId)
        && fovRR == old(fovRR) && fofRR == old(fofRR) && freeRR == old(freeRR)
        && fovBinding == old(fovBinding) && fofBinding == old(fofBinding) && freeBinding == old(freeBinding)
      ensures SetupProceeds(cfg) && avatarIds != [] ==>
        && errorLog == old(errorLog)
        && avatarId == Some(avatarIds[0])
        && fovRR == Some(FovRequest(cfg, avatarIds[0]))
        && fofRR == Some(FofRequest(cfg, avatarIds[0]))
        && freeRR == Some(FreeRequest(cfg))
        && fovBinding != null && fresh(fovBinding) && fovBinding.Valid() && fovBinding.resource == None
        && fofBinding != null && fresh(fofBinding) && fofBinding.Valid() && fofBinding.resource == None
        && freeBinding != null && fresh(freeBinding) && freeBinding.Valid() && freeBinding.resource == None
        && fovBinding.externalPointer == 1 && fofBinding.externalPointer == 1 && freeBinding.externalPointer == 1
        && fovBinding.handle == 0 && fofBinding.handle == 0 && freeBinding.handle == 0
        && fovBinding.dims == (cfg.fovResWidth, cfg.fovResHeight)
        && fofBinding.dims == (cfg.fofResWidth, cfg.fofResHeight)
        && freeBinding.dims == (cfg.resolutionWidth, cfg.resolutionHeight)
    {
      if !SetupProceeds(cfg) {
        return;
      }
      gameStarted := true;
      if |avatarIds| == 0 {
        errorLog := errorLog + [NoAvatarMessage];
        return;
      }
      var myAvatarId := avatarIds[0];
      avatarId := Some(myAvatarId);

      var fov := InitRR(Registered(FovView(myAvatarId)), Some(FovInitializer(cfg)));
      fovBinding := new RenderBinding(fov.resolution);
      fovRR := Some(fov);

      var fof := InitRR(Registered(FofView(myAvatarId, None)), Some(FofInitializer(cfg, fov)));
      fofBinding := new RenderBinding(fof.resolution);
      fofRR := Some(fof);

      var free := InitRR(Registered(FreeView), Some(FreeInitializer(cfg)));
      freeBinding := new RenderBinding(free.resolution);
      freeRR := Some(free.(positionCenter := (cfg.centerX, cfg.centerY)));
    }
  }

  // ---------------------------------------------------------------------------------
  // The input task
  // ---------------------------------------------------------------------------------

  /**
   * `TWGetInputTask`: its control table, and the actions it has handed to the avatar
   * controller through `SetActions`, in order.
   */
  class InputTask {
    var controlIndexes: map<SignalName, int>
    var submitted: seq<AvatarControls>

    constructor ()
      ensures controlIndexes == map[] && submitted == []
    {
      controlIndexes := map[];
      submitted := [];
    }

    /**
     * `Init`, given the length of the connected control vector, or `None` when no block is
     * connected (the validator lets that through, and reading its length then fails).
     * Writes the layout chosen by the length into the table. A recognised layout sets all
     * thirteen entries, so whatever the table held before is overwritten; an unrecognised
     * length writes nothing.
     */
    method Init(controls: Option<int>) returns (r: Result<(), ControlError>)
      modifies this`controlIndexes
      ensures controls.None? ==> r == Failure(NoControls) && controlIndexes == old(controlIndexes)
      ensures controls.Some? ==> r == Success(())
      ensures controls.Some? && LayoutFor(controls.value) != map[] ==> controlIndexes == LayoutFor(controls.value)
      ensures controls.Some? && LayoutFor(controls.value) == map[] ==> controlIndexes == old(controlIndexes)
    {
      if controls.None? {
        return Failure(NoControls);
      }
      var controlsCount := controls.value;
      if controlsCount == ControlsCount {
        controlIndexes := controlIndexes[Forward := 0];
        controlIndexes := controlIndexes[Backward := 1];
        controlIndexes := controlIndexes[Left := 2];
        controlIndexes := controlIndexes[Right := 3];
        controlIndexes := controlIndexes[RotLeft := 4];
        controlIndexes := controlIndexes[RotRight := 5];
        controlIndexes := controlIndexes[FofRight := 6];
        controlIndexes := controlIndexes[FofLeft := 7];
        controlIndexes := controlIndexes[FofUp := 8];
        controlIndexes := controlIndexes[FofDown := 9];
        controlIndexes := controlIndexes[Interact := 10];
        controlIndexes := controlIndexes[Use := 11];
        controlIndexes := controlIndexes[PickUp := 12];
        WsadWrites(old(controlIndexes));
      } else if controlsCount >= KeyboardMinimum {
        controlIndexes := controlIndexes[Forward := 87];
        controlIndexes := controlIndexes[Backward := 83];
        controlIndexes := controlIndexes[RotLeft := 65];
        controlIndexes := controlIndexes[RotRight := 68];
        controlIndexes := controlIndexes[Left := 81];
        controlIndexes := controlIndexes[Right := 69];
        controlIndexes := controlIndexes[FofUp := 73];
        controlIndexes := controlIndexes[FofLeft := 76];
        controlIndexes := controlIndexes[FofDown := 75];
        controlIndexes := controlIndexes[FofRight := 74];
        controlIndexes := controlIndexes[Interact := 66];
        controlIndexes := controlIndexes[Use := 78];
        controlIndexes := controlIndexes[PickUp := 77];
        KeyboardWrites(old(controlIndexes));
      }
      r := Success(());
    }

    /**
     * `Execute`, given the connected control vector (`None` when no block is connected) and
     * the node whose avatar controller receives the action. On a step the gate skips,
     * nothing is read and nothing submitted. On an executed step the vector is copied, which
     * fails without a block; then it is mapped, and a failing read aborts the tick; then the
     * action goes to the avatar controller, which fails when setup found no avatar.
     * Exactly one action is submitted when all of this succeeds, and none otherwise.
     */
    method Execute(step: nat, runEvery: int, controls: Option<seq<real>>, node: ToyWorld)
      returns (outcome: Result<Option<AvatarControls>, ControlError>)
      modifies this`submitted
      ensures StepGate(step, runEvery) == Skip ==> outcome == Success(None) && submitted == old(submitted)
      ensures StepGate(step, runEvery) == GateDivideByZero ==> outcome == Failure(DivideByZero) && submitted == old(submitted)
      ensures StepGate(step, runEvery) == Run && controls.None? ==>
        outcome == Failure(NoControls) && submitted == old(submitted)
      ensures StepGate(step, runEvery) == Run && controls.Some? ==>
        match MapControls(controls.value, controlIndexes)
        case Failure(e) => outcome == Failure(e) && submitted == old(submitted)
        case Success(a) =>
          if node.avatarId.None? then outcome == Failure(NoAvatarController) && submitted == old(submitted)
          else outcome == Success(Some(a)) && submitted == old(submitted) + [a]
    {
      var gate := StepGate(step, runEvery);
      if gate == Skip {
        return Success(None);
      } else if gate == GateDivideByZero {
        return Failure(DivideByZero);
      }
      if controls.None? {
        return Failure(NoControls);
      }
      var action := MapControls(controls.value, controlIndexes);
      if action.Failure? {
        return Failure(action.error);
      }
      if node.avatarId.None? {
        return Failure(NoAvatarController);
      }
      submitted := submitted + [action.value];
      outcome := Success(Some(action.value));
    }
  }

  /**
   * When setup finds no avatar in the map, no avatar controller is set, so every tick the
   * gate lets through fails, whatever the control vector. For a vector of 13 or at least 88
   * entries every read succeeds and the tick fails at the hand-over to the avatar controller;
   * a length no table recognises fails earlier, at the first read.
   */
  method NoAvatarTicksFail(cfg: Config, step: nat, runEvery: int, controls: seq<real>)
    returns (outcome: Result<Option<AvatarControls>, ControlError>)
    ensures StepGate(step, runEvery) == Run ==> outcome.Failure?
    ensures StepGate(step, runEvery) == Run && ControlsCountSafe(|controls|) ==>
              outcome == Failure(NoAvatarController)
    ensures StepGate(step, runEvery) == Run && |controls| != ControlsCount && |controls| < KeyboardMinimum ==>
              outcome == Failure(KeyNotFound(Left))
  {
    if ControlsCountSafe(|controls|) {
      SafeLengthAlwaysMaps(controls);
    } else if |controls| != ControlsCount && |controls| < KeyboardMinimum {
      UnrecognisedLengthFails(controls);
    }
    var node := new ToyWorld();
    node.UpdateMemoryBlocks(cfg, []);
    var task := new InputTask();
    var initialised := task.Init(Some(|controls|));
    outcome := task.Execute(step, runEvery, Some(controls), node);
  }

  /** The thirteen writes of the compact branch of `Init` give the compact layout. */
  lemma WsadWrites(m: map<SignalName, int>)
    ensures m[Forward := 0][Backward := 1][Left := 2][Right := 3][RotLeft := 4][RotRight := 5]
             [FofRight := 6][FofLeft := 7][FofUp := 8][FofDown := 9][Interact := 10][Use := 11][PickUp := 12]
         == WsadLayout()
  {
    var written := m[Forward := 0][Backward := 1][Left := 2][Right := 3][RotLeft := 4][RotRight := 5]
                    [FofRight := 6][FofLeft := 7][FofUp := 8][FofDown := 9][Interact := 10][Use := 11][PickUp := 12];
    forall n ensures n in written && written[n] == WsadIndex(n) {
      match n {
        case Forward => case Backward => case Left => case Right => case RotLeft => case RotRight =>
        case FofRight => case FofLeft => case FofUp => case FofDown =>
        case Interact => case Use => case PickUp =>
      }
    }
    var layout := WsadLayout();
    assert written.Keys == layout.Keys;
    assert forall n | n in written :: written[n] == layout[n];
  }

  /** After the thirteen writes of the keyboard branch, each name holds its key code. */
  lemma KeyboardWriteAt(m: map<SignalName, int>, n: SignalName)
    ensures var written := m[Forward := 87][Backward := 83][RotLeft := 65][RotRight := 68][Left := 81][Right := 69]
                           [FofUp := 73][FofLeft := 76][FofDown := 75][FofRight := 74][Interact := 66][Use := 78][PickUp := 77];
            n in written && written[n] == KeyboardIndex(n)
  {
    match n {
      case Forward => case Backward => case RotLeft => case RotRight => case Left => case Right =>
      case FofUp => case FofLeft => case FofDown => case FofRight =>
      case Interact => case Use => case PickUp =>
    }
  }

  /** The thirteen writes of the keyboard branch of `Init` give the keyboard layout. */
  lemma KeyboardWrites(m: map<SignalName, int>)
    ensures m[Forward := 87][Backward := 83][RotLeft := 65][RotRight := 68][Left := 81][Right := 69]
             [FofUp := 73][FofLeft := 76][FofDown := 75][FofRight := 74][Interact := 66][Use := 78][PickUp := 77]
         == KeyboardLayout()
  {
    var written := m[Forward := 87][Backward := 83][RotLeft := 65][RotRight := 68][Left := 81][Right := 69]
                    [FofUp := 73][FofLeft := 76][FofDown := 75][FofRight := 74][Interact := 66][Use := 78][PickUp := 77];
    forall n ensures n in written && written[n] == KeyboardIndex(n) {
      KeyboardWriteAt(m, n);
    }
    var layout := KeyboardLayout();
    assert written.Keys == layout.Keys;
    assert forall n | n in written :: written[n] == layout[n];
  }

  // ---------------------------------------------------------------------------------
  // The update task
  // ---------------------------------------------------------------------------------

  /** The severities of the world's log. `Undeclared` stands for any other enum value. */
  datatype TWSeverity = Error | Warn | Info | Verbose | Debug | Undeclared(code: int)

  /** The host's log channels. */
  datatype HostLevel = ERROR | WARNING | INFO | DEBUG

  /** A message of the world's log; `text` is its string form. */
  datatype TWLogMessage = TWLogMessage(severity: TWSeverity, text: string)

  /** A line written to one of the host's log channels. */
  datatype LogLine = LogLine(level: HostLevel, text: string)

  const LogPrefix: string := "TWLog: "

  /** The host channel of a severity: errors, warnings and infos keep theirs, all else is debug. */
  function ChannelOf(severity: TWSeverity): (level: HostLevel)
    ensures level == ERROR <==> severity == Error
    ensures level == WARNING <==> severity == Warn
    ensures level == INFO <==> severity == Info
  {
    match severity
    case Error => ERROR
    case Warn => WARNING
    case Info => INFO
    case _ => DEBUG
  }

  /**
   * `PrintLogMessages`: each drained message becomes one line, in order, on its
   * severity's channel, with the "TWLog: " prefix.
   */
  method PrintLogMessages(messages: seq<TWLogMessage>) returns (lines: seq<LogLine>)
    ensures |lines| == |messages|
    ensures forall i | 0 <= i < |messages| ::
      lines[i].level == ChannelOf(messages[i].severity) && lines[i].text == LogPrefix + messages[i].text
  {
    lines := [];
    for i := 0 to |messages|
      invariant |lines| == i
      invariant forall j | 0 <= j < i ::
        lines[j].level == ChannelOf(messages[j].severity) && lines[j].text == LogPrefix + messages[j].text
    {
      lines := lines + [LogLine(ChannelOf(messages[i].severity), LogPrefix + messages[i].text)];
    }
  }

  /** The world's log: messages not yet drained. */
  class LogSource {
    var pending: seq<TWLogMessage>

    constructor (messages: seq<TWLogMessage>)
      ensures pending == messages
    {
      pending := messages;
    }
  }

  /**
   * `TWUpdateTask`: what it has written to the host log, how often it has advanced the
   * world, and how often it has restarted the frame-rate stopwatch.
   */
  class UpdateTask {
    var hostLog: seq<LogLine>
    var stepsMade: nat
    var stopwatchRestarts: nat

    /** `Init`: the stopwatch is started; nothing is logged or stepped yet. */
    constructor ()
      ensures hostLog == [] && stepsMade == 0 && stopwatchRestarts == 0
    {
      hostLog := [];
      stepsMade := 0;
      stopwatchRestarts := 0;
    }

    /**
     * `Execute`: on a step the gate skips, nothing is drained, logged or stepped. On an
     * executed step the pending messages are drained and forwarded, the stopwatch is
     * restarted if the frame-rate cap is on, and the world makes exactly one step.
     */
    method Execute(step: nat, runEvery: int, useFpsCap: bool, log: LogSource) returns (decision: GateDecision)
      modifies this, log
      ensures decision == StepGate(step, runEvery)
      ensures decision != Run ==> unchanged(this) && unchanged(log)
      ensures decision == Run ==>
        && log.pending == []
        && |hostLog| == |old(hostLog)| + |old(log.pending)|
        && hostLog[..|old(hostLog)|] == old(hostLog)
        && (forall i | 0 <= i < |old(log.pending)| ::
              hostLog[|old(hostLog)| + i] == LogLine(ChannelOf(old(log.pending)[i].severity), LogPrefix + old(log.pending)[i].text))
        && stepsMade == old(stepsMade) + 1
        && stopwatchRestarts == old(stopwatchRestarts) + (if useFpsCap then 1 else 0)
    {
      decision := StepGate(step, runEvery);
      if decision != Run {
        return;
      }
      var drained := log.pending;
      log.pending := [];
      var lines := PrintLogMessages(drained);
      hostLog := hostLog + lines;
      if useFpsCap {
        stopwatchRestarts := stopwatchRestarts + 1;
      }
      stepsMade := stepsMade + 1;
    }
  }
}
