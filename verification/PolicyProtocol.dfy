/**
 The policy arming and loading protocol of a control session.

 One control thread, any number of warm-up ("arm") threads, any number of loader
 threads and any number of teardown callers share the fields of `Shared`. Every
 locked section, and every assignment made outside a lock, is one atomic step; a
 thread's position between two steps is part of `System`.
 */
module PolicyProtocol {
  import opened Common

  /** A built policy source; ids are handed out once. */
  type SourceId = nat

  datatype Follower = Hold | Teleop | PolicyMode

  datatype ModelIdentity = ModelIdentity(modelId: nat, backend: string, device: string)

  datatype LoadCommand = LoadCommand(modelId: nat, backend: string, device: string, force: bool)

  function IdentityOf(command: LoadCommand): ModelIdentity {
    ModelIdentity(command.modelId, command.backend, command.device)
  }

  // ---------------------------------------------------------------- shared fields

  /** The fields guarded by `_policy_lock` or written by the control thread. */
  datatype Shared = Shared(
    policy: Option<SourceId>,
    attachedGen: nat,
    armGen: nat,
    arming: bool,
    modelLoaded: bool,
    identity: Option<ModelIdentity>,
    follower: Follower,
    errorEmitted: bool)

  const INITIAL_SHARED := Shared(None, 0, 0, false, false, None, Hold, false)

  /** `_cancel_arming_locked` */
  function CancelArming(sh: Shared): Shared {
    sh.(armGen := sh.armGen + 1, arming := false)
  }

  /** The locked part of `_set_policy`; a stale generation changes nothing. */
  function Attach(sh: Shared, source: SourceId, generation: nat, identity: ModelIdentity): Shared {
    if generation < sh.attachedGen then sh
    else CancelArming(sh).(policy := Some(source), attachedGen := generation,
                           modelLoaded := true, identity := Some(identity), errorEmitted := false)
  }

  /** The locked part of `_arm_policy`, once `reset` has succeeded. */
  function BeginArm(sh: Shared): Shared {
    sh.(errorEmitted := false, armGen := sh.armGen + 1, arming := true)
  }

  /** The final locked part of `_finish_arm`, and of `_arm_policy` without a snapshot. */
  function FinishArm(sh: Shared, source: SourceId, generation: nat): Shared {
    if generation != sh.armGen || sh.policy != Some(source) then sh
    else sh.(arming := false, follower := PolicyMode)
  }

  /** The locked part of `_finish_arm` after a failed warm-up. */
  function FailArm(sh: Shared, generation: nat): Shared {
    if generation != sh.armGen then sh else sh.(arming := false)
  }

  /** The locked part of `shutdown_policy`. */
  function Detach(sh: Shared): Shared {
    CancelArming(sh).(policy := None, modelLoaded := false, identity := None)
  }

  /** `_drop_policy_to_hold` */
  function DropToHold(sh: Shared): Shared {
    sh.(follower := Hold, identity := None, errorEmitted := true)
  }

  /** The guard of `_handle_load_model`: this load is skipped. */
  predicate Skips(sh: Shared, command: LoadCommand) {
    !command.force && sh.identity == Some(IdentityOf(command))
  }

  // ------------------------------------------------------------------ whole system

  /** Where the control thread stands inside a command handler. */
  datatype Control =
    | Idle
    | LoadChosen(command: LoadCommand)      // not skipped, identity not yet cleared
    | LoadCleared(command: LoadCommand)     // identity cleared, arming not yet cancelled
    | LoadCancelled(command: LoadCommand)   // arming cancelled, model_loaded not yet cleared
    | LoadUnmarked(command: LoadCommand)    // about to call PolicyLoader.request
    | Armed(source: SourceId, generation: nat)
    | SourceChange(requested: Follower)     // arming cancelled, follower not yet written

  datatype Loader =
    | Loading(command: LoadCommand)
    | Built(command: LoadCommand, source: SourceId)
    | Cleared(command: LoadCommand, source: SourceId)  // passed the staleness check
    | Retiring(source: SourceId)                       // about to disconnect `source`

  datatype Teardown = LoaderClosed | RetiringPolicy(source: SourceId)

  datatype Origin = Origin(generation: nat, identity: ModelIdentity)

  datatype System = System(
    sh: Shared,
    loaderGen: nat,
    control: Control,
    warmups: map<nat, SourceId>,     // in-flight arm threads by generation
    loaders: map<nat, Loader>,       // in-flight loader threads by generation
    teardowns: map<nat, Teardown>,   // callers inside shutdown_policy
    built: map<SourceId, Origin>,    // every source ever returned by _build_source
    log: seq<SourceId>)              // every disconnect call, in order

  const INITIAL := System(INITIAL_SHARED, 0, Idle, map[], map[], map[], map[], [])

  datatype Step =
    // control thread
    | HandleLoad(command: LoadCommand)
    | LoadClear
    | LoadCancelArming
    | LoadUnmark(connected: bool)
    | LoadRequest
    | Arm(resetOk: bool)
    | ArmWithoutSnapshot
    | ArmSpawn
    | ChangeSource(requested: Follower)
    | ChangeSourceEnd
    | Tick(updateRaises: bool)
    | LeaderLost
    // arm threads
    | WarmupDone(generation: nat)
    | WarmupFails(generation: nat)
    // loader threads
    | Build(generation: nat, source: SourceId)
    | BuildFails(generation: nat)
    | LoadFails(generation: nat)
    | Handover(generation: nat)
    | SetPolicy(generation: nat)
    | LoaderRetires(generation: nat)
    // teardown callers
    | CloseLoader(caller: nat)
    | DetachPolicy(caller: nat)
    | TeardownRetires(caller: nat)

  predicate Enabled(s: System, step: Step) {
    match step
    case HandleLoad(_) => s.control.Idle?
    case LoadClear => s.control.LoadChosen?
    case LoadCancelArming => s.control.LoadCleared?
    case LoadUnmark(_) => s.control.LoadCancelled?
    case LoadRequest => s.control.LoadUnmarked?
    case Arm(_) => s.control.Idle?
    case ArmWithoutSnapshot => s.control.Armed?
    case ArmSpawn => s.control.Armed?
    case ChangeSource(requested) => s.control.Idle? && requested != PolicyMode
    case ChangeSourceEnd => s.control.SourceChange?
    case Tick(_) => s.control.Idle?
    case LeaderLost => s.control.Idle?
    case WarmupDone(g) => g in s.warmups
    case WarmupFails(g) => g in s.warmups
    case Build(g, source) => g in s.loaders && s.loaders[g].Loading? && source !in s.built
    case BuildFails(g) => g in s.loaders && s.loaders[g].Loading?
    case LoadFails(g) => g in s.loaders && s.loaders[g].Built?
    case Handover(g) => g in s.loaders && s.loaders[g].Built?
    case SetPolicy(g) => g in s.loaders && s.loaders[g].Cleared?
    case LoaderRetires(g) => g in s.loaders && s.loaders[g].Retiring?
    case CloseLoader(t) => t !in s.teardowns
    case DetachPolicy(t) => t in s.teardowns && s.teardowns[t].LoaderClosed?
    case TeardownRetires(t) => t in s.teardowns && s.teardowns[t].RetiringPolicy?
  }

  function Next(s: System, step: Step): System
    requires Enabled(s, step)
  {
    match step
    case HandleLoad(command) =>
      if Skips(s.sh, command) then s else s.(control := LoadChosen(command))
    case LoadClear =>
      s.(sh := s.sh.(identity := None), control := LoadCleared(s.control.command))
    case LoadCancelArming =>
      s.(sh := CancelArming(s.sh), control := LoadCancelled(s.control.command))
    case LoadUnmark(connected) =>
      s.(sh := s.sh.(modelLoaded := false),
      control := if connected then LoadUnmarked(s.control.command) else Idle)
    case LoadRequest =>
      s.(loaderGen := s.loaderGen + 1, control := Idle,
      loaders := s.loaders[s.loaderGen + 1 := Loading(s.control.command)])
    case Arm(resetOk) =>
      if s.sh.policy.None? || !resetOk then s
      else s.(sh := BeginArm(s.sh), control := Armed(s.sh.policy.value, s.sh.armGen + 1))
    case ArmWithoutSnapshot =>
      s.(sh := FinishArm(s.sh, s.control.source, s.control.generation), control := Idle)
    case ArmSpawn =>
      s.(warmups := s.warmups[s.control.generation := s.control.source], control := Idle)
    case ChangeSource(requested) =>
      s.(sh := CancelArming(s.sh), control := SourceChange(requested))
    case ChangeSourceEnd =>
      s.(sh := s.sh.(follower := s.control.requested), control := Idle)
    case Tick(updateRaises) =>
      if s.sh.policy.None? || s.sh.arming || !updateRaises then s
      else s.(sh := DropToHold(s.sh))
    case LeaderLost =>
      s.(sh := s.sh.(follower := Hold))
    case WarmupDone(g) =>
      s.(sh := FinishArm(s.sh, s.warmups[g], g), warmups := s.warmups - {g})
    case WarmupFails(g) =>
      s.(sh := FailArm(s.sh, g), warmups := s.warmups - {g})
    case Build(g, source) =>
      s.(loaders := s.loaders[g := Built(s.loaders[g].command, source)],
      built := s.built[source := Origin(g, IdentityOf(s.loaders[g].command))])
    case BuildFails(g) =>
      s.(loaders := s.loaders - {g})
    case LoadFails(g) =>
      s.(loaders := s.loaders[g := Retiring(s.loaders[g].source)])
    case Handover(g) =>
      if g != s.loaderGen then
        s.(loaders := s.loaders - {g}, log := s.log + [s.loaders[g].source])
      else
        s.(loaders := s.loaders[g := Cleared(s.loaders[g].command, s.loaders[g].source)])
    case SetPolicy(g) =>
      var source := s.loaders[g].source;
      var previous := s.sh.policy;
      s.(sh := Attach(s.sh, source, g, IdentityOf(s.loaders[g].command)),
      loaders :=
        if g < s.sh.attachedGen then s.loaders[g := Retiring(source)]
        else if previous.Some? && previous.value != source then s.loaders[g := Retiring(previous.value)]
        else s.loaders - {g})
    case LoaderRetires(g) =>
      s.(loaders := s.loaders - {g}, log := s.log + [s.loaders[g].source])
    case CloseLoader(t) =>
      s.(loaderGen := s.loaderGen + 1, teardowns := s.teardowns[t := LoaderClosed])
    case DetachPolicy(t) =>
      s.(sh := Detach(s.sh),
      teardowns := if s.sh.policy.Some? then s.teardowns[t := RetiringPolicy(s.sh.policy.value)]
                   else s.teardowns - {t})
    case TeardownRetires(t) =>
      s.(teardowns := s.teardowns - {t}, log := s.log + [s.teardowns[t].source])
  }

  // --------------------------------------------------------------------------- runs

  /** `steps` can be taken one after the other from `s`. */
  predicate Legal(s: System, steps: seq<Step>)
    decreases |steps|, 0
  {
    steps == [] ||
    var front := steps[..|steps| - 1];
    Legal(s, front) && Enabled(Exec(s, front), steps[|steps| - 1])
  }

  /** The state that `steps` lead to. */
  function Exec(s: System, steps: seq<Step>): System
    requires Legal(s, steps)
    decreases |steps|, 1
  {
    if steps == [] then s
    else Next(Exec(s, steps[..|steps| - 1]), steps[|steps| - 1])
  }

  ghost predicate Reachable(s: System) {
    exists steps :: Legal(INITIAL, steps) && Exec(INITIAL, steps) == s
  }

  /** A run with the states it goes through. */
  ghost predicate Run(states: seq<System>, steps: seq<Step>) {
    && |states| == |steps| + 1
    && states[0] == INITIAL
    && forall i {:trigger steps[i]} :: 0 <= i < |steps| ==> Enabled(states[i], steps[i]) && states[i + 1] == Next(states[i], steps[i])
  }
}
