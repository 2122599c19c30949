/**
 The action source and the policy loader as the objects the session owns. Each method is
 one handler or locked section run without interference, and is tied to the step
 functions whose interleavings `PolicySafety` and `Teleoperation` reason about.
 */
module ActionSource {
  import opened Common
  import opened PolicyProtocol
  import opened Teleoperation

  class PolicyLoader {
    var generation: nat

    constructor ()
      ensures generation == 0
    {
      generation := 0;
    }

    /** The locked part of `request`: the thread that is started carries `mine`. */
    method Request() returns (mine: nat)
      modifies this
      ensures generation == old(generation) + 1 && mine == generation
    {
      generation := generation + 1;
      mine := generation;
    }

    method Shutdown()
      modifies this
      ensures generation == old(generation) + 1
    {
      generation := generation + 1;
    }

    /** The locked part of `_handover`: may the caller go on to attach? */
    method Handover(mine: nat) returns (current: bool)
      ensures current <==> mine == generation
    {
      current := mine == generation;
    }
  }

  class StudioActionSource {
    var policy: Option<SourceId>
    var attachedGeneration: nat
    var armGeneration: nat
    var arming: bool
    var modelLoaded: bool
    var loadedIdentity: Option<ModelIdentity>
    var followerSource: Follower
    var policyErrorEmitted: bool
    const hasLeader: bool
    const maxLeaderFailures: nat
    var leaderReadsEnabled: bool
    var leaderFailures: nat
    var lastLeaderTimestamp: Option<real>
    var lastLeaderAction: Option<Pose>
    var holdTarget: Option<Pose>
    const loader: PolicyLoader

    /** The fields shared with loader, arm and teardown threads. */
    ghost function Policy(): Shared
      reads this
    {
      Shared(policy, attachedGeneration, armGeneration, arming, modelLoaded, loadedIdentity,
             followerSource, policyErrorEmitted)
    }

    ghost function LeaderState(): Leader
      reads this
    {
      Leader(hasLeader, leaderReadsEnabled, leaderFailures, maxLeaderFailures,
             lastLeaderTimestamp, lastLeaderAction, holdTarget)
    }

    constructor (leader: bool, fps: real)
      ensures Policy() == INITIAL_SHARED
      ensures LeaderState() == InitialLeader(leader, FailureLimit(fps))
      ensures fresh(loader) && loader.generation == 0
    {
      policy, attachedGeneration, armGeneration, arming := None, 0, 0, false;
      modelLoaded, loadedIdentity, followerSource, policyErrorEmitted := false, None, Hold, false;
      hasLeader, maxLeaderFailures, leaderReadsEnabled := leader, FailureLimit(fps), leader;
      leaderFailures, lastLeaderTimestamp, lastLeaderAction, holdTarget := 0, None, None, None;
      loader := new PolicyLoader();
    }

    method CancelArmingLocked()
      modifies this
      ensures Policy() == CancelArming(old(Policy())) && LeaderState() == old(LeaderState())
    {
      armGeneration := armGeneration + 1;
      arming := false;
    }

    /** `_set_policy`; `retire` is the source this caller must disconnect afterwards. */
    method SetPolicy(source: SourceId, generation: nat, identity: ModelIdentity) returns (retire: Option<SourceId>)
      modifies this
      ensures Policy() == Attach(old(Policy()), source, generation, identity)
      ensures LeaderState() == old(LeaderState())
      ensures retire == if generation < old(attachedGeneration) then Some(source)
                        else if old(policy) == Some(source) then None
                        else old(policy)
    {
      var previous: Option<SourceId> := None;
      var stale := generation < attachedGeneration;
      if !stale {
        CancelArmingLocked();
        previous := policy;
        policy := Some(source);
        attachedGeneration := generation;
        modelLoaded := true;
        loadedIdentity := Some(identity);
        policyErrorEmitted := false;
      }
      if stale {
        return Some(source);
      }
      if previous.Some? && previous.value != source {
        return previous;
      }
      return None;
    }

    /** The locked part of `_arm_policy`; `Some(g)` hands generation `g` to a warm-up. */
    method ArmPolicy(resetOk: bool) returns (armed: Option<nat>)
      modifies this
      ensures LeaderState() == old(LeaderState())
      ensures armed.Some? <==> old(policy).Some? && resetOk
      ensures armed.Some? ==> armed.value == armGeneration && Policy() == BeginArm(old(Policy()))
      ensures armed.Some? ==> arming && armGeneration == old(armGeneration) + 1 && followerSource == old(followerSource)
      ensures armed.None? ==> Policy() == old(Policy())
    {
      if policy.None? || !resetOk {
        return None;
      }
      policyErrorEmitted := false;
      armGeneration := armGeneration + 1;
      arming := true;
      return Some(armGeneration);
    }

    /** The locked end of `_finish_arm`. */
    method FinishWarmup(source: SourceId, generation: nat, warm: bool) returns (switched: bool)
      modifies this
      ensures LeaderState() == old(LeaderState())
      ensures Policy() == if warm then FinishArm(old(Policy()), source, generation)
                          else FailArm(old(Policy()), generation)
      ensures switched <==> warm && generation == old(armGeneration) && old(policy) == Some(source)
      ensures followerSource == if switched then PolicyMode else old(followerSource)
      ensures switched || (!warm && generation == old(armGeneration)) ==> !arming
    {
      switched := false;
      if !warm {
        if generation != armGeneration {
          return;
        }
        arming := false;
        return;
      }
      if generation != armGeneration || policy != Some(source) {
        return;
      }
      arming := false;
      followerSource := PolicyMode;
      switched := true;
    }

    /** `shutdown_policy`; the returned source is disconnected by the caller. */
    method ShutdownPolicy() returns (retire: Option<SourceId>)
      modifies this, loader
      ensures loader.generation == old(loader.generation) + 1
      ensures Policy() == Detach(old(Policy())) && LeaderState() == old(LeaderState())
      ensures retire == old(policy)
    {
      loader.Shutdown();
      CancelArmingLocked();
      retire := policy;
      policy := None;
      modelLoaded := false;
      loadedIdentity := None;
    }

    /** `_handle_load_model`; `Some(g)` means a loader thread of generation `g` is started. */
    method HandleLoadModel(command: LoadCommand, connected: bool) returns (requested: Option<nat>)
      modifies this, loader
      ensures LeaderState() == old(LeaderState())
      ensures requested.Some? <==> connected && !Skips(old(Policy()), command)
      ensures requested.Some? ==> requested.value == loader.generation == old(loader.generation) + 1
      ensures requested.None? ==> loader.generation == old(loader.generation)
      ensures Policy() == if Skips(old(Policy()), command) then old(Policy())
                          else CancelArming(old(Policy())).(identity := None, modelLoaded := false)
    {
      if !command.force && loadedIdentity == Some(IdentityOf(command)) {
        return None;
      }
      loadedIdentity := None;
      CancelArmingLocked();
      modelLoaded := false;
      if !connected {
        return None;
      }
      var g := loader.Request();
      return Some(g);
    }

    /** `_handle_stop_task` */
    method HandleStopTask(current: Pose)
      modifies this
      ensures Policy() == CancelArming(old(Policy())).(follower := Hold)
      ensures LeaderState() == if old(followerSource).Hold? then old(LeaderState())
                               else old(LeaderState()).(hold := Some(current))
    {
      CancelArmingLocked();
      if followerSource == Hold {
        return;
      }
      followerSource := Hold;
      holdTarget := Some(current);
    }

    /** `_handle_set_follower_source` for hold and teleoperation. */
    method HandleSetFollowerSource(requested: Follower, current: Pose) returns (accepted: bool)
      requires requested != PolicyMode
      modifies this
      ensures accepted <==> requested.Hold? || (hasLeader && old(leaderReadsEnabled))
      ensures !accepted ==> Policy() == old(Policy()) && LeaderState() == old(LeaderState())
      ensures accepted ==> Policy() == CancelArming(old(Policy())).(follower := requested)
      ensures accepted ==> LeaderState() ==
                           if requested.Hold? && !old(followerSource).Hold?
                           then old(LeaderState()).(hold := Some(current)) else old(LeaderState())
    {
      if requested == Teleop && !hasLeader {
        return false;
      }
      if requested == Teleop && !leaderReadsEnabled {
        return false;
      }
      accepted := true;
      CancelArmingLocked();
      if requested == followerSource {
        return;
      }
      followerSource := requested;
      if requested == Hold {
        holdTarget := Some(current);
      }
    }

    /** The checks of `_read_leader` on one observation. */
    method Acceptable(reading: Reading, current: Pose) returns (ok: bool)
      ensures ok <==> Accepts(LeaderState(), reading, current)
    {
      ok := reading.Observed?;
      if ok && lastLeaderTimestamp.Some? && reading.time <= lastLeaderTimestamp.value {
        ok := false;
      }
      if ok && |reading.joints| != |current| {
        ok := false;
      }
    }

    /** `_disable_failed_leader` */
    method DisableFailedLeader(current: Pose)
      modifies this
      ensures LeaderState() == old(LeaderState()).(enabled := false, hold := Some(current))
      ensures Policy() == old(Policy()).(follower := Hold)
    {
      leaderReadsEnabled := false;
      holdTarget := Some(current);
      followerSource := Hold;
    }

    /** `_read_leader` */
    method ReadLeaderArm(reading: Reading, current: Pose) returns (action: Option<Pose>)
      modifies this
      ensures var (l, f, a) := ReadLeader(old(LeaderState()), old(followerSource), reading, current);
              LeaderState() == l && action == a && Policy() == old(Policy()).(follower := f)
    {
      if !hasLeader {
        return None;
      }
      var ok := Acceptable(reading, current);
      if !ok {
        leaderFailures := leaderFailures + 1;
        if leaderFailures >= maxLeaderFailures {
          DisableFailedLeader(current);
        }
        return if lastLeaderAction.Some? then lastLeaderAction else holdTarget;
      }
      leaderFailures := 0;
      lastLeaderTimestamp := Some(reading.time);
      lastLeaderAction := Some(reading.joints);
      return Some(reading.joints);
    }

    /** `_policy_action`; `outcome` is what `policy.update` does when it is called. */
    method PolicyAction(outcome: PolicyOutcome, current: Pose) returns (used: PolicyOutcome)
      modifies this
      ensures used == if old(policy).None? || old(arming) then NoAction else outcome
      ensures used.Raises? ==> Policy() == DropToHold(old(Policy()))
                               && LeaderState() == old(LeaderState()).(hold := Some(current))
      ensures !used.Raises? ==> Policy() == old(Policy()) && LeaderState() == old(LeaderState())
    {
      if policy.None? || arming {
        return NoAction;
      }
      if outcome.Raises? {
        holdTarget := Some(current);
        followerSource := Hold;
        loadedIdentity := None;
        policyErrorEmitted := true;
      }
      return outcome;
    }

    /** The end of `update`: what the mode selects. */
    method Select(leaderAction: Option<Pose>, action: PolicyOutcome) returns (pose: Pose)
      requires holdTarget.Some?
      ensures pose == if followerSource.Teleop? && leaderAction.Some? then leaderAction.value
                      else if followerSource.PolicyMode? && action.Action? then action.pose
                      else holdTarget.value
    {
      if followerSource == Teleop && leaderAction.Some? {
        return leaderAction.value;
      }
      if followerSource == PolicyMode && action.Action? {
        return action.pose;
      }
      return holdTarget.value;
    }

    /** The leader part of `update`. */
    method TrackLeader(reading: Reading, current: Pose) returns (leaderAction: Option<Pose>)
      modifies this
      ensures (LeaderState(), followerSource, leaderAction) ==
              Track(old(LeaderState()), old(followerSource), reading, current)
      ensures holdTarget.Some?
      ensures Policy() == old(Policy()).(follower := followerSource)
    {
      if holdTarget.None? {
        holdTarget := Some(current);
      }
      if leaderReadsEnabled {
        leaderAction := ReadLeaderArm(reading, current);
      } else {
        leaderAction := lastLeaderAction;
      }
    }

    /** `update` after draining the mailbox. */
    method Update(reading: Reading, current: Pose, outcome: PolicyOutcome)
      returns (pose: Pose, ghost used: PolicyOutcome)
      modifies this
      ensures used == if old(policy).None? || old(arming) then NoAction else outcome
      ensures var tick := ControlTick(old(LeaderState()), old(followerSource), reading, current, used, NotInside);
              LeaderState() == tick.leader && followerSource == tick.follower && pose == tick.pose
      ensures Policy() == if used.Raises? then DropToHold(old(Policy()))
                          else old(Policy()).(follower := followerSource)
    {
      var leaderAction := TrackLeader(reading, current);
      var action := PolicyAction(outcome, current);
      used := action;
      pose := Select(leaderAction, action);
    }

    /** `disconnect`: clears per-run leader state and leaves the policy alone. */
    method Disconnect()
      modifies this
      ensures Policy() == old(Policy()) && LeaderState() == Forget(old(LeaderState()))
    {
      holdTarget := None;
      lastLeaderAction := None;
      lastLeaderTimestamp := None;
      leaderFailures := 0;
      leaderReadsEnabled := hasLeader;
    }
  }
}
