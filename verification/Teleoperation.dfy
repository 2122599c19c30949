/**
 Leader reads and the action chosen on each control tick, with the bound on how long a
 stale leader action can drive the follower.
 */
module Teleoperation {
  import opened Common
  import opened PolicyProtocol

  type Pose = seq<real>

  /** One attempt to read the leader arm: an observation, or an exception. */
  datatype Reading = Observed(time: real, joints: Pose) | Unreadable

  /** What the attached policy did on this tick. */
  datatype PolicyOutcome = NoAction | Action(pose: Pose) | Raises

  /** The leader fields of the action source. */
  datatype Leader = Leader(
    present: bool,
    enabled: bool,
    failures: nat,
    limit: nat,
    lastTime: Option<real>,
    lastAction: Option<Pose>,
    hold: Option<Pose>)

  /** `max(1, int(3 * fps))` */
  function FailureLimit(fps: real): (limit: nat)
    ensures limit >= 1
    ensures 3.0 * fps >= 1.0 ==> limit as real <= 3.0 * fps < limit as real + 1.0
  {
    var ticks := (3.0 * fps).Floor;
    if ticks < 1 then 1 else ticks
  }

  function InitialLeader(present: bool, limit: nat): Leader {
    Leader(present, present, 0, limit, None, None, None)
  }

  /** `disconnect`: forget the run, keep the robot. */
  function Forget(l: Leader): Leader {
    InitialLeader(l.present, l.limit)
  }

  /** The reading is newer than the last accepted one and has the follower's shape. */
  predicate Accepts(l: Leader, reading: Reading, current: Pose) {
    && reading.Observed?
    && (l.lastTime.Some? ==> l.lastTime.value < reading.time)
    && |reading.joints| == |current|
  }

  /** `_read_leader`, with `_disable_failed_leader`. */
  function ReadLeader(l: Leader, follower: Follower, reading: Reading, current: Pose)
    : (Leader, Follower, Option<Pose>)
  {
    if !l.present then (l, follower, None)
    else if Accepts(l, reading, current) then
      (l.(failures := 0, lastTime := Some(reading.time), lastAction := Some(reading.joints)),
       follower, Some(reading.joints))
    else
      var counted := l.(failures := l.failures + 1);
      var disabled := l.limit <= counted.failures;
      var next := if disabled then counted.(enabled := false, hold := Some(current)) else counted;
      (next, if disabled then Hold else follower,
       if next.lastAction.Some? then next.lastAction else next.hold)
  }

  /** Where inside a tick an arm thread switches the follower, if at all: after the leader is
      read, or after the policy is asked and before the first or the second look at the mode. */
  datatype ArmEnd = NotInside | BeforePolicy | BeforeChoice | BetweenTests

  /** One tick: the fields it leaves, the pose it commands, and whether that is the leader's. */
  datatype Ticking = Ticking(leader: Leader, follower: Follower, pose: Pose, led: bool)

  /** A live arm keeps the policy from being asked, so one that ends later leaves no action. */
  function Asked(policy: PolicyOutcome, arm: ArmEnd): PolicyOutcome {
    if arm.BeforeChoice? || arm.BetweenTests? then NoAction else policy
  }

  /** The leader part of `update`. */
  function Track(l: Leader, follower: Follower, reading: Reading, current: Pose): (Leader, Follower, Option<Pose>) {
    var held := if l.hold.None? then l.(hold := Some(current)) else l;
    if held.enabled then ReadLeader(held, follower, reading, current) else (held, follower, held.lastAction)
  }

  /** The part of `update` after the commands are drained. */
  function ControlTick(l: Leader, follower: Follower, reading: Reading, current: Pose, policy: PolicyOutcome,
                       arm: ArmEnd): Ticking
  {
    var (read, mode, action) := Track(l, follower, reading, current);
    var used := Asked(policy, arm);
    var after := if used.Raises? then read.(hold := Some(current)) else read;
    var asked := if used.Raises? then Hold else if arm.BeforePolicy? then PolicyMode else mode;
    var first := if arm.BeforeChoice? then PolicyMode else asked;
    var second := if arm.BetweenTests? then PolicyMode else first;
    var led := first.Teleop? && action.Some?;
    Ticking(after, second,
         if led then action.value
         else if second.PolicyMode? && used.Action? then used.pose
         else after.hold.value,
         led)
  }

  // ---------------------------------------------------------------------------- runs

  datatype Event =
    | Ticked(reading: Reading, current: Pose, policy: PolicyOutcome, arm: ArmEnd)
    | Requested(follower: Follower, current: Pose)   // set_follower_source or stop_task
    | ArmFinished                                    // an arm thread switched the follower between ticks
    | Disconnected

  /** An observation of the leader that was accepted. */
  datatype Accepted = Accepted(time: real, joints: Pose)

  /** A run as the robot sees it. `accepted`: the observations accepted since the last disconnect.
      `misses`: ticks since the last of them, or the disconnect, on which the leader was read in
      vain. `streak`: the consecutive ticks so far on which a leader action that was not fresh
      drove the follower. */
  datatype Session =
    Session(leader: Leader, follower: Follower, accepted: seq<Accepted>, misses: nat, streak: nat)

  /** The reading is newer than every accepted one and has the follower's shape. */
  predicate Good(accepted: seq<Accepted>, reading: Reading, current: Pose) {
    && reading.Observed? && |reading.joints| == |current|
    && forall i :: 0 <= i < |accepted| ==> accepted[i].time < reading.time
  }

  /** The leader is read on this tick, and the reading is good. */
  predicate Fresh(s: Session, e: Event)
    requires e.Ticked?
  {
    s.leader.enabled && Good(s.accepted, e.reading, e.current)
  }

  /** The leader is read in vain for the `limit`-th time in a row. */
  predicate ReachesLimit(s: Session, e: Event) {
    e.Ticked? && s.leader.enabled && !Good(s.accepted, e.reading, e.current) && s.misses + 1 == s.leader.limit
  }

  function TickOf(s: Session, e: Event): Ticking
    requires e.Ticked?
  {
    ControlTick(s.leader, s.follower, e.reading, e.current, e.policy, e.arm)
  }

  function ReactTick(s: Session, e: Event): Session
    requires e.Ticked?
  {
    var tick := TickOf(s, e);
    Session(tick.leader, tick.follower,
            if Fresh(s, e) then s.accepted + [Accepted(e.reading.time, e.reading.joints)] else s.accepted,
            if Fresh(s, e) then 0 else if s.leader.enabled then s.misses + 1 else s.misses,
            if tick.led && !Fresh(s, e) then s.streak + 1 else 0)
  }

  function React(s: Session, e: Event): Session {
    match e
    case Ticked(_, _, _, _) => ReactTick(s, e)
    case Requested(Teleop, _) =>
      if s.leader.present && s.leader.enabled then s.(follower := Teleop) else s
    case Requested(Hold, current) =>
      s.(follower := Hold, leader := if s.follower.Hold? then s.leader else s.leader.(hold := Some(current)))
    case Requested(PolicyMode, _) => s
    case ArmFinished => s.(follower := PolicyMode)
    case Disconnected => Session(Forget(s.leader), s.follower, [], 0, 0)
  }

  function Replay(present: bool, limit: nat, events: seq<Event>): Session {
    if events == [] then Session(InitialLeader(present, limit), Hold, [], 0, 0)
    else React(Replay(present, limit, events[..|events| - 1]), events[|events| - 1])
  }

  predicate Increasing(accepted: seq<Accepted>) {
    forall i, j :: 0 <= i < j < |accepted| ==> accepted[i].time < accepted[j].time
  }

  predicate SessionInv(s: Session, limit: nat) {
    && s.leader.limit == limit
    && (s.leader.enabled <==> s.leader.present && s.misses < limit)
    && s.leader.failures == s.misses && s.streak <= s.misses
    && (s.follower.Teleop? ==> s.leader.enabled)
    && (!s.leader.enabled ==> s.streak == 0)
    && Increasing(s.accepted)
    && (if s.accepted == [] then s.leader.lastTime.None? && s.leader.lastAction.None?
        else s.leader.lastTime == Some(s.accepted[|s.accepted| - 1].time)
             && s.leader.lastAction == Some(s.accepted[|s.accepted| - 1].joints))
  }

  /** The last accepted time stands for all of them. */
  lemma GoodIsAccepted(s: Session, limit: nat, reading: Reading, current: Pose)
    requires SessionInv(s, limit)
    ensures Good(s.accepted, reading, current) <==> Accepts(s.leader, reading, current)
  {
    if s.accepted != [] && Accepts(s.leader, reading, current) {
      var n := |s.accepted| - 1;
      forall i | 0 <= i < |s.accepted| ensures s.accepted[i].time < reading.time {
        assert i < n ==> s.accepted[i].time < s.accepted[n].time;
      }
    }
  }

  /** What the leader part of a tick does, case by case. */
  lemma TrackKeeps(s: Session, e: Event, limit: nat)
    requires limit >= 1 && SessionInv(s, limit) && e.Ticked?
    ensures var (m, f, action) := Track(s.leader, s.follower, e.reading, e.current);
            && m.limit == limit && m.present == s.leader.present
            && m.lastTime == (if Fresh(s, e) then Some(e.reading.time) else s.leader.lastTime)
            && m.lastAction == (if Fresh(s, e) then Some(e.reading.joints) else s.leader.lastAction)
            && m.failures == (if Fresh(s, e) then 0 else if s.leader.enabled then s.misses + 1 else s.misses)
            && m.enabled == (s.leader.enabled && !ReachesLimit(s, e))
            && f == (if ReachesLimit(s, e) then Hold else s.follower)
            && m.hold == Some(if s.leader.hold.None? || ReachesLimit(s, e) then e.current else s.leader.hold.value)
            && action == (if m.lastAction.Some? then m.lastAction
                          else if s.leader.enabled then m.hold else None)
  {
    GoodIsAccepted(s, limit, e.reading, e.current);
  }

  lemma TickKeepsInv(s: Session, e: Event, limit: nat)
    requires limit >= 1 && SessionInv(s, limit) && e.Ticked?
    ensures SessionInv(React(s, e), limit)
  {
    TrackKeeps(s, e, limit);
  }

  lemma ReactKeepsInv(s: Session, e: Event, limit: nat)
    requires limit >= 1 && SessionInv(s, limit)
    ensures SessionInv(React(s, e), limit)
  {
    if e.Ticked? {
      TickKeepsInv(s, e, limit);
    }
  }

  /** In every run of a session: the leader is read exactly until `limit` readings in a row were in
      vain; teleoperation implies a leader whose reads are enabled; accepted timestamps strictly
      increase; and a stale leader action drives the follower on fewer than `limit` consecutive
      ticks. */
  lemma {:induction false} TeleoperationIsBounded(present: bool, limit: nat, events: seq<Event>)
    requires limit >= 1
    ensures var s := Replay(present, limit, events);
            && SessionInv(s, limit)
            && (s.leader.enabled <==> s.leader.present && s.misses < limit)
            && (s.follower.Teleop? ==> s.leader.present && s.leader.enabled)
            && Increasing(s.accepted)
            && s.streak < limit
  {
    if events != [] {
      TeleoperationIsBounded(present, limit, events[..|events| - 1]);
      ReactKeepsInv(Replay(present, limit, events[..|events| - 1]), events[|events| - 1], limit);
    }
  }

  /** Where the session stands after the first `n` events. */
  function After(present: bool, limit: nat, events: seq<Event>, n: nat): Session
    requires n <= |events|
  {
    Replay(present, limit, events[..n])
  }

  lemma AfterNext(present: bool, limit: nat, events: seq<Event>, n: nat)
    requires n < |events|
    ensures After(present, limit, events, n + 1) == React(After(present, limit, events, n), events[n])
  {
    assert events[..n + 1][..n] == events[..n];
  }

  lemma LimitTick(s: Session, e: Event)
    requires s.leader.limit >= 1 && SessionInv(s, s.leader.limit) && ReachesLimit(s, e)
    ensures var tick := TickOf(s, e);
            && !tick.led && !tick.leader.enabled
            && tick.pose == (if e.arm.BeforePolicy? && e.policy.Action? then e.policy.pose else e.current)
            && tick.follower == if e.arm.NotInside? || (e.arm.BeforePolicy? && e.policy.Raises?) then Hold
                                else PolicyMode
  {
    TrackKeeps(s, e, s.leader.limit);
  }

  lemma DisabledStaysOut(s: Session, e: Event, limit: nat)
    requires limit >= 1 && SessionInv(s, limit) && !s.leader.enabled && s.follower != Teleop && !e.Disconnected?
    ensures React(s, e).follower != Teleop && !React(s, e).leader.enabled && React(s, e).streak == 0
  {
    ReactKeepsInv(s, e, limit);
    if e.Ticked? {
      TrackKeeps(s, e, limit);
    }
  }

  /** The leader's reads are off and the follower is not in teleoperation. */
  predicate Out(s: Session) {
    s.follower != Teleop && !s.leader.enabled && s.streak == 0
  }

  lemma {:induction false} StaysOut(present: bool, limit: nat, events: seq<Event>, n: nat, m: nat)
    requires limit >= 1 && n <= m <= |events| && Out(After(present, limit, events, n))
    requires forall i :: n <= i < m ==> !events[i].Disconnected?
    ensures Out(After(present, limit, events, m))
    decreases m
  {
    if n < m {
      StaysOut(present, limit, events, n, m - 1);
      var s := After(present, limit, events, m - 1);
      TeleoperationIsBounded(present, limit, events[..m - 1]);
      AfterNext(present, limit, events, m - 1);
      DisabledStaysOut(s, events[m - 1], limit);
    }
  }

  // --------------------------------------------------------------------- what a tick commands

  /** The last accepted joints; before the first, the hold target, which is the follower's own pose
      if there is none. */
  function Replayed(s: Session, current: Pose): Pose {
    if s.accepted != [] then s.accepted[|s.accepted| - 1].joints
    else if s.leader.hold.Some? then s.leader.hold.value
    else current
  }

  lemma LedPose(s: Session, e: Event, limit: nat)
    requires limit >= 1 && SessionInv(s, limit) && e.Ticked?
    ensures TickOf(s, e).led <==>
            && s.follower.Teleop? && !ReachesLimit(s, e)
            && (e.arm.BetweenTests? || (e.arm.NotInside? && !e.policy.Raises?))
    ensures TickOf(s, e).led ==> TickOf(s, e).pose == if Fresh(s, e) then e.reading.joints else Replayed(s, e.current)
  {
    TrackKeeps(s, e, limit);
  }

  /** In every run, the leader drives the follower exactly on the ticks that begin in teleoperation,
      do not reach the limit, and are not cut short by a raising policy or by an arm that ends
      before the mode is looked at. A fresh reading is then what the follower receives; otherwise
      it is the last accepted one. Either way the pose has the follower's shape. */
  lemma LeaderIsFollowed(present: bool, limit: nat, events: seq<Event>, n: nat)
    requires limit >= 1 && n < |events| && events[n].Ticked?
    ensures var s := After(present, limit, events, n); var e := events[n]; var tick := TickOf(s, e);
            && (tick.led <==>
                  && s.follower.Teleop? && !ReachesLimit(s, e)
                  && (e.arm.BetweenTests? || (e.arm.NotInside? && !e.policy.Raises?)))
            && (tick.led && Fresh(s, e) ==> tick.pose == e.reading.joints && |tick.pose| == |e.current|)
            && (tick.led && !Fresh(s, e) ==> tick.pose == Replayed(s, e.current))
  {
    TeleoperationIsBounded(present, limit, events[..n]);
    LedPose(After(present, limit, events, n), events[n], limit);
  }

  lemma OtherPose(s: Session, e: Event, limit: nat)
    requires limit >= 1 && SessionInv(s, limit) && e.Ticked? && !TickOf(s, e).led
    ensures var tick := TickOf(s, e); var raises := e.policy.Raises? && (e.arm.NotInside? || e.arm.BeforePolicy?);
            && tick.leader.hold ==
               Some(if s.leader.hold.None? || ReachesLimit(s, e) || raises then e.current else s.leader.hold.value)
            && tick.follower ==
               (if e.arm.BeforeChoice? || e.arm.BetweenTests? then PolicyMode
                else if raises then Hold
                else if e.arm.BeforePolicy? then PolicyMode
                else if ReachesLimit(s, e) then Hold else s.follower)
            && tick.pose == (if tick.follower.PolicyMode? && e.policy.Action? && (e.arm.NotInside? || e.arm.BeforePolicy?)
                             then e.policy.pose else tick.leader.hold.value)
  {
    TrackKeeps(s, e, limit);
  }

  /** In every run, a tick the leader does not drive commands the policy's action in policy mode,
      if it was asked and gave one, and otherwise the hold target. The hold target is the pose the
      follower had when it was set: on the first tick, when the leader fails, or when the policy
      raises, in which case the follower ends in hold. */
  lemma OtherwisePolicyOrHold(present: bool, limit: nat, events: seq<Event>, n: nat)
    requires limit >= 1 && n < |events| && events[n].Ticked?
    requires !TickOf(After(present, limit, events, n), events[n]).led
    ensures var s := After(present, limit, events, n); var e := events[n]; var tick := TickOf(s, e);
            var raises := e.policy.Raises? && (e.arm.NotInside? || e.arm.BeforePolicy?);
            && tick.leader.hold ==
               Some(if s.leader.hold.None? || ReachesLimit(s, e) || raises then e.current else s.leader.hold.value)
            && (raises ==> tick.follower.Hold? && tick.pose == e.current)
            && tick.pose == (if tick.follower.PolicyMode? && e.policy.Action? && (e.arm.NotInside? || e.arm.BeforePolicy?)
                             then e.policy.pose else tick.leader.hold.value)
            && (e.arm.NotInside? && !raises && !ReachesLimit(s, e) ==> tick.follower == s.follower)
  {
    TeleoperationIsBounded(present, limit, events[..n]);
    OtherPose(After(present, limit, events, n), events[n], limit);
  }

  /** The follower is in hold at this pose. */
  predicate HoldsAt(s: Session, pose: Pose) {
    s.follower.Hold? && s.leader.hold == Some(pose)
  }

  /** An event that neither moves a held follower nor takes it out of hold. */
  predicate LeavesHold(s: Session, e: Event) {
    match e
    case Ticked(_, _, policy, arm) => arm.NotInside? && !policy.Raises? && !ReachesLimit(s, e)
    case Requested(follower, _) => !follower.Teleop?
    case _ => false
  }

  lemma HoldNext(s: Session, e: Event, limit: nat, pose: Pose)
    requires limit >= 1 && SessionInv(s, limit) && HoldsAt(s, pose) && LeavesHold(s, e)
    ensures HoldsAt(React(s, e), pose) && (e.Ticked? ==> TickOf(s, e).pose == pose)
  {
    if e.Ticked? {
      LedPose(s, e, limit);
      OtherPose(s, e, limit);
    }
  }

  predicate LeavesHoldAt(present: bool, limit: nat, events: seq<Event>, n: nat)
    requires n < |events|
  {
    LeavesHold(After(present, limit, events, n), events[n])
  }

  /** In every run, a request for hold keeps the follower at the pose it had at the request, on every
      tick, until it leaves hold, its leader fails, its policy raises or it disconnects. */
  lemma {:induction false} HoldStaysPut(present: bool, limit: nat, events: seq<Event>, n: nat, m: nat)
    requires limit >= 1 && n < m <= |events|
    requires events[n].Requested? && events[n].follower.Hold? && After(present, limit, events, n).follower != Hold
    requires forall i :: n < i < m ==> LeavesHoldAt(present, limit, events, i)
    ensures HoldsAt(After(present, limit, events, m), events[n].current)
    ensures m < |events| && events[m].Ticked? && LeavesHoldAt(present, limit, events, m) ==>
              TickOf(After(present, limit, events, m), events[m]).pose == events[n].current
    decreases m
  {
    AfterNext(present, limit, events, n);
    if n + 1 < m {
      HoldStaysPut(present, limit, events, n, m - 1);
      AfterNext(present, limit, events, m - 1);
      TeleoperationIsBounded(present, limit, events[..m - 1]);
      assert LeavesHoldAt(present, limit, events, m - 1);
      HoldNext(After(present, limit, events, m - 1), events[m - 1], limit, events[n].current);
    }
    if m < |events| && events[m].Ticked? && LeavesHoldAt(present, limit, events, m) {
      TeleoperationIsBounded(present, limit, events[..m]);
      HoldNext(After(present, limit, events, m), events[m], limit, events[n].current);
    }
  }

  /** In every run, the tick that reaches the limit leaves teleoperation and does not command the
      leader's pose, and from then on no request enters teleoperation until the session
      disconnects. It commands the pose the follower has now, unless an arm that ended before
      the policy was asked makes the policy act; and it ends in hold unless an arm ended inside. */
  lemma LimitLeavesTeleop(present: bool, limit: nat, events: seq<Event>, n: nat, m: nat)
    requires limit >= 1 && n < m <= |events|
    requires ReachesLimit(After(present, limit, events, n), events[n])
    requires forall i :: n < i < m ==> !events[i].Disconnected?
    ensures var e := events[n]; var tick := TickOf(After(present, limit, events, n), e);
            && !tick.led
            && tick.pose == (if e.arm.BeforePolicy? && e.policy.Action? then e.policy.pose else e.current)
            && tick.follower == (if e.arm.NotInside? || (e.arm.BeforePolicy? && e.policy.Raises?) then Hold
                                 else PolicyMode)
            && After(present, limit, events, n + 1).follower == tick.follower
    ensures Out(After(present, limit, events, m))
  {
    var s := After(present, limit, events, n);
    TeleoperationIsBounded(present, limit, events[..n]);
    LimitTick(s, events[n]);
    AfterNext(present, limit, events, n);
    StaysOut(present, limit, events, n + 1, m);
  }
}
