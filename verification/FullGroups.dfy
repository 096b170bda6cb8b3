/**
 * When a group that gets a room is full. Provisioning reads fullness before it
 * claims the session, outside the matchmaking lock
 * (backend/session-manager/src/sessions/room-provisioning.ts), so what matters is
 * who leaves in between.
 */
module FullGroups {
  import opened Options
  import opened Matchmaking
  import opened MatchmakingSafety

  /** The waiting session a departure takes a member out of, if any. */
  function LeavesWaiting(w: Store, who: Prolific): Option<nat> {
    var place := FindSeat(w.sessions, BySubmission(who.submission), true);
    if place.None? then None
    else
      var i, j := place.value.session, place.value.seat;
      if w.sessions[i].status.Waiting? && w.sessions[i].participants[j].prolific.value.participantId == who.participantId
      then Some(i) else None
  }

  /** No departure takes a member out of a waiting group that a provisioning attempt under way has read as full. */
  predicate Undisturbed(w: Store, step: Step) {
    step.LeaveForGood? && w.lock.Free? ==>
      var i := LeavesWaiting(w, step.who);
      i.None? || i.value !in w.full
  }

  /** Every step of the run meets the guard in the state before it. */
  ghost predicate UndisturbedRun(w: Store, steps: seq<Step>, goals: map<string, nat>) {
    forall k :: 0 <= k < |steps| ==> Undisturbed(Run(w, steps[..k], goals), steps[k])
  }

  predicate IsFull(s: Session) { |s.participants| == s.groupSize }

  predicate Opened(s: Session) { s.status.Provisioning? || s.status.Running? }

  predicate OpenedFull(w: Store) { forall i :: 0 <= i < |w.sessions| && Opened(w.sessions[i]) ==> IsFull(w.sessions[i]) }

  /** Groups read as full are full while they wait, and so is every group past waiting. */
  ghost predicate Filled(w: Store) {
    && (forall i :: i in w.full ==> i < |w.sessions|)
    && (forall i :: 0 <= i < |w.sessions| ==> w.sessions[i].groupSize >= 2)
    && (forall i :: i in w.full && w.sessions[i].status.Waiting? ==> IsFull(w.sessions[i]))
    && OpenedFull(w)
  }

  // ---- the guard suffices ----

  lemma OpenFills(w: Store, after: Store, arm: Arm, r: Request, now: int, timeout: int)
    requires Filled(w) && Opens(w, after, arm, r, now, timeout) && arm.groupSize >= 2
    ensures Filled(after)
  {}

  lemma SameFills(w: Store, after: Store)
    requires Filled(w) && after.sessions == w.sessions && after.full == w.full
    ensures Filled(after)
  {}

  lemma JoinFills(w: Store, r: Request, arms: seq<Arm>, now: int, timeout: int, goals: map<string, nat>)
    requires Filled(w) && ArmsOk(arms, goals)
    ensures Filled(Choose(w, r, arms, now, timeout).0)
  {
    var (after, answer) := Choose(w, r, arms, now, timeout);
    var arm := JoinChooses(w, r, arms, now, timeout);
    if answer.Reserved? && arm.Some? {
      ArmInGoals(arm.value, arms, goals);
      OpenFills(w, after, arm.value, r, now, timeout);
    } else {
      SameFills(w, after);
    }
  }

  /** A seat is never taken in a full group: the join counted the free one. */
  lemma SeatFills(w: Store, goals: map<string, nat>)
    requires Filled(w) && Sized(w) && Enabled(w, TakeSeat, goals)
    ensures Filled(Next(w, TakeSeat, goals))
  {
    assert !IsFull(w.sessions[w.lock.session]);
  }

  lemma LeaveFills(w: Store, who: Prolific, goals: map<string, nat>)
    requires Filled(w) && Undisturbed(w, LeaveForGood(who)) && Enabled(w, LeaveForGood(who), goals)
    ensures Filled(Next(w, LeaveForGood(who), goals))
  {}

  /** One session moved on without losing or gaining a member. */
  lemma MoveFills(w: Store, i: nat, s: Session)
    requires Filled(w) && i < |w.sessions|
    requires s.participants == w.sessions[i].participants && s.groupSize == w.sessions[i].groupSize
    requires s.status.Waiting? ==> w.sessions[i].status.Waiting?
    requires Opened(s) ==> Opened(w.sessions[i]) || (i in w.full && w.sessions[i].status.Waiting?)
    ensures Filled(w.(sessions := w.sessions[i := s]))
  {}

  lemma QuietFills(w: Store, step: Step, goals: map<string, nat>)
    requires Filled(w) && Sized(w) && Enabled(w, step, goals)
    requires !step.Join? && !step.TakeSeat? && !step.LeaveForGood?
    ensures Filled(Next(w, step, goals))
  {
    match step
    case ClaimRoom(i) => MoveFills(w, i, ClaimedForRoom(w.sessions[i]));
    case KeepRoom(i, room) => MoveFills(w, i, w.sessions[i].(roomId := Some(room)));
    case Publish(i, room) => MoveFills(w, i, Published(w.sessions[i], room));
    case Finish(i) => MoveFills(w, i, Finished(w.sessions[i]));
    case Expire(i, now) => MoveFills(w, i, LobbyAborted(w.sessions[i], true, Some(now)));
    case CloseLobbies =>
    case ReadFull(i) =>
    case _ =>
  }

  lemma StepFills(w: Store, step: Step, goals: map<string, nat>)
    requires Filled(w) && Sized(w) && Undisturbed(w, step)
    ensures Filled(Next(w, step, goals))
  {
    if Enabled(w, step, goals) {
      match step
      case Join(r, arms, now, timeout) => JoinFills(w, r, arms, now, timeout, goals);
      case TakeSeat => SeatFills(w, goals);
      case LeaveForGood(who) => LeaveFills(w, who, goals);
      case _ => QuietFills(w, step, goals);
    }
  }

  lemma UndisturbedInit(w: Store, steps: seq<Step>, goals: map<string, nat>)
    requires UndisturbedRun(w, steps, goals) && steps != []
    ensures UndisturbedRun(w, steps[..|steps| - 1], goals)
    ensures Undisturbed(Run(w, steps[..|steps| - 1], goals), steps[|steps| - 1])
  {
    var init := steps[..|steps| - 1];
    forall k | 0 <= k < |init| ensures Undisturbed(Run(w, init[..k], goals), init[k]) {
      assert init[..k] == steps[..k];
    }
  }

  lemma {:induction false} UndisturbedFills(w: Store, steps: seq<Step>, goals: map<string, nat>)
    requires Safe(w, goals) && Filled(w) && UndisturbedRun(w, steps, goals)
    ensures Safe(Run(w, steps, goals), goals) && Filled(Run(w, steps, goals))
  {
    if steps != [] {
      var n := |steps| - 1;
      UndisturbedInit(w, steps, goals);
      UndisturbedFills(w, steps[..n], goals);
      StepSafe(Run(w, steps[..n], goals), steps[n], goals);
      StepFills(Run(w, steps[..n], goals), steps[n], goals);
    }
  }

  /** In every run whose steps meet the guard, a group that is provisioned or running has all its members. */
  lemma {:induction false} OpenedGroupsAreFull(steps: seq<Step>, goals: map<string, nat>)
    requires UndisturbedRun(EMPTY, steps, goals)
    ensures OpenedFull(Run(EMPTY, steps, goals))
  {
    EmptyIsSafe(goals);
    UndisturbedFills(EMPTY, steps, goals);
  }

  // ---- and is needed ----

  lemma TwoMore(w: Store, a: Step, b: Step, goals: map<string, nat>)
    ensures Run(w, [a, b], goals) == Next(Next(w, a, goals), b, goals)
    ensures !a.LeaveForGood? && !b.LeaveForGood? ==> UndisturbedRun(w, [a, b], goals)
  {
    assert [a, b][..1] == [a] && [a][..0] == [];
    assert Run(w, [a], goals) == Next(w, a, goals);
  }

  /** A departure against the guard leaves the group one short, still waiting and still read as full. */
  lemma DisturbedLeave(w: Store, step: Step, goals: map<string, nat>) returns (i: nat)
    requires Filled(w) && !Undisturbed(w, step)
    ensures var after := Next(w, step, goals);
            && i < |after.sessions| && i in after.full && after.sessions[i].status.Waiting?
            && |after.sessions[i].participants| == after.sessions[i].groupSize - 1
  {
    i := LeavesWaiting(w, step.who).value;
  }

  /** A room is then opened for it: the claim and the publication ask for the status only. */
  lemma {:induction false} DisturbedOpensShort(w: Store, step: Step, room: string, goals: map<string, nat>) returns (i: nat)
    requires Filled(w) && !Undisturbed(w, step)
    ensures var after := Run(Next(w, step, goals), [ClaimRoom(i), Publish(i, room)], goals);
            && i < |after.sessions| && after.sessions[i].status.Running?
            && |after.sessions[i].participants| == after.sessions[i].groupSize - 1
  {
    i := DisturbedLeave(w, step, goals);
    TwoMore(Next(w, step, goals), ClaimRoom(i), Publish(i, room), goals);
  }

  lemma UndisturbedStaysFull(w: Store, step: Step, more: seq<Step>, goals: map<string, nat>)
    requires Safe(w, goals) && Filled(w) && Undisturbed(w, step) && UndisturbedRun(Next(w, step, goals), more, goals)
    ensures OpenedFull(Run(Next(w, step, goals), more, goals))
  {
    StepSafe(w, step, goals);
    StepFills(w, step, goals);
    UndisturbedFills(Next(w, step, goals), more, goals);
  }

  lemma DisturbedEndsShort(w: Store, step: Step, goals: map<string, nat>) returns (more: seq<Step>)
    requires Filled(w) && !Undisturbed(w, step)
    ensures UndisturbedRun(Next(w, step, goals), more, goals) && !OpenedFull(Run(Next(w, step, goals), more, goals))
  {
    var i := DisturbedOpensShort(w, step, "room", goals);
    more := [ClaimRoom(i), Publish(i, "room")];
    TwoMore(Next(w, step, goals), ClaimRoom(i), Publish(i, "room"), goals);
  }

  /**
   * The guard is exact: after any run that met it, a step keeps all opened groups
   * full, in every continuation that meets it again, if and only if the step does.
   */
  lemma {:induction false} FullExactly(steps: seq<Step>, step: Step, goals: map<string, nat>)
    requires UndisturbedRun(EMPTY, steps, goals)
    ensures var after := Next(Run(EMPTY, steps, goals), step, goals);
            (forall more :: UndisturbedRun(after, more, goals) ==> OpenedFull(Run(after, more, goals)))
            <==> Undisturbed(Run(EMPTY, steps, goals), step)
  {
    var w := Run(EMPTY, steps, goals);
    var after := Next(w, step, goals);
    EmptyIsSafe(goals);
    UndisturbedFills(EMPTY, steps, goals);
    if Undisturbed(w, step) {
      forall more | UndisturbedRun(after, more, goals) ensures OpenedFull(Run(after, more, goals)) {
        UndisturbedStaysFull(w, step, more, goals);
      }
    } else {
      var more := DisturbedEndsShort(w, step, goals);
    }
  }
}
