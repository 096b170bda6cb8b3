/**
 * The journey of a Prolific submission: stages, heartbeats and one outcome
 * (backend/session-manager/src/store/participation.store.ts).
 */
module Participation {
  import opened Options
  import opened KeyedLists
  import opened Sorting
  import M = Matchmaking

  /** In the order of the journey; the last two are terminal. */
  datatype Stage = Arrived | Consent | Entry | WaitingRoom | Chat | Exit | Done | Terminated

  function Order(s: Stage): nat {
    match s
    case Arrived => 0
    case Consent => 1
    case Entry => 2
    case WaitingRoom => 3
    case Chat => 4
    case Exit => 5
    case Done => 6
    case Terminated => 7
  }

  predicate Underway(s: Stage) { Order(s) < 6 }

  datatype Compensation = NoPay | Partial | Full | ManualReview

  datatype Ending = Ending(
    outcome: string, reason: string, endedAt: int, elapsedSeconds: nat, kind: Compensation, amount: Option<int>)

  datatype Arrival = Arrival(
    key: M.Submission, participantId: string, arrivedAt: int, stage: Stage, stageUpdatedAt: int, lastSeenAt: int,
    ending: Option<Ending>)

  /** How a termination ends a journey. */
  datatype Termination = Termination(outcome: string, reason: string, kind: Compensation, amount: Option<int>)

  const REASON_LIMIT := 500
  const COMPLETED := "completed"

  function KeyOf(a: Arrival): M.Submission { a.key }

  function Stored(arrivals: seq<Arrival>, a: Arrival): seq<Arrival> { Upsert(arrivals, KeyOf, Newest, a) }

  /** recordProlificArrival */
  function Recorded(arrivals: seq<Arrival>, who: M.Prolific, now: int): seq<Arrival> {
    if At(arrivals, KeyOf, who.submission).Some? then arrivals
    else arrivals + [Arrival(who.submission, who.participantId, now, Arrived, now, now, None)]
  }

  function Beat(a: Arrival, stage: Stage, now: int): Arrival {
    if a.ending.Some? then a
    else if Order(stage) >= Order(a.stage) then a.(lastSeenAt := now, stage := stage, stageUpdatedAt := now)
    else a.(lastSeenAt := now)
  }

  function Elapsed(from: int, now: int): nat { if now >= from then (now - from) / 1_000 else 0 }

  function Ended(a: Arrival, t: Termination, now: int): Arrival {
    var reason := if |t.reason| > REASON_LIMIT then t.reason[..REASON_LIMIT] else t.reason;
    a.(stage := Terminated, stageUpdatedAt := now, lastSeenAt := now,
       ending := Some(Ending(t.outcome, reason, now, Elapsed(a.arrivedAt, now), t.kind, t.amount)))
  }

  function Finished(a: Arrival, now: int): Arrival {
    a.(stage := Done, stageUpdatedAt := now, lastSeenAt := now,
       ending := Some(Ending(COMPLETED, "", now, Elapsed(a.arrivedAt, now), Full, None)))
  }

  predicate Stale(a: Arrival, cutoff: int) { a.ending.None? && a.lastSeenAt <= cutoff }

  datatype Step =
    | Arrive(who: M.Prolific, now: int)
    | Heartbeat(who: M.Prolific, stage: Stage, now: int)
    | Terminate(who: M.Prolific, termination: Termination, now: int)
    | Complete(who: M.Prolific, now: int)
    | ClaimStale(key: M.Submission, cutoff: int, termination: Termination, now: int)

  function Next(arrivals: seq<Arrival>, step: Step): seq<Arrival> {
    match step
    case Arrive(who, now) => Recorded(arrivals, who, now)
    case Heartbeat(who, stage, now) =>
      var present := Recorded(arrivals, who, now);
      var a := At(present, KeyOf, who.submission);
      if a.Some? && Underway(stage) then Stored(present, Beat(a.value, stage, now)) else present
    case Terminate(who, t, now) =>
      var present := Recorded(arrivals, who, now);
      var a := At(present, KeyOf, who.submission);
      if a.Some? && a.value.ending.None? then Stored(present, Ended(a.value, t, now)) else present
    case Complete(who, now) =>
      var present := Recorded(arrivals, who, now);
      var a := At(present, KeyOf, who.submission);
      if a.Some? && a.value.ending.None? then Stored(present, Finished(a.value, now)) else present
    case ClaimStale(key, cutoff, t, now) =>
      var a := At(arrivals, KeyOf, key);
      if a.Some? && Stale(a.value, cutoff) then Stored(arrivals, Ended(a.value, t, now)) else arrivals
  }

  function Run(arrivals: seq<Arrival>, steps: seq<Step>): seq<Arrival> {
    if steps == [] then arrivals else Next(Run(arrivals, steps[..|steps| - 1]), steps[|steps| - 1])
  }

  predicate Listed(a: Arrival, cutoff: int) { Stale(a, cutoff) && Underway(a.stage) }

  function StaleOf(arrivals: seq<Arrival>, cutoff: int): seq<Arrival> {
    if arrivals == [] then []
    else
      var n := |arrivals| - 1;
      StaleOf(arrivals[..n], cutoff) + if Listed(arrivals[n], cutoff) then [arrivals[n]] else []
  }

  function SeenEarlier(a: Arrival, b: Arrival): bool { a.lastSeenAt < b.lastSeenAt }

  /** listStaleProlificArrivals */
  function ListStale(arrivals: seq<Arrival>, cutoff: int, limit: nat): seq<Arrival> {
    var stale := Sorted(StaleOf(arrivals, cutoff), SeenEarlier);
    if |stale| > limit then stale[..limit] else stale
  }

  // ---- what every step keeps ----

  /** The whole course of one submission: who it is, never back, and ended once. */
  predicate Onward(a: Arrival, b: Arrival) {
    && b.key == a.key && b.participantId == a.participantId && b.arrivedAt == a.arrivedAt
    && Order(a.stage) <= Order(b.stage)
    && (a.ending.Some? ==> b == a)
  }

  ghost predicate AllOnward(arrivals: seq<Arrival>, after: seq<Arrival>) {
    forall k :: At(arrivals, KeyOf, k).Some? ==>
      At(after, KeyOf, k).Some? && Onward(At(arrivals, KeyOf, k).value, At(after, KeyOf, k).value)
  }

  /** A submission has ended exactly when its stage is terminal, and "done" is the completed ones. */
  predicate Coherent(a: Arrival) {
    && (a.ending.Some? <==> !Underway(a.stage))
    && (a.stage.Done? ==> a.ending.value.outcome == COMPLETED)
  }

  ghost predicate AllCoherent(arrivals: seq<Arrival>) {
    forall k :: At(arrivals, KeyOf, k).Some? ==> Coherent(At(arrivals, KeyOf, k).value)
  }

  lemma StoredAt(arrivals: seq<Arrival>, a: Arrival, k: M.Submission)
    ensures At(Stored(arrivals, a), KeyOf, k) == if a.key == k then Some(a) else At(arrivals, KeyOf, k)
  {
    UpsertAt(arrivals, KeyOf, Newest, a, k);
    assert [a][..0] == [];
  }

  lemma RecordedAt(arrivals: seq<Arrival>, who: M.Prolific, now: int, k: M.Submission)
    ensures At(Recorded(arrivals, who, now), KeyOf, k)
         == if At(arrivals, KeyOf, k).None? && k == who.submission
            then Some(Arrival(k, who.participantId, now, Arrived, now, now, None)) else At(arrivals, KeyOf, k)
  {
    if At(arrivals, KeyOf, who.submission).None? {
      var a := Arrival(who.submission, who.participantId, now, Arrived, now, now, None);
      assert arrivals + [a] == Stored(arrivals, a);
      StoredAt(arrivals, a, k);
    }
  }

  /** The arrival a step leaves under its own key. */
  function KeyOfStep(step: Step): M.Submission {
    match step
    case Arrive(who, _) => who.submission
    case Heartbeat(who, _, _) => who.submission
    case Terminate(who, _, _) => who.submission
    case Complete(who, _) => who.submission
    case ClaimStale(key, _, _, _) => key
  }

  /** What a step does to the submission it is about; every other one it leaves alone. */
  function Acted(a: Option<Arrival>, step: Step): Option<Arrival> {
    match step
    case Arrive(who, now) => Some(Present(a, who, now))
    case Heartbeat(who, stage, now) =>
      Some(if Underway(stage) then Beat(Present(a, who, now), stage, now) else Present(a, who, now))
    case Terminate(who, t, now) =>
      var p := Present(a, who, now);
      Some(if p.ending.None? then Ended(p, t, now) else p)
    case Complete(who, now) =>
      var p := Present(a, who, now);
      Some(if p.ending.None? then Finished(p, now) else p)
    case ClaimStale(_, cutoff, t, now) => if a.Some? && Stale(a.value, cutoff) then Some(Ended(a.value, t, now)) else a
  }

  function Present(a: Option<Arrival>, who: M.Prolific, now: int): Arrival {
    if a.Some? then a.value else Arrival(who.submission, who.participantId, now, Arrived, now, now, None)
  }

  /** Recorded, then changed: only the submission's own entry moves. */
  lemma ChangedAt(arrivals: seq<Arrival>, who: M.Prolific, now: int, changed: Arrival, k: M.Submission)
    requires changed.key == who.submission
    ensures At(Stored(Recorded(arrivals, who, now), changed), KeyOf, k)
         == if k == who.submission then Some(changed) else At(arrivals, KeyOf, k)
  {
    StoredAt(Recorded(arrivals, who, now), changed, k);
    RecordedAt(arrivals, who, now, k);
  }

  lemma HeartbeatAt(arrivals: seq<Arrival>, who: M.Prolific, stage: Stage, now: int, k: M.Submission)
    ensures At(Next(arrivals, Heartbeat(who, stage, now)), KeyOf, k)
         == if k == who.submission then Acted(At(arrivals, KeyOf, k), Heartbeat(who, stage, now)) else At(arrivals, KeyOf, k)
  {
    var p := RecordedThenStored(arrivals, who, now, k);
    ChangedAt(arrivals, who, now, Beat(p, stage, now), k);
  }

  lemma TerminateAt(arrivals: seq<Arrival>, who: M.Prolific, t: Termination, now: int, k: M.Submission)
    ensures At(Next(arrivals, Terminate(who, t, now)), KeyOf, k)
         == if k == who.submission then Acted(At(arrivals, KeyOf, k), Terminate(who, t, now)) else At(arrivals, KeyOf, k)
  {
    var p := RecordedThenStored(arrivals, who, now, k);
    ChangedAt(arrivals, who, now, Ended(p, t, now), k);
  }

  lemma CompleteAt(arrivals: seq<Arrival>, who: M.Prolific, now: int, k: M.Submission)
    ensures At(Next(arrivals, Complete(who, now)), KeyOf, k)
         == if k == who.submission then Acted(At(arrivals, KeyOf, k), Complete(who, now)) else At(arrivals, KeyOf, k)
  {
    var p := RecordedThenStored(arrivals, who, now, k);
    ChangedAt(arrivals, who, now, Finished(p, now), k);
  }

  lemma ClaimAt(arrivals: seq<Arrival>, key: M.Submission, cutoff: int, t: Termination, now: int, k: M.Submission)
    ensures At(Next(arrivals, ClaimStale(key, cutoff, t, now)), KeyOf, k)
         == if k == key then Acted(At(arrivals, KeyOf, k), ClaimStale(key, cutoff, t, now)) else At(arrivals, KeyOf, k)
  {
    AtKeepsKey(arrivals, KeyOf, key);
    var a := At(arrivals, KeyOf, key);
    if a.Some? { StoredAt(arrivals, Ended(a.value, t, now), k); }
  }

  lemma StepAt(arrivals: seq<Arrival>, step: Step, k: M.Submission)
    ensures At(Next(arrivals, step), KeyOf, k)
         == if k == KeyOfStep(step) then Acted(At(arrivals, KeyOf, k), step) else At(arrivals, KeyOf, k)
  {
    match step
    case Arrive(who, now) => RecordedAt(arrivals, who, now, k);
    case Heartbeat(who, stage, now) => HeartbeatAt(arrivals, who, stage, now, k);
    case Terminate(who, t, now) => TerminateAt(arrivals, who, t, now, k);
    case Complete(who, now) => CompleteAt(arrivals, who, now, k);
    case ClaimStale(key, cutoff, t, now) => ClaimAt(arrivals, key, cutoff, t, now, k);
  }

  lemma RecordedThenStored(arrivals: seq<Arrival>, who: M.Prolific, now: int, k: M.Submission) returns (p: Arrival)
    ensures p == Present(At(arrivals, KeyOf, who.submission), who, now) && p.key == who.submission
    ensures At(Recorded(arrivals, who, now), KeyOf, who.submission) == Some(p)
    ensures k != who.submission ==> At(Recorded(arrivals, who, now), KeyOf, k) == At(arrivals, KeyOf, k)
  {
    AtKeepsKey(arrivals, KeyOf, who.submission);
    RecordedAt(arrivals, who, now, who.submission);
    RecordedAt(arrivals, who, now, k);
    p := Present(At(arrivals, KeyOf, who.submission), who, now);
  }

  lemma ActedOnward(a: Option<Arrival>, step: Step)
    requires Wellformed(step) && (a.Some? ==> Coherent(a.value) && a.value.key == KeyOfStep(step))
    ensures var b := Acted(a, step);
            && (b.Some? ==> Coherent(b.value))
            && (a.Some? ==> b.Some? && Onward(a.value, b.value))
  {}

  lemma StepOnward(arrivals: seq<Arrival>, step: Step)
    requires AllCoherent(arrivals) && Wellformed(step)
    ensures AllCoherent(Next(arrivals, step)) && AllOnward(arrivals, Next(arrivals, step))
  {
    forall k
      ensures var a, b := At(arrivals, KeyOf, k), At(Next(arrivals, step), KeyOf, k);
              (b.Some? ==> Coherent(b.value)) && (a.Some? ==> b.Some? && Onward(a.value, b.value))
    {
      StepAt(arrivals, step, k);
      AtKeepsKey(arrivals, KeyOf, k);
      if k == KeyOfStep(step) { ActedOnward(At(arrivals, KeyOf, k), step); }
    }
  }

  predicate Wellformed(step: Step) { step.Terminate? || step.ClaimStale? ==> step.termination.outcome != COMPLETED }

  /**
   * Over any stretch of any run: nobody's identity or arrival changes, no stage
   * moves back, a recorded ending is never touched again, and a stage is
   * terminal exactly when there is one.
   */
  lemma {:induction false} JourneysOnlyGoOnward(before: seq<Step>, later: seq<Step>)
    requires forall i :: 0 <= i < |before| ==> Wellformed(before[i])
    requires forall i :: 0 <= i < |later| ==> Wellformed(later[i])
    ensures AllCoherent(Run(Run([], before), later)) && AllOnward(Run([], before), Run(Run([], before), later))
    decreases |before| + |later|
  {
    if later != [] {
      var n := |later| - 1;
      JourneysOnlyGoOnward(before, later[..n]);
      StepOnward(Run(Run([], before), later[..n]), later[n]);
      OnwardTransitive(Run([], before), Run(Run([], before), later[..n]), Run(Run([], before), later));
    } else if before != [] {
      var n := |before| - 1;
      JourneysOnlyGoOnward(before[..n], []);
      StepOnward(Run([], before[..n]), before[n]);
    }
  }

  lemma OnwardTransitive(a: seq<Arrival>, b: seq<Arrival>, c: seq<Arrival>)
    requires AllOnward(a, b) && AllOnward(b, c)
    ensures AllOnward(a, c)
  {
    forall k | At(a, KeyOf, k).Some?
      ensures At(c, KeyOf, k).Some? && Onward(At(a, KeyOf, k).value, At(c, KeyOf, k).value)
    {
      assert Onward(At(a, KeyOf, k).value, At(b, KeyOf, k).value);
    }
  }

  // ---- the stale scan and the claim ----

  lemma {:induction false} StaleOfExact(arrivals: seq<Arrival>, cutoff: int)
    ensures forall a :: a in StaleOf(arrivals, cutoff) <==> a in arrivals && Listed(a, cutoff)
  {
    if arrivals != [] {
      StaleOfExact(arrivals[..|arrivals| - 1], cutoff);
      assert arrivals == arrivals[..|arrivals| - 1] + [arrivals[|arrivals| - 1]];
    }
  }

  /** The scan lists stale arrivals only, all of them when they fit, and otherwise those unseen for longest. */
  lemma ScanExact(arrivals: seq<Arrival>, cutoff: int, limit: nat)
    ensures var found := ListStale(arrivals, cutoff, limit);
            && (forall a :: a in found ==> a in arrivals && Listed(a, cutoff))
            && |found| <= limit
            && (|found| < limit ==> forall a :: a in arrivals && Listed(a, cutoff) ==> a in found)
            && (forall i, a :: 0 <= i < |found| && a in arrivals && Listed(a, cutoff) && a !in found ==>
                  found[i].lastSeenAt <= a.lastSeenAt)
  {
    var stale := StaleOf(arrivals, cutoff);
    StaleOfExact(arrivals, cutoff);
    SortedIsSorted(stale, SeenEarlier);
    var all, found := Sorted(stale, SeenEarlier), ListStale(arrivals, cutoff, limit);
    forall i, a | 0 <= i < |found| && a in arrivals && Listed(a, cutoff) && a !in found
      ensures found[i].lastSeenAt <= a.lastSeenAt
    {
      assert a in all;
      var j :| 0 <= j < |all| && all[j] == a;
      assert forall m :: 0 <= m < |found| ==> all[m] == found[m] && found[m] in found;
      assert !SeenEarlier(all[j], all[i]);
    }
  }

  /** A step of this submission that proves it alive or ends it. */
  predicate Touches(step: Step, k: M.Submission) {
    KeyOfStep(step) == k && ((step.Heartbeat? && Underway(step.stage)) || step.Terminate? || step.Complete?)
  }

  predicate Untouched(steps: seq<Step>, k: M.Submission) { forall i :: 0 <= i < |steps| ==> !Touches(steps[i], k) }

  lemma UntouchedLast(steps: seq<Step>, k: M.Submission)
    requires steps != []
    ensures Untouched(steps, k) <==> Untouched(steps[..|steps| - 1], k) && !Touches(steps[|steps| - 1], k)
  {
    var init := steps[..|steps| - 1];
    assert forall i :: 0 <= i < |init| ==> init[i] == steps[i];
  }

  predicate ClaimWins(arrivals: seq<Arrival>, k: M.Submission, cutoff: int) {
    var a := At(arrivals, KeyOf, k);
    a.Some? && Stale(a.value, cutoff)
  }

  /** One step after the cutoff takes the claim away exactly when it touches the submission. */
  lemma StepBeatsClaim(arrivals: seq<Arrival>, k: M.Submission, cutoff: int, step: Step)
    requires At(arrivals, KeyOf, k).Some?
    requires step.now > cutoff && !(step.ClaimStale? && step.key == k)
    ensures At(Next(arrivals, step), KeyOf, k).Some?
    ensures ClaimWins(Next(arrivals, step), k, cutoff) <==> ClaimWins(arrivals, k, cutoff) && !Touches(step, k)
  {
    StepAt(arrivals, step, k);
  }

  /**
   * Between the scan and the claim, with a clock past the cutoff: the claim of a
   * scanned submission terminates it exactly when no heartbeat of it landed and
   * nothing ended it in between.
   */
  lemma {:induction false} HeartbeatBeatsClaim(arrivals: seq<Arrival>, k: M.Submission, cutoff: int, between: seq<Step>)
    requires ClaimWins(arrivals, k, cutoff)
    requires forall i :: 0 <= i < |between| ==>
               between[i].now > cutoff && !(between[i].ClaimStale? && between[i].key == k)
    ensures ClaimWins(Run(arrivals, between), k, cutoff) <==> Untouched(between, k)
    ensures At(Run(arrivals, between), KeyOf, k).Some?
  {
    if between != [] {
      var n := |between| - 1;
      HeartbeatBeatsClaim(arrivals, k, cutoff, between[..n]);
      StepBeatsClaim(Run(arrivals, between[..n]), k, cutoff, between[n]);
      UntouchedLast(between, k);
    }
  }

  /** A claim that does not win changes nothing; one that does ends that submission and no other. */
  lemma {:induction false} ClaimExact(arrivals: seq<Arrival>, k: M.Submission, cutoff: int, t: Termination, now: int)
    ensures var after := Next(arrivals, ClaimStale(k, cutoff, t, now));
            && (!ClaimWins(arrivals, k, cutoff) ==> after == arrivals)
            && (ClaimWins(arrivals, k, cutoff) ==>
                  At(after, KeyOf, k).Some? && At(after, KeyOf, k).value.ending.Some?
                  && At(after, KeyOf, k).value.ending.value.outcome == t.outcome)
            && forall other :: other != k ==> At(after, KeyOf, other) == At(arrivals, KeyOf, other)
  {
    var step := ClaimStale(k, cutoff, t, now);
    StepAt(arrivals, step, k);
    forall other | other != k ensures At(Next(arrivals, step), KeyOf, other) == At(arrivals, KeyOf, other) {
      StepAt(arrivals, step, other);
    }
  }
}

/** The store over its arrivals. */
module ParticipationStores {
  import opened Options
  import opened KeyedLists
  import opened Sorting
  import opened Participation
  import M = Matchmaking

  class ParticipationStore {
    var arrivals: seq<Arrival>

    constructor ()
      ensures arrivals == []
    {
      arrivals := [];
    }

    method RecordProlificArrival(who: M.Prolific, now: int) returns (i: nat)
      modifies this
      ensures arrivals == Recorded(old(arrivals), who, now)
      ensures i < |arrivals| && i == Find(arrivals, KeyOf, who.submission)
    {
      i := Position(who.submission);
      if i < |arrivals| { return; }
      arrivals := arrivals + [Arrival(who.submission, who.participantId, now, Arrived, now, now, None)];
      assert KeyOf(arrivals[|arrivals| - 1]) == who.submission;
      i := Position(who.submission);
    }

    method Position(k: M.Submission) returns (i: nat)
      ensures i == Find(arrivals, KeyOf, k)
    {
      i := 0;
      while i < |arrivals| && arrivals[i].key != k
        invariant 0 <= i <= Find(arrivals, KeyOf, k)
      {
        i := i + 1;
      }
    }

    method RecordParticipationStage(who: M.Prolific, stage: Stage, now: int)
      requires Underway(stage)
      modifies this
      ensures arrivals == Next(old(arrivals), Heartbeat(who, stage, now))
    {
      var i := RecordProlificArrival(who, now);
      if arrivals[i].ending.Some? {
        assert Stored(arrivals, arrivals[i]) == arrivals;
        return;
      }
      arrivals := arrivals[i := arrivals[i].(lastSeenAt := now)];
      if Order(stage) >= Order(arrivals[i].stage) {
        arrivals := arrivals[i := arrivals[i].(stage := stage, stageUpdatedAt := now)];
      }
    }

    method TerminateProlificParticipation(who: M.Prolific, t: Termination, now: int)
      modifies this
      ensures arrivals == Next(old(arrivals), Terminate(who, t, now))
    {
      var i := RecordProlificArrival(who, now);
      if arrivals[i].ending.Some? { return; }
      arrivals := arrivals[i := Ended(arrivals[i], t, now)];
    }

    method CompleteProlificParticipation(who: M.Prolific, now: int)
      modifies this
      ensures arrivals == Next(old(arrivals), Complete(who, now))
    {
      var i := RecordProlificArrival(who, now);
      if arrivals[i].ending.Some? { return; }
      arrivals := arrivals[i := Finished(arrivals[i], now)];
    }

    method TerminateStaleProlificParticipation(key: M.Submission, cutoff: int, t: Termination, now: int) returns (claimed: bool)
      modifies this
      ensures arrivals == Next(old(arrivals), ClaimStale(key, cutoff, t, now))
      ensures claimed <==> ClaimWins(old(arrivals), key, cutoff)
    {
      var i := Position(key);
      if i == |arrivals| || arrivals[i].ending.Some? || arrivals[i].lastSeenAt > cutoff { return false; }
      arrivals := arrivals[i := Ended(arrivals[i], t, now)];
      return true;
    }

    method ListStaleProlificArrivals(cutoff: int, limit: nat) returns (found: seq<Arrival>)
      ensures found == ListStale(arrivals, cutoff, limit)
    {
      var stale := [];
      for i := 0 to |arrivals|
        invariant stale == StaleOf(arrivals[..i], cutoff)
      {
        assert arrivals[..i + 1][..i] == arrivals[..i];
        if Listed(arrivals[i], cutoff) { stale := stale + [arrivals[i]]; }
      }
      assert arrivals[..|arrivals|] == arrivals;
      var order := Sorted(stale, SeenEarlier);
      return if |order| > limit then order[..limit] else order;
    }
  }
}
