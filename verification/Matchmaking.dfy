/**
 * Seats, rounds and session lifecycle of the Session Manager
 * (backend/session-manager/src/sessions/sessions.service.ts and
 * backend/session-manager/src/store/store.service.ts). A step is one stretch of
 * a locked section between two awaits, or one conditional update outside it.
 */
module Matchmaking {
  import opened Options
  import opened Sorting

  datatype Status = Waiting | Provisioning | Running | Completed | Aborted

  datatype Submission = Submission(studyId: string, sessionId: string)

  datatype Prolific = Prolific(submission: Submission, participantId: string)

  datatype Participant = Participant(token: string, prolific: Option<Prolific>)

  datatype Session = Session(
    status: Status, roundId: nat, arm: string, groupSize: nat, etherpad: bool,
    participants: seq<Participant>, createdAt: int, deadline: int, roomId: Option<string>)

  /** A condition as configured when someone joins. */
  datatype Arm = Arm(id: string, groupSize: nat, goal: nat, active: bool, etherpad: bool)

  datatype Round = Round(id: nat, open: bool)

  /** The matchmaking chain: free, or held by a join that chose a session, or by a round switch. */
  datatype Lock = Free | Seating(session: nat, participant: Participant) | Switching

  /** full: the sessions that a provisioning attempt under way has read as full. */
  datatype Store = Store(sessions: seq<Session>, rounds: seq<Round>, lock: Lock, full: set<nat>)

  const EMPTY := Store([], [], Free, {})

  // ---- rounds ----

  function FirstOpen(rounds: seq<Round>): (i: nat)
    ensures i <= |rounds|
    ensures i < |rounds| ==> rounds[i].open
    ensures forall j :: 0 <= j < i ==> !rounds[j].open
  {
    if rounds == [] then 0 else if rounds[0].open then 0 else 1 + FirstOpen(rounds[1..])
  }

  function MaxId(rounds: seq<Round>): nat {
    if rounds == [] then 0
    else
      var m := MaxId(rounds[..|rounds| - 1]);
      if rounds[|rounds| - 1].id > m then rounds[|rounds| - 1].id else m
  }

  /** currentRound: the rounds once an open one is there. */
  function WithOpen(rounds: seq<Round>): (after: seq<Round>)
    ensures FirstOpen(after) < |after|
  {
    if FirstOpen(rounds) < |rounds| then rounds
    else
      var after := rounds + [Round(MaxId(rounds) + 1, true)];
      assert FirstOpen(after) == |after| || FirstOpen(after) < |after|;
      assert after[|after| - 1].open;
      after
  }

  function CurrentId(rounds: seq<Round>): nat { WithOpen(rounds)[FirstOpen(WithOpen(rounds))].id }

  /** startNewRound */
  function NewRound(rounds: seq<Round>): seq<Round> {
    var current := WithOpen(rounds);
    var i := FirstOpen(current);
    current[i := current[i].(open := false)] + [Round(current[i].id + 1, true)]
  }

  // ---- counting over sessions ----

  function Total(ss: seq<Session>, f: Session -> nat): nat {
    if ss == [] then 0 else Total(ss[..|ss| - 1], f) + f(ss[|ss| - 1])
  }

  function Count(ps: seq<Participant>, want: Participant -> bool): nat {
    if ps == [] then 0 else Count(ps[..|ps| - 1], want) + if want(ps[|ps| - 1]) then 1 else 0
  }

  /** What claimedCount counts. */
  function Claims(arm: string, round: nat): Session -> nat {
    (s: Session) => if s.arm == arm && s.roundId == round && !s.status.Aborted? then 1 else 0
  }

  function Claimed(ss: seq<Session>, arm: string, round: nat): nat { Total(ss, Claims(arm, round)) }

  function BySubmission(sub: Submission): Participant -> bool {
    (p: Participant) => p.prolific.Some? && p.prolific.value.submission == sub
  }

  function ByToken(token: string): Participant -> bool { (p: Participant) => p.token == token }

  function Direct(token: string): Participant -> bool { (p: Participant) => p.token == token && p.prolific.None? }

  function Seats(want: Participant -> bool, endedToo: bool): Session -> nat {
    (s: Session) => if endedToo || !s.status.Aborted? then Count(s.participants, want) else 0
  }

  function SubmissionSeats(ss: seq<Session>, sub: Submission): nat { Total(ss, Seats(BySubmission(sub), true)) }

  function DirectSeats(ss: seq<Session>, token: string): nat { Total(ss, Seats(Direct(token), false)) }

  // ---- lookups ----

  datatype Place = Place(session: nat, seat: nat)

  function FirstSeat(ps: seq<Participant>, want: Participant -> bool): (j: nat)
    ensures j <= |ps|
    ensures j < |ps| ==> want(ps[j])
    ensures forall k :: 0 <= k < j ==> !want(ps[k])
  {
    if ps == [] then 0 else if want(ps[0]) then 0 else 1 + FirstSeat(ps[1..], want)
  }

  predicate HasSeat(s: Session, want: Participant -> bool, endedToo: bool) {
    (endedToo || !s.status.Aborted?) && FirstSeat(s.participants, want) < |s.participants|
  }

  /** The first seat, sessions in order of creation. */
  function FindSeat(ss: seq<Session>, want: Participant -> bool, endedToo: bool): (place: Option<Place>)
    ensures place.Some? ==>
              && place.value.session < |ss| && HasSeat(ss[place.value.session], want, endedToo)
              && place.value.seat == FirstSeat(ss[place.value.session].participants, want)
    ensures place.None? ==> forall i :: 0 <= i < |ss| ==> !HasSeat(ss[i], want, endedToo)
  {
    if ss == [] then None
    else
      var n := |ss| - 1;
      var before := FindSeat(ss[..n], want, endedToo);
      if before.Some? then before
      else if HasSeat(ss[n], want, endedToo) then Some(Place(n, FirstSeat(ss[n].participants, want)))
      else None
  }

  // ---- choosing a seat ----

  datatype Request = Request(token: string, prolific: Option<Prolific>, armId: Option<string>, etherpad: Option<bool>)

  predicate ActiveArm(arms: seq<Arm>, id: string) {
    exists i :: 0 <= i < |arms| && arms[i].id == id && arms[i].active
  }

  predicate Joinable(s: Session, round: nat, arms: seq<Arm>, r: Request) {
    && s.status.Waiting? && s.roundId == round && ActiveArm(arms, s.arm)
    && (r.armId.Some? ==> s.arm == r.armId.value)
    && (r.etherpad.Some? ==> s.etherpad == r.etherpad.value)
    && |s.participants| < s.groupSize
  }

  function JoinableIndices(ss: seq<Session>, round: nat, arms: seq<Arm>, r: Request): seq<nat> {
    if ss == [] then []
    else
      var n := |ss| - 1;
      JoinableIndices(ss[..n], round, arms, r) + if Joinable(ss[n], round, arms, r) then [n] else []
  }

  function Older(ss: seq<Session>): (nat, nat) -> bool {
    (i: nat, j: nat) => i < |ss| && j < |ss| && ss[i].createdAt < ss[j].createdAt
  }

  /** findForming */
  function FindForming(ss: seq<Session>, round: nat, arms: seq<Arm>, r: Request): Option<nat> {
    var found := Sorted(JoinableIndices(ss, round, arms, r), Older(ss));
    if found == [] then None else Some(found[0])
  }

  predicate Recruits(a: Arm, ss: seq<Session>, round: nat) { a.active && Claimed(ss, a.id, round) < a.goal }

  function Recruiting(arms: seq<Arm>, ss: seq<Session>, round: nat): seq<Arm> {
    if arms == [] then []
    else
      var n := |arms| - 1;
      Recruiting(arms[..n], ss, round) + if Recruits(arms[n], ss, round) then [arms[n]] else []
  }

  function LessClaimed(ss: seq<Session>, round: nat): (Arm, Arm) -> bool {
    (a: Arm, b: Arm) => Claimed(ss, a.id, round) < Claimed(ss, b.id, round)
  }

  function FindArm(arms: seq<Arm>, id: string): Option<Arm> {
    if arms == [] then None else if arms[0].id == id then Some(arms[0]) else FindArm(arms[1..], id)
  }

  /** assignCondition; None is the error answer. */
  function AssignArm(ss: seq<Session>, round: nat, arms: seq<Arm>, armId: Option<string>): Option<Arm> {
    if armId.Some? then
      var arm := FindArm(arms, armId.value);
      if arm.Some? && Recruits(arm.value, ss, round) then arm else None
    else
      var candidates := Sorted(Recruiting(arms, ss, round), LessClaimed(ss, round));
      if candidates == [] then None else Some(candidates[0])
  }

  datatype Answer = Existing(place: Place) | Refused | Reserved

  function SeatOf(ss: seq<Session>, r: Request): Option<Place> {
    if r.prolific.Some? then FindSeat(ss, BySubmission(r.prolific.value.submission), true)
    else if r.token == "" then None
    else FindSeat(ss, ByToken(r.token), false)
  }

  /** How reserveSeat answers someone who already has a seat. */
  function Rejoin(ss: seq<Session>, r: Request, place: Place): Answer
    requires place.session < |ss| && place.seat < |ss[place.session].participants|
  {
    var holder := ss[place.session].participants[place.seat];
    if r.prolific.Some? && holder.prolific.Some? && holder.prolific.value.participantId != r.prolific.value.participantId
    then Refused
    else if r.prolific.Some? && ss[place.session].status.Aborted? then Refused
    else Existing(place)
  }

  function Forming(arm: Arm, round: nat, r: Request, now: int, timeout: int): Session {
    Session(Waiting, round, arm.id, arm.groupSize, if r.etherpad.Some? then r.etherpad.value else arm.etherpad,
            [], now, now + timeout, None)
  }

  /** reserveSeat up to the choice of a session. */
  function Choose(w: Store, r: Request, arms: seq<Arm>, now: int, timeout: int): (Store, Answer) {
    var existing := SeatOf(w.sessions, r);
    if existing.Some? then (w, Rejoin(w.sessions, r, existing.value))
    else
      var rounds, round := WithOpen(w.rounds), CurrentId(w.rounds);
      var forming, p := FindForming(w.sessions, round, arms, r), Participant(r.token, r.prolific);
      if forming.Some? then (w.(rounds := rounds, lock := Seating(forming.value, p)), Reserved)
      else
        var arm := AssignArm(w.sessions, round, arms, r.armId);
        if arm.None? then (w.(rounds := rounds), Refused)
        else
          (w.(rounds := rounds, sessions := w.sessions + [Forming(arm.value, round, r, now, timeout)],
              lock := Seating(|w.sessions|, p)), Reserved)
  }

  // ---- one session ----

  function Seated(s: Session, p: Participant): Session { s.(participants := s.participants + [p]) }

  function Without(ps: seq<Participant>, j: nat): seq<Participant>
    requires j < |ps|
  {
    ps[..j] + ps[j + 1..]
  }

  /** removeParticipantFromWaitingSession */
  function Vacated(s: Session, j: nat): Session
    requires j < |s.participants|
  {
    if !s.status.Waiting? then s
    else
      var rest := Without(s.participants, j);
      s.(participants := rest, status := if rest == [] then Aborted else Waiting)
  }

  /** leaveSession */
  function Left(s: Session, j: nat): Session
    requires j < |s.participants|
  {
    if s.status.Waiting? then Vacated(s, j)
    else if s.status.Provisioning? then s.(status := Aborted)
    else s
  }

  /** claimSessionProvisioning */
  function ClaimedForRoom(s: Session): Session { if s.status.Waiting? then s.(status := Provisioning) else s }

  /** finishSessionProvisioning */
  function Published(s: Session, room: string): Session {
    if s.status.Provisioning? then s.(status := Running, roomId := Some(room)) else s
  }

  /** completeSession, and the lifecycle part of finalizeSession */
  function Finished(s: Session): Session { if s.status.Aborted? then s else s.(status := Completed) }

  predicate Lobby(s: Session, provisioningToo: bool) { s.status.Waiting? || (provisioningToo && s.status.Provisioning?) }

  /** abortLobbies on one lobby; no deadline test when now is absent. */
  function LobbyAborted(s: Session, provisioningToo: bool, now: Option<int>): Session {
    if Lobby(s, provisioningToo) && (now.Some? ==> s.deadline <= now.value) then s.(status := Aborted) else s
  }

  function LobbiesAborted(ss: seq<Session>, provisioningToo: bool, now: Option<int>): (after: seq<Session>)
    ensures |after| == |ss|
    ensures forall i :: 0 <= i < |ss| ==> after[i] == LobbyAborted(ss[i], provisioningToo, now)
  {
    seq(|ss|, i requires 0 <= i < |ss| => LobbyAborted(ss[i], provisioningToo, now))
  }

  function Leave(w: Store, who: Prolific): Store {
    var place := FindSeat(w.sessions, BySubmission(who.submission), true);
    if place.None? then w
    else
      var i, j := place.value.session, place.value.seat;
      if w.sessions[i].participants[j].prolific.value.participantId != who.participantId then w
      else w.(sessions := w.sessions[i := Left(w.sessions[i], j)])
  }

  // ---- the machine ----

  datatype Step =
    | Join(request: Request, arms: seq<Arm>, now: int, timeout: int)
    | TakeSeat
    | LeaveForGood(who: Prolific)
    | CloseLobbies
    | OpenRound
    | ReadRounds
    | ReadFull(i: nat)
    | AttemptEnds(i: nat)
    | ClaimRoom(i: nat)
    | KeepRoom(i: nat, room: string)
    | Publish(i: nat, room: string)
    | Finish(i: nat)
    | Expire(i: nat, now: int)

  /** Arms may be edited, switched and reordered between joins; only their goals stay. */
  predicate ArmsOk(arms: seq<Arm>, goals: map<string, nat>) {
    forall i :: 0 <= i < |arms| ==> arms[i].groupSize >= 2 && arms[i].id in goals && arms[i].goal == goals[arms[i].id]
  }

  predicate ReadsFull(s: Session) { Lobby(s, true) && |s.participants| >= s.groupSize }

  predicate Enabled(w: Store, step: Step, goals: map<string, nat>) {
    match step
    case Join(_, arms, _, _) => w.lock.Free? && ArmsOk(arms, goals)
    case TakeSeat => w.lock.Seating? && w.lock.session < |w.sessions|
    case LeaveForGood(_) => w.lock.Free?
    case CloseLobbies => w.lock.Free?
    case OpenRound => w.lock.Switching?
    case ReadRounds => true
    case ReadFull(i) => i < |w.sessions| && ReadsFull(w.sessions[i])
    case AttemptEnds(_) => true
    case ClaimRoom(i) => i in w.full && i < |w.sessions|
    case KeepRoom(i, _) => i in w.full && i < |w.sessions|
    case Publish(i, _) => i in w.full && i < |w.sessions|
    case Finish(i) => i < |w.sessions|
    case Expire(i, _) => i < |w.sessions|
  }

  function Next(w: Store, step: Step, goals: map<string, nat>): Store {
    if !Enabled(w, step, goals) then w
    else
      match step
      case Join(r, arms, now, timeout) => Choose(w, r, arms, now, timeout).0
      case TakeSeat =>
        var i := w.lock.session;
        w.(sessions := w.sessions[i := Seated(w.sessions[i], w.lock.participant)], lock := Free)
      case LeaveForGood(who) => Leave(w, who)
      case CloseLobbies => w.(sessions := LobbiesAborted(w.sessions, false, None), lock := Switching)
      case OpenRound => w.(rounds := NewRound(w.rounds), lock := Free)
      case ReadRounds => w.(rounds := WithOpen(w.rounds))
      case ReadFull(i) => w.(full := w.full + {i})
      case AttemptEnds(i) => w.(full := w.full - {i})
      case ClaimRoom(i) => w.(sessions := w.sessions[i := ClaimedForRoom(w.sessions[i])])
      case KeepRoom(i, room) => w.(sessions := w.sessions[i := w.sessions[i].(roomId := Some(room))])
      case Publish(i, room) => w.(sessions := w.sessions[i := Published(w.sessions[i], room)])
      case Finish(i) => w.(sessions := w.sessions[i := Finished(w.sessions[i])])
      case Expire(i, now) => w.(sessions := w.sessions[i := LobbyAborted(w.sessions[i], true, Some(now))])
  }

  function Run(w: Store, steps: seq<Step>, goals: map<string, nat>): Store {
    if steps == [] then w else Next(Run(w, steps[..|steps| - 1], goals), steps[|steps| - 1], goals)
  }
}

/** What every run of the matchmaking machine keeps. */
module MatchmakingSafety {
  import opened Options
  import opened Sorting
  import opened Matchmaking

  // ---- sums ----

  lemma {:induction false} TotalUpdate(ss: seq<Session>, i: nat, s: Session, f: Session -> nat)
    requires i < |ss|
    ensures Total(ss[i := s], f) + f(ss[i]) == Total(ss, f) + f(s)
  {
    var n := |ss| - 1;
    if i == n {
      assert ss[i := s][..n] == ss[..n];
    } else {
      assert ss[i := s][..n] == ss[..n][i := s];
      TotalUpdate(ss[..n], i, s, f);
    }
  }

  lemma TotalAppend(ss: seq<Session>, s: Session, f: Session -> nat)
    ensures Total(ss + [s], f) == Total(ss, f) + f(s)
  {
    assert (ss + [s])[..|ss|] == ss;
  }

  lemma {:induction false} TotalShrinks(ss: seq<Session>, after: seq<Session>, f: Session -> nat)
    requires |ss| == |after| && forall i :: 0 <= i < |ss| ==> f(after[i]) <= f(ss[i])
    ensures Total(after, f) <= Total(ss, f)
  {
    if ss != [] { TotalShrinks(ss[..|ss| - 1], after[..|ss| - 1], f); }
  }

  lemma {:induction false} TotalZero(ss: seq<Session>, f: Session -> nat)
    requires forall i :: 0 <= i < |ss| ==> f(ss[i]) == 0
    ensures Total(ss, f) == 0
  {
    if ss != [] { TotalZero(ss[..|ss| - 1], f); }
  }

  lemma {:induction false} CountZero(ps: seq<Participant>, want: Participant -> bool)
    requires forall j :: 0 <= j < |ps| ==> !want(ps[j])
    ensures Count(ps, want) == 0
  {
    if ps != [] { CountZero(ps[..|ps| - 1], want); }
  }

  lemma CountAppend(ps: seq<Participant>, p: Participant, want: Participant -> bool)
    ensures Count(ps + [p], want) == Count(ps, want) + if want(p) then 1 else 0
  {
    assert (ps + [p])[..|ps|] == ps;
  }

  lemma WithoutLast(ps: seq<Participant>)
    requires ps != []
    ensures Without(ps, |ps| - 1) == ps[..|ps| - 1]
  {}

  lemma WithoutEarlier(ps: seq<Participant>, j: nat)
    requires j < |ps| - 1
    ensures Without(ps, j) == Without(ps[..|ps| - 1], j) + [ps[|ps| - 1]]
  {}

  lemma {:induction false} CountWithout(ps: seq<Participant>, j: nat, want: Participant -> bool)
    requires j < |ps|
    ensures Count(Without(ps, j), want) <= Count(ps, want)
  {
    var n := |ps| - 1;
    if j == n {
      WithoutLast(ps);
    } else {
      CountWithout(ps[..n], j, want);
      WithoutEarlier(ps, j);
      CountAppend(Without(ps[..n], j), ps[n], want);
    }
  }

  /** No lookup hit means no seat counted. */
  lemma NoSeatNoCount(ss: seq<Session>, want: Participant -> bool, other: Participant -> bool, endedToo: bool)
    requires FindSeat(ss, want, endedToo).None?
    requires forall p :: other(p) ==> want(p)
    ensures Total(ss, Seats(other, endedToo)) == 0
  {
    forall i | 0 <= i < |ss| ensures Seats(other, endedToo)(ss[i]) == 0 {
      assert !HasSeat(ss[i], want, endedToo);
      if endedToo || !ss[i].status.Aborted? { CountZero(ss[i].participants, other); }
    }
    TotalZero(ss, Seats(other, endedToo));
  }

  // ---- the steps that only take away ----

  /** The lifecycle: waiting, provisioning, running, completed; aborted out of a lobby. */
  predicate Follows(before: Status, after: Status) {
    || after == before
    || (before.Waiting? && (after.Provisioning? || after.Completed? || after.Aborted?))
    || (before.Provisioning? && (after.Running? || after.Completed? || after.Aborted?))
    || (before.Running? && after.Completed?)
  }

  predicate SameMembers(s: Session, after: Session) {
    || after.participants == s.participants
    || (s.status.Waiting? && exists j :: 0 <= j < |s.participants| && after.participants == Without(s.participants, j))
  }

  /** What becomes of a session when nobody takes a seat in it. */
  ghost predicate Lesser(s: Session, after: Session) {
    && after.(status := s.status, participants := s.participants, roomId := s.roomId) == s
    && Follows(s.status, after.status)
    && SameMembers(s, after)
    && (after.status.Waiting? && s.participants != [] ==> after.participants != [])
  }

  ghost predicate Shrinks(ss: seq<Session>, after: seq<Session>) {
    |ss| == |after| && forall i :: 0 <= i < |ss| ==> Lesser(ss[i], after[i])
  }

  lemma LesserSeats(s: Session, after: Session, want: Participant -> bool, endedToo: bool)
    requires Lesser(s, after)
    ensures Seats(want, endedToo)(after) <= Seats(want, endedToo)(s)
  {
    if after.participants != s.participants {
      var j :| 0 <= j < |s.participants| && after.participants == Without(s.participants, j);
      CountWithout(s.participants, j, want);
    }
  }

  lemma ShrinksSeats(ss: seq<Session>, after: seq<Session>, want: Participant -> bool, endedToo: bool)
    requires Shrinks(ss, after)
    ensures Total(after, Seats(want, endedToo)) <= Total(ss, Seats(want, endedToo))
  {
    forall i | 0 <= i < |ss| ensures Seats(want, endedToo)(after[i]) <= Seats(want, endedToo)(ss[i]) {
      LesserSeats(ss[i], after[i], want, endedToo);
    }
    TotalShrinks(ss, after, Seats(want, endedToo));
  }

  lemma ShrinksClaims(ss: seq<Session>, after: seq<Session>, arm: string, round: nat)
    requires Shrinks(ss, after)
    ensures Claimed(after, arm, round) <= Claimed(ss, arm, round)
  {
    forall i | 0 <= i < |ss| ensures Claims(arm, round)(after[i]) <= Claims(arm, round)(ss[i]) {
      assert Lesser(ss[i], after[i]);
    }
    TotalShrinks(ss, after, Claims(arm, round));
  }

  /** Neither a choice of seat nor the taking of it. */
  predicate TakesAway(step: Step) { !step.Join? && !step.TakeSeat? }

  lemma LeftIsLesser(s: Session, j: nat)
    requires j < |s.participants|
    ensures Lesser(s, Left(s, j))
  {}

  lemma OtherStepsShrink(w: Store, step: Step, goals: map<string, nat>)
    requires TakesAway(step)
    ensures Shrinks(w.sessions, Next(w, step, goals).sessions)
  {
    match step
    case LeaveForGood(who) =>
      var place := FindSeat(w.sessions, BySubmission(who.submission), true);
      if place.Some? {
        LeftIsLesser(w.sessions[place.value.session], place.value.seat);
      }
    case _ =>
  }

  // ---- rounds ----

  /** Rounds are numbered from 1, and only the last one is open. */
  predicate RoundsOk(rounds: seq<Round>) {
    forall i :: 0 <= i < |rounds| ==> rounds[i].id == i + 1 && (rounds[i].open <==> i == |rounds| - 1)
  }

  lemma {:induction false} MaxIdIsLast(rounds: seq<Round>)
    requires forall i :: 0 <= i < |rounds| ==> rounds[i].id == i + 1
    ensures MaxId(rounds) == |rounds|
  {
    if rounds != [] { MaxIdIsLast(rounds[..|rounds| - 1]); }
  }

  lemma CurrentIsLast(rounds: seq<Round>)
    requires RoundsOk(rounds)
    ensures RoundsOk(WithOpen(rounds)) && FirstOpen(WithOpen(rounds)) == |WithOpen(rounds)| - 1
    ensures CurrentId(rounds) == |WithOpen(rounds)| >= 1
    ensures rounds != [] ==> WithOpen(rounds) == rounds
    ensures RoundsOk(NewRound(rounds)) && |NewRound(rounds)| == |WithOpen(rounds)| + 1
  {
    MaxIdIsLast(rounds);
  }

  // ---- the invariants, one per promise ----

  predicate Sized(w: Store) {
    forall i :: 0 <= i < |w.sessions| ==>
      |w.sessions[i].participants| + (if w.lock.Seating? && w.lock.session == i then 1 else 0) <= w.sessions[i].groupSize
  }

  ghost predicate GoalsKept(w: Store, goals: map<string, nat>) {
    forall arm, round :: arm in goals ==> Claimed(w.sessions, arm, round) <= goals[arm]
  }

  predicate ArmsKnown(w: Store, goals: map<string, nat>) {
    forall i :: 0 <= i < |w.sessions| ==> w.sessions[i].arm in goals
  }

  /** Every waiting session is of the open round, and so is the one a join has chosen. */
  predicate RoundsKept(w: Store) {
    && RoundsOk(w.rounds)
    && (forall i :: 0 <= i < |w.sessions| ==>
          && 1 <= w.sessions[i].roundId <= |w.rounds|
          && (w.sessions[i].status.Waiting? ==> w.sessions[i].roundId == |w.rounds| && !w.lock.Switching?))
    && (w.lock.Seating? ==> w.lock.session < |w.sessions| && w.sessions[w.lock.session].roundId == |w.rounds|)
  }

  /** Nobody waits in an empty lobby, except the one a join is about to enter. */
  predicate NoEmptyLobby(w: Store) {
    forall i :: 0 <= i < |w.sessions| && w.sessions[i].status.Waiting? && w.sessions[i].participants == [] ==>
      w.lock.Seating? && w.lock.session == i
  }

  function PendingSubmission(lock: Lock, sub: Submission): nat {
    if lock.Seating? && BySubmission(sub)(lock.participant) then 1 else 0
  }

  ghost predicate OneSeatEach(w: Store) {
    forall sub :: SubmissionSeats(w.sessions, sub) + PendingSubmission(w.lock, sub) <= 1
  }

  function PendingDirect(lock: Lock, token: string): nat {
    if lock.Seating? && Direct(token)(lock.participant) then 1 else 0
  }

  ghost predicate OneDirectSeatEach(w: Store) {
    forall token :: token != "" ==> DirectSeats(w.sessions, token) + PendingDirect(w.lock, token) <= 1
  }

  ghost predicate Safe(w: Store, goals: map<string, nat>) {
    && Sized(w) && GoalsKept(w, goals) && ArmsKnown(w, goals) && RoundsKept(w) && NoEmptyLobby(w)
    && OneSeatEach(w) && OneDirectSeatEach(w)
  }

  // ---- the choice of a seat ----

  lemma {:induction false} JoinableExact(ss: seq<Session>, round: nat, arms: seq<Arm>, r: Request)
    ensures forall i :: i in JoinableIndices(ss, round, arms, r) <==> 0 <= i < |ss| && Joinable(ss[i], round, arms, r)
  {
    if ss != [] {
      var n := |ss| - 1;
      JoinableExact(ss[..n], round, arms, r);
      assert forall i :: 0 <= i < n ==> ss[..n][i] == ss[i];
    }
  }

  /** findForming answers exactly when there is a free seat to take, and with an oldest such lobby. */
  lemma OldestForming(ss: seq<Session>, round: nat, arms: seq<Arm>, r: Request)
    ensures var found := FindForming(ss, round, arms, r);
            && (found.Some? <==> exists i :: 0 <= i < |ss| && Joinable(ss[i], round, arms, r))
            && (found.Some? ==>
                  && found.value < |ss| && Joinable(ss[found.value], round, arms, r)
                  && forall i :: 0 <= i < |ss| && Joinable(ss[i], round, arms, r) ==>
                       ss[found.value].createdAt <= ss[i].createdAt)
  {
    var indices := JoinableIndices(ss, round, arms, r);
    JoinableExact(ss, round, arms, r);
    if indices != [] {
      HeadIsFirst(indices, Older(ss));
      assert Joinable(ss[indices[0]], round, arms, r) by { assert indices[0] in indices; }
    } else {
      forall i | 0 <= i < |ss| ensures !Joinable(ss[i], round, arms, r) {
        assert i !in indices;
      }
    }
  }

  lemma {:induction false} RecruitingExact(arms: seq<Arm>, ss: seq<Session>, round: nat)
    ensures forall a :: a in Recruiting(arms, ss, round) <==> a in arms && Recruits(a, ss, round)
  {
    if arms != [] {
      RecruitingExact(arms[..|arms| - 1], ss, round);
      assert arms == arms[..|arms| - 1] + [arms[|arms| - 1]];
    }
  }

  lemma {:induction false} FindArmExact(arms: seq<Arm>, id: string)
    ensures FindArm(arms, id).Some? ==> FindArm(arms, id).value in arms && FindArm(arms, id).value.id == id
  {
    if arms != [] { FindArmExact(arms[1..], id); }
  }

  /** Without a wish the assigned arm recruits, no recruiting arm has fewer claims, and full means nothing recruits. */
  lemma LeastClaimedArm(ss: seq<Session>, round: nat, arms: seq<Arm>)
    ensures var arm := AssignArm(ss, round, arms, None);
            && (arm.Some? <==> exists a :: a in arms && Recruits(a, ss, round))
            && (arm.Some? ==>
                  && arm.value in arms && Recruits(arm.value, ss, round)
                  && forall a :: a in arms && Recruits(a, ss, round) ==>
                       Claimed(ss, arm.value.id, round) <= Claimed(ss, a.id, round))
  {
    var recruiting := Recruiting(arms, ss, round);
    RecruitingExact(arms, ss, round);
    if recruiting != [] {
      HeadIsFirst(recruiting, LessClaimed(ss, round));
    } else {
      forall a | a in arms ensures !Recruits(a, ss, round) { assert a !in recruiting; }
    }
  }

  lemma AssignedRecruits(ss: seq<Session>, round: nat, arms: seq<Arm>, armId: Option<string>)
    ensures var arm := AssignArm(ss, round, arms, armId);
            arm.Some? ==> arm.value in arms && Recruits(arm.value, ss, round)
  {
    if armId.Some? { FindArmExact(arms, armId.value); } else { LeastClaimedArm(ss, round, arms); }
  }

  /** A join that reserves a seat has none yet, by submission or by token. */
  lemma ReservedHasNone(w: Store, r: Request, arms: seq<Arm>, now: int, timeout: int)
    requires Choose(w, r, arms, now, timeout).1.Reserved?
    ensures r.prolific.Some? ==> SubmissionSeats(w.sessions, r.prolific.value.submission) == 0
    ensures r.prolific.None? && r.token != "" ==> DirectSeats(w.sessions, r.token) == 0
  {
    if r.prolific.Some? {
      var want := BySubmission(r.prolific.value.submission);
      NoSeatNoCount(w.sessions, want, want, true);
    } else if r.token != "" {
      NoSeatNoCount(w.sessions, ByToken(r.token), Direct(r.token), false);
    }
  }

  // ---- every step keeps every promise ----

  lemma LockAfterTakingAway(w: Store, step: Step, goals: map<string, nat>)
    requires TakesAway(step)
    ensures var after := Next(w, step, goals);
            after.lock == w.lock || (!w.lock.Seating? && !after.lock.Seating?)
  {}

  lemma TakingAwayKeepsSeats(w: Store, step: Step, goals: map<string, nat>)
    requires TakesAway(step) && Sized(w) && OneSeatEach(w) && OneDirectSeatEach(w)
    ensures var after := Next(w, step, goals); Sized(after) && OneSeatEach(after) && OneDirectSeatEach(after)
  {
    var after := Next(w, step, goals);
    OtherStepsShrink(w, step, goals);
    LockAfterTakingAway(w, step, goals);
    forall i | 0 <= i < |after.sessions|
      ensures |after.sessions[i].participants| <= |w.sessions[i].participants|
      ensures after.sessions[i].groupSize == w.sessions[i].groupSize
    {
      assert Lesser(w.sessions[i], after.sessions[i]);
    }
    forall sub ensures SubmissionSeats(after.sessions, sub) <= SubmissionSeats(w.sessions, sub) {
      ShrinksSeats(w.sessions, after.sessions, BySubmission(sub), true);
    }
    forall token ensures DirectSeats(after.sessions, token) <= DirectSeats(w.sessions, token) {
      ShrinksSeats(w.sessions, after.sessions, Direct(token), false);
    }
  }

  lemma TakingAwayKeepsGoals(w: Store, step: Step, goals: map<string, nat>)
    requires TakesAway(step) && GoalsKept(w, goals) && ArmsKnown(w, goals)
    ensures var after := Next(w, step, goals); GoalsKept(after, goals) && ArmsKnown(after, goals)
  {
    var after := Next(w, step, goals);
    OtherStepsShrink(w, step, goals);
    forall arm, round | arm in goals ensures Claimed(after.sessions, arm, round) <= goals[arm] {
      ShrinksClaims(w.sessions, after.sessions, arm, round);
    }
    forall i | 0 <= i < |after.sessions| ensures after.sessions[i].arm in goals {
      assert Lesser(w.sessions[i], after.sessions[i]);
    }
  }

  lemma TakingAwayKeepsRounds(w: Store, step: Step, goals: map<string, nat>)
    requires TakesAway(step) && RoundsKept(w)
    ensures RoundsKept(Next(w, step, goals))
  {
    var after := Next(w, step, goals);
    OtherStepsShrink(w, step, goals);
    CurrentIsLast(w.rounds);
    forall i | 0 <= i < |after.sessions|
      ensures after.sessions[i].roundId == w.sessions[i].roundId
      ensures after.sessions[i].status.Waiting? ==> w.sessions[i].status.Waiting?
    {
      assert Lesser(w.sessions[i], after.sessions[i]);
    }
    if step.CloseLobbies? && Enabled(w, step, goals) {
      forall i | 0 <= i < |after.sessions| ensures !after.sessions[i].status.Waiting? {}
    }
  }

  lemma TakingAwayKeepsLobbies(w: Store, step: Step, goals: map<string, nat>)
    requires TakesAway(step) && RoundsKept(w) && NoEmptyLobby(w)
    ensures NoEmptyLobby(Next(w, step, goals))
  {
    var after := Next(w, step, goals);
    OtherStepsShrink(w, step, goals);
    LockAfterTakingAway(w, step, goals);
    forall i | 0 <= i < |after.sessions| && after.sessions[i].status.Waiting? && after.sessions[i].participants == []
      ensures after.lock.Seating? && after.lock.session == i
    {
      assert Lesser(w.sessions[i], after.sessions[i]);
    }
  }

  lemma TakeSeatKeepsSeats(w: Store, goals: map<string, nat>)
    requires Enabled(w, TakeSeat, goals) && Sized(w) && OneSeatEach(w) && OneDirectSeatEach(w)
    ensures var after := Next(w, TakeSeat, goals); Sized(after) && OneSeatEach(after) && OneDirectSeatEach(after)
  {
    var i, p := w.lock.session, w.lock.participant;
    var s, ss := w.sessions[i], Next(w, TakeSeat, goals).sessions;
    forall sub ensures SubmissionSeats(ss, sub) == SubmissionSeats(w.sessions, sub) + PendingSubmission(w.lock, sub) {
      TotalUpdate(w.sessions, i, Seated(s, p), Seats(BySubmission(sub), true));
      CountAppend(s.participants, p, BySubmission(sub));
    }
    forall token ensures DirectSeats(ss, token) <= DirectSeats(w.sessions, token) + PendingDirect(w.lock, token) {
      TotalUpdate(w.sessions, i, Seated(s, p), Seats(Direct(token), false));
      CountAppend(s.participants, p, Direct(token));
    }
  }

  lemma TakeSeatKeepsTheRest(w: Store, goals: map<string, nat>)
    requires Enabled(w, TakeSeat, goals) && GoalsKept(w, goals) && ArmsKnown(w, goals) && RoundsKept(w) && NoEmptyLobby(w)
    ensures var after := Next(w, TakeSeat, goals);
            GoalsKept(after, goals) && ArmsKnown(after, goals) && RoundsKept(after) && NoEmptyLobby(after)
  {
    var i, p := w.lock.session, w.lock.participant;
    var ss := Next(w, TakeSeat, goals).sessions;
    forall arm, round | arm in goals ensures Claimed(ss, arm, round) <= goals[arm] {
      assert Claimed(w.sessions, arm, round) <= goals[arm];
      TotalUpdate(w.sessions, i, Seated(w.sessions[i], p), Claims(arm, round));
    }
  }

  /** A join that enters a forming lobby, and one that opens a lobby for an arm. */
  ghost predicate Enters(w: Store, after: Store, arms: seq<Arm>, r: Request) {
    && after == w.(rounds := WithOpen(w.rounds), lock := after.lock)
    && after.lock.Seating? && after.lock.participant == Participant(r.token, r.prolific)
    && after.lock.session < |w.sessions|
    && Joinable(w.sessions[after.lock.session], CurrentId(w.rounds), arms, r)
  }

  ghost predicate Opens(w: Store, after: Store, arm: Arm, r: Request, now: int, timeout: int) {
    && after == Store(w.sessions + [Forming(arm, CurrentId(w.rounds), r, now, timeout)], WithOpen(w.rounds),
                      Seating(|w.sessions|, Participant(r.token, r.prolific)), w.full)
    && Recruits(arm, w.sessions, CurrentId(w.rounds))
  }

  /** What a join can do: no more than open the first round, enter a lobby with a free seat, or open one for a recruiting arm. */
  lemma JoinChooses(w: Store, r: Request, arms: seq<Arm>, now: int, timeout: int) returns (arm: Option<Arm>)
    ensures var (after, answer) := Choose(w, r, arms, now, timeout);
            && (!answer.Reserved? ==> after == w || after == w.(rounds := WithOpen(w.rounds)))
            && (answer.Reserved? && arm.None? ==> Enters(w, after, arms, r))
            && (answer.Reserved? && arm.Some? ==> arm.value in arms && Opens(w, after, arm.value, r, now, timeout))
  {
    var round := CurrentId(w.rounds);
    OldestForming(w.sessions, round, arms, r);
    AssignedRecruits(w.sessions, round, arms, r.armId);
    arm := if FindForming(w.sessions, round, arms, r).Some? then None else AssignArm(w.sessions, round, arms, r.armId);
  }

  lemma ArmInGoals(arm: Arm, arms: seq<Arm>, goals: map<string, nat>)
    requires arm in arms && ArmsOk(arms, goals)
    ensures arm.groupSize >= 2 && arm.id in goals && arm.goal == goals[arm.id]
  {}

  lemma NewLobbyCounts(w: Store, s: Session, want: Participant -> bool, endedToo: bool)
    requires s.participants == []
    ensures Total(w.sessions + [s], Seats(want, endedToo)) == Total(w.sessions, Seats(want, endedToo))
  {
    TotalAppend(w.sessions, s, Seats(want, endedToo));
  }

  lemma OpenKeepsSeats(w: Store, after: Store, arm: Arm, r: Request, now: int, timeout: int)
    requires Opens(w, after, arm, r, now, timeout) && w.lock.Free?
    requires Sized(w) && arm.groupSize >= 2
    ensures Sized(after)
    ensures forall sub :: SubmissionSeats(after.sessions, sub) == SubmissionSeats(w.sessions, sub)
    ensures forall token :: DirectSeats(after.sessions, token) == DirectSeats(w.sessions, token)
  {
    var lobby := Forming(arm, CurrentId(w.rounds), r, now, timeout);
    forall sub ensures SubmissionSeats(after.sessions, sub) == SubmissionSeats(w.sessions, sub) {
      NewLobbyCounts(w, lobby, BySubmission(sub), true);
    }
    forall token ensures DirectSeats(after.sessions, token) == DirectSeats(w.sessions, token) {
      NewLobbyCounts(w, lobby, Direct(token), false);
    }
  }

  lemma JoinKeepsSeats(w: Store, r: Request, arms: seq<Arm>, now: int, timeout: int, goals: map<string, nat>)
    requires w.lock.Free? && ArmsOk(arms, goals) && Sized(w) && OneSeatEach(w) && OneDirectSeatEach(w)
    ensures var after := Choose(w, r, arms, now, timeout).0;
            Sized(after) && OneSeatEach(after) && OneDirectSeatEach(after)
  {
    var (after, answer) := Choose(w, r, arms, now, timeout);
    var arm := JoinChooses(w, r, arms, now, timeout);
    if answer.Reserved? {
      ReservedHasNone(w, r, arms, now, timeout);
      if arm.Some? {
        ArmInGoals(arm.value, arms, goals);
        OpenKeepsSeats(w, after, arm.value, r, now, timeout);
      }
    }
  }

  lemma OpenKeepsGoals(w: Store, after: Store, chosen: Arm, r: Request, now: int, timeout: int, goals: map<string, nat>)
    requires Opens(w, after, chosen, r, now, timeout) && GoalsKept(w, goals)
    requires chosen.id in goals && chosen.goal == goals[chosen.id]
    ensures GoalsKept(after, goals)
  {
    var lobby := Forming(chosen, CurrentId(w.rounds), r, now, timeout);
    forall arm, round | arm in goals ensures Claimed(after.sessions, arm, round) <= goals[arm] {
      assert Claimed(w.sessions, arm, round) <= goals[arm];
      TotalAppend(w.sessions, lobby, Claims(arm, round));
    }
  }

  lemma JoinKeepsGoals(w: Store, r: Request, arms: seq<Arm>, now: int, timeout: int, goals: map<string, nat>)
    requires w.lock.Free? && ArmsOk(arms, goals) && GoalsKept(w, goals) && ArmsKnown(w, goals)
    ensures var after := Choose(w, r, arms, now, timeout).0; GoalsKept(after, goals) && ArmsKnown(after, goals)
  {
    var (after, answer) := Choose(w, r, arms, now, timeout);
    var chosen := JoinChooses(w, r, arms, now, timeout);
    if answer.Reserved? && chosen.Some? {
      ArmInGoals(chosen.value, arms, goals);
      OpenKeepsGoals(w, after, chosen.value, r, now, timeout, goals);
    }
  }

  lemma JoinKeepsRounds(w: Store, r: Request, arms: seq<Arm>, now: int, timeout: int)
    requires w.lock.Free? && RoundsKept(w) && NoEmptyLobby(w)
    ensures var after := Choose(w, r, arms, now, timeout).0; RoundsKept(after) && NoEmptyLobby(after)
  {
    var (after, answer) := Choose(w, r, arms, now, timeout);
    var chosen := JoinChooses(w, r, arms, now, timeout);
    CurrentIsLast(w.rounds);
  }

  lemma StepSafe(w: Store, step: Step, goals: map<string, nat>)
    requires Safe(w, goals)
    ensures Safe(Next(w, step, goals), goals)
  {
    if Enabled(w, step, goals) {
      match step
      case Join(r, arms, now, timeout) =>
        JoinKeepsSeats(w, r, arms, now, timeout, goals);
        JoinKeepsGoals(w, r, arms, now, timeout, goals);
        JoinKeepsRounds(w, r, arms, now, timeout);
      case TakeSeat =>
        TakeSeatKeepsSeats(w, goals);
        TakeSeatKeepsTheRest(w, goals);
      case _ =>
        TakingAwayKeepsSeats(w, step, goals);
        TakingAwayKeepsGoals(w, step, goals);
        TakingAwayKeepsRounds(w, step, goals);
        TakingAwayKeepsLobbies(w, step, goals);
    }
  }

  // ---- over whole runs ----

  lemma EmptyIsSafe(goals: map<string, nat>)
    ensures Safe(EMPTY, goals)
  {
    forall arm, round ensures Claimed([], arm, round) == 0 {}
    forall sub ensures SubmissionSeats([], sub) == 0 {}
    forall token ensures DirectSeats([], token) == 0 {}
  }

  /**
   * In every run, with the goals held fixed: no session exceeds its group size,
   * no arm its goal in a round, every waiting session is of the one open round
   * and none is empty, and nobody holds two seats.
   */
  lemma {:induction false} RunSafe(steps: seq<Step>, goals: map<string, nat>)
    ensures Safe(Run(EMPTY, steps, goals), goals)
  {
    if steps == [] {
      EmptyIsSafe(goals);
    } else {
      RunSafe(steps[..|steps| - 1], goals);
      StepSafe(Run(EMPTY, steps[..|steps| - 1], goals), steps[|steps| - 1], goals);
    }
  }

  lemma {:induction false} TwoInTotal(ss: seq<Session>, f: Session -> nat, i: nat, k: nat)
    requires i < k < |ss|
    ensures f(ss[i]) + f(ss[k]) <= Total(ss, f)
  {
    if k == |ss| - 1 { OneInTotal(ss[..k], f, i); } else { TwoInTotal(ss[..|ss| - 1], f, i, k); }
  }

  lemma {:induction false} OneInTotal(ss: seq<Session>, f: Session -> nat, i: nat)
    requires i < |ss|
    ensures f(ss[i]) <= Total(ss, f)
  {
    if i < |ss| - 1 { OneInTotal(ss[..|ss| - 1], f, i); }
  }

  lemma {:induction false} OneInCount(ps: seq<Participant>, want: Participant -> bool, j: nat)
    requires j < |ps| && want(ps[j])
    ensures 1 <= Count(ps, want)
  {
    if j < |ps| - 1 { OneInCount(ps[..|ps| - 1], want, j); }
  }

  lemma {:induction false} TwoInCount(ps: seq<Participant>, want: Participant -> bool, j: nat, k: nat)
    requires j < k < |ps| && want(ps[j]) && want(ps[k])
    ensures 2 <= Count(ps, want)
  {
    if k == |ps| - 1 { OneInCount(ps[..k], want, j); } else { TwoInCount(ps[..|ps| - 1], want, j, k); }
  }

  predicate SitsAt(ss: seq<Session>, place: Place, want: Participant -> bool, endedToo: bool) {
    && place.session < |ss| && place.seat < |ss[place.session].participants|
    && (endedToo || !ss[place.session].status.Aborted?)
    && want(ss[place.session].participants[place.seat])
  }

  predicate BothSit(ss: seq<Session>, p: Place, q: Place, want: Participant -> bool, endedToo: bool) {
    SitsAt(ss, p, want, endedToo) && SitsAt(ss, q, want, endedToo)
  }

  lemma OnePlace(ss: seq<Session>, want: Participant -> bool, endedToo: bool, p: Place, q: Place)
    requires Total(ss, Seats(want, endedToo)) <= 1
    requires SitsAt(ss, p, want, endedToo) && SitsAt(ss, q, want, endedToo)
    ensures p == q
  {
    OneInCount(ss[p.session].participants, want, p.seat);
    OneInCount(ss[q.session].participants, want, q.seat);
    var f := Seats(want, endedToo);
    if p.session < q.session {
      TwoInTotal(ss, f, p.session, q.session);
    } else if q.session < p.session {
      TwoInTotal(ss, f, q.session, p.session);
    } else {
      OneInTotal(ss, f, p.session);
      if p.seat < q.seat { TwoInCount(ss[p.session].participants, want, p.seat, q.seat); }
      if q.seat < p.seat { TwoInCount(ss[p.session].participants, want, q.seat, p.seat); }
    }
  }

  /**
   * In every run a Prolific submission sits in at most one place, ended groups
   * included, and a direct participant's token in at most one live group.
   */
  lemma NobodySitsTwice(steps: seq<Step>, goals: map<string, nat>, p: Place, q: Place)
    ensures forall sub :: BothSit(Run(EMPTY, steps, goals).sessions, p, q, BySubmission(sub), true) ==> p == q
    ensures forall token :: token != "" && BothSit(Run(EMPTY, steps, goals).sessions, p, q, Direct(token), false) ==> p == q
  {
    RunSafe(steps, goals);
    var w := Run(EMPTY, steps, goals);
    forall sub | BothSit(w.sessions, p, q, BySubmission(sub), true) ensures p == q {
      assert SubmissionSeats(w.sessions, sub) <= 1;
      OnePlace(w.sessions, BySubmission(sub), true, p, q);
    }
    forall token | token != "" && BothSit(w.sessions, p, q, Direct(token), false) ensures p == q {
      assert DirectSeats(w.sessions, token) <= 1;
      OnePlace(w.sessions, Direct(token), false, p, q);
    }
  }

  predicate Ended(s: Status) { s.Completed? || s.Aborted? }

  /** What no step undoes in a session, whoever joins or leaves. */
  ghost predicate Carried(s: Session, after: Session) {
    && after.roundId == s.roundId && after.arm == s.arm && after.groupSize == s.groupSize
    && Rank(s.status) <= Rank(after.status)
    && (Ended(s.status) ==> after.status == s.status)
  }

  function Rank(s: Status): nat {
    match s
    case Waiting => 0
    case Provisioning => 1
    case Running => 2
    case Completed => 3
    case Aborted => 3
  }

  ghost predicate AllCarried(ss: seq<Session>, after: seq<Session>) {
    |ss| <= |after| && forall i :: 0 <= i < |ss| ==> Carried(ss[i], after[i])
  }

  lemma StepCarries(w: Store, step: Step, goals: map<string, nat>)
    ensures AllCarried(w.sessions, Next(w, step, goals).sessions)
  {
    if TakesAway(step) {
      OtherStepsShrink(w, step, goals);
      var after := Next(w, step, goals).sessions;
      forall i | 0 <= i < |w.sessions| ensures Carried(w.sessions[i], after[i]) {
        assert Lesser(w.sessions[i], after[i]);
      }
    }
  }

  /** Over any stretch of any run a session keeps its round and arm, never moves back, and once ended stays as it ended. */
  lemma {:induction false} EndedForGood(w: Store, steps: seq<Step>, goals: map<string, nat>)
    ensures AllCarried(w.sessions, Run(w, steps, goals).sessions)
  {
    if steps != [] {
      var before := Run(w, steps[..|steps| - 1], goals);
      EndedForGood(w, steps[..|steps| - 1], goals);
      StepCarries(before, steps[|steps| - 1], goals);
      var after := Run(w, steps, goals).sessions;
      forall i | 0 <= i < |w.sessions| ensures Carried(w.sessions[i], after[i]) {
        assert Carried(w.sessions[i], before.sessions[i]);
        assert Carried(before.sessions[i], after[i]);
      }
    }
  }

  lemma OnlyTakeSeatAdds(w: Store, step: Step, goals: map<string, nat>, i: nat)
    requires i < |w.sessions| && !step.TakeSeat?
    ensures |Next(w, step, goals).sessions[i].participants| <= |w.sessions[i].participants|
  {
    if TakesAway(step) {
      OtherStepsShrink(w, step, goals);
      assert Lesser(w.sessions[i], Next(w, step, goals).sessions[i]);
    }
  }

  /** Members are only ever added by TakeSeat, and always to a session of the round open at that moment. */
  lemma {:induction false} SeatsAreOfTheOpenRound(w: Store, step: Step, goals: map<string, nat>, i: nat)
    requires RoundsKept(w) && i < |w.sessions|
    requires |Next(w, step, goals).sessions[i].participants| > |w.sessions[i].participants|
    ensures step.TakeSeat? && w.lock.Seating? && w.lock.session == i
    ensures w.sessions[i].roundId == CurrentId(w.rounds) == |w.rounds|
  {
    CurrentIsLast(w.rounds);
    if !step.TakeSeat? { OnlyTakeSeatAdds(w, step, goals, i); }
  }

  /** A round switch leaves no lobby behind: afterwards no session waits, whatever ran between its two halves. */
  lemma {:induction false} SwitchClosesLobbies(w: Store, between: seq<Step>, goals: map<string, nat>)
    requires Safe(w, goals) && w.lock.Free?
    requires forall k :: 0 <= k < |between| ==> !between[k].OpenRound?
    ensures var closed := Run(Next(w, CloseLobbies, goals), between, goals);
            && closed.lock.Switching? && Safe(closed, goals)
            && forall i :: 0 <= i < |closed.sessions| ==> !closed.sessions[i].status.Waiting?
  {
    if between == [] {
      StepSafe(w, CloseLobbies, goals);
    } else {
      SwitchClosesLobbies(w, between[..|between| - 1], goals);
      var before := Run(Next(w, CloseLobbies, goals), between[..|between| - 1], goals);
      StepSafe(before, between[|between| - 1], goals);
      LockStaysSwitching(before, between[|between| - 1], goals);
    }
  }

  lemma LockStaysSwitching(w: Store, step: Step, goals: map<string, nat>)
    requires w.lock.Switching? && !step.OpenRound?
    ensures Next(w, step, goals).lock.Switching?
  {}

  // ---- a running group need not be full ----

  function Alone(token: string): Request { Request(token, Some(Prolific(Submission("study", token), token)), None, None) }

  function Member(token: string): Participant { Participant(token, Alone(token).prolific) }

  const PAIR := Arm("arm", 2, 1, true, false)

  function PairGoals(): map<string, nat> { map["arm" := 1] }

  function Group(status: Status, members: seq<Participant>): Session {
    Session(status, 1, "arm", 2, false, members, 0, 10, None)
  }

  function Snap(s: Session, lock: Lock, full: set<nat>): Store { Store([s], [Round(1, true)], lock, full) }

  lemma FirstJoin()
    ensures Next(EMPTY, Join(Alone("a"), [PAIR], 0, 10), PairGoals()) == Snap(Group(Waiting, []), Seating(0, Member("a")), {})
  {
    var r, arms := Alone("a"), [PAIR];
    assert FindSeat([], BySubmission(r.prolific.value.submission), true) == None;
    assert WithOpen([]) == [Round(1, true)];
    assert FindForming([], 1, arms, r) == None;
    assert Recruits(PAIR, [], 1);
    assert Recruiting(arms[..0], [], 1) == [];
    assert Recruiting(arms, [], 1) == [PAIR];
    assert Sorted([PAIR][..0], LessClaimed([], 1)) == [];
    assert Sorted([PAIR], LessClaimed([], 1)) == [PAIR];
    assert AssignArm([], 1, arms, None) == Some(PAIR);
  }

  lemma NotSeatedYet()
    ensures FindSeat([Group(Waiting, [Member("a")])], BySubmission(Submission("study", "b")), true) == None
  {
    var ss, want := [Group(Waiting, [Member("a")])], BySubmission(Submission("study", "b"));
    assert "a" != "b";
    assert !want(Member("a"));
    assert ss[..0] == [];
  }

  lemma LobbyFound()
    ensures FindForming([Group(Waiting, [Member("a")])], 1, [PAIR], Alone("b")) == Some(0)
  {
    var r, arms, ss := Alone("b"), [PAIR], [Group(Waiting, [Member("a")])];
    assert ss[..0] == [];
    assert arms[0].id == "arm";
    assert Joinable(ss[0], 1, arms, r);
    assert JoinableIndices(ss, 1, arms, r) == [0];
    var only: seq<nat> := [0];
    assert only[..0] == [];
    assert Sorted(only, Older(ss)) == [0];
  }

  lemma SecondJoin()
    ensures Next(Snap(Group(Waiting, [Member("a")]), Free, {}), Join(Alone("b"), [PAIR], 1, 10), PairGoals())
         == Snap(Group(Waiting, [Member("a")]), Seating(0, Member("b")), {})
  {
    NotSeatedYet();
    LobbyFound();
    assert WithOpen([Round(1, true)]) == [Round(1, true)];
    assert CurrentId([Round(1, true)]) == 1;
  }

  lemma SecondLeaves()
    ensures Next(Snap(Group(Waiting, [Member("a"), Member("b")]), Free, {0}), LeaveForGood(Alone("b").prolific.value), PairGoals())
         == Snap(Group(Waiting, [Member("a")]), Free, {0})
  {
    var ss := [Group(Waiting, [Member("a"), Member("b")])];
    var want := BySubmission(Alone("b").prolific.value.submission);
    assert "a" != "b";
    assert !want(Member("a"));
    assert want(Member("b"));
    assert ss[..0] == [];
    assert FirstSeat(ss[0].participants[1..], want) == 0;
    assert FirstSeat(ss[0].participants, want) == 1;
    assert FindSeat(ss, want, true) == Some(Place(0, 1));
    assert Without(ss[0].participants, 1) == [Member("a")];
  }

  lemma Then(w: Store, steps: seq<Step>, step: Step, before: Store, goals: map<string, nat>)
    requires Run(w, steps, goals) == before
    ensures Run(w, steps + [step], goals) == Next(before, step, goals)
  {
    assert (steps + [step])[..|steps|] == steps;
  }

  /** Two people join and take their seats. */
  lemma PairForms() returns (steps: seq<Step>)
    ensures Run(EMPTY, steps, PairGoals()) == Snap(Group(Waiting, [Member("a"), Member("b")]), Free, {})
  {
    var g, a, b := PairGoals(), Member("a"), Member("b");
    assert [] + [a] == [a] && [a] + [b] == [a, b];
    steps := [];
    Then(EMPTY, steps, Join(Alone("a"), [PAIR], 0, 10), EMPTY, g);
    steps := steps + [Join(Alone("a"), [PAIR], 0, 10)];
    FirstJoin();
    Then(EMPTY, steps, TakeSeat, Snap(Group(Waiting, []), Seating(0, a), {}), g);
    steps := steps + [TakeSeat];
    TakesSeat([], a);
    Then(EMPTY, steps, Join(Alone("b"), [PAIR], 1, 10), Snap(Group(Waiting, [a]), Free, {}), g);
    steps := steps + [Join(Alone("b"), [PAIR], 1, 10)];
    SecondJoin();
    Then(EMPTY, steps, TakeSeat, Snap(Group(Waiting, [a]), Seating(0, b), {}), g);
    steps := steps + [TakeSeat];
    TakesSeat([a], b);
  }

  lemma TakesSeat(members: seq<Participant>, p: Participant)
    ensures Next(Snap(Group(Waiting, members), Seating(0, p), {}), TakeSeat, PairGoals())
         == Snap(Group(Waiting, members + [p]), Free, {})
  {}

  /**
   * Provisioning reads fullness before it claims the room, outside the lock. If
   * a member leaves in between, the room opens with the group one short.
   */
  lemma {:induction false} RunningNeedNotBeFull() returns (steps: seq<Step>)
    ensures var w := Run(EMPTY, steps, PairGoals());
            && |w.sessions| == 1 && w.sessions[0].status.Running?
            && |w.sessions[0].participants| < w.sessions[0].groupSize
  {
    var g, a, b := PairGoals(), Member("a"), Member("b");
    steps := PairForms();
    Then(EMPTY, steps, ReadFull(0), Snap(Group(Waiting, [a, b]), Free, {}), g);
    steps := steps + [ReadFull(0)];
    ReadsPair();
    Then(EMPTY, steps, LeaveForGood(Alone("b").prolific.value), Snap(Group(Waiting, [a, b]), Free, {0}), g);
    steps := steps + [LeaveForGood(Alone("b").prolific.value)];
    SecondLeaves();
    Then(EMPTY, steps, ClaimRoom(0), Snap(Group(Waiting, [a]), Free, {0}), g);
    steps := steps + [ClaimRoom(0)];
    RoomOpens();
    Then(EMPTY, steps, Publish(0, "room"), Snap(Group(Provisioning, [a]), Free, {0}), g);
    steps := steps + [Publish(0, "room")];
  }

  lemma ReadsPair()
    ensures Next(Snap(Group(Waiting, [Member("a"), Member("b")]), Free, {}), ReadFull(0), PairGoals())
         == Snap(Group(Waiting, [Member("a"), Member("b")]), Free, {0})
  {
    var w := Snap(Group(Waiting, [Member("a"), Member("b")]), Free, {});
    assert ReadsFull(w.sessions[0]);
    assert w.full + {0} == {0};
  }

  lemma RoomOpens()
    ensures Next(Snap(Group(Waiting, [Member("a")]), Free, {0}), ClaimRoom(0), PairGoals())
         == Snap(Group(Provisioning, [Member("a")]), Free, {0})
    ensures var w := Next(Snap(Group(Provisioning, [Member("a")]), Free, {0}), Publish(0, "room"), PairGoals());
            |w.sessions| == 1 && w.sessions[0].status.Running? && |w.sessions[0].participants| < w.sessions[0].groupSize
  {}
}
