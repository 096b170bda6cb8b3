/** The Session Manager's seat and lifecycle operations over its in-memory collections. */
module SessionsServices {
  import opened Options
  import opened Sorting
  import opened Matchmaking

  /** The sweep of expired lobbies. */
  function Swept(w: Store, now: int): Store { w.(sessions := LobbiesAborted(w.sessions, true, Some(now))) }

  function Expiries(n: nat, now: int): seq<Step> {
    if n == 0 then [] else Expiries(n - 1, now) + [Expire(n - 1, now)]
  }

  /** A sweep is a run of the machine's expiries, one per session. */
  lemma {:induction false} SweepIsExpiries(w: Store, now: int, goals: map<string, nat>)
    ensures Run(w, Expiries(|w.sessions|, now), goals) == Swept(w, now)
  {
    SweepPart(w, now, |w.sessions|, goals);
    assert SweptPart(w, now, |w.sessions|).sessions == Swept(w, now).sessions;
  }

  lemma ExpireNext(w: Store, i: nat, now: int, goals: map<string, nat>)
    requires i < |w.sessions|
    ensures Next(w, Expire(i, now), goals) == w.(sessions := w.sessions[i := LobbyAborted(w.sessions[i], true, Some(now))])
  {}

  lemma OneExpiryMore(w: Store, n: nat, now: int, goals: map<string, nat>)
    ensures Run(w, Expiries(n + 1, now), goals) == Next(Run(w, Expiries(n, now), goals), Expire(n, now), goals)
  {
    var steps := Expiries(n + 1, now);
    assert steps[..|steps| - 1] == Expiries(n, now);
  }

  /** The sweep of the first n lobbies. */
  function SweptPart(w: Store, now: int, n: nat): Store
    requires n <= |w.sessions|
  {
    w.(sessions := LobbiesAborted(w.sessions, true, Some(now))[..n] + w.sessions[n..])
  }

  lemma ReplaceNext<T>(xs: seq<T>, ys: seq<T>, n: nat)
    requires |xs| == |ys| && n < |xs|
    ensures (ys[..n] + xs[n..])[n] == xs[n]
    ensures (ys[..n] + xs[n..])[n := ys[n]] == ys[..n + 1] + xs[n + 1..]
  {}

  lemma SweepNext(w: Store, now: int, n: nat, goals: map<string, nat>)
    requires n < |w.sessions|
    ensures Next(SweptPart(w, now, n), Expire(n, now), goals) == SweptPart(w, now, n + 1)
  {
    ReplaceNext(w.sessions, LobbiesAborted(w.sessions, true, Some(now)), n);
    ExpireNext(SweptPart(w, now, n), n, now, goals);
  }

  lemma {:induction false} SweepPart(w: Store, now: int, n: nat, goals: map<string, nat>)
    requires n <= |w.sessions|
    ensures Run(w, Expiries(n, now), goals) == SweptPart(w, now, n)
  {
    if n == 0 {
      assert SweptPart(w, now, 0).sessions == w.sessions;
    } else {
      SweepPart(w, now, n - 1, goals);
      OneExpiryMore(w, n - 1, now, goals);
      SweepNext(w, now, n - 1, goals);
    }
  }

  class SessionsService {
    var sessions: seq<Session>
    var rounds: seq<Round>
    var lock: Lock
    var full: set<nat>

    function View(): Store reads this { Store(sessions, rounds, lock, full) }

    constructor ()
      ensures View() == EMPTY
    {
      sessions, rounds, lock, full := [], [], Free, {};
    }

    method CurrentRound() returns (id: nat)
      modifies this`rounds
      ensures rounds == WithOpen(old(rounds)) && id == CurrentId(old(rounds))
    {
      var i := 0;
      while i < |rounds| && !rounds[i].open
        invariant 0 <= i <= |rounds|
        invariant forall j :: 0 <= j < i ==> !rounds[j].open
      {
        i := i + 1;
      }
      if i < |rounds| { return rounds[i].id; }
      var max := 0;
      for k := 0 to |rounds|
        invariant max == MaxId(rounds[..k])
      {
        assert rounds[..k + 1][..k] == rounds[..k];
        if rounds[k].id > max { max := rounds[k].id; }
      }
      assert rounds[..|rounds|] == rounds;
      assert FirstOpen(rounds) == |rounds|;
      rounds := rounds + [Round(max + 1, true)];
      return max + 1;
    }

    method StartNewRound()
      modifies this`rounds
      ensures rounds == NewRound(old(rounds))
    {
      var id := CurrentRound();
      var i := 0;
      while !rounds[i].open
        invariant 0 <= i <= FirstOpen(rounds)
        decreases |rounds| - i
      {
        i := i + 1;
      }
      rounds := rounds[i := rounds[i].(open := false)];
      rounds := rounds + [Round(id + 1, true)];
    }

    method ClaimedCount(arm: string, round: nat) returns (count: nat)
      ensures count == Claimed(sessions, arm, round)
    {
      count := 0;
      for i := 0 to |sessions|
        invariant count == Claimed(sessions[..i], arm, round)
      {
        assert sessions[..i + 1][..i] == sessions[..i];
        if sessions[i].arm == arm && sessions[i].roundId == round && !sessions[i].status.Aborted? { count := count + 1; }
      }
      assert sessions[..|sessions|] == sessions;
    }

    /** findByProlificSession and findByTrackingToken */
    method FindParticipant(want: Participant -> bool, endedToo: bool) returns (place: Option<Place>)
      ensures place == FindSeat(sessions, want, endedToo)
    {
      for i := 0 to |sessions|
        invariant FindSeat(sessions[..i], want, endedToo).None?
      {
        assert sessions[..i + 1][..i] == sessions[..i];
        if HasSeat(sessions[i], want, endedToo) {
          place := Some(Place(i, FirstSeat(sessions[i].participants, want)));
          FoundFirst(sessions, i, want, endedToo);
          return;
        }
      }
      assert sessions[..|sessions|] == sessions;
      return None;
    }

    method OldestForming(round: nat, arms: seq<Arm>, r: Request) returns (found: Option<nat>)
      ensures found == FindForming(sessions, round, arms, r)
    {
      var indices: seq<nat> := [];
      for i := 0 to |sessions|
        invariant indices == JoinableIndices(sessions[..i], round, arms, r)
      {
        assert sessions[..i + 1][..i] == sessions[..i];
        if Joinable(sessions[i], round, arms, r) { indices := indices + [i]; }
      }
      assert sessions[..|sessions|] == sessions;
      var order := Sorted(indices, Older(sessions));
      return if order == [] then None else Some(order[0]);
    }

    method AssignCondition(round: nat, arms: seq<Arm>, armId: Option<string>) returns (arm: Option<Arm>)
      ensures arm == AssignArm(sessions, round, arms, armId)
    {
      if armId.Some? {
        arm := FindArm(arms, armId.value);
        if arm.Some? {
          var claimed := ClaimedCount(arm.value.id, round);
          if !arm.value.active || claimed >= arm.value.goal { arm := None; }
        }
        return;
      }
      var recruiting: seq<Arm> := [];
      for i := 0 to |arms|
        invariant recruiting == Recruiting(arms[..i], sessions, round)
      {
        assert arms[..i + 1][..i] == arms[..i];
        var claimed := ClaimedCount(arms[i].id, round);
        if arms[i].active && claimed < arms[i].goal { recruiting := recruiting + [arms[i]]; }
      }
      assert arms[..|arms|] == arms;
      var order := Sorted(recruiting, LessClaimed(sessions, round));
      return if order == [] then None else Some(order[0]);
    }

    /** reserveSeat up to the choice of a session, expired lobbies aborted first; TakeSeat is the rest of it. */
    method ReserveSeat(r: Request, arms: seq<Arm>, now: int, timeout: int) returns (answer: Answer)
      requires lock.Free?
      modifies this
      ensures (View(), answer) == Choose(Swept(old(View()), now), r, arms, now, timeout)
    {
      var _ := AbortLobbies(true, Some(now));
      var existing: Option<Place> := None;
      if r.prolific.Some? {
        existing := FindParticipant(BySubmission(r.prolific.value.submission), true);
      } else if r.token != "" {
        existing := FindParticipant(ByToken(r.token), false);
      }
      if existing.Some? { return Rejoin(sessions, r, existing.value); }
      var round := CurrentRound();
      var p := Participant(r.token, r.prolific);
      var forming := OldestForming(round, arms, r);
      if forming.Some? {
        lock := Seating(forming.value, p);
        return Reserved;
      }
      var arm := AssignCondition(round, arms, r.armId);
      if arm.None? { return Refused; }
      sessions := sessions + [Forming(arm.value, round, r, now, timeout)];
      lock := Seating(|sessions| - 1, p);
      return Reserved;
    }

    method AddParticipant()
      requires lock.Seating? && lock.session < |sessions|
      modifies this`sessions, this`lock
      ensures forall goals :: View() == Next(old(View()), TakeSeat, goals)
    {
      var s := sessions[lock.session];
      sessions := sessions[lock.session := s.(participants := s.participants + [lock.participant])];
      lock := Free;
    }

    /** An unknown session or participant, or a group past waiting, is left alone. */
    method RemoveParticipantFromWaitingSession(i: nat, j: nat) returns (removed: bool)
      modifies this`sessions
      ensures removed <==>
                i < |old(sessions)| && j < |old(sessions)[i].participants| && old(sessions)[i].status.Waiting?
      ensures sessions == if removed then old(sessions)[i := Vacated(old(sessions)[i], j)] else old(sessions)
    {
      if i >= |sessions| || !sessions[i].status.Waiting? { return false; }
      var s := sessions[i];
      if j >= |s.participants| { return false; }
      var rest := s.participants[..j] + s.participants[j + 1..];
      sessions := sessions[i := s.(participants := rest)];
      if rest == [] { sessions := sessions[i := sessions[i].(status := Aborted)]; }
      return true;
    }

    /** The answer says whether an unstarted group was given up. */
    method LeaveSession(who: Prolific) returns (disbanded: bool)
      modifies this`sessions
      ensures View() == Leave(old(View()), who)
      ensures disbanded <==> exists i :: 0 <= i < |sessions| && old(sessions)[i].status.Provisioning? && sessions[i].status.Aborted?
    {
      var place := FindParticipant(BySubmission(who.submission), true);
      if place.None? { return false; }
      var i, j := place.value.session, place.value.seat;
      var s := sessions[i];
      if s.participants[j].prolific.value.participantId != who.participantId { return false; }
      if s.status.Waiting? {
        var _ := RemoveParticipantFromWaitingSession(i, j);
        return false;
      }
      if !s.status.Provisioning? { return false; }
      sessions := sessions[i := s.(status := Aborted)];
      assert sessions[i].status.Aborted?;
      return true;
    }

    method AbortLobbies(provisioningToo: bool, now: Option<int>) returns (aborted: seq<nat>)
      modifies this`sessions
      ensures sessions == LobbiesAborted(old(sessions), provisioningToo, now)
      ensures forall k :: k in aborted <==>
                && 0 <= k < |sessions| && Lobby(old(sessions)[k], provisioningToo)
                && (now.Some? ==> old(sessions)[k].deadline <= now.value)
    {
      aborted := [];
      for i := 0 to |sessions|
        invariant |sessions| == |old(sessions)|
        invariant forall k :: 0 <= k < i ==> sessions[k] == LobbyAborted(old(sessions)[k], provisioningToo, now)
        invariant forall k :: i <= k < |sessions| ==> sessions[k] == old(sessions)[k]
        invariant forall k :: k in aborted <==>
                    && 0 <= k < i && Lobby(old(sessions)[k], provisioningToo)
                    && (now.Some? ==> old(sessions)[k].deadline <= now.value)
      {
        var s := sessions[i];
        if !(s.status.Waiting? || (provisioningToo && s.status.Provisioning?)) { continue; }
        if now.Some? && s.deadline > now.value { continue; }
        sessions := sessions[i := s.(status := Aborted)];
        aborted := aborted + [i];
      }
    }

    /** doStartRound up to the store's answer, and the rest of it. */
    method CloseLobbiesForSwitch()
      requires lock.Free?
      modifies this`sessions, this`lock
      ensures forall goals :: View() == Next(old(View()), CloseLobbies, goals)
    {
      var _ := AbortLobbies(false, None);
      lock := Switching;
    }

    method OpenNextRound()
      requires lock.Switching?
      modifies this`rounds, this`lock
      ensures forall goals :: View() == Next(old(View()), OpenRound, goals)
    {
      StartNewRound();
      lock := Free;
    }

    method ClaimSessionProvisioning(i: nat) returns (claimed: bool)
      modifies this`sessions
      ensures sessions == if i < |old(sessions)| then old(sessions)[i := ClaimedForRoom(old(sessions)[i])] else old(sessions)
      ensures claimed <==> i < |sessions| && sessions[i].status.Provisioning?
    {
      if i >= |sessions| { return false; }
      if sessions[i].status.Waiting? { sessions := sessions[i := sessions[i].(status := Provisioning)]; }
      return sessions[i].status.Provisioning?;
    }

    method FinishSessionProvisioning(i: nat, room: string) returns (published: bool)
      modifies this`sessions
      ensures sessions == if i < |old(sessions)| then old(sessions)[i := Published(old(sessions)[i], room)] else old(sessions)
      ensures published <==> i < |sessions| && sessions[i].status.Running? && sessions[i].roomId == Some(room)
    {
      if i >= |sessions| { return false; }
      var s := sessions[i];
      if s.status.Running? { return s.roomId == Some(room); }
      if !s.status.Provisioning? { return false; }
      sessions := sessions[i := s.(roomId := Some(room), status := Running)];
      return true;
    }

    method CompleteSession(i: nat) returns (found: bool)
      modifies this`sessions
      ensures found <==> i < |old(sessions)|
      ensures sessions == if found then old(sessions)[i := Finished(old(sessions)[i])] else old(sessions)
    {
      if i >= |sessions| { return false; }
      var s := sessions[i];
      if !s.status.Completed? && !s.status.Aborted? { sessions := sessions[i := s.(status := Completed)]; }
      return true;
    }
  }

  /** The first session found in order is the one a whole search finds. */
  lemma {:induction false} FoundFirst(ss: seq<Session>, i: nat, want: Participant -> bool, endedToo: bool)
    requires i < |ss| && HasSeat(ss[i], want, endedToo) && FindSeat(ss[..i], want, endedToo).None?
    ensures FindSeat(ss, want, endedToo) == Some(Place(i, FirstSeat(ss[i].participants, want)))
  {
    var n := |ss| - 1;
    if i < n {
      assert ss[..n][..i] == ss[..i];
      FoundFirst(ss[..n], i, want, endedToo);
    }
  }
}
