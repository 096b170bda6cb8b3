/**
 * A session's status in the database, where completeSession, finalizeSession and
 * leaveSession read it and write it in two awaits
 * (backend/session-manager/src/sessions/sessions.service.ts) while every other
 * change is one conditional update.
 */
module StatusWrites {
  import opened Matchmaking
  import opened MatchmakingSafety

  /** pending: the statuses decided on an earlier read and not written yet. */
  datatype Row = Row(status: Status, pending: seq<Status>)

  datatype Change =
    | Claiming        // claimSessionProvisioning
    | Publishing      // finishSessionProvisioning
    | Aborting        // abortLobbies, or the last member leaving a lobby
    | ReadToComplete
    | ReadToFinalize
    | ReadToLeave
    | WriteNow(k: nat)

  function WithoutOne(pending: seq<Status>, k: nat): seq<Status>
    requires k < |pending|
  {
    pending[..k] + pending[k + 1..]
  }

  function Changed(row: Row, change: Change): Row {
    match change
    case Claiming => if row.status.Waiting? then row.(status := Provisioning) else row
    case Publishing => if row.status.Provisioning? then row.(status := Running) else row
    case Aborting => if row.status.Waiting? || row.status.Provisioning? then row.(status := Aborted) else row
    case ReadToComplete => if Ended(row.status) then row else row.(pending := row.pending + [Completed])
    case ReadToFinalize => if row.status.Aborted? then row else row.(pending := row.pending + [Completed])
    case ReadToLeave => if row.status.Provisioning? then row.(pending := row.pending + [Aborted]) else row
    case WriteNow(k) => if k < |row.pending| then Row(row.pending[k], WithoutOne(row.pending, k)) else row
  }

  function ChangedAll(row: Row, changes: seq<Change>): Row {
    if changes == [] then row else Changed(ChangedAll(row, changes[..|changes| - 1]), changes[|changes| - 1])
  }

  /** A status once ended is changed by the next step. */
  predicate Revives(row: Row, change: Change) { Ended(row.status) && Changed(row, change).status != row.status }

  predicate RevivedIn(row: Row, changes: seq<Change>) {
    exists k :: 0 <= k < |changes| && Revives(ChangedAll(row, changes[..k]), changes[k])
  }

  /** A write lands on a status that has not ended otherwise. */
  predicate Timely(row: Row, change: Change) {
    change.WriteNow? && change.k < |row.pending| ==> !Ended(row.status) || row.status == row.pending[change.k]
  }

  ghost predicate AllTimely(row: Row, changes: seq<Change>) {
    forall k :: 0 <= k < |changes| ==> Timely(ChangedAll(row, changes[..k]), changes[k])
  }

  /** What pending writes there can be. */
  predicate Decided(row: Row) { forall k :: 0 <= k < |row.pending| ==> Ended(row.pending[k]) }

  lemma StepDecided(row: Row, change: Change)
    requires Decided(row)
    ensures Decided(Changed(row, change))
  {}

  lemma TimelyStep(row: Row, change: Change)
    requires Decided(row) && Timely(row, change)
    ensures Rank(row.status) <= Rank(Changed(row, change).status)
    ensures Ended(row.status) ==> Changed(row, change).status == row.status
  {}

  /** In every run whose writes are timely the status never moves back and an ended one stays. */
  lemma {:induction false} TimelyKeepsEnded(row: Row, changes: seq<Change>)
    requires Decided(row) && AllTimely(row, changes)
    ensures var after := ChangedAll(row, changes);
            && Decided(after) && Rank(row.status) <= Rank(after.status)
            && (Ended(row.status) ==> after.status == row.status)
  {
    if changes != [] {
      var n := |changes| - 1;
      forall k | 0 <= k < n ensures Timely(ChangedAll(row, changes[..n][..k]), changes[..n][k]) {
        assert changes[..n][..k] == changes[..k];
      }
      TimelyKeepsEnded(row, changes[..n]);
      TimelyStep(ChangedAll(row, changes[..n]), changes[n]);
      StepDecided(ChangedAll(row, changes[..n]), changes[n]);
    }
  }

  // ---- which states are safe whatever lands next ----

  /** All pending writes want the same, and what has ended already. */
  predicate Agreed(row: Row) {
    && (forall i, j :: 0 <= i < j < |row.pending| ==> row.pending[i] == row.pending[j])
    && (Ended(row.status) ==> forall i :: 0 <= i < |row.pending| ==> row.pending[i] == row.status)
  }

  predicate WritesOnly(changes: seq<Change>) { forall k :: 0 <= k < |changes| ==> changes[k].WriteNow? }

  lemma AgreedWrite(row: Row, k: nat)
    requires Agreed(row)
    ensures Agreed(Changed(row, WriteNow(k))) && !Revives(row, WriteNow(k))
  {
    var after := Changed(row, WriteNow(k));
    if k < |row.pending| {
      assert forall i :: 0 <= i < |after.pending| ==> after.pending[i] == row.pending[if i < k then i else i + 1];
    }
  }

  lemma {:induction false} AgreedWrites(row: Row, changes: seq<Change>, n: nat)
    requires Agreed(row) && WritesOnly(changes) && n <= |changes|
    ensures Agreed(ChangedAll(row, changes[..n]))
    decreases n
  {
    if n > 0 {
      AgreedWrites(row, changes, n - 1);
      assert changes[..n][..n - 1] == changes[..n - 1];
      AgreedWrite(ChangedAll(row, changes[..n - 1]), changes[n - 1].k);
    }
  }

  lemma OneChange(row: Row, change: Change)
    ensures ChangedAll(row, [change][..0]) == row && ChangedAll(row, [change]) == Changed(row, change)
  {
    assert [change][..0] == [];
  }

  lemma TwoChanges(row: Row, a: Change, b: Change)
    ensures [a, b][..1] == [a] && ChangedAll(row, [a, b][..1]) == Changed(row, a)
  {
    assert [a, b][..1] == [a];
    OneChange(row, a);
  }

  /** Disagreeing writes have an order that revives. */
  lemma DisagreedRevives(row: Row) returns (changes: seq<Change>)
    requires Decided(row) && !Agreed(row)
    ensures WritesOnly(changes) && RevivedIn(row, changes)
  {
    if i: nat :| i < |row.pending| && Ended(row.status) && row.pending[i] != row.status {
      changes := [WriteNow(i)];
      OneChange(row, WriteNow(i));
      assert Revives(ChangedAll(row, changes[..0]), changes[0]);
    } else {
      var i: nat, j: nat :| i < j < |row.pending| && row.pending[i] != row.pending[j];
      changes := [WriteNow(j), WriteNow(i)];
      TwoChanges(row, WriteNow(j), WriteNow(i));
      assert Revives(ChangedAll(row, changes[..1]), changes[1]);
    }
  }

  /** Whatever the order in which the pending writes land, none revives an ended session, if and only if they agree. */
  lemma {:induction false} AgreedExactly(row: Row)
    requires Decided(row)
    ensures (forall changes: seq<Change> :: WritesOnly(changes) ==> !RevivedIn(row, changes)) <==> Agreed(row)
  {
    if Agreed(row) {
      forall changes: seq<Change> | WritesOnly(changes) ensures !RevivedIn(row, changes) {
        forall k | 0 <= k < |changes| ensures !Revives(ChangedAll(row, changes[..k]), changes[k]) {
          AgreedWrites(row, changes, k);
          AgreedWrite(ChangedAll(row, changes[..k]), changes[k].k);
        }
      }
    } else {
      var changes := DisagreedRevives(row);
    }
  }

  // ---- the inputs ----

  function Undone(): seq<Change> { [Claiming, ReadToLeave, Publishing, ReadToComplete, WriteNow(1), WriteNow(0)] }

  /** A departure decided while the room was provisioned aborts the group after it ran and was completed. */
  lemma {:induction false} LateLeaveAbortsCompleted()
    ensures ChangedAll(Row(Waiting, []), Undone()[..5]).status == Completed
    ensures ChangedAll(Row(Waiting, []), Undone()).status == Aborted
  {
    var s := Undone();
    assert s[..1][..0] == [] && s[..2][..1] == s[..1] && s[..3][..2] == s[..2] && s[..4][..3] == s[..3] && s[..5][..4] == s[..4];
    assert s[..6] == s && s[..6][..5] == s[..5];
    assert ChangedAll(Row(Waiting, []), s[..1]) == Row(Provisioning, []);
    assert ChangedAll(Row(Waiting, []), s[..2]) == Row(Provisioning, [Aborted]);
    assert ChangedAll(Row(Waiting, []), s[..3]) == Row(Running, [Aborted]);
    assert ChangedAll(Row(Waiting, []), s[..4]) == Row(Running, [Aborted, Completed]);
    assert ChangedAll(Row(Waiting, []), s[..5]) == Row(Completed, [Aborted]);
  }

  function Revived(): seq<Change> { [ReadToComplete, Aborting, WriteNow(0)] }

  /** A completion decided on a waiting lobby completes it after its deadline aborted it. */
  lemma {:induction false} LateCompletionRevivesAborted()
    ensures ChangedAll(Row(Waiting, []), Revived()[..2]).status == Aborted
    ensures ChangedAll(Row(Waiting, []), Revived()).status == Completed
  {
    var s := Revived();
    assert s[..1][..0] == [] && s[..2][..1] == s[..1] && s[..3] == s && s[..3][..2] == s[..2];
    assert ChangedAll(Row(Waiting, []), s[..1]) == Row(Waiting, [Completed]);
    assert ChangedAll(Row(Waiting, []), s[..2]) == Row(Aborted, [Completed]);
  }
}
