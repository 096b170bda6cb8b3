/**
 * The SQL twin of the checkpoint merge
 * (backend/session-manager/src/store/runtime-checkpoint.ts): the session row and
 * its positioned ranking-history rows.
 */
module RuntimeCheckpoint {
  import opened Options
  import opened KeyedLists
  import opened WindowEvaluations
  import opened Records
  import opened CheckpointMerge

  /** The stored columns one checkpoint reads and writes; ranking rows are keyed by position. */
  datatype Row = Row(
    etherpad: bool,
    rankings: map<int, Ranking>,
    ranking: Ranking,
    behavioralEvents: seq<BehavioralEvent>,
    classifications: seq<Classification>,
    failures: seq<Failure>,
    processed: seq<string>,
    ruleState: map<string, RuleEntry>,
    revision: int)

  // ---- reading a positioned table back ----

  /** rows is the table as selected in ascending position order. */
  ghost predicate Selected(rows: seq<(int, Ranking)>, table: map<int, Ranking>) {
    && (forall i, j :: 0 <= i < j < |rows| ==> rows[i].0 < rows[j].0)
    && (forall i :: 0 <= i < |rows| ==> rows[i].0 in table && table[rows[i].0] == rows[i].1)
    && (forall p :: p in table ==> exists i :: 0 <= i < |rows| && rows[i].0 == p)
  }

  function Rankings(rows: seq<(int, Ranking)>): seq<Ranking> {
    seq(|rows|, i requires 0 <= i < |rows| => rows[i].1)
  }

  /** The table, read by position, is the history h. */
  ghost predicate ReadsBack(table: map<int, Ranking>, h: seq<Ranking>) {
    exists rows :: Selected(rows, table) && Rankings(rows) == h
  }

  /** A table reads back in one way only. */
  lemma {:induction false} SelectedUnique(rows: seq<(int, Ranking)>, others: seq<(int, Ranking)>, table: map<int, Ranking>)
    requires Selected(rows, table) && Selected(others, table)
    ensures rows == others
    decreases |rows|
  {
    if rows == [] {
      if others != [] { SameLast(others, rows, table); }
    } else {
      assert rows[|rows| - 1].0 in table;
      SameLast(rows, others, table);
      var p := rows[|rows| - 1].0;
      SelectedInit(rows, table);
      SelectedInit(others, table);
      SelectedUnique(rows[..|rows| - 1], others[..|others| - 1], table - {p});
      assert rows == rows[..|rows| - 1] + [rows[|rows| - 1]];
      assert others == others[..|others| - 1] + [others[|others| - 1]];
    }
  }

  lemma SameLast(rows: seq<(int, Ranking)>, others: seq<(int, Ranking)>, table: map<int, Ranking>)
    requires Selected(rows, table) && Selected(others, table) && rows != []
    ensures others != [] && others[|others| - 1] == rows[|rows| - 1]
  {
    var p := rows[|rows| - 1].0;
    var i :| 0 <= i < |others| && others[i].0 == p;
    var q := others[|others| - 1].0;
    var j :| 0 <= j < |rows| && rows[j].0 == q;
  }

  lemma SelectedInit(rows: seq<(int, Ranking)>, table: map<int, Ranking>)
    requires Selected(rows, table) && rows != []
    ensures Selected(rows[..|rows| - 1], table - {rows[|rows| - 1].0})
  {
    var n := |rows| - 1;
    forall p | p in table - {rows[n].0} ensures exists i :: 0 <= i < n && rows[..n][i].0 == p {
      var i :| 0 <= i < |rows| && rows[i].0 == p;
      assert rows[..n][i].0 == p;
    }
  }

  /** The rows createMany adds: positions first, first + 1, and so on. */
  function NewRows(first: int, added: seq<Ranking>): seq<(int, Ranking)> {
    seq(|added|, i requires 0 <= i < |added| => (first + i, added[i]))
  }

  function RowsAppended(rows: map<int, Ranking>, first: int, added: seq<Ranking>): map<int, Ranking> {
    if added == [] then rows
    else RowsAppended(rows, first, added[..|added| - 1])[first + |added| - 1 := added[|added| - 1]]
  }

  lemma SelectedAppend(rows: seq<(int, Ranking)>, table: map<int, Ranking>, p: int, r: Ranking)
    requires Selected(rows, table) && IsNextPosition(table, p)
    ensures Selected(rows + [(p, r)], table[p := r])
  {
    var all, grown := rows + [(p, r)], table[p := r];
    assert forall i :: 0 <= i < |rows| ==> rows[i].0 in table;
    forall q | q in grown ensures exists i :: 0 <= i < |all| && all[i].0 == q {
      if q == p {
        assert all[|rows|].0 == q;
      } else {
        var i :| 0 <= i < |rows| && rows[i].0 == q;
        assert all[i].0 == q;
      }
    }
  }

  lemma {:induction false} RowsAppendedSelected(rows: seq<(int, Ranking)>, table: map<int, Ranking>, first: int, added: seq<Ranking>)
    requires Selected(rows, table) && IsNextPosition(table, first)
    ensures Selected(rows + NewRows(first, added), RowsAppended(table, first, added))
    ensures IsNextPosition(RowsAppended(table, first, added), first + |added|)
  {
    if added == [] {
      assert rows + NewRows(first, added) == rows;
    } else {
      var init, n := added[..|added| - 1], |added| - 1;
      RowsAppendedSelected(rows, table, first, init);
      SelectedAppend(rows + NewRows(first, init), RowsAppended(table, first, init), first + n, added[n]);
      assert rows + NewRows(first, added) == rows + NewRows(first, init) + [(first + n, added[n])];
    }
  }

  // ---- the write ----

  /** The rankings of the history that are not stored yet, first copies only. */
  function NewRankings(stored: seq<Ranking>, history: seq<Ranking>): seq<Ranking> {
    AppendUniqueAdds(stored, RankingKey, history);
    AppendUnique(stored, RankingKey, history)[|stored|..]
  }

  ghost predicate IsNextPosition(rows: map<int, Ranking>, first: int) {
    forall q :: q in rows ==> q < first
  }

  /** The row after one checkpoint, stored being its history as read; new rankings get free positions. */
  ghost predicate Persisted(before: Row, stored: seq<Ranking>, checkpoint: Checkpoint, after: Row) {
    var c := if before.etherpad then WithoutRanking(checkpoint) else checkpoint;
    var accepts := AcceptsCheckpointState(c.revision, before.revision);
    var latest :=
      if c.revision.Some? || stored == [] then
        (if c.rankingHistory != [] then c.rankingHistory[|c.rankingHistory| - 1] else before.ranking)
      else NewestRanking(before.ranking, c.rankingHistory);
    && after.etherpad == before.etherpad
    && (exists first :: IsNextPosition(before.rankings, first)
          && after.rankings == RowsAppended(before.rankings, first, NewRankings(stored, c.rankingHistory)))
    && after.ranking == (if accepts && c.rankingHistory != [] then latest else before.ranking)
    && after.behavioralEvents == MergedValues(before.behavioralEvents, c.behavioralEvents, BehaviorId, accepts)
    && after.classifications == MergedValues(before.classifications, c.classifications, ClassifiedId, accepts)
    && after.failures == MergedValues(before.failures, c.failures, FailedId, accepts)
    && after.processed == Joined([], before.processed + c.processed)
    && after.ruleState == (if accepts then before.ruleState + c.ruleState else before.ruleState)
    && after.revision == (if accepts && c.revision.Some? then c.revision.value else before.revision)
  }

  /** row holds what the in-memory session s holds, its ranking history read by position. */
  ghost predicate Represents(row: Row, s: Stored) {
    && row.etherpad == s.etherpad
    && ReadsBack(row.rankings, s.rankingHistory)
    && row.ranking == s.ranking
    && row.behavioralEvents == s.behavioralEvents
    && row.classifications == s.classifications
    && row.failures == s.failures
    && row.processed == s.processed
    && row.ruleState == s.ruleState
    && row.revision == s.revision
  }

  /** The two merges agree on every stored state and every checkpoint, versioned or not. */
  lemma {:induction false} TwoMergesAgree(row: Row, s: Stored, checkpoint: Checkpoint, after: Row)
    requires Represents(row, s) && Persisted(row, s.rankingHistory, checkpoint, after)
    ensures Represents(after, Merge(s, checkpoint))
  {
    var c := Admitted(s, checkpoint);
    HistoryAgrees(row.rankings, s.rankingHistory, c.rankingHistory, after.rankings);
  }

  lemma HistoryAgrees(table: map<int, Ranking>, stored: seq<Ranking>, history: seq<Ranking>, after: map<int, Ranking>)
    requires ReadsBack(table, stored)
    requires exists first :: IsNextPosition(table, first)
               && after == RowsAppended(table, first, NewRankings(stored, history))
    ensures ReadsBack(after, AppendUnique(stored, RankingKey, history))
  {
    var added := NewRankings(stored, history);
    var first :| IsNextPosition(table, first) && after == RowsAppended(table, first, added);
    var rows :| Selected(rows, table) && Rankings(rows) == stored;
    RowsAppendedSelected(rows, table, first, added);
    RankingsOfAppended(rows, first, added);
    NewRankingsFollow(stored, history);
  }

  lemma RankingsOfAppended(rows: seq<(int, Ranking)>, first: int, added: seq<Ranking>)
    ensures Rankings(rows + NewRows(first, added)) == Rankings(rows) + added
  {}

  lemma NewRankingsFollow(stored: seq<Ranking>, history: seq<Ranking>)
    ensures stored + NewRankings(stored, history) == AppendUnique(stored, RankingKey, history)
  {
    AppendUniqueAdds(stored, RankingKey, history);
  }

  /**
   * Intervention and window rows are inserted with "skip duplicates" where the
   * in-memory merge replaces. The two agree when a record never changes under its id.
   */
  lemma {:induction false} InsertAgrees<T(!new)>(stored: seq<T>, incoming: seq<T>, key: T -> string)
    requires Distinct(Keys(stored, key))
    requires forall x, v :: x in incoming && (v in stored || v in incoming) && key(v) == key(x) ==> v == x
    ensures AppendUnique(stored, key, incoming) == MergedByKey(stored, incoming, key)
    ensures forall x :: x in AppendUnique(stored, key, incoming) ==> x in stored || x in incoming
  {
    PutAllOverPrefix([], key, stored);
    if incoming != [] {
      var init, x := incoming[..|incoming| - 1], incoming[|incoming| - 1];
      InsertAgrees(stored, init, key);
      var r := PutAll(stored, key, init);
      var i := Find(r, key, key(x));
      if i < |r| {
        assert Keys(r, key)[i] == key(x);
        assert r[i] in r && r[i] == x;
        assert r[i := x] == r;
      }
    }
  }

  /** The session row and its ranking rows, written inside one transaction. */
  class SessionRecord {
    const etherpad: bool
    var rankingHistory: map<int, Ranking>
    var ranking: Ranking
    var behavioralEvents: seq<BehavioralEvent>
    var classifications: seq<Classification>
    var classificationFailures: seq<Failure>
    var processedEventIds: seq<string>
    var runtimeState: map<string, RuleEntry>
    var checkpointRevision: int

    constructor (etherpad: bool, initial: Ranking)
      ensures Represents(View(), Fresh(etherpad, initial))
    {
      this.etherpad, rankingHistory, ranking, checkpointRevision := etherpad, map[], initial, 0;
      behavioralEvents, classifications, classificationFailures := [], [], [];
      processedEventIds, runtimeState := [], map[];
      assert Selected([], map[]) && Rankings([]) == [];
    }

    function View(): Row
      reads this
    {
      Row(etherpad, rankingHistory, ranking, behavioralEvents, classifications, classificationFailures,
          processedEventIds, runtimeState, checkpointRevision)
    }

    /** rows: the stored ranking rows as selected, in position order. */
    method PersistRuntimeCheckpoint(request: Checkpoint, rows: seq<(int, Ranking)>)
      requires Selected(rows, rankingHistory)
      modifies this
      ensures Persisted(old(View()), Rankings(rows), request, View())
    {
      var checkpoint := if etherpad then WithoutRanking(request) else request;
      var storedRankings := Rankings(rows);
      var accepts := AcceptsCheckpointState(checkpoint.revision, checkpointRevision);
      AppendRankingHistory(rows, checkpoint.rankingHistory);
      UpdateJudgments(checkpoint, accepts);
      UpdateState(checkpoint, accepts, storedRankings);
    }

    method UpdateJudgments(checkpoint: Checkpoint, accepts: bool)
      modifies `behavioralEvents, `classifications, `classificationFailures
      ensures behavioralEvents == MergedValues(old(behavioralEvents), checkpoint.behavioralEvents, BehaviorId, accepts)
      ensures classifications == MergedValues(old(classifications), checkpoint.classifications, ClassifiedId, accepts)
      ensures classificationFailures == MergedValues(old(classificationFailures), checkpoint.failures, FailedId, accepts)
    {
      behavioralEvents := MergeCheckpointValues(behavioralEvents, checkpoint.behavioralEvents, BehaviorId, accepts);
      classifications := MergeCheckpointValues(classifications, checkpoint.classifications, ClassifiedId, accepts);
      classificationFailures := MergeCheckpointValues(classificationFailures, checkpoint.failures, FailedId, accepts);
    }

    method UpdateState(checkpoint: Checkpoint, accepts: bool, storedRankings: seq<Ranking>)
      modifies `ranking, `processedEventIds, `runtimeState, `checkpointRevision
      ensures ranking
           == if !accepts || checkpoint.rankingHistory == [] then old(ranking)
              else if checkpoint.revision.Some? || storedRankings == []
              then checkpoint.rankingHistory[|checkpoint.rankingHistory| - 1]
              else NewestRanking(old(ranking), checkpoint.rankingHistory)
      ensures processedEventIds == Joined([], old(processedEventIds) + checkpoint.processed)
      ensures runtimeState == if accepts then old(runtimeState) + checkpoint.ruleState else old(runtimeState)
      ensures checkpointRevision
           == if accepts && checkpoint.revision.Some? then checkpoint.revision.value else old(checkpointRevision)
    {
      var h := checkpoint.rankingHistory;
      var lastOrCurrent := if |h| > 0 then h[|h| - 1] else ranking;
      var latestRanking :=
        if checkpoint.revision.Some? then lastOrCurrent
        else if |storedRankings| == 0 then lastOrCurrent
        else NewestRanking(ranking, h);
      if accepts && |h| > 0 { ranking := latestRanking; }
      processedEventIds := Joined([], processedEventIds + checkpoint.processed);
      if accepts { runtimeState := runtimeState + checkpoint.ruleState; }
      if accepts && checkpoint.revision.Some? { checkpointRevision := checkpoint.revision.value; }
    }

    method AppendRankingHistory(rows: seq<(int, Ranking)>, history: seq<Ranking>)
      requires Selected(rows, rankingHistory)
      modifies `rankingHistory
      ensures exists first :: IsNextPosition(old(rankingHistory), first)
                && rankingHistory == RowsAppended(old(rankingHistory), first, NewRankings(Rankings(rows), history))
    {
      var storedRankings := Rankings(rows);
      var newRankings := UnseenRankings(storedRankings, history);
      var nextPosition := NextPosition(rows);
      assert IsNextPosition(rankingHistory, nextPosition);
      ghost var table := rankingHistory;
      for offset := 0 to |newRankings|
        invariant rankingHistory == RowsAppended(table, nextPosition, newRankings[..offset])
      {
        assert newRankings[..offset + 1][..offset] == newRankings[..offset];
        rankingHistory := rankingHistory[nextPosition + offset := newRankings[offset]];
      }
      assert newRankings[..|newRankings|] == newRankings;
    }
  }

  method UnseenRankings(storedRankings: seq<Ranking>, history: seq<Ranking>) returns (newRankings: seq<Ranking>)
    ensures newRankings == NewRankings(storedRankings, history)
  {
    var seenRankings := set k | k in Keys(storedRankings, RankingKey);
    newRankings := [];
    assert storedRankings + newRankings == storedRankings;
    for i := 0 to |history|
      invariant storedRankings + newRankings == AppendUnique(storedRankings, RankingKey, history[..i])
      invariant seenRankings == set k | k in Keys(storedRankings + newRankings, RankingKey)
    {
      assert history[..i + 1][..i] == history[..i];
      var key := RankingKey(history[i]);
      ghost var before := storedRankings + newRankings;
      if key !in seenRankings {
        seenRankings := seenRankings + {key};
        newRankings := newRankings + [history[i]];
        assert storedRankings + newRankings == before + [history[i]];
        assert Keys(before + [history[i]], RankingKey) == Keys(before, RankingKey) + [key];
      }
    }
    assert history[..|history|] == history;
  }

  /** Math.max(-1, ...positions) + 1 */
  method NextPosition(rows: seq<(int, Ranking)>) returns (next: int)
    ensures forall j :: 0 <= j < |rows| ==> rows[j].0 < next
    ensures next == 0 || exists j :: 0 <= j < |rows| && rows[j].0 == next - 1
  {
    var max := -1;
    for i := 0 to |rows|
      invariant forall j :: 0 <= j < i ==> rows[j].0 <= max
      invariant max == -1 || exists j :: 0 <= j < i && rows[j].0 == max
    {
      if rows[i].0 > max { max := rows[i].0; }
    }
    next := max + 1;
  }
}
