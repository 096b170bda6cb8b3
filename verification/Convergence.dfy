/**
 * Convergence of checkpoint delivery: the snapshots of one growing runtime may
 * be lost, duplicated and reordered at will; the stored session ends as if only
 * the newest delivered snapshot had been merged.
 */
module Convergence {
  import opened Options
  import opened KeyedLists
  import opened WindowEvaluations
  import opened Records
  import opened CheckpointMerge
  import opened MergeLaws

  /**
   * newer is a later snapshot of the runtime that took older: the runtime only
   * pushes records, replaces judgments under their message id, and passes the
   * legacy reaction audit through.
   */
  ghost predicate Grows(older: Checkpoint, newer: Checkpoint) {
    && older.messages <= newer.messages && Distinct(Keys(newer.messages, MessageId))
    && older.rankingHistory <= newer.rankingHistory
    && older.interventions <= newer.interventions && Distinct(Keys(newer.interventions, InterventionId))
    && older.behavioralEvents <= newer.behavioralEvents
    && Keys(older.classifications, ClassifiedId) <= Keys(newer.classifications, ClassifiedId)
    && older.windowEvaluations <= newer.windowEvaluations && Distinct(Keys(newer.windowEvaluations, EvaluationId))
    && Keys(older.failures, FailedId) <= Keys(newer.failures, FailedId)
    && older.processed <= newer.processed
    && older.redacted == newer.redacted && older.reactionEvents == newer.reactionEvents
    && older.ruleState.Keys <= newer.ruleState.Keys
  }

  /** The snapshots of one runtime started from the stored session s, oldest first. */
  ghost predicate Lineage(s: Stored, sent: seq<Checkpoint>) {
    && (forall i :: 0 <= i < |sent| ==>
          && sent[i].revision.Some? && sent[i].revision.value > s.revision
          && s.windowEvaluations <= sent[i].windowEvaluations
          && Distinct(Keys(sent[i].messages, MessageId)) && Distinct(Keys(sent[i].interventions, InterventionId))
          && Distinct(Keys(sent[i].windowEvaluations, EvaluationId)))
    && (forall i, j :: 0 <= i < j < |sent| ==>
          sent[i].revision.value < sent[j].revision.value && Grows(sent[i], sent[j]))
  }

  /** Merge the snapshots named by the schedule, in its order; any index may repeat or be missing. */
  function Delivered(s: Stored, sent: seq<Checkpoint>, schedule: seq<nat>): Stored
    requires Within(schedule, |sent|)
  {
    if schedule == [] then s
    else Merge(Delivered(s, sent, schedule[..|schedule| - 1]), sent[schedule[|schedule| - 1]])
  }

  ghost predicate Within(schedule: seq<nat>, n: nat) {
    forall i :: 0 <= i < |schedule| ==> schedule[i] < n
  }

  function Latest(schedule: seq<nat>): (n: nat)
    requires schedule != []
    ensures n in schedule
    ensures forall m :: m in schedule ==> m <= n
  {
    if |schedule| == 1 then schedule[0]
    else
      var init, last := schedule[..|schedule| - 1], schedule[|schedule| - 1];
      assert forall m :: m in schedule <==> m in init || m == last;
      var before := Latest(init);
      if before > last then before else last
  }

  /** Every delivery schedule: the stored state is what the newest delivered snapshot alone gives. */
  lemma {:induction false} Converges(s: Stored, sent: seq<Checkpoint>, schedule: seq<nat>)
    requires Lineage(s, sent) && Within(schedule, |sent|)
    ensures Delivered(s, sent, schedule) == if schedule == [] then s else Merge(s, sent[Latest(schedule)])
  {
    if schedule != [] {
      var init, last := schedule[..|schedule| - 1], schedule[|schedule| - 1];
      Converges(s, sent, init);
      if init != [] {
        assert Latest(init) in init;
        OneMore(s, sent, Latest(init), last);
      }
    }
  }

  lemma OneMore(s: Stored, sent: seq<Checkpoint>, i: nat, j: nat)
    requires Lineage(s, sent) && i < |sent| && j < |sent|
    ensures i <= j ==> Merge(Merge(s, sent[i]), sent[j]) == Merge(s, sent[j])
    ensures j <= i ==> Merge(Merge(s, sent[i]), sent[j]) == Merge(s, sent[i])
  {
    var a, b := sent[i], sent[j];
    if i < j {
      LineagePair(s, sent, i, j);
      OlderThenNewerMerge(s, a, b);
    } else if j < i {
      LineagePair(s, sent, j, i);
      NewerThenOlderMerge(s, b, a);
    } else {
      VersionedRedelivery(s, b);
    }
  }

  lemma LatestIs(schedule: seq<nat>, n: nat)
    requires n in schedule && forall i :: 0 <= i < |schedule| ==> schedule[i] <= n
    ensures Latest(schedule) == n
  {
    assert Latest(schedule) in schedule;
  }

  /** Once the last snapshot was delivered, only it matters. */
  lemma {:induction false} LastDelivered(s: Stored, sent: seq<Checkpoint>, schedule: seq<nat>, n: nat)
    requires Lineage(s, sent) && Within(schedule, |sent|) && n == |sent| - 1 && n in schedule
    ensures Delivered(s, sent, schedule) == Merge(s, sent[n])
  {
    LatestIs(schedule, n);
    Converges(s, sent, schedule);
  }

  lemma LineagePair(s: Stored, sent: seq<Checkpoint>, i: nat, j: nat)
    requires Lineage(s, sent) && i < j < |sent|
    ensures Pair(s, sent[i], sent[j])
  {}

  // ---- one older and one newer snapshot, in both orders ----

  ghost predicate Pair(s: Stored, older: Checkpoint, newer: Checkpoint) {
    && older.revision.Some? && newer.revision.Some?
    && s.revision < older.revision.value < newer.revision.value
    && s.windowEvaluations <= older.windowEvaluations
    && Distinct(Keys(older.windowEvaluations, EvaluationId))
    && Grows(older, newer)
  }

  lemma {:induction false} MovesDropped(a: seq<BehavioralEvent>, b: seq<BehavioralEvent>)
    requires a <= b
    ensures NotRankingMoves(a) <= NotRankingMoves(b)
  {
    if |a| < |b| {
      assert a <= b[..|b| - 1];
      MovesDropped(a, b[..|b| - 1]);
    } else {
      assert a == b;
    }
  }

  lemma AdmittedPair(s: Stored, older: Checkpoint, newer: Checkpoint)
    requires Pair(s, older, newer)
    ensures Pair(s, Admitted(s, older), Admitted(s, newer))
  {
    MovesDropped(older.behavioralEvents, newer.behavioralEvents);
  }

  lemma {:induction false} OlderThenNewerMerge(s: Stored, older: Checkpoint, newer: Checkpoint)
    requires Pair(s, older, newer)
    ensures Merge(Merge(s, older), newer) == Merge(s, newer)
  {
    AdmittedPair(s, older, newer);
    OlderThenNewer(s, Admitted(s, older), Admitted(s, newer));
  }

  lemma {:induction false} NewerThenOlderMerge(s: Stored, older: Checkpoint, newer: Checkpoint)
    requires Pair(s, older, newer)
    ensures Merge(Merge(s, newer), older) == Merge(s, newer)
  {
    AdmittedPair(s, older, newer);
    NewerThenOlder(s, Admitted(s, older), Admitted(s, newer));
  }

  lemma SameAudit(s: Stored, a: Checkpoint, b: Checkpoint)
    requires a.redacted == b.redacted && a.reactionEvents == b.reactionEvents
    ensures var once := MergeAdmitted(s, a);
            && MergedRedacted(s, a) == MergedRedacted(s, b) == MergedRedacted(once, b)
            && MergedRecordedReactions(once.reactionEvents, b.reactionEvents)
               == MergedRecordedReactions(s.reactionEvents, b.reactionEvents)
  {
    RedactedTwice(s, a);
    RecordedTwice(s.reactionEvents, a.reactionEvents);
  }

  lemma ActivePrefix(a: seq<Message>, b: seq<Message>, redacted: set<string>)
    requires a <= b
    ensures ActiveMessages(a, redacted) <= ActiveMessages(b, redacted)
    ensures Keys(ActiveMessages(b, redacted), MessageId) == Keys(b, MessageId)
  {}

  lemma MessagesConverge(s: seq<Message>, older: seq<Message>, newer: seq<Message>, redacted: set<string>)
    requires older <= newer && Distinct(Keys(newer, MessageId))
    ensures MergedMessages(MergedMessages(s, older, redacted), newer, redacted) == MergedMessages(s, newer, redacted)
    ensures MergedMessages(MergedMessages(s, newer, redacted), older, redacted) == MergedMessages(s, newer, redacted)
  {
    var base, combine, good := PutAll([], MessageId, s), CombineMessages(redacted), AllActive(redacted);
    var a, b := ActiveMessages(older, redacted), ActiveMessages(newer, redacted);
    CombineMessagesLawful(redacted);
    ActiveMessagesGood(newer, redacted);
    ActivePrefix(older, newer, redacted);
    UpsertAllDistinct([], MessageId, Newest, s);
    UpsertAllDistinct(base, MessageId, combine, a);
    UpsertAllDistinct(base, MessageId, combine, b);
    PutAllOverPrefix([], MessageId, MergedMessages(s, older, redacted));
    PutAllOverPrefix([], MessageId, MergedMessages(s, newer, redacted));
    UpsertAllOlderFirst(base, MessageId, combine, good, a, b);
    UpsertAllOlderLast(base, MessageId, combine, good, a, b);
  }

  lemma PushedConverge<T(!new)>(s: seq<T>, older: seq<T>, newer: seq<T>, key: T -> string)
    requires older <= newer && Distinct(Keys(newer, key))
    ensures MergedByKey(MergedByKey(s, older, key), newer, key) == MergedByKey(s, newer, key)
    ensures MergedByKey(MergedByKey(s, newer, key), older, key) == MergedByKey(s, newer, key)
  {
    var base, good := PutAll([], key, s), (x: T) => true;
    NewestLawful(key);
    MergedByKeyTwice(s, older, key);
    MergedByKeyTwice(s, newer, key);
    UpsertAllDistinct([], key, Newest, s);
    PutAllOverPrefix([], key, MergedByKey(s, older, key));
    PutAllOverPrefix([], key, MergedByKey(s, newer, key));
    UpsertAllOlderFirst(base, key, Newest, good, older, newer);
    UpsertAllOlderLast(base, key, Newest, good, older, newer);
  }

  /** Replaceable records: accepted newer values win, a rejected older list adds nothing. */
  lemma ReplaceableConverge<T(!new)>(s: seq<T>, older: seq<T>, newer: seq<T>, key: T -> string)
    requires Keys(older, key) <= Keys(newer, key)
    ensures MergedValues(MergedValues(s, older, key, true), newer, key, true) == MergedValues(s, newer, key, true)
    ensures MergedValues(MergedValues(s, newer, key, true), older, key, false) == MergedValues(s, newer, key, true)
  {
    var base := PutAll([], key, s);
    MergedByKeyTwice(s, older, key);
    MergedByKeyTwice(s, newer, key);
    UpsertAllDistinct([], key, Newest, s);
    PutAllOverPrefix([], key, MergedByKey(s, older, key));
    PutAllNewerKeys(base, key, older, newer);
    var merged := MergedByKey(s, newer, key);
    UpsertAllKeys(base, key, Newest, newer);
    JoinedMembers(Keys(base, key), Keys(newer, key));
    forall x | x in older ensures key(x) in Keys(merged, key) {
      KeyOfMember(older, key, x);
      assert key(x) in Keys(newer, key);
      assert key(x) in Joined(Keys(base, key), Keys(newer, key));
    }
    AppendUniqueKnown(merged, key, older);
  }

  lemma ProcessedConverge(s: seq<string>, older: seq<string>, newer: seq<string>)
    requires older <= newer
    ensures Joined([], Joined([], s + older) + newer) == Joined([], s + newer)
    ensures Joined([], Joined([], s + newer) + older) == Joined([], s + newer)
  {
    forall x: seq<string>, y: seq<string> ensures Joined([], Joined([], s + x) + y) == Joined(Joined(Joined([], s), x), y) {
      JoinedAppend([], s, x);
      JoinedDistinct([], s + x);
      JoinedOnto(Joined([], s + x), y);
    }
    JoinedAppend([], s, newer);
    JoinedPrefix(Joined([], s), older, newer);
  }

  /** The chat-side fields of merging b onto a state that already took a in. */
  lemma ChatConverges(s: Stored, older: Checkpoint, newer: Checkpoint, first: Checkpoint, second: Checkpoint)
    requires Grows(older, newer) && ((first == older && second == newer) || (first == newer && second == older))
    ensures var t, want := MergeAdmitted(MergeAdmitted(s, first), second), MergeAdmitted(s, newer);
            t.messages == want.messages && t.redacted == want.redacted && t.reactionEvents == want.reactionEvents
  {
    SameAudit(s, first, second);
    MessagesConverge(s.messages, older.messages, newer.messages, ToSet(MergedRedacted(s, newer)));
  }

  /** The fields that are only ever appended to. */
  lemma AppendOnlyConverges(s: Stored, older: Checkpoint, newer: Checkpoint, first: Checkpoint, second: Checkpoint)
    requires Pair(s, older, newer) && ((first == older && second == newer) || (first == newer && second == older))
    ensures var t, want := MergeAdmitted(MergeAdmitted(s, first), second), MergeAdmitted(s, newer);
            && t.rankingHistory == want.rankingHistory && t.interventions == want.interventions
            && t.windowEvaluations == want.windowEvaluations && t.processed == want.processed
  {
    AppendUniquePrefix(s.rankingHistory, RankingKey, older.rankingHistory, newer.rankingHistory);
    PushedConverge(s.interventions, older.interventions, newer.interventions, InterventionId);
    MergedWindowsConverge(s.windowEvaluations, older.windowEvaluations, newer.windowEvaluations);
    ProcessedConverge(s.processed, older.processed, newer.processed);
  }

  // The records a newer snapshot may replace.

  lemma JudgmentsOlderFirst(s: Stored, older: Checkpoint, newer: Checkpoint)
    requires Pair(s, older, newer)
    ensures SameJudgments(MergeAdmitted(MergeAdmitted(s, older), newer), MergeAdmitted(s, newer))
  {
    assert Keys(older.behavioralEvents, BehaviorId) <= Keys(newer.behavioralEvents, BehaviorId);
    ReplaceableConverge(s.behavioralEvents, older.behavioralEvents, newer.behavioralEvents, BehaviorId);
    ReplaceableConverge(s.classifications, older.classifications, newer.classifications, ClassifiedId);
    ReplaceableConverge(s.failures, older.failures, newer.failures, FailedId);
  }

  lemma JudgmentsNewerFirst(s: Stored, older: Checkpoint, newer: Checkpoint)
    requires Pair(s, older, newer)
    ensures SameJudgments(MergeAdmitted(MergeAdmitted(s, newer), older), MergeAdmitted(s, newer))
  {
    assert Keys(older.behavioralEvents, BehaviorId) <= Keys(newer.behavioralEvents, BehaviorId);
    ReplaceableConverge(s.behavioralEvents, older.behavioralEvents, newer.behavioralEvents, BehaviorId);
    ReplaceableConverge(s.classifications, older.classifications, newer.classifications, ClassifiedId);
    ReplaceableConverge(s.failures, older.failures, newer.failures, FailedId);
  }

  ghost predicate SameJudgments(t: Stored, want: Stored) {
    t.behavioralEvents == want.behavioralEvents && t.classifications == want.classifications && t.failures == want.failures
  }

  /** The mutable state: the newer snapshot's, in either order. */
  lemma MutableConverges(s: Stored, older: Checkpoint, newer: Checkpoint)
    requires Pair(s, older, newer)
    ensures var t, want := MergeAdmitted(MergeAdmitted(s, older), newer), MergeAdmitted(s, newer);
            t.etherpad == want.etherpad && t.revision == want.revision && t.ranking == want.ranking
    ensures var t, want := MergeAdmitted(MergeAdmitted(s, newer), older), MergeAdmitted(s, newer);
            t.etherpad == want.etherpad && t.revision == want.revision && t.ranking == want.ranking
            && t.ruleState == want.ruleState
  {}

  lemma RuleStateConverges(s: Stored, older: Checkpoint, newer: Checkpoint)
    requires Pair(s, older, newer)
    ensures MergeAdmitted(MergeAdmitted(s, older), newer).ruleState == MergeAdmitted(s, newer).ruleState
  {
    Overwritten(s.ruleState, older.ruleState, newer.ruleState);
  }

  lemma Overwritten(base: map<string, RuleEntry>, older: map<string, RuleEntry>, newer: map<string, RuleEntry>)
    requires older.Keys <= newer.Keys
    ensures (base + older) + newer == base + newer
  {}

  lemma OlderThenNewer(s: Stored, older: Checkpoint, newer: Checkpoint)
    requires Pair(s, older, newer)
    ensures MergeAdmitted(MergeAdmitted(s, older), newer) == MergeAdmitted(s, newer)
  {
    ChatConverges(s, older, newer, older, newer);
    AppendOnlyConverges(s, older, newer, older, newer);
    JudgmentsOlderFirst(s, older, newer);
    MutableConverges(s, older, newer);
    RuleStateConverges(s, older, newer);
  }

  lemma NewerThenOlder(s: Stored, older: Checkpoint, newer: Checkpoint)
    requires Pair(s, older, newer)
    ensures MergeAdmitted(MergeAdmitted(s, newer), older) == MergeAdmitted(s, newer)
  {
    ChatConverges(s, older, newer, newer, older);
    AppendOnlyConverges(s, older, newer, newer, older);
    JudgmentsNewerFirst(s, older, newer);
    MutableConverges(s, older, newer);
    RuleStateConverges(s, older, newer);
  }
}
