/**
 * What a stored session holds once a snapshot of its own runtime is merged into
 * it: the snapshot's records, list by list.
 */
module StoredSnapshots {
  import opened Options
  import opened KeyedLists
  import opened WindowEvaluations
  import opened Records
  import opened CheckpointMerge
  import opened MergeLaws
  import opened Convergence

  /** In the writing workspace a runtime records neither rankings nor ranking moves. */
  ghost predicate Unranked(s: Stored, c: Checkpoint) {
    && c.rankingHistory == s.rankingHistory
    && |s.behavioralEvents| <= |c.behavioralEvents|
    && forall i :: |s.behavioralEvents| <= i < |c.behavioralEvents| ==> !c.behavioralEvents[i].kind.RankingMove?
  }

  /** c is a snapshot of a runtime that was started from s. */
  ghost predicate Continues(s: Stored, c: Checkpoint) {
    && c.revision.Some? && c.revision.value >= s.revision
    && s.messages <= c.messages && Distinct(Keys(c.messages, MessageId))
    && s.rankingHistory <= c.rankingHistory && Distinct(Keys(c.rankingHistory, RankingKey))
    && s.interventions <= c.interventions && Distinct(Keys(c.interventions, InterventionId))
    && s.behavioralEvents <= c.behavioralEvents && Distinct(Keys(c.behavioralEvents, BehaviorId))
    && s.windowEvaluations <= c.windowEvaluations && Distinct(Keys(c.windowEvaluations, EvaluationId))
    && Joined([], s.processed) <= c.processed && Distinct(c.processed)
    && s.ruleState.Keys <= c.ruleState.Keys
    && (s.etherpad ==> Unranked(s, c))
  }

  /** The judgements and the reaction audit of such a snapshot, each under one key. */
  ghost predicate ContinuesJudgments(s: Stored, c: Checkpoint) {
    && Keys(s.classifications, ClassifiedId) <= Keys(c.classifications, ClassifiedId)
    && Distinct(Keys(c.classifications, ClassifiedId))
    && Keys(s.failures, FailedId) <= Keys(c.failures, FailedId) && Distinct(Keys(c.failures, FailedId))
    && s.reactionEvents <= c.reactionEvents && Distinct(Keys(c.reactionEvents, ReactionEventId))
    && s.redacted <= c.redacted && Distinct(c.redacted)
  }

  /** t holds the records of c, content and order included; one window record per boundary. */
  ghost predicate HoldsRecords(t: Stored, c: Checkpoint) {
    && c.revision == Some(t.revision)
    && t.messages == ActiveMessages(c.messages, ToSet(t.redacted))
    && t.rankingHistory == c.rankingHistory
    && t.interventions == c.interventions
    && t.behavioralEvents == c.behavioralEvents
    && t.windowEvaluations == Deduped(c.windowEvaluations)
    && t.processed == c.processed
    && t.ruleState == c.ruleState
  }

  ghost predicate HoldsJudgments(t: Stored, c: Checkpoint) {
    && t.classifications == c.classifications
    && t.failures == c.failures
    && t.reactionEvents == c.reactionEvents
    && t.redacted == Joined(c.redacted, RedactedIds(c.reactionEvents))
  }

  // ---- list by list ----

  /** Combining a message with its own filtered self filters it. */
  lemma OwnMessage(m: Message, redacted: set<string>)
    ensures CombineMessages(redacted)(m, ActiveMessage(m, redacted)) == ActiveMessage(m, redacted)
  {
    var rs := KeepActive(m.reactions, redacted);
    ActiveTwice(m.reactions, redacted);
    forall r | r in rs ensures ReactionKeyOf(m.id)(r) in Keys(rs, ReactionKeyOf(m.id)) {
      KeyOfMember(rs, ReactionKeyOf(m.id), r);
    }
    AppendUniqueKnown(rs, ReactionKeyOf(m.id), rs);
  }

  lemma PrefixKeys<T>(s: seq<T>, c: seq<T>, key: T -> string)
    requires s <= c
    ensures Keys(s, key) <= Keys(c, key)
  {}

  lemma MessagesOverlaid(s: seq<Message>, c: seq<Message>, redacted: set<string>)
    requires s <= c
    ensures Overlaid(s, CombineMessages(redacted), ActiveMessages(c, redacted)) == ActiveMessages(c, redacted)
  {
    forall i | 0 <= i < |s| ensures CombineMessages(redacted)(s[i], ActiveMessages(c, redacted)[i]) == ActiveMessages(c, redacted)[i] {
      OwnMessage(c[i], redacted);
    }
  }

  lemma MessagesHeld(s: seq<Message>, c: seq<Message>, redacted: set<string>)
    requires s <= c && Distinct(Keys(c, MessageId))
    ensures MergedMessages(s, c, redacted) == ActiveMessages(c, redacted)
  {
    CombineMessagesLawful(redacted);
    PrefixKeys(s, c, MessageId);
    ActivePrefix(c, c, redacted);
    PutAllOverPrefix([], MessageId, s);
    UpsertAllOverPrefix(s, MessageId, CombineMessages(redacted), ActiveMessages(c, redacted));
    MessagesOverlaid(s, c, redacted);
  }

  lemma HistoryHeld<T(!new)>(s: seq<T>, c: seq<T>, key: T -> string)
    requires s <= c && Distinct(Keys(c, key))
    ensures AppendUnique(s, key, c) == c
  {
    PrefixKeys(s, c, key);
    AppendFresh(s, key);
    AppendFresh(c, key);
    AppendUniquePrefix([], key, s, c);
  }

  lemma KeysLast<T>(c: seq<T>, key: T -> string)
    requires c != []
    ensures Keys(c, key) == Keys(c[..|c| - 1], key) + [key(c[|c| - 1])]
    ensures Distinct(Keys(c, key)) ==>
              Distinct(Keys(c[..|c| - 1], key)) && key(c[|c| - 1]) !in Keys(c[..|c| - 1], key)
  {
    var ks, init := Keys(c, key), Keys(c[..|c| - 1], key);
    assert ks == init + [key(c[|c| - 1])];
  }

  lemma {:induction false} AppendFresh<T(!new)>(c: seq<T>, key: T -> string)
    requires Distinct(Keys(c, key))
    ensures AppendUnique([], key, c) == c
  {
    if c != [] {
      KeysLast(c, key);
      AppendFresh(c[..|c| - 1], key);
    }
  }

  /** Values replaced by key, over a list that begins with the same keys. */
  lemma ValuesHeld<T(!new)>(s: seq<T>, c: seq<T>, key: T -> string)
    requires Keys(s, key) <= Keys(c, key) && Distinct(Keys(c, key))
    ensures MergedByKey(s, c, key) == c
  {
    PutAllOverPrefix([], key, s);
    PutAllOverPrefix(s, key, c);
  }

  lemma WindowsHeld(s: seq<WindowEvaluation>, c: seq<WindowEvaluation>)
    requires s <= c && Distinct(Keys(c, EvaluationId))
    ensures MergedWindows(s, c) == Deduped(c)
  {
    PrefixKeys(s, c, EvaluationId);
    ValuesHeld(s, c, EvaluationId);
  }

  lemma ProcessedHeld(s: seq<string>, c: seq<string>)
    requires Joined([], s) <= c && Distinct(c)
    ensures Joined([], s + c) == c
  {
    var first := Joined([], s);
    JoinedAppend([], s, c);
    JoinedDistinct([], s);
    JoinedPrefix([], first, c);
    JoinedFresh(first);
    JoinedFresh(c);
  }

  lemma AuditHeld(s: seq<RecordedReaction>, c: seq<RecordedReaction>)
    requires s <= c && Distinct(Keys(c, ReactionEventId))
    ensures MergedRecordedReactions(s, c) == c
  {
    CombineRecordedLawful();
    PrefixKeys(s, c, ReactionEventId);
    PutAllOverPrefix([], ReactionEventId, s);
    UpsertAllOverPrefix(s, ReactionEventId, CombineRecorded, c);
  }

  lemma {:induction false} MovesKept(es: seq<BehavioralEvent>, more: seq<BehavioralEvent>)
    requires forall i :: 0 <= i < |more| ==> !more[i].kind.RankingMove?
    ensures NotRankingMoves(es + more) == NotRankingMoves(es) + more
  {
    if more == [] {
      assert es + more == es;
    } else {
      var n := |more| - 1;
      MovesKept(es, more[..n]);
      assert (es + more)[..|es + more| - 1] == es + more[..n];
    }
  }

  lemma {:induction false} PutKnown<T(!new)>(s: seq<T>, key: T -> string, xs: seq<T>)
    requires Distinct(Keys(s, key)) && forall x :: x in xs ==> x in s
    ensures PutAll(s, key, xs) == s
  {
    if xs != [] {
      PutKnown(s, key, xs[..|xs| - 1]);
      var x := xs[|xs| - 1];
      assert x in xs;
      var i :| 0 <= i < |s| && s[i] == x;
      FindDistinct(s, key, i);
    }
  }

  lemma {:induction false} NotMovesPart(es: seq<BehavioralEvent>)
    ensures forall e :: e in NotRankingMoves(es) ==> e in es
  {
    if es != [] { NotMovesPart(es[..|es| - 1]); }
  }

  /** Fresh values under distinct keys are appended in their order. */
  lemma PutFresh<T(!new)>(s: seq<T>, key: T -> string, more: seq<T>)
    requires Distinct(Keys(s + more, key))
    ensures PutAll(s, key, more) == s + more
  {
    PrefixKeys(s, s + more, key);
    PutAllOverPrefix(s, key, s + more);
    PutKnown(s, key, s);
    UpsertAllAppend(s, key, Newest, s, more);
  }

  /** With the ranking moves dropped from the snapshot, the stored ones stay and the new records follow. */
  lemma UnrankedHeld(s: seq<BehavioralEvent>, more: seq<BehavioralEvent>)
    requires Distinct(Keys(s + more, BehaviorId))
    requires forall i :: 0 <= i < |more| ==> !more[i].kind.RankingMove?
    ensures MergedByKey(s, NotRankingMoves(s + more), BehaviorId) == s + more
  {
    PrefixKeys(s, s + more, BehaviorId);
    MovesKept(s, more);
    PutAllOverPrefix([], BehaviorId, s);
    NotMovesPart(s);
    PutKnown(s, BehaviorId, NotRankingMoves(s));
    UpsertAllAppend(s, BehaviorId, Newest, NotRankingMoves(s), more);
    PutFresh(s, BehaviorId, more);
  }

  // ---- the whole session ----

  lemma BehaviorHeld(s: Stored, c: Checkpoint)
    requires Continues(s, c)
    ensures Merge(s, c).behavioralEvents == c.behavioralEvents
  {
    if s.etherpad {
      var more := c.behavioralEvents[|s.behavioralEvents|..];
      assert c.behavioralEvents == s.behavioralEvents + more;
      UnrankedHeld(s.behavioralEvents, more);
    } else {
      PrefixKeys(s.behavioralEvents, c.behavioralEvents, BehaviorId);
      ValuesHeld(s.behavioralEvents, c.behavioralEvents, BehaviorId);
    }
  }

  lemma RankingsHeld(s: Stored, c: Checkpoint)
    requires Continues(s, c)
    ensures Merge(s, c).rankingHistory == c.rankingHistory
    ensures Merge(s, c).ranking
         == if s.etherpad || c.rankingHistory == [] then s.ranking else c.rankingHistory[|c.rankingHistory| - 1]
  {
    HistoryHeld(s.rankingHistory, c.rankingHistory, RankingKey);
  }

  lemma ChatHeld(s: Stored, c: Checkpoint)
    requires Continues(s, c)
    ensures var t := Merge(s, c);
            t.messages == ActiveMessages(c.messages, ToSet(t.redacted)) && t.processed == c.processed
  {
    MessagesHeld(s.messages, c.messages, ToSet(Merge(s, c).redacted));
    ProcessedHeld(s.processed, c.processed);
  }

  lemma BotHeld(s: Stored, c: Checkpoint)
    requires Continues(s, c)
    ensures var t := Merge(s, c);
            && t.interventions == c.interventions && t.windowEvaluations == Deduped(c.windowEvaluations)
            && t.ruleState == c.ruleState && c.revision == Some(t.revision)
  {
    PrefixKeys(s.interventions, c.interventions, InterventionId);
    ValuesHeld(s.interventions, c.interventions, InterventionId);
    WindowsHeld(s.windowEvaluations, c.windowEvaluations);
    assert s.ruleState + c.ruleState == c.ruleState;
  }

  /** A stored session after a snapshot of its own runtime holds exactly the snapshot's records. */
  lemma {:induction false} SnapshotHeld(s: Stored, c: Checkpoint)
    requires Continues(s, c)
    ensures HoldsRecords(Merge(s, c), c)
  {
    ChatHeld(s, c);
    BehaviorHeld(s, c);
    RankingsHeld(s, c);
    BotHeld(s, c);
  }

  lemma {:induction false} JudgmentsHeld(s: Stored, c: Checkpoint)
    requires c.revision.Some? && c.revision.value >= s.revision && ContinuesJudgments(s, c)
    ensures HoldsJudgments(Merge(s, c), c)
  {
    ValuesHeld(s.classifications, c.classifications, ClassifiedId);
    ValuesHeld(s.failures, c.failures, FailedId);
    AuditHeld(s.reactionEvents, c.reactionEvents);
    var ids := RedactedIds(c.reactionEvents);
    assert s.redacted + c.redacted + ids == (s.redacted + c.redacted) + ids;
    JoinedAppend([], s.redacted + c.redacted, ids);
    RedactedHeld(s.redacted, c.redacted);
  }

  lemma RedactedHeld(s: seq<string>, c: seq<string>)
    requires s <= c && Distinct(c)
    ensures Joined([], s + c) == c
  {
    JoinedFresh(s);
    ProcessedHeld(s, c);
  }

  /** Each list of a snapshot has one record per key. */
  ghost predicate KeyedSnapshot(c: Checkpoint) {
    && Distinct(Keys(c.messages, MessageId)) && Distinct(Keys(c.rankingHistory, RankingKey))
    && Distinct(Keys(c.interventions, InterventionId)) && Distinct(Keys(c.behavioralEvents, BehaviorId))
    && Distinct(Keys(c.classifications, ClassifiedId)) && Distinct(Keys(c.windowEvaluations, EvaluationId))
    && Distinct(Keys(c.failures, FailedId)) && Distinct(c.processed) && Distinct(c.redacted)
    && Distinct(Keys(c.reactionEvents, ReactionEventId))
  }

  lemma {:induction false} NoMoves(es: seq<BehavioralEvent>)
    ensures forall e :: e in NotRankingMoves(es) ==> !e.kind.RankingMove?
    ensures NotRankingMoves(NotRankingMoves(es)) == NotRankingMoves(es)
  {
    if es != [] {
      var init := NotRankingMoves(es[..|es| - 1]);
      NoMoves(es[..|es| - 1]);
      assert (init + [es[|es| - 1]])[..|init|] == init;
    }
  }

  lemma {:induction false} NotMovesKeyed(es: seq<BehavioralEvent>)
    requires Distinct(Keys(es, BehaviorId))
    ensures Distinct(Keys(NotRankingMoves(es), BehaviorId))
  {
    if es != [] {
      var n := |es| - 1;
      var init := NotRankingMoves(es[..n]);
      KeysLast(es, BehaviorId);
      NotMovesKeyed(es[..n]);
      NotMovesPart(es[..n]);
      forall i | 0 <= i < |init| ensures init[i].id != es[n].id {
        assert init[i] in es[..n];
        KeyOfMember(es[..n], BehaviorId, init[i]);
      }
    }
  }

  /** The last snapshot got through at least once: what a fresh session then holds. */
  lemma {:induction false} FreshSessionConverges(etherpad: bool, initial: Ranking, sent: seq<Checkpoint>, schedule: seq<nat>)
    requires Lineage(Fresh(etherpad, initial), sent) && sent != [] && KeyedSnapshot(sent[|sent| - 1])
    requires |sent| - 1 in schedule && Within(schedule, |sent|)
    ensures var t, c := Delivered(Fresh(etherpad, initial), sent, schedule), Admitted(Fresh(etherpad, initial), sent[|sent| - 1]);
            HoldsRecords(t, c) && HoldsJudgments(t, c)
  {
    var s, c := Fresh(etherpad, initial), sent[|sent| - 1];
    LastDelivered(s, sent, schedule, |sent| - 1);
    AdmittedContinues(etherpad, initial, c);
    SnapshotHeld(s, Admitted(s, c));
    JudgmentsHeld(s, Admitted(s, c));
  }

  lemma AdmittedContinues(etherpad: bool, initial: Ranking, c: Checkpoint)
    requires c.revision.Some? && c.revision.value >= 0 && KeyedSnapshot(c)
    ensures var s := Fresh(etherpad, initial); var a := Admitted(s, c);
            Continues(s, a) && ContinuesJudgments(s, a) && Merge(s, c) == Merge(s, a)
  {
    var a := Admitted(Fresh(etherpad, initial), c);
    NoMoves(c.behavioralEvents);
    NotMovesKeyed(c.behavioralEvents);
    forall i | 0 <= i < |NotRankingMoves(c.behavioralEvents)| ensures !NotRankingMoves(c.behavioralEvents)[i].kind.RankingMove? {
      assert NotRankingMoves(c.behavioralEvents)[i] in NotRankingMoves(c.behavioralEvents);
    }
    assert Admitted(Fresh(etherpad, initial), a) == a;
    FreshContinues(etherpad, initial, a);
  }

  lemma FreshContinues(etherpad: bool, initial: Ranking, a: Checkpoint)
    requires a.revision.Some? && a.revision.value >= 0 && KeyedSnapshot(a)
    requires etherpad ==> a.rankingHistory == []
    requires etherpad ==> forall i :: 0 <= i < |a.behavioralEvents| ==> !a.behavioralEvents[i].kind.RankingMove?
    ensures Continues(Fresh(etherpad, initial), a) && ContinuesJudgments(Fresh(etherpad, initial), a)
  {}

  // ---- what a merge leaves can be merged onto again ----

  lemma WindowsKeyed(s: seq<WindowEvaluation>, c: seq<WindowEvaluation>)
    ensures var t := MergedWindows(s, c); Distinct(Keys(t, WindowEnd)) && Distinct(Keys(t, EvaluationId))
  {
    var all := MergedByKey(s, c, EvaluationId);
    UpsertAllDistinct([], EvaluationId, Newest, s);
    UpsertAllDistinct(PutAll([], EvaluationId, s), EvaluationId, Newest, c);
    DedupeKeepsTheBest(all);
    DistinctPart(Deduped(all), all);
  }

  lemma ByKeyKeyed<T(!new)>(s: seq<T>, c: seq<T>, key: T -> string)
    ensures Distinct(Keys(MergedByKey(s, c, key), key))
  {
    UpsertAllDistinct([], key, Newest, s);
    UpsertAllDistinct(PutAll([], key, s), key, Newest, c);
  }

  /** Whatever was stored, an accepted snapshot leaves one record per key in every list. */
  lemma {:induction false} MergeKeyed(s: Stored, c: Checkpoint)
    requires AcceptsCheckpointState(c.revision, s.revision)
    ensures KeyedStored(Merge(s, c))
  {
    var a, t := Admitted(s, c), Merge(s, c);
    var redacted := ToSet(t.redacted);
    CombineMessagesLawful(redacted);
    UpsertAllDistinct([], MessageId, Newest, s.messages);
    UpsertAllDistinct(PutAll([], MessageId, s.messages), MessageId, CombineMessages(redacted), ActiveMessages(a.messages, redacted));
    ByKeyKeyed(s.interventions, a.interventions, InterventionId);
    ByKeyKeyed(s.behavioralEvents, a.behavioralEvents, BehaviorId);
    ByKeyKeyed(s.classifications, a.classifications, ClassifiedId);
    ByKeyKeyed(s.failures, a.failures, FailedId);
    JoinedDistinct([], s.processed + a.processed);
    JoinedDistinct([], s.redacted + a.redacted + RedactedIds(t.reactionEvents));
    CombineRecordedLawful();
    UpsertAllDistinct([], ReactionEventId, Newest, s.reactionEvents);
    UpsertAllDistinct(PutAll([], ReactionEventId, s.reactionEvents), ReactionEventId, CombineRecorded, a.reactionEvents);
    WindowsKeyed(s.windowEvaluations, a.windowEvaluations);
  }
}
