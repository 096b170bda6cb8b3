/**
 * Laws of the checkpoint merge: what re-delivery, staleness and growth promise
 * (backend/session-manager/src/store/checkpoint-merge.ts).
 */
module MergeLaws {
  import opened Options
  import opened KeyedLists
  import opened WindowEvaluations
  import opened Records
  import opened CheckpointMerge

  // ---- the two combining rules are lawful ----

  lemma CombineRecordedLawful()
    ensures Lawful(ReactionEventId, CombineRecorded, (r: RecordedReaction) => true)
    ensures KeepsKey(ReactionEventId, CombineRecorded)
  {}

  function AllActive(redacted: set<string>): Message -> bool {
    (m: Message) => KeepActive(m.reactions, redacted) == m.reactions
  }

  lemma {:induction false} ActiveUnchanged(rs: seq<Reaction>, redacted: set<string>)
    requires forall r :: r in rs ==> !IsRedacted(r, redacted)
    ensures KeepActive(rs, redacted) == rs
  {
    if rs != [] { ActiveUnchanged(rs[..|rs| - 1], redacted); }
  }

  lemma AppendedActive(a: seq<Reaction>, key: Reaction -> string, b: seq<Reaction>, redacted: set<string>)
    requires KeepActive(a, redacted) == a && KeepActive(b, redacted) == b
    ensures KeepActive(AppendUnique(a, key, b), redacted) == AppendUnique(a, key, b)
  {
    AppendUniqueAdds(a, key, b);
    ActiveTwice(a, redacted);
    ActiveTwice(b, redacted);
    ActiveUnchanged(AppendUnique(a, key, b), redacted);
  }

  lemma CombineMessagesLawful(redacted: set<string>)
    ensures Lawful(MessageId, CombineMessages(redacted), AllActive(redacted))
    ensures KeepsKey(MessageId, CombineMessages(redacted))
  {
    var combine, good := CombineMessages(redacted), AllActive(redacted);
    forall v: Message, x: Message, y: Message | v.id == x.id == y.id
      ensures combine(combine(v, x), y) == combine(v, combine(x, y))
    {
      var key := ReactionKeyOf(v.id);
      var a, b, c := KeepActive(v.reactions, redacted), KeepActive(x.reactions, redacted), KeepActive(y.reactions, redacted);
      ActiveTwice(v.reactions, redacted);
      ActiveTwice(x.reactions, redacted);
      ActiveTwice(y.reactions, redacted);
      AppendedActive(a, key, b, redacted);
      AppendedActive(b, key, c, redacted);
      AppendUniqueAssociative(a, key, b, c);
    }
    forall v: Message, x: Message | v.id == x.id && good(v) && good(x) ensures good(combine(v, x)) {
      AppendedActive(v.reactions, ReactionKeyOf(v.id), x.reactions, redacted);
    }
    forall v: Message | good(v) ensures combine(v, v) == v {
      forall r | r in v.reactions ensures ReactionKeyOf(v.id)(r) in Keys(v.reactions, ReactionKeyOf(v.id)) {
        KeyOfMember(v.reactions, ReactionKeyOf(v.id), r);
      }
      AppendUniqueKnown(v.reactions, ReactionKeyOf(v.id), v.reactions);
    }
  }

  lemma ActiveMessagesGood(ms: seq<Message>, redacted: set<string>)
    ensures forall m :: m in ActiveMessages(ms, redacted) ==> AllActive(redacted)(m)
  {
    forall m | m in ActiveMessages(ms, redacted) ensures AllActive(redacted)(m) {
      var i :| 0 <= i < |ms| && ActiveMessages(ms, redacted)[i] == m;
      ActiveTwice(ms[i].reactions, redacted);
    }
  }

  // ---- re-delivery, collection by collection ----

  lemma MergedByKeyTwice<T(!new)>(s: seq<T>, xs: seq<T>, key: T -> string)
    ensures var once := MergedByKey(s, xs, key);
            Distinct(Keys(once, key)) && MergedByKey(once, xs, key) == once
  {
    var base := PutAll([], key, s);
    NewestLawful(key);
    UpsertAllDistinct([], key, Newest, s);
    UpsertAllDistinct(base, key, Newest, xs);
    UpsertAllTwice(base, key, Newest, (x: T) => true, xs);
    PutAllOverPrefix([], key, PutAll(base, key, xs));
  }

  lemma MergedValuesTwice<T(!new)>(s: seq<T>, xs: seq<T>, key: T -> string, replace: bool)
    ensures var once := MergedValues(s, xs, key, replace);
            MergedValues(once, xs, key, replace) == once
  {
    if replace { MergedByKeyTwice(s, xs, key); } else { AppendUniquePrefix(s, key, xs, xs); }
  }

  lemma RecordedTwice(s: seq<RecordedReaction>, xs: seq<RecordedReaction>)
    ensures var once := MergedRecordedReactions(s, xs);
            MergedRecordedReactions(once, xs) == once
  {
    var base := PutAll([], ReactionEventId, s);
    CombineRecordedLawful();
    UpsertAllDistinct([], ReactionEventId, Newest, s);
    UpsertAllDistinct(base, ReactionEventId, CombineRecorded, xs);
    UpsertAllTwice(base, ReactionEventId, CombineRecorded, (r: RecordedReaction) => true, xs);
    PutAllOverPrefix([], ReactionEventId, MergedRecordedReactions(s, xs));
  }

  lemma MessagesTwice(s: seq<Message>, xs: seq<Message>, redacted: set<string>)
    ensures var once := MergedMessages(s, xs, redacted);
            MergedMessages(once, xs, redacted) == once
  {
    var base := PutAll([], MessageId, s);
    CombineMessagesLawful(redacted);
    ActiveMessagesGood(xs, redacted);
    UpsertAllDistinct([], MessageId, Newest, s);
    UpsertAllDistinct(base, MessageId, CombineMessages(redacted), ActiveMessages(xs, redacted));
    UpsertAllTwice(base, MessageId, CombineMessages(redacted), AllActive(redacted), ActiveMessages(xs, redacted));
    PutAllOverPrefix([], MessageId, MergedMessages(s, xs, redacted));
  }

  /** A set rebuilt from itself and what it already took in. */
  lemma JoinedAgain(a: seq<string>, b: seq<string>)
    ensures Joined([], Joined([], a + b) + b) == Joined([], a + b)
  {
    var once := Joined([], a + b);
    JoinedDistinct([], a + b);
    JoinedFresh(once);
    JoinedAppend([], once, b);
    JoinedMembers([], a + b);
    JoinedKnown(once, b);
  }

  lemma RedactedTwice(s: Stored, c: Checkpoint)
    ensures var once := MergeAdmitted(s, c);
            MergedRedacted(once, c) == once.redacted
  {
    var audit := MergedRecordedReactions(s.reactionEvents, c.reactionEvents);
    RecordedTwice(s.reactionEvents, c.reactionEvents);
    var added := c.redacted + RedactedIds(audit);
    assert s.redacted + c.redacted + RedactedIds(audit) == s.redacted + added;
    JoinedAgain(s.redacted, added);
    assert Joined([], s.redacted + added) + added == Joined([], s.redacted + added) + c.redacted + RedactedIds(audit);
  }

  lemma EverythingButRankingTwice(s: Stored, c: Checkpoint)
    ensures var once := MergeAdmitted(s, c);
            MergeAdmitted(once, c) == once.(ranking := MergeAdmitted(once, c).ranking)
  {
    var once := MergeAdmitted(s, c);
    var accepts := AcceptsCheckpointState(c.revision, s.revision);
    assert AcceptsCheckpointState(c.revision, once.revision) == accepts;
    RedactedTwice(s, c);
    RecordedTwice(s.reactionEvents, c.reactionEvents);
    MessagesTwice(s.messages, c.messages, ToSet(once.redacted));
    AppendUniquePrefix(s.rankingHistory, RankingKey, c.rankingHistory, c.rankingHistory);
    MergedByKeyTwice(s.interventions, c.interventions, InterventionId);
    MergedValuesTwice(s.behavioralEvents, c.behavioralEvents, BehaviorId, accepts);
    MergedValuesTwice(s.classifications, c.classifications, ClassifiedId, accepts);
    MergedWindowsTwice(s.windowEvaluations, c.windowEvaluations);
    MergedValuesTwice(s.failures, c.failures, FailedId, accepts);
    JoinedAgain(s.processed, c.processed);
    assert (s.ruleState + c.ruleState) + c.ruleState == s.ruleState + c.ruleState;
  }

  /** Applying a versioned checkpoint twice is applying it once, whatever was stored. */
  lemma VersionedRedelivery(s: Stored, checkpoint: Checkpoint)
    requires checkpoint.revision.Some?
    ensures Merge(Merge(s, checkpoint), checkpoint) == Merge(s, checkpoint)
  {
    EverythingButRankingTwice(s, Admitted(s, checkpoint));
  }

  // ---- unversioned checkpoints: idempotent exactly when the last ranking is the newest ----

  /** Whether no ranking of the list beats its last one by timestamp. */
  predicate LastIsNewest(h: seq<Ranking>)
    requires h != []
  {
    var last := h[|h| - 1].updatedAt.ms;
    forall i :: 0 <= i < |h| && h[i].updatedAt.ms.Some? ==> last.Some? && h[i].updatedAt.ms.value <= last.value
  }

  ghost predicate IsNewestOf(r: Ranking, first: Ranking, rest: seq<Ranking>) {
    && (r == first || r in rest)
    && (forall q :: q == first || q in rest ==> q.updatedAt.ms.Some? ==>
          r.updatedAt.ms.Some? && q.updatedAt.ms.value <= r.updatedAt.ms.value)
  }

  lemma {:induction false} NewestRankingWins(first: Ranking, rest: seq<Ranking>)
    ensures IsNewestOf(NewestRanking(first, rest), first, rest)
  {
    if rest != [] {
      var init := rest[..|rest| - 1];
      NewestRankingWins(first, init);
      assert forall q :: q in rest <==> q in init || q == rest[|rest| - 1];
    }
  }

  /** Offering a list again to its own winner keeps the winner. */
  lemma NewestRankingTwice(first: Ranking, rest: seq<Ranking>)
    ensures NewestRanking(NewestRanking(first, rest), rest) == NewestRanking(first, rest)
  {
    NewestOfWinner(first, rest, rest);
  }

  lemma {:induction false} NewestOfWinner(first: Ranking, rest: seq<Ranking>, part: seq<Ranking>)
    requires part <= rest
    ensures var again, winner := NewestRanking(NewestRanking(first, rest), part), NewestRanking(first, rest);
            || again == winner
            || (again == NewestRanking(first, part) && again.updatedAt.ms == winner.updatedAt.ms && again.updatedAt.ms.Some?)
  {
    NewestRankingWins(first, rest);
    if part != [] {
      var init := part[..|part| - 1];
      NewestOfWinner(first, rest, init);
      NewestRankingWins(first, init);
      NewestRankingWins(first, part);
      assert part[|part| - 1] in rest;
    }
  }

  /**
   * An unversioned checkpoint may change the ranking when it arrives again. It
   * does not exactly when it carries no ranking, when a history was stored
   * before it, or when the last ranking it carries is also its newest.
   */
  lemma UnversionedRedelivery(s: Stored, checkpoint: Checkpoint)
    requires checkpoint.revision.None?
    ensures var h := Admitted(s, checkpoint).rankingHistory;
            Merge(Merge(s, checkpoint), checkpoint) == Merge(s, checkpoint)
            <==> h == [] || s.rankingHistory != [] || LastIsNewest(h)
  {
    var c := Admitted(s, checkpoint);
    var h := c.rankingHistory;
    var once := Merge(s, checkpoint);
    EverythingButRankingTwice(s, c);
    AppendUniqueAdds(s.rankingHistory, RankingKey, h);
    if h != [] {
      AppendUniqueSeen(s.rankingHistory, RankingKey, h);
      assert h[0] in h;
      assert once.rankingHistory != [];
      if s.rankingHistory != [] {
        NewestRankingTwice(s.ranking, h);
      } else {
        LastAgainstAll(h);
      }
    }
  }

  lemma LastAgainstAll(h: seq<Ranking>)
    requires h != []
    ensures NewestRanking(h[|h| - 1], h) == h[|h| - 1] <==> LastIsNewest(h)
  {
    var last, init := h[|h| - 1], h[..|h| - 1];
    NewestRankingWins(last, h);
    NewestRankingWins(last, init);
    if LastIsNewest(h) {
      var before := NewestRanking(last, init);
      assert before == last || before in h;
      if last.updatedAt.ms.None? { UntimedNeverWins(last, h); }
    } else {
      var i :| 0 <= i < |h| && h[i].updatedAt.ms.Some? &&
               !(last.updatedAt.ms.Some? && h[i].updatedAt.ms.value <= last.updatedAt.ms.value);
      assert h[i] in h;
    }
  }

  lemma {:induction false} UntimedNeverWins(first: Ranking, rest: seq<Ranking>)
    requires forall i :: 0 <= i < |rest| ==> rest[i].updatedAt.ms.None?
    ensures NewestRanking(first, rest) == first
  {
    if rest != [] { UntimedNeverWins(first, rest[..|rest| - 1]); }
  }

  /** A concrete unversioned checkpoint whose second delivery changes the ranking. */
  lemma {:induction false} UnversionedCounterexample(s: Stored, taskId: string)
    requires s.rankingHistory == [] && !s.etherpad
    ensures var newer := Ranking("$b", taskId, ["x", "y"], Time("2026-01-02", Some(2)), "b", None);
            var older := Ranking("$a", taskId, ["y", "x"], Time("2026-01-01", Some(1)), "a", None);
            var c := Checkpoint(None, [], [newer, older], [], [], [], [], [], [], [], [], map[]);
            Merge(s, c).ranking == older && Merge(Merge(s, c), c).ranking == newer
  {
    var newer := Ranking("$b", taskId, ["x", "y"], Time("2026-01-02", Some(2)), "b", None);
    var older := Ranking("$a", taskId, ["y", "x"], Time("2026-01-01", Some(1)), "a", None);
    var h := [newer, older];
    AppendUniqueSeen(s.rankingHistory, RankingKey, h);
    assert newer in h;
    assert h[..1] == [newer] && [newer][..0] == [];
    assert NewestRanking(older, []) == older;
    assert NewestRanking(older, [newer]) == newer;
  }

  // ---- staleness ----

  /**
   * A versioned checkpoint older than the stored revision only adds unseen
   * records: revision, ranking and rule state stay, and so does every stored
   * ranking state, behaviour, classification and failure record.
   */
  lemma StaleOnlyAdds(s: Stored, checkpoint: Checkpoint)
    requires checkpoint.revision.Some? && checkpoint.revision.value < s.revision
    ensures var t := Merge(s, checkpoint);
            && t.revision == s.revision && t.ranking == s.ranking && t.ruleState == s.ruleState
            && s.rankingHistory <= t.rankingHistory
            && OnlyUnseenAdded(s.behavioralEvents, t.behavioralEvents, BehaviorId)
            && OnlyUnseenAdded(s.classifications, t.classifications, ClassifiedId)
            && OnlyUnseenAdded(s.failures, t.failures, FailedId)
  {
    var c := Admitted(s, checkpoint);
    AppendUniqueAdds(s.rankingHistory, RankingKey, c.rankingHistory);
    AppendUniqueAdds(s.behavioralEvents, BehaviorId, c.behavioralEvents);
    AppendUniqueAdds(s.classifications, ClassifiedId, c.classifications);
    AppendUniqueAdds(s.failures, FailedId, c.failures);
  }

  ghost predicate OnlyUnseenAdded<T>(before: seq<T>, after: seq<T>, key: T -> string) {
    && before <= after
    && forall i :: |before| <= i < |after| ==> key(after[i]) !in Keys(before, key)
  }

  // ---- growth ----

  ghost predicate KeyedStored(s: Stored) {
    && Distinct(Keys(s.messages, MessageId)) && Distinct(Keys(s.interventions, InterventionId))
    && Distinct(Keys(s.behavioralEvents, BehaviorId)) && Distinct(Keys(s.classifications, ClassifiedId))
    && Distinct(Keys(s.failures, FailedId)) && Distinct(s.processed) && Distinct(s.redacted)
    && Distinct(Keys(s.reactionEvents, ReactionEventId))
    && Distinct(Keys(s.windowEvaluations, WindowEnd)) && Distinct(Keys(s.windowEvaluations, EvaluationId))
  }

  /**
   * Collections only grow: whatever the checkpoint, every key ever stored is
   * still there, in its place, and the incoming keys follow.
   */
  lemma NothingIsLost(s: Stored, checkpoint: Checkpoint)
    requires KeyedStored(s)
    ensures var t, c := Merge(s, checkpoint), Admitted(s, checkpoint);
            && Keys(t.messages, MessageId) == Joined(Keys(s.messages, MessageId), Keys(c.messages, MessageId))
            && s.rankingHistory <= t.rankingHistory
            && Keys(t.interventions, InterventionId)
               == Joined(Keys(s.interventions, InterventionId), Keys(c.interventions, InterventionId))
            && Keys(t.behavioralEvents, BehaviorId)
               == Joined(Keys(s.behavioralEvents, BehaviorId), Keys(c.behavioralEvents, BehaviorId))
            && Keys(t.classifications, ClassifiedId)
               == Joined(Keys(s.classifications, ClassifiedId), Keys(c.classifications, ClassifiedId))
            && Keys(t.failures, FailedId) == Joined(Keys(s.failures, FailedId), Keys(c.failures, FailedId))
            && Keys(t.reactionEvents, ReactionEventId)
               == Joined(Keys(s.reactionEvents, ReactionEventId), Keys(c.reactionEvents, ReactionEventId))
            && t.processed == Joined(s.processed, c.processed)
            && s.redacted <= t.redacted
  {
    var c := Admitted(s, checkpoint);
    var accepts := AcceptsCheckpointState(c.revision, s.revision);
    var redacted := ToSet(MergedRedacted(s, c));
    CombineRecordedLawful();
    CombineMessagesLawful(redacted);
    PutAllOverPrefix([], MessageId, s.messages);
    UpsertAllKeys(s.messages, MessageId, CombineMessages(redacted), ActiveMessages(c.messages, redacted));
    assert Keys(ActiveMessages(c.messages, redacted), MessageId) == Keys(c.messages, MessageId);
    AppendUniqueAdds(s.rankingHistory, RankingKey, c.rankingHistory);
    MergedByKeyKeys(s.interventions, c.interventions, InterventionId);
    MergedValuesKeys(s.behavioralEvents, c.behavioralEvents, BehaviorId, accepts);
    MergedValuesKeys(s.classifications, c.classifications, ClassifiedId, accepts);
    MergedValuesKeys(s.failures, c.failures, FailedId, accepts);
    PutAllOverPrefix([], ReactionEventId, s.reactionEvents);
    UpsertAllKeys(s.reactionEvents, ReactionEventId, CombineRecorded, c.reactionEvents);
    JoinedOnto(s.processed, c.processed);
    var audit := MergedRecordedReactions(s.reactionEvents, c.reactionEvents);
    assert s.redacted + c.redacted + RedactedIds(audit) == s.redacted + (c.redacted + RedactedIds(audit));
    JoinedOnto(s.redacted, c.redacted + RedactedIds(audit));
    JoinedMembers(s.redacted, c.redacted + RedactedIds(audit));
  }

  lemma JoinedOnto(a: seq<string>, b: seq<string>)
    requires Distinct(a)
    ensures Joined([], a + b) == Joined(a, b)
  {
    JoinedAppend([], a, b);
    JoinedFresh(a);
  }

  lemma MergedByKeyKeys<T(!new)>(s: seq<T>, xs: seq<T>, key: T -> string)
    requires Distinct(Keys(s, key))
    ensures Keys(MergedByKey(s, xs, key), key) == Joined(Keys(s, key), Keys(xs, key))
  {
    PutAllOverPrefix([], key, s);
    UpsertAllKeys(s, key, Newest, xs);
  }

  lemma MergedValuesKeys<T(!new)>(s: seq<T>, xs: seq<T>, key: T -> string, replace: bool)
    requires Distinct(Keys(s, key))
    ensures Keys(MergedValues(s, xs, key, replace), key) == Joined(Keys(s, key), Keys(xs, key))
  {
    if replace { MergedByKeyKeys(s, xs, key); } else { AppendUniqueAdds(s, key, xs); }
  }

  // ---- redactions ----

  lemma {:induction false} FoldStaysRedacted(o: Option<RecordedReaction>, xs: seq<RecordedReaction>, k: string)
    requires o.Some? && o.value.redacted
    ensures var r := Fold(o, ReactionEventId, CombineRecorded, xs, k); r.Some? && r.value.redacted
  {
    if xs != [] { FoldStaysRedacted(o, xs[..|xs| - 1], k); }
  }

  /** A late active snapshot never brings a redacted reaction back. */
  lemma RedactionsStay(s: Stored, checkpoint: Checkpoint, r: RecordedReaction)
    requires KeyedStored(s) && r in s.reactionEvents && r.redacted
    ensures var t := Merge(s, checkpoint);
            && At(t.reactionEvents, ReactionEventId, r.eventId).Some?
            && At(t.reactionEvents, ReactionEventId, r.eventId).value.redacted
            && r.eventId in t.redacted
  {
    var c, t := Admitted(s, checkpoint), Merge(s, checkpoint);
    var i :| 0 <= i < |s.reactionEvents| && s.reactionEvents[i] == r;
    CombineRecordedLawful();
    FindDistinct(s.reactionEvents, ReactionEventId, i);
    PutAllOverPrefix([], ReactionEventId, s.reactionEvents);
    UpsertAllAt(s.reactionEvents, ReactionEventId, CombineRecorded, c.reactionEvents, r.eventId);
    FoldStaysRedacted(Some(r), c.reactionEvents, r.eventId);
    AtKeepsKey(t.reactionEvents, ReactionEventId, r.eventId);
    RedactedIdListed(t.reactionEvents, At(t.reactionEvents, ReactionEventId, r.eventId).value);
    JoinedMembers([], s.redacted + c.redacted + RedactedIds(t.reactionEvents));
  }

  lemma {:induction false} RedactedIdListed(rs: seq<RecordedReaction>, r: RecordedReaction)
    requires r in rs && r.redacted
    ensures r.eventId in RedactedIds(rs)
  {
    var init := rs[..|rs| - 1];
    if r in init { RedactedIdListed(init, r); }
  }
}
