/**
 * The live state of one running session
 * (backend/chat-service/src/sessions/session-runtime.ts) and how its snapshots
 * relate to each other.
 */
module SessionRuntimes {
  import opened Options
  import opened KeyedLists
  import opened WindowEvaluations
  import opened Records
  import opened CheckpointMerge
  import opened Convergence

  /** What a runtime holds. processed is the processed-event Set in insertion order. */
  datatype Live = Live(
    messages: seq<Message>,
    rankingHistory: seq<Ranking>,
    interventions: seq<Intervention>,
    behavioralEvents: seq<BehavioralEvent>,
    classifications: seq<Classification>,
    windowEvaluations: seq<WindowEvaluation>,
    failures: seq<Failure>,
    processed: seq<string>,
    redacted: seq<string>,
    reactionEvents: seq<RecordedReaction>,
    ruleState: map<string, RuleEntry>,
    revision: int,
    lastWindowBoundary: int)

  // ---- recording ----

  function RecordMessage(l: Live, m: Message): Live {
    if m.id in Keys(l.messages, MessageId) then l else l.(messages := l.messages + [m])
  }

  predicate HasRankingEvent(h: seq<Ranking>, eventId: string) {
    exists i :: 0 <= i < |h| && h[i].eventId == eventId
  }

  function RecordRanking(l: Live, r: Ranking): Live {
    if r.eventId != "" && HasRankingEvent(l.rankingHistory, r.eventId) then l
    else l.(rankingHistory := l.rankingHistory + [r])
  }

  function RecordBehavior(l: Live, e: BehavioralEvent): Live {
    if e.id in Keys(l.behavioralEvents, BehaviorId) then l else l.(behavioralEvents := l.behavioralEvents + [e])
  }

  function RecordClassification(l: Live, c: Classification): Live {
    l.(classifications := Upsert(l.classifications, ClassifiedId, Newest, c))
  }

  function RecordFailure(l: Live, f: Failure): Live {
    l.(failures := Upsert(l.failures, FailedId, Newest, f))
  }

  function RecordWindowEvaluation(l: Live, e: WindowEvaluation): Live {
    l.(windowEvaluations := l.windowEvaluations + [e])
  }

  function RecordIntervention(l: Live, i: Intervention): Live {
    l.(interventions := l.interventions + [i])
  }

  function MarkProcessed(l: Live, eventId: string): Live {
    if eventId in l.processed then l else l.(processed := l.processed + [eventId])
  }

  function SetRuleState(l: Live, name: string, entry: RuleEntry): Live {
    l.(ruleState := l.ruleState[name := entry])
  }

  /** None when the boundary, or a later one, was claimed before. */
  function ClaimWindowBoundary(l: Live, windowEnd: int): Option<Live> {
    if windowEnd <= l.lastWindowBoundary then None else Some(l.(lastWindowBoundary := windowEnd))
  }

  function Bumped(l: Live): Live { l.(revision := l.revision + 1) }

  function Snapshot(l: Live): Checkpoint {
    Checkpoint(Some(l.revision), l.messages, l.rankingHistory, l.interventions, l.behavioralEvents, l.classifications,
               l.windowEvaluations, l.failures, l.processed, l.redacted, l.reactionEvents, l.ruleState)
  }

  function LastEnd(es: seq<WindowEvaluation>): (end: int)
    ensures end >= 0 && forall i :: 0 <= i < |es| ==> es[i].windowEnd <= end
    ensures end == 0 || exists i :: 0 <= i < |es| && es[i].windowEnd == end
  {
    if es == [] then 0
    else
      var before := LastEnd(es[..|es| - 1]);
      if es[|es| - 1].windowEnd > before then es[|es| - 1].windowEnd else before
  }

  function Restored(c: Checkpoint): Live {
    Live(c.messages, c.rankingHistory, c.interventions, c.behavioralEvents, c.classifications, c.windowEvaluations,
         c.failures, Joined([], c.processed), c.redacted, c.reactionEvents, c.ruleState,
         if c.revision.Some? && c.revision.value > 0 then c.revision.value else 0,
         LastEnd(c.windowEvaluations))
  }

  // ---- what every runtime keeps ----

  ghost predicate DistinctRankingEvents(h: seq<Ranking>) {
    forall i, j :: 0 <= i < j < |h| && h[i].eventId != "" ==> h[i].eventId != h[j].eventId
  }

  /** Each event id is recorded at most once, each record id exactly once. */
  ghost predicate WellFormed(l: Live) {
    && Distinct(Keys(l.messages, MessageId))
    && DistinctRankingEvents(l.rankingHistory)
    && Distinct(Keys(l.behavioralEvents, BehaviorId))
    && Distinct(Keys(l.interventions, InterventionId))
    && Distinct(Keys(l.windowEvaluations, EvaluationId))
    && Distinct(l.processed)
  }

  /** The ways the bot rules change a runtime. */
  datatype Change =
    | Classified(classification: Classification)
    | NotClassified(failure: Failure)
    | Intervened(intervention: Intervention)
    | Evaluated(evaluation: WindowEvaluation)
    | RuleStateSet(name: string, entry: RuleEntry)

  function Applied(l: Live, change: Change): Live {
    match change
    case Classified(c) => RecordClassification(l, c)
    case NotClassified(f) => RecordFailure(l, f)
    case Intervened(i) => RecordIntervention(l, i)
    case Evaluated(e) => RecordWindowEvaluation(l, e)
    case RuleStateSet(name, entry) => SetRuleState(l, name, entry)
  }

  /** Pushed records carry fresh random ids. */
  predicate FreshChange(l: Live, change: Change) {
    && (change.Intervened? ==> change.intervention.id !in Keys(l.interventions, InterventionId))
    && (change.Evaluated? ==> change.evaluation.id !in Keys(l.windowEvaluations, EvaluationId))
  }

  lemma KeysPush<T, K>(s: seq<T>, key: T -> K, x: T)
    ensures Keys(s + [x], key) == Keys(s, key) + [key(x)]
  {}

  /** newer may be snapshotted after older: the lineage relation on live states. */
  ghost predicate GrowsTo(older: Live, newer: Live) {
    && Grows(Snapshot(older), Snapshot(newer))
    && older.revision <= newer.revision
    && older.lastWindowBoundary <= newer.lastWindowBoundary
  }

  lemma GrowsReflexive(l: Live)
    requires WellFormed(l)
    ensures GrowsTo(l, l)
  {}

  lemma GrowsTransitive(a: Checkpoint, b: Checkpoint, c: Checkpoint)
    requires Grows(a, b) && Grows(b, c)
    ensures Grows(a, c)
  {}

  lemma ChangeGrows(l: Live, change: Change)
    requires WellFormed(l) && FreshChange(l, change)
    ensures WellFormed(Applied(l, change)) && GrowsTo(l, Applied(l, change))
  {
    match change
    case Classified(c) => UpsertKeys(l.classifications, ClassifiedId, Newest, c);
    case NotClassified(f) => UpsertKeys(l.failures, FailedId, Newest, f);
    case Intervened(i) => KeysPush(l.interventions, InterventionId, i);
    case Evaluated(e) => KeysPush(l.windowEvaluations, EvaluationId, e);
    case RuleStateSet(_, _) =>
  }

  lemma RecordMessageGrows(l: Live, m: Message)
    requires WellFormed(l)
    ensures WellFormed(RecordMessage(l, m)) && GrowsTo(l, RecordMessage(l, m))
  {
    KeysPush(l.messages, MessageId, m);
  }

  lemma RecordRankingGrows(l: Live, r: Ranking)
    requires WellFormed(l)
    ensures WellFormed(RecordRanking(l, r)) && GrowsTo(l, RecordRanking(l, r))
  {}

  lemma RecordBehaviorGrows(l: Live, e: BehavioralEvent)
    requires WellFormed(l)
    ensures WellFormed(RecordBehavior(l, e)) && GrowsTo(l, RecordBehavior(l, e))
  {
    KeysPush(l.behavioralEvents, BehaviorId, e);
  }

  lemma MarkProcessedGrows(l: Live, eventId: string)
    requires WellFormed(l)
    ensures WellFormed(MarkProcessed(l, eventId)) && GrowsTo(l, MarkProcessed(l, eventId))
  {}

  lemma BumpGrows(l: Live)
    requires WellFormed(l)
    ensures WellFormed(Bumped(l)) && GrowsTo(l, Bumped(l))
  {}

  /** The live runtime object of the Chat Service. */
  class SessionRuntime {
    var messages: seq<Message>
    var rankingHistory: seq<Ranking>
    var interventions: seq<Intervention>
    var behavioralEvents: seq<BehavioralEvent>
    var contributionClassifications: seq<Classification>
    var windowEvaluations: seq<WindowEvaluation>
    var classificationFailures: seq<Failure>
    var ruleState: map<string, RuleEntry>
    var byId: map<string, Message>
    var legacyReactionEvents: seq<RecordedReaction>
    var legacyRedactedReactionEventIds: seq<string>
    var processedEventIds: seq<string>
    var checkpointRevision: int
    var lastWindowBoundaryMs: int

    function View(): Live
      reads this
    {
      Live(messages, rankingHistory, interventions, behavioralEvents, contributionClassifications, windowEvaluations,
           classificationFailures, processedEventIds, legacyRedactedReactionEventIds, legacyReactionEvents, ruleState,
           checkpointRevision, lastWindowBoundaryMs)
    }

    /** The index knows exactly the recorded message ids. */
    ghost predicate Valid()
      reads this
    {
      forall id :: id in byId <==> id in Keys(messages, MessageId)
    }

    constructor (checkpoint: Option<Checkpoint>)
      ensures Valid()
      ensures View() == if checkpoint.Some? then Restored(checkpoint.value)
                        else Live([], [], [], [], [], [], [], [], [], [], map[], 0, 0)
    {
      messages, rankingHistory, interventions, behavioralEvents := [], [], [], [];
      contributionClassifications, windowEvaluations, classificationFailures := [], [], [];
      ruleState, byId, legacyReactionEvents, legacyRedactedReactionEventIds := map[], map[], [], [];
      processedEventIds, checkpointRevision, lastWindowBoundaryMs := [], 0, 0;
      new;
      if checkpoint.Some? { Restore(checkpoint.value); }
    }

    method Restore(checkpoint: Checkpoint)
      requires legacyReactionEvents == [] && legacyRedactedReactionEventIds == [] && messages == [] && rankingHistory == []
      requires interventions == [] && behavioralEvents == [] && contributionClassifications == []
      requires windowEvaluations == [] && classificationFailures == [] && processedEventIds == []
      requires ruleState == map[] && byId == map[] && lastWindowBoundaryMs == 0
      modifies this
      ensures Valid() && View() == Restored(checkpoint)
    {
      checkpointRevision := if checkpoint.revision.Some? && checkpoint.revision.value > 0 then checkpoint.revision.value else 0;
      RestoreRecords(checkpoint);
      IndexMessages();
      RestoreBoundary();
      RestoreProcessed(checkpoint.processed);
      RestoreRuleState(checkpoint.ruleState);
    }

    method RestoreRuleState(state: map<string, RuleEntry>)
      requires ruleState == map[]
      modifies `ruleState
      ensures ruleState == state
    {
      ruleState := ruleState + state;
    }

    method RestoreRecords(checkpoint: Checkpoint)
      requires legacyReactionEvents == [] && legacyRedactedReactionEventIds == [] && messages == [] && rankingHistory == []
      requires interventions == [] && behavioralEvents == [] && contributionClassifications == []
      requires windowEvaluations == [] && classificationFailures == []
      modifies `legacyReactionEvents, `legacyRedactedReactionEventIds, `messages, `rankingHistory, `interventions,
        `behavioralEvents, `contributionClassifications, `windowEvaluations, `classificationFailures
      ensures legacyReactionEvents == checkpoint.reactionEvents && legacyRedactedReactionEventIds == checkpoint.redacted
      ensures messages == checkpoint.messages && rankingHistory == checkpoint.rankingHistory
      ensures interventions == checkpoint.interventions && behavioralEvents == checkpoint.behavioralEvents
      ensures contributionClassifications == checkpoint.classifications
      ensures windowEvaluations == checkpoint.windowEvaluations && classificationFailures == checkpoint.failures
    {
      legacyReactionEvents := legacyReactionEvents + checkpoint.reactionEvents;
      legacyRedactedReactionEventIds := legacyRedactedReactionEventIds + checkpoint.redacted;
      messages := messages + checkpoint.messages;
      rankingHistory := rankingHistory + checkpoint.rankingHistory;
      interventions := interventions + checkpoint.interventions;
      behavioralEvents := behavioralEvents + checkpoint.behavioralEvents;
      contributionClassifications := contributionClassifications + checkpoint.classifications;
      windowEvaluations := windowEvaluations + checkpoint.windowEvaluations;
      classificationFailures := classificationFailures + checkpoint.failures;
    }

    method IndexMessages()
      requires byId == map[]
      modifies `byId
      ensures Valid()
    {
      for i := 0 to |messages|
        invariant forall id :: id in byId <==> id in Keys(messages[..i], MessageId)
      {
        KeysPush(messages[..i], MessageId, messages[i]);
        assert messages[..i + 1] == messages[..i] + [messages[i]];
        byId := byId[messages[i].id := messages[i]];
      }
      assert messages[..|messages|] == messages;
    }

    method RestoreBoundary()
      requires lastWindowBoundaryMs == 0
      modifies `lastWindowBoundaryMs
      ensures lastWindowBoundaryMs == LastEnd(windowEvaluations)
    {
      for i := 0 to |windowEvaluations|
        invariant lastWindowBoundaryMs == LastEnd(windowEvaluations[..i])
      {
        assert windowEvaluations[..i + 1][..i] == windowEvaluations[..i];
        if windowEvaluations[i].windowEnd > lastWindowBoundaryMs {
          lastWindowBoundaryMs := windowEvaluations[i].windowEnd;
        }
      }
      assert windowEvaluations[..|windowEvaluations|] == windowEvaluations;
    }

    method RestoreProcessed(ids: seq<string>)
      requires processedEventIds == []
      modifies `processedEventIds
      ensures processedEventIds == Joined([], ids)
    {
      for i := 0 to |ids|
        invariant processedEventIds == Joined([], ids[..i])
      {
        assert ids[..i + 1][..i] == ids[..i];
        DoMarkProcessed(ids[i]);
      }
      assert ids[..|ids|] == ids;
    }

    method DoRecordMessage(message: Message)
      requires Valid()
      modifies `messages, `byId
      ensures Valid() && View() == RecordMessage(old(View()), message)
    {
      if message.id in byId { return; }
      KeysPush(messages, MessageId, message);
      messages := messages + [message];
      byId := byId[message.id := message];
    }

    method DoRecordRanking(ranking: Ranking)
      modifies `rankingHistory
      ensures View() == RecordRanking(old(View()), ranking)
    {
      if ranking.eventId != "" && HasRankingEvent(rankingHistory, ranking.eventId) { return; }
      rankingHistory := rankingHistory + [ranking];
    }

    method DoRecordBehavior(event: BehavioralEvent)
      modifies `behavioralEvents
      ensures View() == RecordBehavior(old(View()), event)
    {
      if event.id in Keys(behavioralEvents, BehaviorId) { return; }
      behavioralEvents := behavioralEvents + [event];
    }

    method DoRecordClassification(classification: Classification)
      modifies `contributionClassifications
      ensures View() == RecordClassification(old(View()), classification)
    {
      var index := Find(contributionClassifications, ClassifiedId, classification.messageId);
      if index < |contributionClassifications| {
        contributionClassifications := contributionClassifications[index := classification];
      } else {
        contributionClassifications := contributionClassifications + [classification];
      }
    }

    method DoRecordFailure(failure: Failure)
      modifies `classificationFailures
      ensures View() == RecordFailure(old(View()), failure)
    {
      var index := Find(classificationFailures, FailedId, failure.messageId);
      if index < |classificationFailures| {
        classificationFailures := classificationFailures[index := failure];
      } else {
        classificationFailures := classificationFailures + [failure];
      }
    }

    method DoRecordWindowEvaluation(evaluation: WindowEvaluation)
      modifies `windowEvaluations
      ensures View() == RecordWindowEvaluation(old(View()), evaluation)
    {
      windowEvaluations := windowEvaluations + [evaluation];
    }

    method DoRecordIntervention(intervention: Intervention)
      modifies `interventions
      ensures View() == RecordIntervention(old(View()), intervention)
    {
      interventions := interventions + [intervention];
    }

    method DoMarkProcessed(eventId: string)
      modifies `processedEventIds
      ensures View() == MarkProcessed(old(View()), eventId)
    {
      if eventId !in processedEventIds { processedEventIds := processedEventIds + [eventId]; }
    }

    method DoClaimWindowBoundary(windowEndMs: int) returns (claimed: bool)
      modifies `lastWindowBoundaryMs
      ensures claimed == ClaimWindowBoundary(old(View()), windowEndMs).Some?
      ensures View() == if claimed then ClaimWindowBoundary(old(View()), windowEndMs).value else old(View())
    {
      if windowEndMs <= lastWindowBoundaryMs { return false; }
      lastWindowBoundaryMs := windowEndMs;
      return true;
    }

    method TakeCheckpoint() returns (checkpoint: Checkpoint)
      modifies `checkpointRevision
      ensures View() == Bumped(old(View())) && checkpoint == Snapshot(View())
    {
      checkpointRevision := checkpointRevision + 1;
      checkpoint := Checkpoint(Some(checkpointRevision), messages, rankingHistory, interventions, behavioralEvents,
                               contributionClassifications, windowEvaluations, classificationFailures, processedEventIds,
                               legacyRedactedReactionEventIds, legacyReactionEvents, ruleState);
    }
  }
}
