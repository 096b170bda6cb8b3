/** The records a session checkpoint carries (packages/shared/src/models.ts). */
module Records {
  import opened Options
  import opened WindowEvaluations

  /** A timestamp text and what Date.parse makes of it (None: not a finite number). */
  datatype Time = Time(text: string, ms: Option<int>)

  /** An empty eventId stands for an absent one: the code only tests its truth value. */
  datatype Reaction = Reaction(eventId: string, key: string, senderId: string, timestamp: string)

  datatype RecordedReaction = RecordedReaction(
    eventId: string, messageId: string, key: string, senderId: string, timestamp: string,
    redacted: bool, redactionEventId: Option<string>, redactedAt: Option<string>)

  datatype Message = Message(
    id: string, at: int, senderId: string, recipientId: Option<string>, text: string, reactions: seq<Reaction>)

  datatype Movement = Movement(itemId: string, from: int, to: int)

  datatype Ranking = Ranking(
    eventId: string, taskId: string, order: seq<string>, updatedAt: Time, updatedBy: string, movement: Option<Movement>)

  datatype Intervention = Intervention(id: string, audience: string, target: string, message: string)

  datatype BehaviorKind = TypingStart | TypingStop | TabHidden | TabVisible | CursorActivity | RankingMove

  datatype BehavioralEvent = BehavioralEvent(
    id: string, kind: BehaviorKind, participantId: string, at: int, payload: string)

  datatype Classification = Classification(
    messageId: string, senderId: string, invites: bool, meaningfulness: real, rawOutput: string)

  datatype Failure = Failure(messageId: string, senderId: string, error: string)

  /** The one rule-state entry: when the last nudge was sent. */
  datatype RuleEntry = RuleEntry(lastInterventionAt: Option<int>)

  /** A full snapshot. A list the sender left out is the empty list. */
  datatype Checkpoint = Checkpoint(
    revision: Option<int>,
    messages: seq<Message>,
    rankingHistory: seq<Ranking>,
    interventions: seq<Intervention>,
    behavioralEvents: seq<BehavioralEvent>,
    classifications: seq<Classification>,
    windowEvaluations: seq<WindowEvaluation>,
    failures: seq<Failure>,
    processed: seq<string>,
    redacted: seq<string>,
    reactionEvents: seq<RecordedReaction>,
    ruleState: map<string, RuleEntry>)

  /** The research state of a stored session. */
  datatype Stored = Stored(
    etherpad: bool,
    revision: int,
    messages: seq<Message>,
    rankingHistory: seq<Ranking>,
    ranking: Ranking,
    interventions: seq<Intervention>,
    behavioralEvents: seq<BehavioralEvent>,
    classifications: seq<Classification>,
    windowEvaluations: seq<WindowEvaluation>,
    failures: seq<Failure>,
    processed: seq<string>,
    redacted: seq<string>,
    reactionEvents: seq<RecordedReaction>,
    ruleState: map<string, RuleEntry>)

  function MessageId(m: Message): string { m.id }
  function InterventionId(i: Intervention): string { i.id }
  function BehaviorId(e: BehavioralEvent): string { e.id }
  function ClassifiedId(c: Classification): string { c.messageId }
  function FailedId(f: Failure): string { f.messageId }
  function ReactionEventId(r: RecordedReaction): string { r.eventId }
}

/**
 * The monotonic checkpoint merge (backend/session-manager/src/store/checkpoint-merge.ts):
 * functions for what each loop computes, the loops themselves, and the session
 * object whose fields the merge assigns.
 */
module CheckpointMerge {
  import opened Options
  import opened KeyedLists
  import opened WindowEvaluations
  import opened Records

  predicate AcceptsCheckpointState(incoming: Option<int>, stored: int) {
    incoming.None? || incoming.value >= stored
  }

  function CheckpointFromSession(s: Stored): Checkpoint {
    Checkpoint(Some(s.revision), s.messages, s.rankingHistory, s.interventions, s.behavioralEvents,
               s.classifications, s.windowEvaluations, s.failures, s.processed, s.redacted,
               s.reactionEvents, s.ruleState)
  }

  // ---- identities ----

  function DigitText(n: nat): string {
    if n < 10 then [('0' as int + n) as char] else DigitText(n / 10) + DigitText(n % 10)
  }

  function NumberText(n: int): string { if n < 0 then "-" + DigitText(-n) else DigitText(n) }

  function Join(parts: seq<string>, separator: string): string {
    if parts == [] then "" else if |parts| == 1 then parts[0]
    else parts[0] + separator + Join(parts[1..], separator)
  }

  const NUL := "\U{0000}"
  const SOH := "\U{0001}"

  function RankingKey(r: Ranking): string {
    if r.eventId != "" then "event:" + r.eventId
    else
      var movement := match r.movement
        case None => ""
        case Some(m) => m.itemId + ":" + NumberText(m.from) + ":" + NumberText(m.to);
      Join([r.taskId, r.updatedAt.text, r.updatedBy, Join(r.order, SOH), movement], NUL)
  }

  function ReactionIdentity(messageId: string, r: Reaction): string {
    if r.eventId != "" then "event:" + r.eventId else Join([messageId, r.key, r.senderId], NUL)
  }

  function ReactionKeyOf(messageId: string): Reaction -> string {
    (r: Reaction) => ReactionIdentity(messageId, r)
  }

  // ---- messages and their reactions ----

  predicate IsRedacted(r: Reaction, redacted: set<string>) { r.eventId != "" && r.eventId in redacted }

  function KeepActive(rs: seq<Reaction>, redacted: set<string>): seq<Reaction> {
    if rs == [] then []
    else
      var init := KeepActive(rs[..|rs| - 1], redacted);
      if IsRedacted(rs[|rs| - 1], redacted) then init else init + [rs[|rs| - 1]]
  }

  function ActiveMessage(m: Message, redacted: set<string>): Message {
    m.(reactions := KeepActive(m.reactions, redacted))
  }

  function ActiveMessages(ms: seq<Message>, redacted: set<string>): (r: seq<Message>)
    ensures |r| == |ms| && forall i :: 0 <= i < |ms| ==> r[i] == ActiveMessage(ms[i], redacted)
  {
    seq(|ms|, i requires 0 <= i < |ms| => ActiveMessage(ms[i], redacted))
  }

  /** A known message keeps its content and gains the unseen, unredacted reactions. */
  function CombineMessages(redacted: set<string>): (Message, Message) -> Message {
    (current: Message, message: Message) =>
      current.(reactions := AppendUnique(KeepActive(current.reactions, redacted), ReactionKeyOf(current.id),
                                         KeepActive(message.reactions, redacted)))
  }

  function MergedMessages(existing: seq<Message>, incoming: seq<Message>, redacted: set<string>): seq<Message> {
    UpsertAll(PutAll([], MessageId, existing), MessageId, CombineMessages(redacted), ActiveMessages(incoming, redacted))
  }

  // ---- recorded reactions ----

  function Coalesce<T>(first: Option<T>, second: Option<T>): Option<T> {
    if first.Some? then first else second
  }

  /** The newer audit row wins, but a redaction is never taken back. */
  function CombineRecorded(current: RecordedReaction, reaction: RecordedReaction): RecordedReaction {
    reaction.(redacted := current.redacted || reaction.redacted,
              redactionEventId := Coalesce(reaction.redactionEventId, current.redactionEventId),
              redactedAt := Coalesce(reaction.redactedAt, current.redactedAt))
  }

  function MergedRecordedReactions(existing: seq<RecordedReaction>, incoming: seq<RecordedReaction>): seq<RecordedReaction> {
    UpsertAll(PutAll([], ReactionEventId, existing), ReactionEventId, CombineRecorded, incoming)
  }

  function RedactedIds(rs: seq<RecordedReaction>): seq<string> {
    if rs == [] then []
    else
      var init := RedactedIds(rs[..|rs| - 1]);
      if rs[|rs| - 1].redacted then init + [rs[|rs| - 1].eventId] else init
  }

  // ---- the whole merge ----

  function MergedByKey<T>(existing: seq<T>, incoming: seq<T>, key: T -> string): seq<T> {
    PutAll(PutAll([], key, existing), key, incoming)
  }

  function MergedValues<T>(existing: seq<T>, incoming: seq<T>, key: T -> string, replace: bool): seq<T> {
    if replace then MergedByKey(existing, incoming, key) else AppendUnique(existing, key, incoming)
  }

  function NewestRanking(first: Ranking, rest: seq<Ranking>): Ranking {
    if rest == [] then first
    else NewerRanking(NewestRanking(first, rest[..|rest| - 1]), rest[|rest| - 1])
  }

  function NewerRanking(latest: Ranking, candidate: Ranking): Ranking {
    if candidate.updatedAt.ms.None? then latest
    else if latest.updatedAt.ms.None? || candidate.updatedAt.ms.value >= latest.updatedAt.ms.value then candidate
    else latest
  }

  function NotRankingMoves(es: seq<BehavioralEvent>): seq<BehavioralEvent> {
    if es == [] then []
    else
      var init := NotRankingMoves(es[..|es| - 1]);
      if es[|es| - 1].kind.RankingMove? then init else init + [es[|es| - 1]]
  }

  function WithoutRanking(c: Checkpoint): Checkpoint {
    c.(rankingHistory := [], behavioralEvents := NotRankingMoves(c.behavioralEvents))
  }

  /** The checkpoint as the session's workspace lets it in. */
  function Admitted(s: Stored, c: Checkpoint): Checkpoint {
    if s.etherpad then WithoutRanking(c) else c
  }

  function MergedRedacted(s: Stored, c: Checkpoint): seq<string> {
    Joined([], s.redacted + c.redacted + RedactedIds(MergedRecordedReactions(s.reactionEvents, c.reactionEvents)))
  }

  function ToSet(ks: seq<string>): set<string> { set k | k in ks }

  /** The stored research state after one checkpoint. */
  function Merge(s: Stored, checkpoint: Checkpoint): Stored {
    MergeAdmitted(s, Admitted(s, checkpoint))
  }

  function MergeAdmitted(s: Stored, c: Checkpoint): Stored {
    var accepts := AcceptsCheckpointState(c.revision, s.revision);
    var redacted := MergedRedacted(s, c);
    Stored(
      s.etherpad,
      if accepts && c.revision.Some? then c.revision.value else s.revision,
      MergedMessages(s.messages, c.messages, ToSet(redacted)),
      AppendUnique(s.rankingHistory, RankingKey, c.rankingHistory),
      MergedRanking(s, c, accepts, s.rankingHistory != []),
      MergedByKey(s.interventions, c.interventions, InterventionId),
      MergedValues(s.behavioralEvents, c.behavioralEvents, BehaviorId, accepts),
      MergedValues(s.classifications, c.classifications, ClassifiedId, accepts),
      MergedWindows(s.windowEvaluations, c.windowEvaluations),
      MergedValues(s.failures, c.failures, FailedId, accepts),
      Joined([], s.processed + c.processed),
      redacted,
      MergedRecordedReactions(s.reactionEvents, c.reactionEvents),
      if accepts then s.ruleState + c.ruleState else s.ruleState)
  }

  // ---- the loops ----

  /** new Map(existing.map(v => [key(v), v])), as its list of values. */
  method MapOf<T(!new)>(existing: seq<T>, key: T -> string) returns (merged: seq<T>)
    ensures merged == PutAll([], key, existing)
  {
    merged := MergeOnto([], existing, key);
  }

  method MergeOnto<T(!new)>(base: seq<T>, incoming: seq<T>, key: T -> string) returns (merged: seq<T>)
    ensures merged == PutAll(base, key, incoming)
  {
    merged := base;
    for i := 0 to |incoming|
      invariant merged == PutAll(base, key, incoming[..i])
    {
      assert incoming[..i + 1][..i] == incoming[..i];
      var at := Find(merged, key, key(incoming[i]));
      merged := if at < |merged| then merged[at := incoming[i]] else merged + [incoming[i]];
    }
    assert incoming[..|incoming|] == incoming;
  }

  method MergeByKey<T(!new)>(existing: seq<T>, incoming: seq<T>, key: T -> string) returns (merged: seq<T>)
    ensures merged == MergedByKey(existing, incoming, key)
  {
    merged := MapOf(existing, key);
    merged := MergeOnto(merged, incoming, key);
  }

  method AppendUnseen<T>(existing: seq<T>, incoming: seq<T>, key: T -> string) returns (appended: seq<T>)
    ensures appended == AppendUnique(existing, key, incoming)
  {
    var seen := set k | k in Keys(existing, key);
    appended := existing;
    for i := 0 to |incoming|
      invariant appended == AppendUnique(existing, key, incoming[..i])
      invariant seen == set k | k in Keys(appended, key)
    {
      assert incoming[..i + 1][..i] == incoming[..i];
      var itemKey := key(incoming[i]);
      if itemKey !in seen {
        seen := seen + {itemKey};
        assert Keys(appended + [incoming[i]], key) == Keys(appended, key) + [itemKey];
        appended := appended + [incoming[i]];
      }
    }
    assert incoming[..|incoming|] == incoming;
  }

  method MergeCheckpointValues<T(!new)>(existing: seq<T>, incoming: seq<T>, key: T -> string, acceptsReplacement: bool)
    returns (merged: seq<T>)
    ensures merged == MergedValues(existing, incoming, key, acceptsReplacement)
  {
    if acceptsReplacement {
      merged := MergeByKey(existing, incoming, key);
    } else {
      merged := AppendUnseen(existing, incoming, key);
    }
  }

  method MergeRecordedReactions(existing: seq<RecordedReaction>, incoming: seq<RecordedReaction>)
    returns (merged: seq<RecordedReaction>)
    ensures merged == MergedRecordedReactions(existing, incoming)
  {
    merged := MapOf(existing, ReactionEventId);
    ghost var base := merged;
    for i := 0 to |incoming|
      invariant merged == UpsertAll(base, ReactionEventId, CombineRecorded, incoming[..i])
    {
      assert incoming[..i + 1][..i] == incoming[..i];
      var reaction := incoming[i];
      var at := Find(merged, ReactionEventId, reaction.eventId);
      if at == |merged| {
        merged := merged + [reaction];
      } else {
        merged := merged[at := CombineRecorded(merged[at], reaction)];
      }
    }
    assert incoming[..|incoming|] == incoming;
  }

  /** The reaction loop of one known message. */
  method AddReactions(messageId: string, kept: seq<Reaction>, incoming: seq<Reaction>, redacted: set<string>)
    returns (reactions: seq<Reaction>)
    ensures reactions == AppendUnique(kept, ReactionKeyOf(messageId), KeepActive(incoming, redacted))
  {
    var key := ReactionKeyOf(messageId);
    var seenReactions := set k | k in Keys(kept, key);
    reactions := kept;
    for j := 0 to |incoming|
      invariant reactions == AppendUnique(kept, key, KeepActive(incoming[..j], redacted))
      invariant seenReactions == set k | k in Keys(reactions, key)
    {
      assert incoming[..j + 1][..j] == incoming[..j];
      var reaction := incoming[j];
      if IsRedacted(reaction, redacted) { continue; }
      ghost var active := KeepActive(incoming[..j], redacted);
      assert (active + [reaction])[..|active|] == active;
      if key(reaction) in seenReactions { continue; }
      assert Keys(reactions + [reaction], key) == Keys(reactions, key) + [key(reaction)];
      seenReactions := seenReactions + {key(reaction)};
      reactions := reactions + [reaction];
    }
    assert incoming[..|incoming|] == incoming;
  }

  method MergeMessages(existing: seq<Message>, incoming: seq<Message>, redacted: set<string>)
    returns (merged: seq<Message>)
    ensures merged == MergedMessages(existing, incoming, redacted)
  {
    merged := MapOf(existing, MessageId);
    ghost var base := merged;
    ghost var all := ActiveMessages(incoming, redacted);
    for i := 0 to |incoming|
      invariant merged == UpsertAll(base, MessageId, CombineMessages(redacted), all[..i])
    {
      assert all[..i + 1][..i] == all[..i];
      var message := incoming[i];
      var at := Find(merged, MessageId, message.id);
      if at == |merged| {
        merged := merged + [message.(reactions := KeepActive(message.reactions, redacted))];
      } else {
        var current := merged[at];
        var reactions := AddReactions(message.id, KeepActive(current.reactions, redacted), message.reactions, redacted);
        ActiveTwice(message.reactions, redacted);
        merged := merged[at := current.(reactions := reactions)];
      }
    }
    assert all[..|all|] == all;
  }

  lemma {:induction false} ActiveTwice(rs: seq<Reaction>, redacted: set<string>)
    ensures KeepActive(KeepActive(rs, redacted), redacted) == KeepActive(rs, redacted)
    ensures forall r :: r in KeepActive(rs, redacted) ==> r in rs && !IsRedacted(r, redacted)
  {
    if rs != [] {
      var init := KeepActive(rs[..|rs| - 1], redacted);
      ActiveTwice(rs[..|rs| - 1], redacted);
      assert (init + [rs[|rs| - 1]])[..|init|] == init;
    }
  }

  /** The stored session object: the merge assigns its fields in place. */
  class Session {
    const etherpad: bool
    var checkpointRevision: int
    var messages: seq<Message>
    var rankingHistory: seq<Ranking>
    var ranking: Ranking
    var interventions: seq<Intervention>
    var behavioralEvents: seq<BehavioralEvent>
    var contributionClassifications: seq<Classification>
    var windowEvaluations: seq<WindowEvaluation>
    var classificationFailures: seq<Failure>
    var processedEventIds: seq<string>
    var redactedReactionEventIds: seq<string>
    var reactionEvents: seq<RecordedReaction>
    var runtimeState: map<string, RuleEntry>

    function View(): Stored
      reads this
    {
      Stored(etherpad, checkpointRevision, messages, rankingHistory, ranking, interventions, behavioralEvents,
             contributionClassifications, windowEvaluations, classificationFailures, processedEventIds,
             redactedReactionEventIds, reactionEvents, runtimeState)
    }

    /** A freshly formed session: nothing recorded yet, only a starting order. */
    constructor (etherpad: bool, initial: Ranking)
      ensures View() == Fresh(etherpad, initial)
    {
      this.etherpad := etherpad;
      checkpointRevision, ranking := 0, initial;
      messages, rankingHistory, interventions, behavioralEvents := [], [], [], [];
      contributionClassifications, windowEvaluations, classificationFailures := [], [], [];
      processedEventIds, redactedReactionEventIds, reactionEvents, runtimeState := [], [], [], map[];
    }

    method MergeCheckpointIntoSession(request: Checkpoint)
      modifies this
      ensures View() == Merge(old(View()), request)
    {
      var checkpoint := if etherpad then WithoutRanking(request) else request;
      assert checkpoint == Admitted(View(), request);
      MergeAdmittedCheckpoint(checkpoint);
    }

    method MergeAdmittedCheckpoint(checkpoint: Checkpoint)
      modifies this
      ensures View() == MergeAdmitted(old(View()), checkpoint)
    {
      var acceptsMutableState := AcceptsCheckpointState(checkpoint.revision, checkpointRevision);
      var hadRankingHistory := |rankingHistory| > 0;
      MergeChat(checkpoint);
      MergeAppendOnly(checkpoint);
      MergeWindows(checkpoint);
      MergeReplaceable(checkpoint, acceptsMutableState);
      MergeMutableState(checkpoint, acceptsMutableState, hadRankingHistory);
      MergeInSteps(old(View()), checkpoint);
    }

    method MergeChat(checkpoint: Checkpoint)
      modifies `reactionEvents, `redactedReactionEventIds, `messages
      ensures View() == ChatMerged(old(View()), checkpoint)
    {
      reactionEvents := MergeRecordedReactions(reactionEvents, checkpoint.reactionEvents);
      redactedReactionEventIds := Joined([], redactedReactionEventIds + checkpoint.redacted + RedactedIds(reactionEvents));
      messages := MergeMessages(messages, checkpoint.messages, ToSet(redactedReactionEventIds));
    }

    method MergeAppendOnly(checkpoint: Checkpoint)
      modifies `rankingHistory, `interventions, `processedEventIds
      ensures View() == AppendOnlyMerged(old(View()), checkpoint)
    {
      rankingHistory := AppendUnseen(rankingHistory, checkpoint.rankingHistory, RankingKey);
      interventions := MergeByKey(interventions, checkpoint.interventions, InterventionId);
      processedEventIds := Joined([], processedEventIds + checkpoint.processed);
    }

    method MergeWindows(checkpoint: Checkpoint)
      modifies `windowEvaluations
      ensures View() == WindowsMerged(old(View()), checkpoint)
    {
      var evaluations := MergeByKey(windowEvaluations, checkpoint.windowEvaluations, EvaluationId);
      windowEvaluations := DedupeWindowEvaluations(evaluations);
    }

    method MergeReplaceable(checkpoint: Checkpoint, acceptsMutableState: bool)
      modifies `behavioralEvents, `contributionClassifications, `classificationFailures
      ensures View() == ReplaceableMerged(old(View()), checkpoint, acceptsMutableState)
    {
      behavioralEvents := MergeCheckpointValues(behavioralEvents, checkpoint.behavioralEvents, BehaviorId, acceptsMutableState);
      contributionClassifications := MergeCheckpointValues(
        contributionClassifications, checkpoint.classifications, ClassifiedId, acceptsMutableState);
      classificationFailures := MergeCheckpointValues(classificationFailures, checkpoint.failures, FailedId, acceptsMutableState);
    }

    method MergeMutableState(checkpoint: Checkpoint, acceptsMutableState: bool, hadRankingHistory: bool)
      modifies `runtimeState, `checkpointRevision, `ranking
      ensures View() == MutableMerged(old(View()), checkpoint, acceptsMutableState, hadRankingHistory)
    {
      var incomingRevision := checkpoint.revision;
      if acceptsMutableState {
        runtimeState := runtimeState + checkpoint.ruleState;
        if incomingRevision.Some? { checkpointRevision := incomingRevision.value; }
      }
      if acceptsMutableState && |checkpoint.rankingHistory| > 0 {
        ranking := if incomingRevision.Some? || !hadRankingHistory
          then checkpoint.rankingHistory[|checkpoint.rankingHistory| - 1]
          else NewestRanking(ranking, checkpoint.rankingHistory);
      }
    }
  }

  // The groups of assignments in mergeCheckpointIntoSession, in its order.

  function ChatMerged(s: Stored, c: Checkpoint): Stored {
    s.(reactionEvents := MergedRecordedReactions(s.reactionEvents, c.reactionEvents),
       redacted := MergedRedacted(s, c),
       messages := MergedMessages(s.messages, c.messages, ToSet(MergedRedacted(s, c))))
  }

  function AppendOnlyMerged(s: Stored, c: Checkpoint): Stored {
    s.(rankingHistory := AppendUnique(s.rankingHistory, RankingKey, c.rankingHistory),
       interventions := MergedByKey(s.interventions, c.interventions, InterventionId),
       processed := Joined([], s.processed + c.processed))
  }

  function WindowsMerged(s: Stored, c: Checkpoint): Stored {
    s.(windowEvaluations := MergedWindows(s.windowEvaluations, c.windowEvaluations))
  }

  function ReplaceableMerged(s: Stored, c: Checkpoint, accepts: bool): Stored {
    s.(behavioralEvents := MergedValues(s.behavioralEvents, c.behavioralEvents, BehaviorId, accepts),
       classifications := MergedValues(s.classifications, c.classifications, ClassifiedId, accepts),
       failures := MergedValues(s.failures, c.failures, FailedId, accepts))
  }

  function MergedRanking(s: Stored, c: Checkpoint, accepts: bool, hadHistory: bool): Ranking {
    if !accepts || c.rankingHistory == [] then s.ranking
    else if c.revision.Some? || !hadHistory then c.rankingHistory[|c.rankingHistory| - 1]
    else NewestRanking(s.ranking, c.rankingHistory)
  }

  function MutableMerged(s: Stored, c: Checkpoint, accepts: bool, hadHistory: bool): Stored {
    s.(ruleState := if accepts then s.ruleState + c.ruleState else s.ruleState,
       revision := if accepts && c.revision.Some? then c.revision.value else s.revision,
       ranking := MergedRanking(s, c, accepts, hadHistory))
  }

  lemma MergeInSteps(s: Stored, c: Checkpoint)
    ensures (var accepts := AcceptsCheckpointState(c.revision, s.revision);
             MutableMerged(ReplaceableMerged(WindowsMerged(AppendOnlyMerged(ChatMerged(s, c), c), c), c, accepts),
                           c, accepts, s.rankingHistory != []))
         == MergeAdmitted(s, c)
  {}

  function Fresh(etherpad: bool, initial: Ranking): Stored {
    Stored(etherpad, 0, [], [], initial, [], [], [], [], [], [], [], [], map[])
  }
}
