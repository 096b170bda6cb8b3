/**
 * Recording timeline events into a runtime
 * (handleEvent and its record methods in backend/chat-service/src/sessions/sessions.service.ts).
 */
module EventRecording {
  import opened Options
  import opened KeyedLists
  import opened WindowEvaluations
  import opened Records
  import opened CheckpointMerge
  import opened MergeLaws
  import opened Convergence
  import opened SessionRuntimes

  datatype Payload =
    | Text(text: string, recipient: Option<string>)
    | RankingEdit(ranking: Ranking)
    | Behavior(kind: BehaviorKind, detail: string)
    | Other

  /** service: sent by the bot or another service account. */
  datatype TimelineEvent = TimelineEvent(eventId: string, sender: string, service: bool, ts: int, payload: Payload)

  function EventKey(e: TimelineEvent): string { e.eventId }

  const MOVE := "ranking-move:"

  function MessageOf(e: TimelineEvent): Message
    requires e.payload.Text?
  {
    Message(e.eventId, e.ts, e.sender, if e.service then e.payload.recipient else None, e.payload.text, [])
  }

  function RankingOf(e: TimelineEvent): Ranking
    requires e.payload.RankingEdit?
  {
    e.payload.ranking.(eventId := e.eventId)
  }

  function MoveOf(e: TimelineEvent): BehavioralEvent
    requires e.payload.RankingEdit? && e.payload.ranking.movement.Some?
  {
    var m := e.payload.ranking.movement.value;
    BehavioralEvent(MOVE + e.eventId, RankingMove, e.sender, e.ts, m.itemId)
  }

  function BehaviorOf(e: TimelineEvent): BehavioralEvent
    requires e.payload.Behavior?
  {
    BehavioralEvent(e.eventId, e.payload.kind, e.sender, e.ts, e.payload.detail)
  }

  /** The record switch of handleEvent for an event not processed before. */
  function RecordEvent(l: Live, e: TimelineEvent, etherpad: bool): Live {
    match e.payload
    case Text(_, _) => RecordMessage(l, MessageOf(e))
    case RankingEdit(r) =>
      if etherpad then l
      else
        var ranked := RecordRanking(l, RankingOf(e));
        if r.movement.Some? then RecordBehavior(ranked, MoveOf(e)) else ranked
    case Behavior(kind, _) => if kind.RankingMove? then l else RecordBehavior(l, BehaviorOf(e))
    case Other => l
  }

  /** Service accounts only leave messages; everything else they send is ignored. */
  predicate Handled(e: TimelineEvent) { !e.service || e.payload.Text? }

  function HandleEvent(l: Live, e: TimelineEvent, etherpad: bool): Live {
    if !Handled(e) || e.eventId in l.processed then l
    else RecordEvent(MarkProcessed(l, e.eventId), e, etherpad)
  }

  function HandleAll(l: Live, es: seq<TimelineEvent>, etherpad: bool): Live {
    if es == [] then l else HandleEvent(HandleAll(l, es[..|es| - 1], etherpad), es[|es| - 1], etherpad)
  }

  /** The records e calls for are in l. */
  ghost predicate Recorded(l: Live, e: TimelineEvent, etherpad: bool) {
    match e.payload
    case Text(_, _) => MessageOf(e) in l.messages
    case RankingEdit(r) => etherpad || (RankingOf(e) in l.rankingHistory && (r.movement.Some? ==> MoveOf(e) in l.behavioralEvents))
    case Behavior(kind, _) => kind.RankingMove? || BehaviorOf(e) in l.behavioralEvents
    case Other => true
  }

  /** Homeserver event ids start with a dollar sign; an id always names the same event. */
  predicate MatrixId(id: string) { id != "" && id[0] == '$' }

  ghost predicate Feed(feed: map<string, TimelineEvent>) {
    forall id :: id in feed ==> MatrixId(id) && feed[id].eventId == id
  }

  ghost predicate FromFeed(feed: map<string, TimelineEvent>, e: TimelineEvent) {
    e.eventId in feed && feed[e.eventId] == e
  }

  /** Everything processed is recorded, and everything recorded was processed. */
  ghost predicate Faithful(l: Live, feed: map<string, TimelineEvent>, etherpad: bool) {
    && (forall id :: id in l.processed && id in feed ==> Recorded(l, feed[id], etherpad))
    && (forall id :: id in l.processed ==> MatrixId(id))
    && (forall m :: m in l.messages ==> m.id in l.processed)
    && (forall r :: r in l.rankingHistory ==> r.eventId in l.processed)
    && (forall b :: b in l.behavioralEvents ==> BehaviorSource(b) in l.processed && (b.kind.RankingMove? ==> MOVE <= b.id))
  }

  function BehaviorSource(b: BehavioralEvent): string {
    if b.kind.RankingMove? && |MOVE| <= |b.id| then b.id[|MOVE|..] else b.id
  }

  lemma MemberKey<T>(s: seq<T>, key: T -> string, k: string)
    requires k in Keys(s, key)
    ensures exists x :: x in s && key(x) == k
  {
    var i :| 0 <= i < |s| && Keys(s, key)[i] == k;
    assert s[i] in s;
  }

  /** A runtime's records never disappear. */
  lemma RecordedStays(l: Live, newer: Live, e: TimelineEvent, etherpad: bool)
    requires Recorded(l, e, etherpad) && GrowsTo(l, newer)
    ensures Recorded(newer, e, etherpad)
  {}

  lemma RecordEventGrows(l: Live, e: TimelineEvent, etherpad: bool)
    requires WellFormed(l)
    ensures WellFormed(RecordEvent(l, e, etherpad)) && GrowsTo(l, RecordEvent(l, e, etherpad))
    ensures RecordEvent(l, e, etherpad).processed == l.processed
  {
    match e.payload
    case Text(_, _) => RecordMessageGrows(l, MessageOf(e));
    case RankingEdit(r) =>
      RecordRankingGrows(l, RankingOf(e));
      if r.movement.Some? {
        RecordBehaviorGrows(RecordRanking(l, RankingOf(e)), MoveOf(e));
        if !etherpad {
          GrowsTransitive(Snapshot(l), Snapshot(RecordRanking(l, RankingOf(e))), Snapshot(RecordEvent(l, e, etherpad)));
        }
      }
    case Behavior(kind, _) => RecordBehaviorGrows(l, BehaviorOf(e));
    case Other =>
  }

  lemma HandleEventGrows(l: Live, e: TimelineEvent, etherpad: bool)
    requires WellFormed(l)
    ensures WellFormed(HandleEvent(l, e, etherpad)) && GrowsTo(l, HandleEvent(l, e, etherpad))
    ensures Handled(e) ==> e.eventId in HandleEvent(l, e, etherpad).processed
  {
    GrowsReflexive(l);
    if Handled(e) && e.eventId !in l.processed {
      var marked := MarkProcessed(l, e.eventId);
      MarkProcessedGrows(l, e.eventId);
      RecordEventGrows(marked, e, etherpad);
      GrowsTransitive(Snapshot(l), Snapshot(marked), Snapshot(HandleEvent(l, e, etherpad)));
    }
  }

  /** An event the runtime has not processed leaves exactly the records it calls for. */
  lemma FirstHandlingRecords(l: Live, e: TimelineEvent, feed: map<string, TimelineEvent>, etherpad: bool)
    requires WellFormed(l) && Faithful(l, feed, etherpad) && MatrixId(e.eventId)
    requires e.eventId !in l.processed
    ensures Recorded(RecordEvent(l, e, etherpad), e, etherpad)
  {
    match e.payload
    case Text(_, _) =>
      if e.eventId in Keys(l.messages, MessageId) { MemberKey(l.messages, MessageId, e.eventId); }
    case RankingEdit(r) =>
      assert !HasRankingEvent(l.rankingHistory, e.eventId);
      if r.movement.Some? && MOVE + e.eventId in Keys(l.behavioralEvents, BehaviorId) {
        MemberKey(l.behavioralEvents, BehaviorId, MOVE + e.eventId);
      }
    case Behavior(_, _) =>
      if e.eventId in Keys(l.behavioralEvents, BehaviorId) { MemberKey(l.behavioralEvents, BehaviorId, e.eventId); }
    case Other =>
  }

  lemma HandleEventFaithful(l: Live, e: TimelineEvent, feed: map<string, TimelineEvent>, etherpad: bool)
    requires WellFormed(l) && Faithful(l, feed, etherpad) && Feed(feed) && FromFeed(feed, e)
    ensures Faithful(HandleEvent(l, e, etherpad), feed, etherpad)
  {
    if Handled(e) && e.eventId !in l.processed {
      var after := HandleEvent(l, e, etherpad);
      HandleEventGrows(l, e, etherpad);
      FirstHandlingRecords(l, e, feed, etherpad);
      RecordsSameProcessed(l, e, etherpad);
      forall id | id in after.processed && id in feed ensures Recorded(after, feed[id], etherpad) {
        if id != e.eventId { RecordedStays(l, after, feed[id], etherpad); }
      }
      RecordsOnlyOwn(l, e, etherpad);
    }
  }

  /** Recording reads no processed ids, so marking first or last gives the same records. */
  lemma RecordsSameProcessed(l: Live, e: TimelineEvent, etherpad: bool)
    requires e.eventId !in l.processed
    ensures RecordEvent(MarkProcessed(l, e.eventId), e, etherpad)
         == RecordEvent(l, e, etherpad).(processed := l.processed + [e.eventId])
  {}

  lemma RecordsOnlyOwn(l: Live, e: TimelineEvent, etherpad: bool)
    ensures var after := RecordEvent(l, e, etherpad);
            && (forall m :: m in after.messages ==> m in l.messages || m.id == e.eventId)
            && (forall r :: r in after.rankingHistory ==> r in l.rankingHistory || r.eventId == e.eventId)
            && (forall b :: b in after.behavioralEvents ==>
                  b in l.behavioralEvents || (BehaviorSource(b) == e.eventId && (b.kind.RankingMove? ==> MOVE <= b.id)))
  {
    if e.payload.RankingEdit? && e.payload.ranking.movement.Some? {
      assert (MOVE + e.eventId)[|MOVE|..] == e.eventId;
    }
  }

  /**
   * Exactly once: however history, buffered and live deliveries overlap, every
   * handed-over event is recorded, and no event or record id occurs twice.
   */
  lemma {:induction false} ExactlyOnce(l: Live, es: seq<TimelineEvent>, feed: map<string, TimelineEvent>, etherpad: bool)
    requires WellFormed(l) && Faithful(l, feed, etherpad) && Feed(feed)
    requires forall e :: e in es ==> FromFeed(feed, e)
    ensures var after := HandleAll(l, es, etherpad);
            && WellFormed(after) && GrowsTo(l, after) && Faithful(after, feed, etherpad)
            && forall e :: e in es && Handled(e) ==> e.eventId in after.processed && Recorded(after, e, etherpad)
  {
    if es == [] {
      GrowsReflexive(l);
    } else {
      var init, last := es[..|es| - 1], es[|es| - 1];
      ExactlyOnce(l, init, feed, etherpad);
      var before, after := HandleAll(l, init, etherpad), HandleAll(l, es, etherpad);
      HandleEventGrows(before, last, etherpad);
      HandleEventFaithful(before, last, feed, etherpad);
      GrowsTransitive(Snapshot(l), Snapshot(before), Snapshot(after));
      forall e | e in es && Handled(e) ensures e.eventId in after.processed && Recorded(after, e, etherpad) {
        assert e == last || e in init;
        if e in init { assert before.processed <= after.processed; }
      }
    }
  }

  /** Changes by the rules touch neither the recorded events nor the processed ids. */
  lemma ChangeFaithful(l: Live, change: Change, feed: map<string, TimelineEvent>, etherpad: bool)
    requires Faithful(l, feed, etherpad)
    ensures Faithful(Applied(l, change), feed, etherpad)
  {
    var after := Applied(l, change);
    assert after.messages == l.messages && after.rankingHistory == l.rankingHistory
        && after.behavioralEvents == l.behavioralEvents && after.processed == l.processed;
    forall id | id in after.processed && id in feed ensures Recorded(after, feed[id], etherpad) {
      assert Recorded(l, feed[id], etherpad);
    }
  }
}
