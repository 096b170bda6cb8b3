/**
 * Any number of lives of the Chat Service over one stored session, one after the
 * other or at once: every write of any of them may be applied at any time after
 * its life started, late, repeated, overtaken or never, whatever its revision.
 */
module ManyLives {
  import opened Options
  import opened KeyedLists
  import opened WindowEvaluations
  import opened Records
  import opened CheckpointMerge
  import opened MergeLaws
  import opened Convergence
  import opened StoredSnapshots
  import opened SessionRuntimes
  import opened EventRecording
  import opened ChatRoom
  import opened ChatRoomSafety
  import opened RoomRestarts

  // ---- one record through a merge ----

  /** What one key holds after a list with distinct keys was stored. */
  lemma {:induction false} FoldOnce<T(!new)>(o: Option<T>, key: T -> string, combine: (T, T) -> T, xs: seq<T>, k: string)
    requires Distinct(Keys(xs, key))
    ensures Fold(o, key, combine, xs, k)
         == if k !in Keys(xs, key) then o
            else if o.None? then At(xs, key, k) else Some(combine(o.value, At(xs, key, k).value))
  {
    if xs != [] {
      var n := |xs| - 1;
      KeysLast(xs, key);
      FoldOnce(o, key, combine, xs[..n], k);
      if key(xs[n]) == k {
        FindDistinct(xs, key, n);
      } else if k in Keys(xs[..n], key) {
        AtLater(xs, key, k);
      }
    }
  }

  lemma AtLater<T(!new)>(xs: seq<T>, key: T -> string, k: string)
    requires xs != [] && Distinct(Keys(xs, key)) && k in Keys(xs[..|xs| - 1], key)
    ensures At(xs, key, k) == At(xs[..|xs| - 1], key, k)
  {
    var init := xs[..|xs| - 1];
    var i :| 0 <= i < |init| && Keys(init, key)[i] == k;
    KeysLast(xs, key);
    FindDistinct(init, key, i);
    FindDistinct(xs, key, i);
  }

  lemma AtMember<T(!new)>(xs: seq<T>, key: T -> string, x: T)
    requires x in xs && Distinct(Keys(xs, key))
    ensures At(xs, key, key(x)) == Some(x) && key(x) in Keys(xs, key)
  {
    var i :| 0 <= i < |xs| && xs[i] == x;
    FindDistinct(xs, key, i);
    KeyOfMember(xs, key, x);
  }

  lemma AtAbsent<T(!new)>(xs: seq<T>, key: T -> string, k: string)
    requires forall x :: x in xs ==> key(x) != k
    ensures At(xs, key, k) == None && k !in Keys(xs, key)
  {
    if k in Keys(xs, key) {
      MemberKey(xs, key, k);
    }
  }

  lemma InAt<T(!new)>(xs: seq<T>, key: T -> string, k: string, x: T)
    requires At(xs, key, k) == Some(x)
    ensures x in xs
  {}

  /** Nothing but x itself is stored under the key of x. */
  ghost predicate Only<T(!new)>(xs: seq<T>, key: T -> string, x: T) { forall y :: y in xs && key(y) == key(x) ==> y == x }

  lemma OnlyAt<T(!new)>(xs: seq<T>, key: T -> string, x: T)
    requires Distinct(Keys(xs, key)) && Only(xs, key, x)
    ensures At(xs, key, key(x)) == if x in xs then Some(x) else None
    ensures key(x) in Keys(xs, key) <==> x in xs
  {
    if x in xs { AtMember(xs, key, x); } else { AtAbsent(xs, key, key(x)); }
  }

  lemma ActiveOnly(ms: seq<Message>, m: Message, redacted: set<string>)
    requires Distinct(Keys(ms, MessageId)) && Only(ms, MessageId, m) && m.reactions == []
    ensures var active := ActiveMessages(ms, redacted);
            && Distinct(Keys(active, MessageId)) && Only(active, MessageId, m) && (m in active <==> m in ms)
  {
    var active := ActiveMessages(ms, redacted);
    assert Keys(active, MessageId) == Keys(ms, MessageId);
    forall y | y in active && y.id == m.id ensures y == m && m in ms {
      var i :| 0 <= i < |active| && active[i] == y;
      assert ms[i] in ms;
    }
    if m in ms { MessageStays(ms, m, redacted); }
  }

  lemma MessageMerged(s: seq<Message>, c: seq<Message>, redacted: set<string>, m: Message)
    requires Distinct(Keys(s, MessageId)) && Distinct(Keys(c, MessageId)) && m.reactions == []
    requires Only(s, MessageId, m) && Only(c, MessageId, m) && (m in s || m in c)
    ensures m in MergedMessages(s, c, redacted)
  {
    var active := ActiveMessages(c, redacted);
    CombineMessagesLawful(redacted);
    ActiveOnly(c, m, redacted);
    OnlyAt(s, MessageId, m);
    OnlyAt(active, MessageId, m);
    PutAllOverPrefix([], MessageId, s);
    UpsertAllAt(s, MessageId, CombineMessages(redacted), active, m.id);
    FoldOnce(At(s, MessageId, m.id), MessageId, CombineMessages(redacted), active, m.id);
    InAt(MergedMessages(s, c, redacted), MessageId, m.id, m);
  }

  lemma AppendedFrom<T(!new)>(s: seq<T>, key: T -> string, c: seq<T>)
    ensures forall x :: x in AppendUnique(s, key, c) ==> x in s || x in c
    ensures forall x :: x in s ==> x in AppendUnique(s, key, c)
  {
    AppendUniqueAdds(s, key, c);
    var r := AppendUnique(s, key, c);
    forall x | x in r ensures x in s || x in c {
      var i :| 0 <= i < |r| && r[i] == x;
      if i < |s| { assert s[i] == x; }
    }
    forall x | x in s ensures x in r {
      var i :| 0 <= i < |s| && s[i] == x;
      assert r[i] == x;
    }
  }

  lemma AppendedOnly<T(!new)>(s: seq<T>, key: T -> string, c: seq<T>, x: T)
    requires Only(s, key, x) && Only(c, key, x) && (x in s || x in c)
    ensures x in AppendUnique(s, key, c)
  {
    var r := AppendUnique(s, key, c);
    AppendedFrom(s, key, c);
    if x !in s {
      AppendUniqueSeen(s, key, c);
      MemberKey(r, key, key(x));
      var y :| y in r && key(y) == key(x);
    }
  }

  lemma ReplacedOnly<T(!new)>(s: seq<T>, key: T -> string, c: seq<T>, x: T)
    requires Distinct(Keys(s, key)) && Distinct(Keys(c, key))
    requires Only(s, key, x) && Only(c, key, x) && (x in s || x in c)
    ensures x in MergedByKey(s, c, key)
  {
    PutAllOverPrefix([], key, s);
    OnlyAt(s, key, x);
    OnlyAt(c, key, x);
    UpsertAllAt(s, key, Newest, c, key(x));
    FoldOnce(At(s, key, key(x)), key, Newest, c, key(x));
    InAt(MergedByKey(s, c, key), key, key(x), x);
  }

  lemma {:induction false} PutFrom<T(!new)>(s: seq<T>, key: T -> string, c: seq<T>)
    ensures forall x :: x in PutAll(s, key, c) ==> x in s || x in c
  {
    if c != [] {
      PutFrom(s, key, c[..|c| - 1]);
      assert c == c[..|c| - 1] + [c[|c| - 1]];
    }
  }

  lemma ValuesFrom<T(!new)>(s: seq<T>, c: seq<T>, key: T -> string, replace: bool)
    ensures forall x :: x in MergedValues(s, c, key, replace) ==> x in s || x in c
  {
    PutFrom([], key, s);
    PutFrom(PutAll([], key, s), key, c);
    AppendedFrom(s, key, c);
  }

  lemma ValuesKeyed<T(!new)>(s: seq<T>, c: seq<T>, key: T -> string, replace: bool)
    requires Distinct(Keys(s, key))
    ensures Distinct(Keys(MergedValues(s, c, key, replace), key))
  {
    ByKeyKeyed(s, c, key);
    AppendUniqueAdds(s, key, c);
    JoinedDistinct(Keys(s, key), Keys(c, key));
  }

  // ---- a sound snapshot onto a sound session ----

  /** A snapshot of some life of the room: well-formed, faithful to the room's events, with a revision. */
  ghost predicate SoundIn(feed: map<string, TimelineEvent>, etherpad: bool, c: Checkpoint) {
    c.revision.Some? && WellFormed(Restored(c)) && Faithful(Restored(c), feed, etherpad)
  }

  /** The room's own records are the only ones under their ids. */
  lemma OwnMessages(l: Live, feed: map<string, TimelineEvent>, etherpad: bool, e: TimelineEvent)
    requires WellFormed(l) && Faithful(l, feed, etherpad) && FromFeed(feed, e) && e.payload.Text?
    ensures Only(l.messages, MessageId, MessageOf(e))
  {
    forall m | m in l.messages && m.id == e.eventId ensures m == MessageOf(e) {
      AtMember(l.messages, MessageId, m);
      AtMember(l.messages, MessageId, MessageOf(e));
    }
  }

  lemma OwnRankings(l: Live, feed: map<string, TimelineEvent>, e: TimelineEvent)
    requires WellFormed(l) && Faithful(l, feed, false) && Feed(feed) && FromFeed(feed, e) && e.payload.RankingEdit?
    ensures forall r :: r in l.rankingHistory && r.eventId == e.eventId ==> r == RankingOf(e)
  {
    forall r | r in l.rankingHistory && r.eventId == e.eventId ensures r == RankingOf(e) {
      assert RankingOf(e) in l.rankingHistory;
      var i :| 0 <= i < |l.rankingHistory| && l.rankingHistory[i] == r;
      var j :| 0 <= j < |l.rankingHistory| && l.rankingHistory[j] == RankingOf(e);
      assert i == j;
    }
  }

  lemma OwnBehaviors(l: Live, feed: map<string, TimelineEvent>, etherpad: bool, e: TimelineEvent)
    requires WellFormed(l) && Faithful(l, feed, etherpad) && Feed(feed) && FromFeed(feed, e)
    requires e.payload.Behavior? && !e.payload.kind.RankingMove?
    ensures Only(l.behavioralEvents, BehaviorId, BehaviorOf(e))
  {
    forall b | b in l.behavioralEvents && b.id == e.eventId ensures b == BehaviorOf(e) {
      assert MatrixId(e.eventId) && MOVE[0] == 'r';
      assert !(MOVE <= b.id);
      assert BehaviorSource(b) == e.eventId;
      AtMember(l.behavioralEvents, BehaviorId, b);
      AtMember(l.behavioralEvents, BehaviorId, BehaviorOf(e));
    }
  }

  lemma OwnMoves(l: Live, feed: map<string, TimelineEvent>, e: TimelineEvent)
    requires WellFormed(l) && Faithful(l, feed, false) && Feed(feed) && FromFeed(feed, e)
    requires e.payload.RankingEdit? && e.payload.ranking.movement.Some?
    ensures Only(l.behavioralEvents, BehaviorId, MoveOf(e))
  {
    forall b | b in l.behavioralEvents && b.id == MOVE + e.eventId ensures b == MoveOf(e) {
      assert b.id[0] == MOVE[0] == 'r';
      assert b.id[|MOVE|..] == e.eventId;
      assert BehaviorSource(b) == e.eventId;
      AtMember(l.behavioralEvents, BehaviorId, b);
      AtMember(l.behavioralEvents, BehaviorId, MoveOf(e));
    }
  }

  lemma {:induction false} NotMovesKept(es: seq<BehavioralEvent>, b: BehavioralEvent)
    requires b in es && !b.kind.RankingMove?
    ensures b in NotRankingMoves(es)
  {
    if b in es[..|es| - 1] { NotMovesKept(es[..|es| - 1], b); }
  }

  /** The behaviour list a session lets in: part of the snapshot's, and all of it that an event calls for. */
  lemma AdmittedBehaviors(s: Stored, c: Checkpoint)
    requires Distinct(Keys(c.behavioralEvents, BehaviorId))
    ensures var a := Admitted(s, c).behavioralEvents;
            && Distinct(Keys(a, BehaviorId)) && (forall b :: b in a ==> b in c.behavioralEvents)
            && (forall b :: b in c.behavioralEvents && (!s.etherpad || !b.kind.RankingMove?) ==> b in a)
  {
    NotMovesKeyed(c.behavioralEvents);
    NotMovesPart(c.behavioralEvents);
    forall b | b in c.behavioralEvents && !b.kind.RankingMove? ensures b in NotRankingMoves(c.behavioralEvents) {
      NotMovesKept(c.behavioralEvents, b);
    }
  }

  ghost predicate Mergeable(s: Stored, feed: map<string, TimelineEvent>, c: Checkpoint) {
    GoodBase(s, feed) && SoundIn(feed, s.etherpad, c)
  }

  predicate InEither(s: Stored, c: Checkpoint, id: string) { id in s.processed || id in c.processed }

  lemma ProcessedEither(s: Stored, c: Checkpoint)
    ensures forall id :: id in Merge(s, c).processed <==> InEither(s, c, id)
    ensures forall id :: id in Restart(Merge(s, c)).processed <==> InEither(s, c, id)
    ensures Distinct(Restart(Merge(s, c)).processed)
    ensures forall id :: id in Restart(s).processed <==> id in s.processed
    ensures forall id :: id in Restored(c).processed <==> id in c.processed
  {
    JoinedMembers([], s.processed + c.processed);
    JoinedMembers([], Merge(s, c).processed);
    JoinedDistinct([], Merge(s, c).processed);
    JoinedMembers([], s.processed);
    JoinedMembers([], c.processed);
  }

  lemma TextMerged(s: Stored, feed: map<string, TimelineEvent>, c: Checkpoint, e: TimelineEvent)
    requires Mergeable(s, feed, c) && FromFeed(feed, e) && e.payload.Text? && InEither(s, c, e.eventId)
    ensures MessageOf(e) in Merge(s, c).messages
  {
    ProcessedEither(s, c);
    OwnMessages(Restart(s), feed, s.etherpad, e);
    OwnMessages(Restored(c), feed, s.etherpad, e);
    MessageMerged(s.messages, c.messages, ToSet(Merge(s, c).redacted), MessageOf(e));
  }

  lemma RankingMerged(s: Stored, feed: map<string, TimelineEvent>, c: Checkpoint, e: TimelineEvent)
    requires Mergeable(s, feed, c) && FromFeed(feed, e) && e.payload.RankingEdit? && InEither(s, c, e.eventId) && !s.etherpad
    ensures RankingOf(e) in Merge(s, c).rankingHistory
  {
    ProcessedEither(s, c);
    OwnRankings(Restart(s), feed, e);
    OwnRankings(Restored(c), feed, e);
    OnlyByEvent(s.rankingHistory, RankingOf(e));
    OnlyByEvent(c.rankingHistory, RankingOf(e));
    AppendedOnly(s.rankingHistory, RankingKey, c.rankingHistory, RankingOf(e));
  }

  lemma OnlyByEvent(h: seq<Ranking>, x: Ranking)
    requires x.eventId != "" && forall r :: r in h ==> r.eventId != "" && (r.eventId == x.eventId ==> r == x)
    ensures Only(h, RankingKey, x)
  {
    forall r | r in h && RankingKey(r) == RankingKey(x) ensures r == x {
      assert ("event:" + r.eventId)[|"event:"|..] == r.eventId;
      assert ("event:" + x.eventId)[|"event:"|..] == x.eventId;
    }
  }

  lemma MergedBehavior(s: Stored, c: Checkpoint, b: BehavioralEvent)
    requires Distinct(Keys(s.behavioralEvents, BehaviorId)) && Distinct(Keys(c.behavioralEvents, BehaviorId))
    requires Only(s.behavioralEvents, BehaviorId, b) && Only(c.behavioralEvents, BehaviorId, b)
    requires b in s.behavioralEvents || b in c.behavioralEvents
    requires !s.etherpad || !b.kind.RankingMove?
    ensures b in Merge(s, c).behavioralEvents
  {
    AdmittedBehaviors(s, c);
    var a := Admitted(s, c).behavioralEvents;
    if AcceptsCheckpointState(c.revision, s.revision) {
      ReplacedOnly(s.behavioralEvents, BehaviorId, a, b);
    } else {
      AppendedOnly(s.behavioralEvents, BehaviorId, a, b);
    }
  }

  lemma BehaviorMerged(s: Stored, feed: map<string, TimelineEvent>, c: Checkpoint, e: TimelineEvent)
    requires Mergeable(s, feed, c) && FromFeed(feed, e) && InEither(s, c, e.eventId)
    requires e.payload.Behavior? && !e.payload.kind.RankingMove?
    ensures BehaviorOf(e) in Merge(s, c).behavioralEvents
  {
    ProcessedEither(s, c);
    OwnBehaviors(Restart(s), feed, s.etherpad, e);
    OwnBehaviors(Restored(c), feed, s.etherpad, e);
    MergedBehavior(s, c, BehaviorOf(e));
  }

  lemma MoveMerged(s: Stored, feed: map<string, TimelineEvent>, c: Checkpoint, e: TimelineEvent)
    requires Mergeable(s, feed, c) && FromFeed(feed, e) && InEither(s, c, e.eventId) && !s.etherpad
    requires e.payload.RankingEdit? && e.payload.ranking.movement.Some?
    ensures MoveOf(e) in Merge(s, c).behavioralEvents
  {
    ProcessedEither(s, c);
    OwnMoves(Restart(s), feed, e);
    OwnMoves(Restored(c), feed, e);
    MergedBehavior(s, c, MoveOf(e));
  }

  /** Whatever its revision, a sound snapshot takes no event's records away, and brings those of its own. */
  lemma {:induction false} RecordsMerged(s: Stored, feed: map<string, TimelineEvent>, c: Checkpoint, e: TimelineEvent)
    requires Mergeable(s, feed, c) && FromFeed(feed, e) && InEither(s, c, e.eventId)
    ensures StoredRecord(Merge(s, c), e)
  {
    ProcessedEither(s, c);
    match e.payload
    case Text(_, _) => TextMerged(s, feed, c, e);
    case RankingEdit(r) =>
      if !s.etherpad {
        RankingMerged(s, feed, c, e);
        if r.movement.Some? { MoveMerged(s, feed, c, e); }
      }
    case Behavior(kind, _) => if !kind.RankingMove? { BehaviorMerged(s, feed, c, e); }
    case Other =>
  }

  // ---- and the session stays sound ----

  lemma RankingEventsMerged(s: seq<Ranking>, c: seq<Ranking>)
    requires DistinctRankingEvents(s) && forall r :: r in s || r in c ==> r.eventId != ""
    ensures DistinctRankingEvents(AppendUnique(s, RankingKey, c))
  {
    var r := AppendUnique(s, RankingKey, c);
    RankingKeysDistinct(s);
    AppendUniqueAdds(s, RankingKey, c);
    JoinedDistinct(Keys(s, RankingKey), Keys(c, RankingKey));
    AppendedFrom(s, RankingKey, c);
    forall i, j | 0 <= i < j < |r| ensures r[i].eventId != r[j].eventId {
      assert r[i] in r && r[j] in r;
      assert Keys(r, RankingKey)[i] != Keys(r, RankingKey)[j];
    }
  }

  lemma MergedHistory(s: Stored, feed: map<string, TimelineEvent>, c: Checkpoint)
    requires Mergeable(s, feed, c)
    ensures DistinctRankingEvents(Merge(s, c).rankingHistory)
    ensures forall r :: r in Merge(s, c).rankingHistory ==> r in s.rankingHistory || r in c.rankingHistory
  {
    var h := Admitted(s, c).rankingHistory;
    forall r | r in s.rankingHistory || r in h ensures r.eventId != "" {
      assert r in Restart(s).rankingHistory || r in Restored(c).rankingHistory;
    }
    RankingEventsMerged(s.rankingHistory, h);
    AppendedFrom(s.rankingHistory, RankingKey, h);
  }

  lemma MergedMessageKeys(s: Stored, c: Checkpoint)
    ensures Distinct(Keys(Merge(s, c).messages, MessageId))
    ensures forall m :: m in Merge(s, c).messages ==> m.id in Keys(s.messages, MessageId) || m.id in Keys(c.messages, MessageId)
  {
    var redacted := ToSet(Merge(s, c).redacted);
    var active := ActiveMessages(c.messages, redacted);
    var base := PutAll([], MessageId, s.messages);
    CombineMessagesLawful(redacted);
    UpsertAllDistinct([], MessageId, Newest, s.messages);
    UpsertAllDistinct(base, MessageId, CombineMessages(redacted), active);
    UpsertAllKeys([], MessageId, Newest, s.messages);
    UpsertAllKeys(base, MessageId, CombineMessages(redacted), active);
    JoinedMembers([], Keys(s.messages, MessageId));
    JoinedMembers(Keys(base, MessageId), Keys(active, MessageId));
    assert Keys(active, MessageId) == Keys(c.messages, MessageId);
    var ms := Merge(s, c).messages;
    forall m | m in ms ensures m.id in Keys(ms, MessageId) { KeyOfMember(ms, MessageId, m); }
  }

  lemma MergedWellFormed(s: Stored, feed: map<string, TimelineEvent>, c: Checkpoint)
    requires Mergeable(s, feed, c)
    ensures WellFormed(Restart(Merge(s, c)))
  {
    var a := Admitted(s, c);
    ProcessedEither(s, c);
    MergedMessageKeys(s, c);
    MergedHistory(s, feed, c);
    ByKeyKeyed(s.interventions, a.interventions, InterventionId);
    ValuesKeyed(s.behavioralEvents, a.behavioralEvents, BehaviorId, AcceptsCheckpointState(c.revision, s.revision));
    WindowsKeyed(s.windowEvaluations, a.windowEvaluations);
  }

  lemma MergedMessagesProcessed(s: Stored, feed: map<string, TimelineEvent>, c: Checkpoint, m: Message)
    requires Mergeable(s, feed, c) && m in Merge(s, c).messages
    ensures InEither(s, c, m.id)
  {
    ProcessedEither(s, c);
    MergedMessageKeys(s, c);
    if m.id in Keys(s.messages, MessageId) {
      MemberKey(s.messages, MessageId, m.id);
      var x :| x in Restart(s).messages && x.id == m.id;
    } else {
      MemberKey(c.messages, MessageId, m.id);
      var x :| x in Restored(c).messages && x.id == m.id;
    }
  }

  lemma MergedBehaviorsFrom(s: Stored, c: Checkpoint, b: BehavioralEvent)
    requires b in Merge(s, c).behavioralEvents
    ensures b in s.behavioralEvents || b in c.behavioralEvents
  {
    NotMovesPart(c.behavioralEvents);
    ValuesFrom(s.behavioralEvents, Admitted(s, c).behavioralEvents, BehaviorId, AcceptsCheckpointState(c.revision, s.revision));
  }

  lemma MergedFaithful(s: Stored, feed: map<string, TimelineEvent>, c: Checkpoint)
    requires Mergeable(s, feed, c)
    ensures Faithful(Restart(Merge(s, c)), feed, s.etherpad)
  {
    var t := Merge(s, c);
    var l := Restart(t);
    ProcessedEither(s, c);
    MergedHistory(s, feed, c);
    forall id | id in l.processed && id in feed ensures Recorded(l, feed[id], s.etherpad) {
      RecordsMerged(s, feed, c, feed[id]);
    }
    forall m | m in l.messages ensures m.id in l.processed { MergedMessagesProcessed(s, feed, c, m); }
    forall r | r in l.rankingHistory ensures r.eventId in l.processed {
      assert r in Restart(s).rankingHistory || r in Restored(c).rankingHistory;
    }
    forall b | b in l.behavioralEvents ensures BehaviorSource(b) in l.processed && (b.kind.RankingMove? ==> MOVE <= b.id) {
      MergedBehaviorsFrom(s, c, b);
      assert b in Restart(s).behavioralEvents || b in Restored(c).behavioralEvents;
    }
  }

  /** A sound session stays sound to start from under any sound snapshot. */
  lemma {:induction false} MergedGood(s: Stored, feed: map<string, TimelineEvent>, c: Checkpoint)
    requires Mergeable(s, feed, c)
    ensures GoodBase(Merge(s, c), feed) && Merge(s, c).etherpad == s.etherpad
  {
    MergedWellFormed(s, feed, c);
    MergedFaithful(s, feed, c);
  }

  // ---- the history of a stored session ----

  /** A write the store applied: snapshot number index of a life that was started from the state number from. */
  datatype Write = Write(from: nat, steps: seq<Step>, last: World, index: nat)

  /** Write k takes state k to state k + 1; its life may have started from any state up to k. */
  ghost predicate History(states: seq<Stored>, writes: seq<Write>, feed: map<string, TimelineEvent>) {
    && |states| == |writes| + 1
    && forall k :: 0 <= k < |writes| ==>
         && writes[k].from <= k && Run(Begin(states[writes[k].from], feed), writes[k].steps, writes[k].last)
         && writes[k].index < |writes[k].last.sent|
         && states[k + 1] == Merge(states[k], writes[k].last.sent[writes[k].index])
  }

  function Carried(write: Write): Checkpoint
    requires write.index < |write.last.sent|
  {
    write.last.sent[write.index]
  }

  lemma WriteIsSound(base: Stored, feed: map<string, TimelineEvent>, write: Write)
    requires GoodBase(base, feed) && Run(Begin(base, feed), write.steps, write.last) && write.index < |write.last.sent|
    ensures SoundIn(feed, base.etherpad, Carried(write))
    ensures forall e :: e in write.last.handed ==> FromFeed(feed, e)
  {
    var w := Begin(base, feed);
    InitSafe(w);
    RunSafe(w, write.steps, write.last);
    SameStart(w, write.steps, write.last);
    SentSound(write.last, write.index);
    forall e | e in write.last.handed ensures FromFeed(feed, e) {
      var i :| 0 <= i < |write.last.handed| && write.last.handed[i] == e;
    }
  }

  lemma SentSound(w: World, i: nat)
    requires SentOk(w) && GrownOk(w) && i < |w.sent|
    ensures SoundIn(w.feed, w.base.etherpad, w.sent[i])
  {}

  /** Every state of the history is sound to start from. */
  lemma {:induction false} HistoryGood(states: seq<Stored>, writes: seq<Write>, feed: map<string, TimelineEvent>, k: nat)
    requires History(states, writes, feed) && GoodBase(states[0], feed) && k < |states|
    ensures forall j :: 0 <= j <= k ==> GoodBase(states[j], feed) && states[j].etherpad == states[0].etherpad
    decreases k
  {
    if k > 0 {
      HistoryGood(states, writes, feed, k - 1);
      var write := writes[k - 1];
      WriteIsSound(states[write.from], feed, write);
      MergedGood(states[k - 1], feed, Carried(write));
    }
  }

  /** Known at state k: stored at an earlier state, or in the snapshot of an earlier write. */
  ghost predicate KnownAt(states: seq<Stored>, writes: seq<Write>, k: nat, id: string)
    requires |states| == |writes| + 1 && k < |states|
    requires forall j :: 0 <= j < |writes| ==> writes[j].index < |writes[j].last.sent|
  {
    || (exists j :: 0 <= j <= k && id in states[j].processed)
    || (exists j :: 0 <= j < k && id in Carried(writes[j]).processed)
  }

  lemma WriteAdds(states: seq<Stored>, writes: seq<Write>, feed: map<string, TimelineEvent>, k: nat, id: string)
    requires History(states, writes, feed) && k < |writes|
    requires id in states[k].processed || id in Carried(writes[k]).processed
    ensures id in states[k + 1].processed
  {
    ProcessedEither(states[k], Carried(writes[k]));
  }

  predicate Included(a: seq<string>, b: seq<string>) { forall x :: x in a ==> x in b }

  lemma {:induction false} Monotone(ps: seq<seq<string>>, j: nat, k: nat, id: string)
    requires forall i, n :: 0 <= i && n == i + 1 && n < |ps| ==> Included(ps[i], ps[n])
    requires j <= k < |ps| && id in ps[j]
    ensures id in ps[k]
    decreases k
  {
    if j < k {
      Monotone(ps, j, k - 1, id);
      assert Included(ps[k - 1], ps[k]);
    }
  }

  lemma StaysProcessed(states: seq<Stored>, writes: seq<Write>, feed: map<string, TimelineEvent>, j: nat, k: nat, id: string)
    requires History(states, writes, feed) && j <= k < |states| && id in states[j].processed
    ensures id in states[k].processed
  {
    var ps := seq(|states|, i requires 0 <= i < |states| => states[i].processed);
    forall i, n | 0 <= i && n == i + 1 && n < |ps| ensures Included(ps[i], ps[n]) {
      forall x | x in ps[i] ensures x in ps[n] { WriteAdds(states, writes, feed, i, x); }
    }
    Monotone(ps, j, k, id);
  }

  lemma KnownIsProcessed(states: seq<Stored>, writes: seq<Write>, feed: map<string, TimelineEvent>, k: nat, id: string)
    requires History(states, writes, feed) && k < |states| && KnownAt(states, writes, k, id)
    ensures id in states[k].processed
  {
    if i: nat :| i < k && id in Carried(writes[i]).processed {
      WriteAdds(states, writes, feed, i, id);
      StaysProcessed(states, writes, feed, i + 1, k, id);
    } else {
      var j: nat :| j <= k && id in states[j].processed;
      StaysProcessed(states, writes, feed, j, k, id);
    }
  }

  /**
   * Whatever lives there are and however their writes interleave: once an event
   * is in an applied snapshot, or was stored, its records are stored with their
   * content from then on.
   */
  lemma {:induction false} ContentIsNeverLost(states: seq<Stored>, writes: seq<Write>, feed: map<string, TimelineEvent>,
                                              k: nat, e: TimelineEvent)
    requires History(states, writes, feed) && GoodBase(states[0], feed) && k < |states|
    requires FromFeed(feed, e) && KnownAt(states, writes, k, e.eventId)
    ensures StoredRecord(states[k], e) && GoodBase(states[k], feed)
  {
    HistoryGood(states, writes, feed, k);
    KnownIsProcessed(states, writes, feed, k, e.eventId);
    ProcessedIsStored(states[k], feed, e.eventId);
  }

  lemma FinalCarriesHanded(w: World, e: TimelineEvent)
    requires SavingOk(w) && HandedOk(w) && w.control.stage.Retired? && e in w.handed && Handled(e)
    ensures FromFeed(w.feed, e) && w.sent != [] && e.eventId in w.sent[|w.sent| - 1].processed
  {
    HandedKept(w);
    var i :| 0 <= i < |w.handed| && w.handed[i] == e;
    assert Contents(w.sent[|w.sent| - 1]) == Content(w.live);
    assert Kept(w, e);
  }

  lemma FinalCarries(w: World, e: TimelineEvent)
    requires Inv(w) && w.control.stage.Retired? && e in w.handed && Handled(e)
    ensures FromFeed(w.feed, e) && w.sent != [] && e.eventId in w.sent[|w.sent| - 1].processed
  {
    InvParts(w);
    FinalCarriesHanded(w, e);
  }

  lemma FinalWrite(base: Stored, feed: map<string, TimelineEvent>, steps: seq<Step>, last: World, e: TimelineEvent)
    requires GoodBase(base, feed) && Run(Begin(base, feed), steps, last)
    requires last.control.stage.Retired? && e in last.handed && Handled(e)
    ensures FromFeed(feed, e) && last.sent != [] && e.eventId in last.sent[|last.sent| - 1].processed
  {
    BegunSafe(base, feed, steps, last);
    FinalCarries(last, e);
  }

  lemma BegunSafe(base: Stored, feed: map<string, TimelineEvent>, steps: seq<Step>, last: World)
    requires GoodBase(base, feed) && Run(Begin(base, feed), steps, last)
    ensures Inv(last) && last.feed == feed
  {
    InitSafe(Begin(base, feed));
    RunSafe(Begin(base, feed), steps, last);
    SameStart(Begin(base, feed), steps, last);
  }

  lemma InvParts(w: World)
    requires Inv(w)
    ensures SavingOk(w) && HandedOk(w) && SentOk(w) && GrownOk(w)
  {}

  lemma FinalKnown(states: seq<Stored>, writes: seq<Write>, feed: map<string, TimelineEvent>, j: nat, e: TimelineEvent)
    requires History(states, writes, feed) && GoodBase(states[0], feed) && j < |writes|
    requires writes[j].last.control.stage.Retired? && writes[j].index == |writes[j].last.sent| - 1
    requires e in writes[j].last.handed && Handled(e)
    ensures FromFeed(feed, e) && e.eventId in Carried(writes[j]).processed
  {
    HistoryGood(states, writes, feed, writes[j].from);
    FinalWrite(states[writes[j].from], feed, writes[j].steps, writes[j].last, e);
  }

  /**
   * The final write of a life whose finalize succeeded: from the state it leaves
   * on, every event handed to that life is stored with its content, whatever late
   * writes of other lives follow.
   */
  lemma {:induction false} FinalWriteLasts(states: seq<Stored>, writes: seq<Write>, feed: map<string, TimelineEvent>,
                                           j: nat, k: nat, e: TimelineEvent)
    requires History(states, writes, feed) && GoodBase(states[0], feed) && j < k < |states|
    requires writes[j].last.control.stage.Retired? && writes[j].index == |writes[j].last.sent| - 1
    requires e in writes[j].last.handed && Handled(e)
    ensures StoredRecord(states[k], e)
  {
    FinalKnown(states, writes, feed, j, e);
    ContentIsNeverLost(states, writes, feed, k, e);
  }

  /**
   * What a late write can still change: with a revision below the stored one
   * nothing but added records. Otherwise it is taken as the newer one, revision
   * and rule state included.
   */
  lemma {:induction false} LateWrite(states: seq<Stored>, writes: seq<Write>, feed: map<string, TimelineEvent>, k: nat)
    requires History(states, writes, feed) && GoodBase(states[0], feed) && k < |writes|
    ensures var s, t, c := states[k], states[k + 1], Carried(writes[k]);
            && c.revision.Some?
            && (c.revision.value < s.revision ==>
                  && t.revision == s.revision && t.ranking == s.ranking && t.ruleState == s.ruleState
                  && s.rankingHistory <= t.rankingHistory
                  && OnlyUnseenAdded(s.behavioralEvents, t.behavioralEvents, BehaviorId)
                  && OnlyUnseenAdded(s.classifications, t.classifications, ClassifiedId)
                  && OnlyUnseenAdded(s.failures, t.failures, FailedId))
            && (c.revision.value >= s.revision ==> t.revision == c.revision.value && t.ruleState == s.ruleState + c.ruleState)
  {
    HistoryGood(states, writes, feed, k);
    WriteIsSound(states[writes[k].from], feed, writes[k]);
    var c := Carried(writes[k]);
    if c.revision.value < states[k].revision { StaleOnlyAdds(states[k], c); }
  }
}
