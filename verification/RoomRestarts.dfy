/**
 * A room over several lives of the Chat Service: each one takes over the session
 * the previous one left stored.
 */
module RoomRestarts {
  import opened Options
  import opened KeyedLists
  import opened WindowEvaluations
  import opened Records
  import opened CheckpointMerge
  import opened MergeLaws
  import opened Convergence
  import opened StoredSnapshots
  import opened SessionRuntimes
  import opened EventRecording
  import opened ChatRoom
  import opened ChatRoomSafety

  // ---- what a run leaves stored can be taken over ----

  lemma HeldWellFormed(base: Stored, feed: map<string, TimelineEvent>, c: Checkpoint, t: Stored)
    requires SoundSnapshot(base, feed, c) && HoldsRecords(t, c)
    ensures WellFormed(Restart(t))
  {
    ActivePrefix(c.messages, c.messages, ToSet(t.redacted));
    DedupeKeepsTheBest(c.windowEvaluations);
    DistinctPart(t.windowEvaluations, c.windowEvaluations);
    JoinedDistinct([], t.processed);
  }

  lemma HeldRecorded(l: Live, c: Checkpoint, t: Stored, e: TimelineEvent)
    requires HoldsRecords(t, c) && Recorded(Restored(c), e, t.etherpad) && l == Restart(t)
    ensures Recorded(l, e, t.etherpad)
  {
    if e.payload.Text? { MessageStays(c.messages, MessageOf(e), ToSet(t.redacted)); }
  }

  lemma HeldFaithful(base: Stored, feed: map<string, TimelineEvent>, c: Checkpoint, t: Stored)
    requires SoundSnapshot(base, feed, c) && HoldsRecords(t, c) && t.etherpad == base.etherpad
    ensures Faithful(Restart(t), feed, t.etherpad)
  {
    var l, m := Restored(c), Restart(t);
    JoinedFresh(c.processed);
    forall id | id in m.processed && id in feed ensures Recorded(m, feed[id], t.etherpad) {
      HeldRecorded(m, c, t, feed[id]);
    }
    forall x | x in m.messages ensures x.id in m.processed {
      var i :| 0 <= i < |m.messages| && m.messages[i] == x;
      assert l.messages[i] in l.messages;
    }
  }

  /** The store is untouched, or holds the records of the newest snapshot it applied. */
  lemma {:induction false} StoreHoldsNewest(w: World, steps: seq<Step>, last: World)
    requires Init(w) && Run(w, steps, last)
    ensures Within(last.schedule, |last.sent|)
    ensures last.schedule == [] ==> last.stored == last.base
    ensures last.schedule != [] ==> HoldsRecords(last.stored, last.sent[Latest(last.schedule)])
  {
    InitSafe(w);
    RunSafe(w, steps, last);
    Converges(last.base, last.sent, last.schedule);
    if last.schedule != [] {
      var c := last.sent[Latest(last.schedule)];
      SoundContinues(last.base, last.feed, c);
      SnapshotHeld(last.base, c);
    }
  }

  lemma {:induction false} SameStart(w: World, steps: seq<Step>, last: World)
    requires Inv(w) && Run(w, steps, last)
    ensures last.base == w.base && last.feed == w.feed
    decreases |steps|
  {
    if steps != [] {
      StepSafe(w, steps[0]);
      StageForward(w, steps[0]);
      SameStart(Next(w, steps[0]), steps[1..], last);
    }
  }

  lemma NewestIsGood(w: World)
    requires Inv(w) && Feed(w.feed) && w.schedule != []
    ensures var c := w.sent[Latest(w.schedule)];
            && SoundSnapshot(w.base, w.feed, c) && Continues(w.base, c)
            && w.stored == Merge(w.base, c) && c.revision.value >= w.base.revision >= 0
  {
    Converges(w.base, w.sent, w.schedule);
    SoundContinues(w.base, w.feed, w.sent[Latest(w.schedule)]);
  }

  /** Whatever a run leaves stored is sound to start from again, and keyed if it was. */
  lemma {:induction false} StoredIsGood(w: World, steps: seq<Step>, last: World)
    requires Init(w) && Run(w, steps, last)
    ensures GoodBase(last.stored, w.feed)
    ensures KeyedStored(w.base) ==> KeyedStored(last.stored)
  {
    InitSafe(w);
    RunSafe(w, steps, last);
    SameStart(w, steps, last);
    StoreHoldsNewest(w, steps, last);
    if last.schedule != [] {
      var c := last.sent[Latest(last.schedule)];
      NewestIsGood(last);
      HeldWellFormed(last.base, last.feed, c, last.stored);
      HeldFaithful(last.base, last.feed, c, last.stored);
      MergeKeyed(last.base, c);
    }
  }

  /** What a sound stored session says it processed is stored with its content. */
  lemma ProcessedIsStored(t: Stored, feed: map<string, TimelineEvent>, id: string)
    requires GoodBase(t, feed) && id in t.processed && id in feed
    ensures StoredRecord(t, feed[id])
  {
    JoinedMembers([], t.processed);
    assert Recorded(Restart(t), feed[id], t.etherpad);
  }

  lemma HeldProcessed(base: Stored, c: Checkpoint, t: Stored, id: string)
    requires Continues(base, c) && HoldsRecords(t, c) && id in base.processed
    ensures id in t.processed
  {
    JoinedMembers([], base.processed);
  }

  /** A run forgets nothing that was stored as processed. */
  lemma {:induction false} ProcessedStays(w: World, steps: seq<Step>, last: World, id: string)
    requires Init(w) && Run(w, steps, last) && id in w.base.processed
    ensures id in last.stored.processed
  {
    InitSafe(w);
    RunSafe(w, steps, last);
    SameStart(w, steps, last);
    StoreHoldsNewest(w, steps, last);
    if last.schedule != [] {
      NewestIsGood(last);
      HeldProcessed(last.base, last.sent[Latest(last.schedule)], last.stored, id);
    }
  }

  // ---- several lives ----

  datatype Life = Life(steps: seq<Step>, last: World)

  /** One life after the other, each started from what the one before left stored. */
  ghost predicate Lived(base: Stored, feed: map<string, TimelineEvent>, lives: seq<Life>, stored: Stored)
    decreases |lives|
  {
    if lives == [] then stored == base
    else
      && Run(Begin(base, feed), lives[0].steps, lives[0].last)
      && Lived(lives[0].last.stored, feed, lives[1..], stored)
  }

  /** Over any number of restarts the stored session stays sound to start from, and forgets no event it had. */
  lemma {:induction false} RestartsKeep(base: Stored, feed: map<string, TimelineEvent>, lives: seq<Life>, stored: Stored)
    requires GoodBase(base, feed) && Lived(base, feed, lives, stored)
    ensures GoodBase(stored, feed) && (KeyedStored(base) ==> KeyedStored(stored))
    ensures forall id :: id in base.processed ==> id in stored.processed
    ensures forall id :: id in stored.processed && id in feed ==> StoredRecord(stored, feed[id])
    decreases |lives|
  {
    if lives != [] {
      var w, life := Begin(base, feed), lives[0];
      StoredIsGood(w, life.steps, life.last);
      forall id | id in base.processed ensures id in life.last.stored.processed {
        ProcessedStays(w, life.steps, life.last, id);
      }
      RestartsKeep(life.last.stored, feed, lives[1..], stored);
    } else {
      forall id | id in stored.processed && id in feed ensures StoredRecord(stored, feed[id]) {
        ProcessedIsStored(stored, feed, id);
      }
    }
  }

  /** An event is known at the end: handed over in the last life, replayed history included, or stored before it. */
  ghost predicate Known(e: TimelineEvent, before: Stored, done: World) {
    e in done.handed || e.eventId in before.processed
  }

  /**
   * End to end over restarts, from a fresh session: once the finalize of the
   * last life succeeded, every event of the room that this life was handed or
   * found in the replayed history, and every event stored before any restart, is
   * stored with its content, and no write of that life can change it any more.
   */
  lemma {:induction false} FinalizedAcrossRestarts(
      etherpad: bool, initial: Ranking, feed: map<string, TimelineEvent>, lives: seq<Life>, before: Stored,
      steps: seq<Step>, done: World, more: seq<Step>, later: World)
    requires Feed(feed) && Lived(Fresh(etherpad, initial), feed, lives, before)
    requires Run(Begin(before, feed), steps, done) && done.control.stage.Retired? && Run(done, more, later)
    ensures forall e :: FromFeed(feed, e) && Handled(e) && Known(e, before, done) ==> StoredRecord(later.stored, e)
    ensures later.stored == done.stored && FinalStored(done) && KeyedStored(later.stored)
  {
    FreshIsGood(etherpad, initial, feed);
    RestartsKeep(Fresh(etherpad, initial), feed, lives, before);
    var w := Begin(before, feed);
    FinalizedForGood(w, steps, done, more, later);
    StoredIsGood(w, steps, done);
    forall e | FromFeed(feed, e) && Handled(e) && Known(e, before, done) ensures StoredRecord(later.stored, e) {
      if e.eventId in before.processed {
        ProcessedStays(w, steps, done, e.eventId);
        ProcessedIsStored(done.stored, feed, e.eventId);
      }
    }
  }

  // ---- the judgements ----

  lemma EventJudgments(l: Live, e: TimelineEvent, etherpad: bool)
    ensures var n := HandleEvent(l, e, etherpad);
            && n.classifications == l.classifications && n.failures == l.failures
            && n.redacted == l.redacted && n.reactionEvents == l.reactionEvents
  {}

  lemma {:induction false} EventsJudgments(l: Live, es: seq<TimelineEvent>, etherpad: bool)
    ensures var n := HandleAll(l, es, etherpad);
            && n.classifications == l.classifications && n.failures == l.failures
            && n.redacted == l.redacted && n.reactionEvents == l.reactionEvents
  {
    if es != [] {
      EventsJudgments(l, es[..|es| - 1], etherpad);
      EventJudgments(HandleAll(l, es[..|es| - 1], etherpad), es[|es| - 1], etherpad);
    }
  }

  lemma ChangeJudgments(base: Stored, l: Live, change: Change)
    requires ContinuesJudgments(base, Snapshot(l))
    ensures ContinuesJudgments(base, Snapshot(Applied(l, change)))
  {
    match change
    case Classified(c) => UpsertKeys(l.classifications, ClassifiedId, Newest, c);
    case NotClassified(f) => UpsertKeys(l.failures, FailedId, Newest, f);
    case _ =>
  }

  lemma InstallJudgments(w: World, history: seq<TimelineEvent>)
    requires ControlOk(w.control, |w.sent|) && Enabled(w, Install(history)) && KeyedStored(w.base)
    ensures ContinuesJudgments(w.base, Snapshot(Next(w, Install(history)).live))
  {
    var es := AppendUnique([], EventKey, history + w.pending);
    ReplayRecords(Room(w.control.(stage := Running), Restart(w.base)), es, w.base.etherpad);
    EventsJudgments(Restart(w.base), es, w.base.etherpad);
  }

  lemma LiveJudgments(w: World, step: Step)
    requires Enabled(w, step) && !step.Install? && ContinuesJudgments(w.base, Snapshot(w.live))
    ensures ContinuesJudgments(w.base, Snapshot(Next(w, step).live))
  {
    match step
    case Deliver(e) => EventJudgments(w.live, e, w.base.etherpad);
    case RuleRecords(change) => ChangeJudgments(w.base, w.live, change);
    case WindowRecords(change) => ChangeJudgments(w.base, w.live, change);
    case _ =>
  }

  /** The live judgements, and those of every snapshot, are keyed and continue the stored ones. */
  ghost predicate JudgmentsOk(w: World) {
    && ContinuesJudgments(w.base, Snapshot(w.live))
    && forall i :: 0 <= i < |w.sent| ==> ContinuesJudgments(w.base, w.sent[i])
  }

  lemma JudgmentsStay(w: World, step: Step)
    requires ControlOk(w.control, |w.sent|) && KeyedStored(w.base) && JudgmentsOk(w) && Enabled(w, step)
    requires Next(w, step).base == w.base
    ensures JudgmentsOk(Next(w, step))
  {
    if step.Install? { InstallJudgments(w, step.history); } else { LiveJudgments(w, step); }
    SendsOne(w, step);
    var n := Next(w, step);
    forall i | 0 <= i < |n.sent| ensures ContinuesJudgments(w.base, n.sent[i]) {
      if i < |w.sent| { assert n.sent[i] == w.sent[i]; } else { assert n.sent[i] == Snapshot(n.live); }
    }
  }

  lemma {:induction false} JudgmentsRun(w: World, steps: seq<Step>, last: World)
    requires Inv(w) && KeyedStored(w.base) && JudgmentsOk(w) && Run(w, steps, last)
    ensures JudgmentsOk(last)
    decreases |steps|
  {
    if steps != [] {
      StepSafe(w, steps[0]);
      StageForward(w, steps[0]);
      JudgmentsStay(w, steps[0]);
      JudgmentsRun(Next(w, steps[0]), steps[1..], last);
    }
  }

  lemma BeginJudgments(base: Stored, feed: map<string, TimelineEvent>)
    requires KeyedStored(base)
    ensures JudgmentsOk(Begin(base, feed))
  {}

  lemma NewestJudgments(w: World)
    requires Inv(w) && Feed(w.feed) && w.schedule != [] && JudgmentsOk(w)
    ensures HoldsJudgments(w.stored, w.sent[Latest(w.schedule)])
  {
    NewestIsGood(w);
    JudgmentsHeld(w.base, w.sent[Latest(w.schedule)]);
  }

  /** In every run from a keyed session the judgements, too, are those of the newest applied snapshot. */
  lemma {:induction false} StoreHoldsJudgments(w: World, steps: seq<Step>, last: World)
    requires Init(w) && KeyedStored(w.base) && Run(w, steps, last)
    ensures Within(last.schedule, |last.sent|)
    ensures last.schedule != [] ==> HoldsJudgments(last.stored, last.sent[Latest(last.schedule)])
  {
    InitSafe(w);
    RunSafe(w, steps, last);
    SameStart(w, steps, last);
    BeginJudgments(w.base, w.feed);
    JudgmentsRun(w, steps, last);
    if last.schedule != [] { NewestJudgments(last); }
  }
}
