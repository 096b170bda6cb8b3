/**
 * One room of the Chat Service as a step machine: recording, rule work,
 * debounced checkpoints, finalization and the unreliable link to the Session
 * Manager (backend/chat-service/src/sessions/sessions.service.ts).
 */
module ChatRoom {
  import opened Options
  import opened KeyedLists
  import opened WindowEvaluations
  import opened Records
  import opened CheckpointMerge
  import opened Convergence
  import opened SessionRuntimes
  import opened EventRecording

  datatype Stage = Starting | Running | Retired

  /** A checkpoint write: its index among the snapshots sent, until the answer, then until its cleanup. */
  datatype Request = NoRequest | Awaiting(index: nat) | Settling

  datatype EndTimer = NoTimer | Discussion | Retry

  /** Where endSession is suspended; anything but Idle is the room being in finalizingRooms. */
  datatype Phase = Idle | AwaitingWindows | AwaitingRules | AwaitingCheckpoint | Finalizing(index: nat)

  /** The room's entries in the service's maps and sets. */
  datatype Control = Control(
    stage: Stage, dirty: bool, checkpointTimer: bool, request: Request,
    ruleWork: nat, windowWork: nat, endTimer: EndTimer, phase: Phase)

  // ---- the handlers, on the room's control state ----

  /** scheduleCheckpoint */
  function Schedule(c: Control): Control {
    if !c.phase.Idle? then c
    else c.(dirty := true, checkpointTimer := c.checkpointTimer || c.request.NoRequest?)
  }

  predicate Flushes(c: Control) { c.stage.Running? && c.phase.Idle? && c.dirty }

  /** flushCheckpoint, index being the snapshot it sends when it sends one. */
  function Flush(c: Control, index: nat): Control {
    if Flushes(c) then c.(checkpointTimer := false, dirty := false, request := Awaiting(index))
    else c.(checkpointTimer := false)
  }

  /** The response handling of persistCheckpoint. */
  function Answer(c: Control, ok: bool): Control {
    if !ok && c.phase.Idle? then c.(request := Settling, dirty := true) else c.(request := Settling)
  }

  /** The finally block of flushCheckpoint. */
  function Cleanup(c: Control): Control {
    var done := c.(request := NoRequest);
    if done.dirty && done.phase.Idle? then Schedule(done) else done
  }

  /** endSession up to its first await. */
  function BeginEnd(c: Control): Control {
    if !c.stage.Running? || !c.phase.Idle? then c.(endTimer := NoTimer)
    else c.(endTimer := NoTimer, phase := AwaitingWindows)
  }

  predicate EndReady(c: Control) {
    || (c.phase.AwaitingWindows? && c.windowWork == 0)
    || (c.phase.AwaitingRules? && c.ruleWork == 0)
    || (c.phase.AwaitingCheckpoint? && c.request.NoRequest?)
  }

  /** endSession from one await to the next; the last one sends snapshot index. */
  function AdvanceEnd(c: Control, index: nat): Control {
    match c.phase
    case AwaitingWindows => c.(phase := AwaitingRules)
    case AwaitingRules => c.(phase := AwaitingCheckpoint, checkpointTimer := false)
    case AwaitingCheckpoint => c.(phase := Finalizing(index))
    case _ => c
  }

  function FinalizeAnswer(c: Control, ok: bool): Control {
    if ok then c.(stage := Retired, phase := Idle, dirty := false, ruleWork := 0, windowWork := 0, request := NoRequest)
    else c.(phase := Idle, endTimer := Retry)
  }

  // ---- the room, the link and the stored session ----

  datatype World = World(
    base: Stored,                      // the stored session the runtime was started from
    feed: map<string, TimelineEvent>,  // the events of the room
    control: Control,
    live: Live,
    pending: seq<TimelineEvent>,       // events buffered before the runtime is installed
    sent: seq<Checkpoint>,             // every snapshot ever sent
    awaited: set<nat>,                 // the sent snapshots whose answer is awaited
    schedule: seq<nat>,                // the sent snapshots in the order the store applied them
    stored: Stored,
    handed: seq<TimelineEvent>,        // events handed over while the room accepts them, replayed history included
    saved: Checkpoint)                 // the last snapshot known to be stored

  datatype Step =
    | Deliver(event: TimelineEvent)
    | Install(history: seq<TimelineEvent>)
    | RuleRecords(change: Change)
    | RuleDone
    | WindowStart(windowEnd: int)
    | WindowRecords(change: Change)
    | WindowDone
    | CheckpointTimerFires
    | CheckpointAnswered(ok: bool)
    | CheckpointCleanup
    | EndTimerFires
    | EndAdvances
    | FinalizeAnswered(ok: bool)
    | StoreApplies(index: nat)

  datatype Room = Room(control: Control, live: Live)

  /** handleEvent once a runtime is installed. */
  function Handle(r: Room, e: TimelineEvent, etherpad: bool): Room {
    if !r.control.phase.Idle? then r
    else if !Handled(e) || e.eventId in r.live.processed then r
    else
      var live := HandleEvent(r.live, e, etherpad);
      Room(if e.service then Schedule(r.control) else r.control.(ruleWork := r.control.ruleWork + 1), live)
  }

  function Replay(r: Room, es: seq<TimelineEvent>, etherpad: bool): Room {
    if es == [] then r else Handle(Replay(r, es[..|es| - 1], etherpad), es[|es| - 1], etherpad)
  }

  function Restart(base: Stored): Live { Restored(CheckpointFromSession(base)) }

  function Send(w: World): World {
    w.(live := Bumped(w.live), sent := w.sent + [Snapshot(Bumped(w.live))], awaited := w.awaited + {|w.sent|})
  }

  predicate Enabled(w: World, step: Step) {
    var c := w.control;
    match step
    case Deliver(e) => e.eventId in w.feed && w.feed[e.eventId] == e
    case Install(history) =>
      c.stage.Starting? && forall i :: 0 <= i < |history| ==>
        history[i].eventId in w.feed && w.feed[history[i].eventId] == history[i]
    case RuleRecords(change) => c.ruleWork > 0 && FreshChange(w.live, change)
    case RuleDone => c.ruleWork > 0
    case WindowStart(end) => c.stage.Running? && c.phase.Idle? && ClaimWindowBoundary(w.live, end).Some?
    case WindowRecords(change) => c.windowWork > 0 && FreshChange(w.live, change)
    case WindowDone => c.windowWork > 0
    case CheckpointTimerFires => c.checkpointTimer
    // A positive answer means the store applied the write; a negative one means anything.
    case CheckpointAnswered(ok) => c.request.Awaiting? && (ok ==> c.request.index in w.schedule)
    case CheckpointCleanup => c.request.Settling?
    case EndTimerFires => !c.endTimer.NoTimer?
    case EndAdvances => EndReady(c)
    case FinalizeAnswered(ok) => c.phase.Finalizing? && (ok ==> c.phase.index in w.schedule)
    case StoreApplies(n) => n < |w.sent|
  }

  function Next(w: World, step: Step): World
    requires Enabled(w, step)
  {
    var c := w.control;
    match step
    case Deliver(e) => Delivery(w, e)
    case Install(history) =>
      var r := Replay(Room(c.(stage := Running), Restart(w.base)), AppendUnique([], EventKey, history + w.pending), w.base.etherpad);
      w.(control := r.control.(endTimer := Discussion), live := r.live, pending := [], handed := w.handed + history,
         saved := Snapshot(Restart(w.base)))
    case RuleRecords(change) => w.(live := Applied(w.live, change))
    case RuleDone => w.(control := Schedule(c.(ruleWork := c.ruleWork - 1)))
    case WindowStart(end) =>
      w.(control := c.(windowWork := c.windowWork + 1), live := ClaimWindowBoundary(w.live, end).value)
    case WindowRecords(change) => w.(live := Applied(w.live, change))
    case WindowDone => w.(control := Schedule(c.(windowWork := c.windowWork - 1)))
    case CheckpointTimerFires =>
      (if Flushes(c) then Send(w) else w).(control := Flush(c, |w.sent|))
    case CheckpointAnswered(ok) =>
      w.(control := Answer(c, ok), awaited := w.awaited - {c.request.index},
         saved := if ok && c.request.index < |w.sent| then w.sent[c.request.index] else w.saved)
    case CheckpointCleanup => w.(control := Cleanup(c))
    case EndTimerFires => w.(control := BeginEnd(c))
    case EndAdvances =>
      (if c.phase.AwaitingCheckpoint? then Send(w) else w).(control := AdvanceEnd(c, |w.sent|))
    case FinalizeAnswered(ok) =>
      w.(control := FinalizeAnswer(c, ok), awaited := w.awaited - {c.phase.index},
         saved := if ok && c.phase.index < |w.sent| then w.sent[c.phase.index] else w.saved)
    case StoreApplies(n) => w.(stored := Merge(w.stored, w.sent[n]), schedule := w.schedule + [n])
  }

  function Delivery(w: World, e: TimelineEvent): World {
    match w.control.stage
    case Starting => w.(pending := Upsert(w.pending, EventKey, Newest, e), handed := w.handed + [e])
    case Retired => w
    case Running =>
      if !w.control.phase.Idle? then w
      else
        var r := Handle(Room(w.control, w.live), e, w.base.etherpad);
        w.(control := r.control, live := r.live, handed := w.handed + [e])
  }

  // ---- where runs start ----

  const STOPPED := Control(Starting, false, false, NoRequest, 0, 0, NoTimer, Idle)

  /** The stored session a runtime may be started from: sound records, nothing recorded unprocessed. */
  ghost predicate GoodBase(base: Stored, feed: map<string, TimelineEvent>) {
    && Feed(feed) && base.revision >= 0
    && WellFormed(Restart(base)) && Faithful(Restart(base), feed, base.etherpad)
  }

  /** The room as the service takes a stored session over. */
  function Begin(base: Stored, feed: map<string, TimelineEvent>): World {
    World(base, feed, STOPPED, Restart(base), [], [], {}, [], base, [], Snapshot(Restart(base)))
  }

  ghost predicate Init(w: World) { GoodBase(w.base, w.feed) && w == Begin(w.base, w.feed) }

  /** A fresh session is a good place to start from. */
  lemma FreshIsGood(etherpad: bool, initial: Ranking, feed: map<string, TimelineEvent>)
    requires Feed(feed)
    ensures GoodBase(Fresh(etherpad, initial), feed)
  {}

  ghost predicate Run(w: World, steps: seq<Step>, last: World)
    decreases |steps|
  {
    if steps == [] then last == w
    else Enabled(w, steps[0]) && Run(Next(w, steps[0]), steps[1..], last)
  }
}

/** What every step of a room keeps. */
module ChatRoomSafety {
  import opened Options
  import opened KeyedLists
  import opened WindowEvaluations
  import opened Records
  import opened CheckpointMerge
  import opened MergeLaws
  import opened Convergence
  import opened StoredSnapshots
  import opened SessionRuntimes
  import opened EventRecording
  import opened ChatRoom

  // ---- the checkpoint protocol ----

  function Content(l: Live): Checkpoint { Snapshot(l).(revision := None) }

  function Contents(c: Checkpoint): Checkpoint { c.(revision := None) }

  /** Something will still save the room. */
  predicate SaverPending(c: Control) {
    c.dirty || c.ruleWork > 0 || c.windowWork > 0 || !c.request.NoRequest? || !c.phase.Idle? || c.endTimer.Retry?
  }

  /** A later write is already called for. */
  predicate NextWriteDue(c: Control) {
    c.dirty || c.ruleWork > 0 || c.windowWork > 0 || !c.phase.Idle? || c.endTimer.Retry?
  }

  ghost predicate ControlOk(c: Control, sent: nat) {
    && (c.checkpointTimer ==> c.request.NoRequest?)
    && (c.request.Awaiting? ==> c.request.index < sent)
    && (c.phase.Finalizing? ==> c.phase.index == sent - 1 && c.request.NoRequest?)
    && (c.phase.AwaitingRules? || c.phase.AwaitingCheckpoint? || c.phase.Finalizing? ==> c.windowWork == 0)
    && (c.phase.AwaitingCheckpoint? || c.phase.Finalizing? ==> c.ruleWork == 0 && !c.checkpointTimer)
    && (!c.phase.Idle? ==> c.endTimer.NoTimer?)
    && (c.stage.Running? && c.phase.Idle? ==> !c.endTimer.NoTimer?)
    && (c.stage.Starting? ==> c == STOPPED)
    && (c.stage.Retired? ==> c.ruleWork == 0 && c.windowWork == 0 && c.phase.Idle? && c.request.NoRequest? && c.endTimer.NoTimer?)
    && (c.stage.Running? && c.dirty ==> c.checkpointTimer || !c.request.NoRequest? || !c.phase.Idle? || c.endTimer.Retry?)
  }

  /** Recorded data that no acknowledged write carries is always on its way. */
  ghost predicate SavingOk(w: World) {
    var c := w.control;
    && (c.stage.Running? && !c.request.Awaiting? ==> Content(w.live) == Contents(w.saved) || NextWriteDue(c))
    && (c.stage.Running? && c.request.Awaiting? && c.request.index < |w.sent| ==>
          Content(w.live) == Contents(w.sent[c.request.index]) || NextWriteDue(c))
    && ((c.phase.Finalizing? || c.stage.Retired?) ==> w.sent != [] && Content(w.live) == Contents(w.sent[|w.sent| - 1]))
    && (c.stage.Retired? ==> |w.sent| - 1 in w.schedule)
  }

  /** The writes the control state waits for are the open ones. */
  predicate AwaitOk(w: World) {
    w.awaited == (if w.control.request.Awaiting? then {w.control.request.index} else {})
               + (if w.control.phase.Finalizing? then {w.control.phase.index} else {})
  }

  // ---- the data ----

  ghost predicate SentOk(w: World) {
    && Lineage(w.base, w.sent)
    && (forall i :: 0 <= i < |w.sent| ==>
          Grows(w.sent[i], Snapshot(w.live)) && w.sent[i].revision.value <= w.live.revision)
  }

  ghost predicate LiveOk(w: World) {
    && GoodBase(w.base, w.feed)
    && WellFormed(w.live) && Faithful(w.live, w.feed, w.base.etherpad)
    && w.base.revision <= w.live.revision && w.base.windowEvaluations <= w.live.windowEvaluations
    && (w.control.stage.Starting? ==> w.live == Restart(w.base))
  }

  ghost predicate StoreOk(w: World) {
    Within(w.schedule, |w.sent|) && w.stored == Delivered(w.base, w.sent, w.schedule)
  }

  ghost predicate Kept(w: World, e: TimelineEvent) {
    if w.control.stage.Starting? then e in w.pending
    else Handled(e) ==> e.eventId in w.live.processed && Recorded(w.live, e, w.base.etherpad)
  }

  ghost predicate HandedOk(w: World) {
    && (forall i :: 0 <= i < |w.handed| ==> FromFeed(w.feed, w.handed[i]) && Kept(w, w.handed[i]))
    && (forall i :: 0 <= i < |w.pending| ==> FromFeed(w.feed, w.pending[i]))
  }

  /** A snapshot of a runtime that was started from base: grown from it, and sound itself. */
  ghost predicate SoundSnapshot(base: Stored, feed: map<string, TimelineEvent>, c: Checkpoint) {
    && Grows(Snapshot(Restart(base)), c)
    && WellFormed(Restored(c)) && Faithful(Restored(c), feed, base.etherpad) && Distinct(c.processed)
    && (base.etherpad ==> Unranked(base, c))
  }

  /** The live data, and with it every snapshot, has grown from the stored session. */
  ghost predicate GrownOk(w: World) {
    && GrowsTo(Restart(w.base), w.live)
    && (w.base.etherpad ==> Unranked(w.base, Snapshot(w.live)))
    && forall i :: 0 <= i < |w.sent| ==> SoundSnapshot(w.base, w.feed, w.sent[i])
  }

  ghost predicate Inv(w: World) {
    && ControlOk(w.control, |w.sent|) && AwaitOk(w) && SavingOk(w) && SentOk(w) && LiveOk(w) && GrownOk(w) && StoreOk(w)
    && HandedOk(w)
  }

  // ---- replaying the buffered events ----

  /** Replay records as HandleAll does, and whatever it records is due to be saved. */
  lemma {:induction false} ReplayRecords(r: Room, es: seq<TimelineEvent>, etherpad: bool)
    requires r.control.phase.Idle? && r.control.request.NoRequest?
    ensures var after := Replay(r, es, etherpad);
            && after.live == HandleAll(r.live, es, etherpad)
            && after.control == r.control.(ruleWork := after.control.ruleWork, dirty := after.control.dirty,
                                           checkpointTimer := after.control.checkpointTimer)
            && (after.control.dirty ==> r.control.dirty || after.control.checkpointTimer)
            && (r.control.checkpointTimer ==> after.control.checkpointTimer)
            && after.control.ruleWork >= r.control.ruleWork
            && (r.control.dirty ==> after.control.dirty)
            && (after.live == r.live || after.control.dirty || after.control.ruleWork > 0)
  {
    if es != [] { ReplayRecords(r, es[..|es| - 1], etherpad); }
  }

  // ---- control state ----

  lemma InstallControl(w: World, history: seq<TimelineEvent>)
    requires ControlOk(w.control, |w.sent|) && Enabled(w, Install(history))
    ensures var n := Next(w, Install(history)); ControlOk(n.control, |n.sent|) && SavingOk(n)
  {
    var r := Room(w.control.(stage := Running), Restart(w.base));
    ReplayRecords(r, AppendUnique([], EventKey, history + w.pending), w.base.etherpad);
  }

  lemma ControlStep(w: World, step: Step)
    requires ControlOk(w.control, |w.sent|) && Enabled(w, step) && !step.Install?
    ensures ControlOk(Next(w, step).control, |Next(w, step).sent|)
  {}

  lemma AwaitStays(w: World, step: Step)
    requires ControlOk(w.control, |w.sent|) && AwaitOk(w) && Enabled(w, step)
    ensures AwaitOk(Next(w, step))
  {
    if step.Install? {
      ReplayRecords(Room(w.control.(stage := Running), Restart(w.base)),
                    AppendUnique([], EventKey, step.history + w.pending), w.base.etherpad);
    }
  }

  lemma DeliverySaving(w: World, e: TimelineEvent)
    requires ControlOk(w.control, |w.sent|) && SavingOk(w) && Enabled(w, Deliver(e))
    ensures SavingOk(Next(w, Deliver(e)))
  {}

  lemma WorkSaving(w: World, step: Step)
    requires ControlOk(w.control, |w.sent|) && SavingOk(w) && Enabled(w, step)
    requires step.RuleRecords? || step.RuleDone? || step.WindowStart? || step.WindowRecords? || step.WindowDone?
    ensures SavingOk(Next(w, step))
  {}

  lemma WriteSaving(w: World, step: Step)
    requires ControlOk(w.control, |w.sent|) && SavingOk(w) && Enabled(w, step)
    requires step.CheckpointAnswered? || step.CheckpointCleanup? || step.StoreApplies?
    ensures SavingOk(Next(w, step))
  {}

  lemma FlushSaving(w: World)
    requires ControlOk(w.control, |w.sent|) && SavingOk(w) && Enabled(w, CheckpointTimerFires)
    ensures SavingOk(Next(w, CheckpointTimerFires))
  {}

  lemma EndSaving(w: World, step: Step)
    requires ControlOk(w.control, |w.sent|) && SavingOk(w) && Enabled(w, step)
    requires step.EndTimerFires? || step.EndAdvances? || step.FinalizeAnswered?
    ensures SavingOk(Next(w, step))
  {}

  lemma SavingStays(w: World, step: Step)
    requires ControlOk(w.control, |w.sent|) && SavingOk(w) && Enabled(w, step) && !step.Install?
    ensures SavingOk(Next(w, step))
  {
    match step
    case Deliver(e) => DeliverySaving(w, e);
    case RuleRecords(_) => WorkSaving(w, step);
    case RuleDone => WorkSaving(w, step);
    case WindowStart(_) => WorkSaving(w, step);
    case WindowRecords(_) => WorkSaving(w, step);
    case WindowDone => WorkSaving(w, step);
    case CheckpointTimerFires => FlushSaving(w);
    case EndTimerFires => EndSaving(w, step);
    case EndAdvances => EndSaving(w, step);
    case FinalizeAnswered(_) => EndSaving(w, step);
    case _ => WriteSaving(w, step);
  }

  lemma ControlAndSaving(w: World, step: Step)
    requires ControlOk(w.control, |w.sent|) && SavingOk(w) && Enabled(w, step)
    ensures ControlOk(Next(w, step).control, |Next(w, step).sent|) && SavingOk(Next(w, step))
  {
    if step.Install? {
      InstallControl(w, step.history);
    } else {
      ControlStep(w, step);
      SavingStays(w, step);
    }
  }

  // ---- live data ----

  /** The replayed events are all there, once per id. */
  lemma ReplayedEvents(feed: map<string, TimelineEvent>, history: seq<TimelineEvent>, pending: seq<TimelineEvent>)
    requires forall i :: 0 <= i < |history| ==> FromFeed(feed, history[i])
    requires forall i :: 0 <= i < |pending| ==> FromFeed(feed, pending[i])
    ensures var es := AppendUnique([], EventKey, history + pending);
            (forall e :: e in es ==> FromFeed(feed, e)) && (forall e :: e in history || e in pending ==> e in es)
  {
    var all := history + pending;
    var es := AppendUnique([], EventKey, all);
    AppendUniqueAdds([], EventKey, all);
    AppendUniqueSeen([], EventKey, all);
    forall e | e in es ensures FromFeed(feed, e) {
      var i :| 0 <= i < |es| && es[i] == e;
      assert es[i] in all;
    }
    forall e | e in history || e in pending ensures e in es {
      assert e in all;
      MemberKey(es, EventKey, e.eventId);
      var x :| x in es && x.eventId == e.eventId;
      assert FromFeed(feed, x) && FromFeed(feed, e);
    }
  }

  lemma InstallLive(w: World, history: seq<TimelineEvent>)
    requires ControlOk(w.control, |w.sent|) && LiveOk(w) && Enabled(w, Install(history))
    requires forall i :: 0 <= i < |w.pending| ==> FromFeed(w.feed, w.pending[i])
    ensures LiveStep(w, Install(history))
    ensures var n := Next(w, Install(history));
            forall e :: (e in history || e in w.pending) && Handled(e) ==>
              e.eventId in n.live.processed && Recorded(n.live, e, w.base.etherpad)
  {
    var es := AppendUnique([], EventKey, history + w.pending);
    ReplayRecords(Room(w.control.(stage := Running), Restart(w.base)), es, w.base.etherpad);
    ReplayedEvents(w.feed, history, w.pending);
    ExactlyOnce(Restart(w.base), es, w.feed, w.base.etherpad);
  }

  /** A step only lets the live data grow, and keeps it sound. */
  ghost predicate LiveStep(w: World, step: Step)
    requires Enabled(w, step)
  {
    var n := Next(w, step);
    WellFormed(n.live) && GrowsTo(w.live, n.live) && Faithful(n.live, n.feed, n.base.etherpad)
  }

  lemma EventLive(w: World, step: Step)
    requires LiveOk(w) && Enabled(w, step) && step.Deliver?
    ensures LiveStep(w, step)
  {
    GrowsReflexive(w.live);
    HandleEventGrows(w.live, step.event, w.base.etherpad);
    HandleEventFaithful(w.live, step.event, w.feed, w.base.etherpad);
  }

  lemma QuietLive(w: World, step: Step)
    requires LiveOk(w) && Enabled(w, step)
    requires !step.Deliver? && !step.Install? && !step.RuleRecords? && !step.WindowRecords?
    ensures LiveStep(w, step)
  {
    GrowsReflexive(w.live);
    BumpGrows(w.live);
  }

  lemma LiveGrows(w: World, step: Step)
    requires Inv(w) && Enabled(w, step)
    ensures LiveStep(w, step)
  {
    match step
    case Install(history) => InstallLive(w, history);
    case Deliver(_) => EventLive(w, step);
    case RuleRecords(change) =>
      ChangeGrows(w.live, change);
      ChangeFaithful(w.live, change, w.feed, w.base.etherpad);
    case WindowRecords(change) =>
      ChangeGrows(w.live, change);
      ChangeFaithful(w.live, change, w.feed, w.base.etherpad);
    case _ => QuietLive(w, step);
  }

  lemma StageForward(w: World, step: Step)
    requires ControlOk(w.control, |w.sent|) && Enabled(w, step)
    ensures var n := Next(w, step);
            && n.base == w.base && n.feed == w.feed
            && (n.control.stage.Starting? ==> w.control.stage.Starting? && n.live == w.live)
  {
    if step.Install? {
      ReplayRecords(Room(w.control.(stage := Running), Restart(w.base)),
                    AppendUnique([], EventKey, step.history + w.pending), w.base.etherpad);
    }
  }

  lemma LiveStays(w: World, step: Step)
    requires Inv(w) && Enabled(w, step)
    ensures LiveOk(Next(w, step))
  {
    LiveGrows(w, step);
    StageForward(w, step);
  }

  // ---- grown from the stored session ----

  /** The writing workspace adds neither rankings nor ranking moves. */
  lemma EventUnranked(base: Stored, l: Live, e: TimelineEvent)
    requires base.etherpad && Unranked(base, Snapshot(l))
    ensures Unranked(base, Snapshot(HandleEvent(l, e, true)))
  {}

  lemma {:induction false} EventsUnranked(base: Stored, l: Live, es: seq<TimelineEvent>)
    requires base.etherpad && Unranked(base, Snapshot(l))
    ensures Unranked(base, Snapshot(HandleAll(l, es, true)))
  {
    if es != [] {
      EventsUnranked(base, l, es[..|es| - 1]);
      EventUnranked(base, HandleAll(l, es[..|es| - 1], true), es[|es| - 1]);
    }
  }

  lemma InstallUnranked(w: World, history: seq<TimelineEvent>)
    requires ControlOk(w.control, |w.sent|) && Enabled(w, Install(history)) && w.base.etherpad
    ensures Unranked(w.base, Snapshot(Next(w, Install(history)).live))
  {
    var es := AppendUnique([], EventKey, history + w.pending);
    ReplayRecords(Room(w.control.(stage := Running), Restart(w.base)), es, true);
    EventsUnranked(w.base, Restart(w.base), es);
  }

  lemma StepUnranked(w: World, step: Step)
    requires Unranked(w.base, Snapshot(w.live)) && Enabled(w, step) && w.base.etherpad && !step.Install?
    ensures Unranked(w.base, Snapshot(Next(w, step).live))
  {
    if step.Deliver? { EventUnranked(w.base, w.live, step.event); }
  }

  /** Being faithful is about the recorded lists alone. */
  lemma FaithfulLists(l: Live, m: Live, feed: map<string, TimelineEvent>, etherpad: bool)
    requires Faithful(l, feed, etherpad)
    requires m.messages == l.messages && m.rankingHistory == l.rankingHistory
    requires m.behavioralEvents == l.behavioralEvents && m.processed == l.processed
    ensures Faithful(m, feed, etherpad)
  {
    forall id | id in m.processed && id in feed ensures Recorded(m, feed[id], etherpad) {
      assert Recorded(l, feed[id], etherpad);
    }
  }

  lemma LiveSnapshotSound(base: Stored, feed: map<string, TimelineEvent>, l: Live)
    requires WellFormed(l) && Faithful(l, feed, base.etherpad) && GrowsTo(Restart(base), l)
    requires base.etherpad ==> Unranked(base, Snapshot(l))
    ensures SoundSnapshot(base, feed, Snapshot(l))
  {
    JoinedFresh(l.processed);
    FaithfulLists(l, Restored(Snapshot(l)), feed, base.etherpad);
  }

  lemma LiveGrown(w: World, step: Step)
    requires GrowsTo(Restart(w.base), w.live) && Enabled(w, step) && LiveStep(w, step) && Next(w, step).base == w.base
    ensures GrowsTo(Restart(w.base), Next(w, step).live)
  {
    GrowsTransitive(Snapshot(Restart(w.base)), Snapshot(w.live), Snapshot(Next(w, step).live));
  }

  lemma SnapshotsSound(w: World, step: Step)
    requires GrownOk(w) && Enabled(w, step) && LiveStep(w, step) && Next(w, step).base == w.base && Next(w, step).feed == w.feed
    requires GrowsTo(Restart(w.base), Next(w, step).live)
    requires w.base.etherpad ==> Unranked(w.base, Snapshot(Next(w, step).live))
    ensures forall i :: 0 <= i < |Next(w, step).sent| ==> SoundSnapshot(w.base, w.feed, Next(w, step).sent[i])
  {
    var n := Next(w, step);
    SendsOne(w, step);
    LiveSnapshotSound(w.base, w.feed, n.live);
    forall i | 0 <= i < |n.sent| ensures SoundSnapshot(w.base, w.feed, n.sent[i]) {
      if i < |w.sent| { assert n.sent[i] == w.sent[i]; } else { assert n.sent[i] == Snapshot(n.live); }
    }
  }

  lemma GrownStays(w: World, step: Step)
    requires ControlOk(w.control, |w.sent|) && GrownOk(w) && Enabled(w, step) && LiveStep(w, step)
    ensures GrownOk(Next(w, step))
  {
    StageForward(w, step);
    LiveGrown(w, step);
    if w.base.etherpad {
      if step.Install? { InstallUnranked(w, step.history); } else { StepUnranked(w, step); }
    }
    SnapshotsSound(w, step);
  }

  // ---- snapshots ----

  /** Either nothing was sent, or exactly one snapshot, of the bumped live data. */
  lemma SendsOne(w: World, step: Step)
    requires Enabled(w, step)
    ensures Next(w, step).sent == w.sent || (Next(w, step).live == Bumped(w.live) && Next(w, step).sent == Send(w).sent)
  {}

  lemma SentStays(w: World, step: Step)
    requires Inv(w) && Enabled(w, step)
    ensures SentOk(Next(w, step))
  {
    var n := Next(w, step);
    SendsOne(w, step);
    LiveGrows(w, step);
    StageForward(w, step);
    forall i | 0 <= i < |w.sent| ensures Grows(w.sent[i], Snapshot(n.live)) {
      GrowsTransitive(w.sent[i], Snapshot(w.live), Snapshot(n.live));
    }
    if n.sent != w.sent { SentSnapshot(w); }
  }

  lemma SentSnapshot(w: World)
    requires SentOk(w) && LiveOk(w)
    ensures SentOk(Send(w))
  {
    var n := Send(w);
    BumpGrows(w.live);
    GrowsReflexive(n.live);
    forall i | 0 <= i < |w.sent| ensures Grows(w.sent[i], Snapshot(n.live)) {
      GrowsTransitive(w.sent[i], Snapshot(w.live), Snapshot(n.live));
    }
  }

  lemma {:induction false} DeliveredFromMore(s: Stored, sent: seq<Checkpoint>, more: seq<Checkpoint>, schedule: seq<nat>)
    requires Within(schedule, |sent|)
    ensures Within(schedule, |sent + more|)
    ensures Delivered(s, sent + more, schedule) == Delivered(s, sent, schedule)
  {
    if schedule != [] { DeliveredFromMore(s, sent, more, schedule[..|schedule| - 1]); }
  }

  lemma StoreStays(w: World, step: Step)
    requires StoreOk(w) && Enabled(w, step)
    ensures StoreOk(Next(w, step))
  {
    if step.StoreApplies? {
      assert (w.schedule + [step.index])[..|w.schedule|] == w.schedule;
    } else {
      SendsOne(w, step);
      StoreQuiet(w, step);
      DeliveredFromMore(w.base, w.sent, [Snapshot(Bumped(w.live))], w.schedule);
    }
  }

  lemma StoreQuiet(w: World, step: Step)
    requires Enabled(w, step) && !step.StoreApplies?
    ensures var n := Next(w, step); n.stored == w.stored && n.schedule == w.schedule && n.base == w.base
  {}

  // ---- handed-over events ----

  lemma KeptStays(w: World, step: Step, e: TimelineEvent)
    requires Inv(w) && Enabled(w, step) && Kept(w, e) && FromFeed(w.feed, e)
    ensures Kept(Next(w, step), e)
  {
    if step.Install? {
      KeptByInstall(w, step.history, e);
    } else if w.control.stage.Starting? {
      KeptInBuffer(w, step, e);
    } else {
      LiveGrows(w, step);
      KeptWhileLive(w, step, e);
    }
  }

  lemma KeptByInstall(w: World, history: seq<TimelineEvent>, e: TimelineEvent)
    requires Inv(w) && Enabled(w, Install(history)) && (Kept(w, e) || e in history)
    ensures Kept(Next(w, Install(history)), e)
  {
    ReplayRecords(Room(w.control.(stage := Running), Restart(w.base)),
                  AppendUnique([], EventKey, history + w.pending), w.base.etherpad);
    InstallLive(w, history);
  }

  lemma KeptInBuffer(w: World, step: Step, e: TimelineEvent)
    requires ControlOk(w.control, |w.sent|) && HandedOk(w) && Enabled(w, step) && Kept(w, e) && FromFeed(w.feed, e)
    requires w.control.stage.Starting? && !step.Install?
    ensures Kept(Next(w, step), e)
  {
    StageForward(w, step);
    if step.Deliver? { BufferKeeps(w.pending, step.event, e, w.feed); }
  }

  lemma KeptWhileLive(w: World, step: Step, e: TimelineEvent)
    requires ControlOk(w.control, |w.sent|) && Enabled(w, step) && LiveStep(w, step) && Kept(w, e)
    requires !w.control.stage.Starting? && !step.Install?
    ensures Kept(Next(w, step), e)
  {
    StageForward(w, step);
    if Handled(e) { RecordedStays(w.live, Next(w, step).live, e, w.base.etherpad); }
  }

  /** Buffering under the event id loses no buffered event. */
  lemma BufferKeeps(pending: seq<TimelineEvent>, e: TimelineEvent, kept: TimelineEvent, feed: map<string, TimelineEvent>)
    requires forall i :: 0 <= i < |pending| ==> FromFeed(feed, pending[i])
    requires FromFeed(feed, e) && (kept in pending || kept == e)
    ensures kept in Upsert(pending, EventKey, Newest, e)
    ensures forall x :: x in Upsert(pending, EventKey, Newest, e) ==> FromFeed(feed, x)
  {
    var i := Find(pending, EventKey, e.eventId);
    var after := Upsert(pending, EventKey, Newest, e);
    if i < |pending| {
      assert pending[i] == e;
      assert after == pending;
    } else {
      assert after[|pending|] == e;
    }
  }

  lemma DeliveredIsKept(w: World, e: TimelineEvent)
    requires Inv(w) && Enabled(w, Deliver(e)) && !w.control.stage.Retired?
    requires w.control.stage.Running? ==> w.control.phase.Idle?
    ensures Kept(Next(w, Deliver(e)), e)
  {
    if w.control.stage.Starting? {
      BufferKeeps(w.pending, e, e, w.feed);
    } else {
      var n := Next(w, Deliver(e));
      HandleEventGrows(w.live, e, w.base.etherpad);
      EventLive(w, Deliver(e));
      if Handled(e) { assert n.live == HandleEvent(w.live, e, w.base.etherpad); }
    }
  }

  lemma PendingStays(w: World, step: Step)
    requires Inv(w) && Enabled(w, step)
    ensures var n := Next(w, step); forall i :: 0 <= i < |n.pending| ==> FromFeed(n.feed, n.pending[i])
  {
    if step.Deliver? {
      BufferKeeps(w.pending, step.event, step.event, w.feed);
    }
  }

  lemma HandedStays(w: World, step: Step)
    requires Inv(w) && Enabled(w, step)
    ensures HandedOk(Next(w, step))
  {
    var n := Next(w, step);
    StageForward(w, step);
    PendingStays(w, step);
    forall i | 0 <= i < |n.handed| ensures FromFeed(n.feed, n.handed[i]) && Kept(n, n.handed[i]) {
      if i < |w.handed| {
        assert n.handed[i] == w.handed[i];
        KeptStays(w, step, w.handed[i]);
      } else if step.Install? {
        KeptByInstall(w, step.history, n.handed[i]);
      } else {
        DeliveredIsKept(w, step.event);
      }
    }
  }

  // ---- over whole runs ----

  lemma InitSafe(w: World)
    requires Init(w)
    ensures Inv(w)
  {
    GrowsReflexive(w.live);
  }

  lemma StepSafe(w: World, step: Step)
    requires Inv(w) && Enabled(w, step)
    ensures Inv(Next(w, step))
  {
    ControlAndSaving(w, step);
    AwaitStays(w, step);
    LiveStays(w, step);
    LiveGrows(w, step);
    GrownStays(w, step);
    SentStays(w, step);
    StoreStays(w, step);
    HandedStays(w, step);
  }

  lemma {:induction false} RunSafe(w: World, steps: seq<Step>, last: World)
    requires Inv(w) && Run(w, steps, last)
    ensures Inv(last)
    decreases |steps|
  {
    if steps != [] {
      StepSafe(w, steps[0]);
      RunSafe(Next(w, steps[0]), steps[1..], last);
    }
  }

  // ---- what every run of a room promises ----

  ghost predicate RevisionsGrow(sent: seq<Checkpoint>) {
    && (forall i :: 0 <= i < |sent| ==> sent[i].revision.Some?)
    && (forall i, j :: 0 <= i < j < |sent| ==> sent[i].revision.value < sent[j].revision.value)
  }

  /**
   * The checkpoint protocol: never two awaited writes, strictly growing
   * revisions, and recorded data that is not known to be stored always has
   * something under way that will save it.
   */
  lemma {:induction false} CheckpointProtocol(w: World, steps: seq<Step>, last: World)
    requires Init(w) && Run(w, steps, last)
    ensures |last.awaited| <= 1
    ensures last.control.checkpointTimer ==> last.control.request.NoRequest?
    ensures !(last.control.request.Awaiting? && last.control.phase.Finalizing?)
    ensures RevisionsGrow(last.sent)
    ensures last.control.stage.Running? && Content(last.live) != Contents(last.saved) ==> SaverPending(last.control)
    ensures last.control.stage.Running? && last.control.dirty ==>
              last.control.checkpointTimer || !last.control.request.NoRequest? || !last.control.phase.Idle?
              || last.control.endTimer.Retry?
    ensures last.control.stage.Running? && last.control.phase.Idle? ==> !last.control.endTimer.NoTimer?
  {
    InitSafe(w);
    RunSafe(w, steps, last);
  }

  /**
   * Recording: every event handed over while the room takes events is buffered
   * until the runtime is installed and recorded from then on, and no event or
   * record occurs twice.
   */
  lemma {:induction false} EveryEventRecorded(w: World, steps: seq<Step>, last: World)
    requires Init(w) && Run(w, steps, last)
    ensures forall e :: e in last.handed ==> Kept(last, e)
    ensures WellFormed(last.live)
  {
    InitSafe(w);
    RunSafe(w, steps, last);
    HandedKept(last);
  }

  lemma HandedKept(w: World)
    requires HandedOk(w)
    ensures forall e :: e in w.handed ==> Kept(w, e)
  {
    forall e | e in w.handed ensures Kept(w, e) {
      var i :| 0 <= i < |w.handed| && w.handed[i] == e;
    }
  }

  /** At every moment the store holds what its newest applied snapshot alone would give. */
  lemma {:induction false} StoreIsNewestApplied(w: World, steps: seq<Step>, last: World)
    requires Init(w) && Run(w, steps, last)
    ensures Within(last.schedule, |last.sent|)
    ensures last.stored == if last.schedule == [] then last.base else Merge(last.base, last.sent[Latest(last.schedule)])
  {
    InitSafe(w);
    RunSafe(w, steps, last);
    Converges(last.base, last.sent, last.schedule);
  }

  /** The records an event calls for are stored, content included. */
  ghost predicate StoredRecord(t: Stored, e: TimelineEvent) {
    && e.eventId in t.processed
    && match e.payload
       case Text(_, _) => MessageOf(e) in t.messages
       case RankingEdit(r) =>
         t.etherpad || (RankingOf(e) in t.rankingHistory && (r.movement.Some? ==> MoveOf(e) in t.behavioralEvents))
       case Behavior(kind, _) => kind.RankingMove? || BehaviorOf(e) in t.behavioralEvents
       case Other => true
  }

  /** Ranking states recorded from events are told apart by their event. */
  lemma RankingKeysDistinct(h: seq<Ranking>)
    requires DistinctRankingEvents(h) && forall r :: r in h ==> r.eventId != ""
    ensures Distinct(Keys(h, RankingKey))
  {
    forall i, j | 0 <= i < j < |h| ensures Keys(h, RankingKey)[i] != Keys(h, RankingKey)[j] {
      assert h[i] in h && h[j] in h;
      assert ("event:" + h[i].eventId)[|"event:"|..] == h[i].eventId;
      assert ("event:" + h[j].eventId)[|"event:"|..] == h[j].eventId;
    }
  }

  lemma SoundContinues(base: Stored, feed: map<string, TimelineEvent>, c: Checkpoint)
    requires SoundSnapshot(base, feed, c) && c.revision.Some? && c.revision.value >= base.revision
    ensures Continues(base, c)
  {
    var l := Restored(c);
    forall r | r in c.rankingHistory ensures r.eventId != "" {
      assert r in l.rankingHistory;
    }
    RankingKeysDistinct(c.rankingHistory);
  }

  /** Filtering reactions leaves an event's message alone: it has none yet. */
  lemma MessageStays(ms: seq<Message>, m: Message, redacted: set<string>)
    requires m in ms && m.reactions == []
    ensures m in ActiveMessages(ms, redacted)
  {
    var i :| 0 <= i < |ms| && ms[i] == m;
    assert ActiveMessages(ms, redacted)[i] == m;
  }

  lemma HeldRecord(t: Stored, c: Checkpoint, e: TimelineEvent)
    requires HoldsRecords(t, c) && e.eventId in c.processed && Recorded(Restored(c), e, t.etherpad)
    ensures StoredRecord(t, e)
  {
    if e.payload.Text? { MessageStays(c.messages, MessageOf(e), ToSet(t.redacted)); }
  }

  lemma RetiredStays(w: World, step: Step)
    requires ControlOk(w.control, |w.sent|) && Enabled(w, step) && w.control.stage.Retired?
    ensures var n := Next(w, step);
            n.control.stage.Retired? && n.sent == w.sent && n.live == w.live && n.base == w.base && n.handed == w.handed
  {}

  lemma {:induction false} RetiredRun(w: World, steps: seq<Step>, last: World)
    requires Inv(w) && w.control.stage.Retired? && Run(w, steps, last)
    ensures Inv(last) && last.control.stage.Retired?
    ensures last.sent == w.sent && last.live == w.live && last.base == w.base && last.handed == w.handed
    decreases |steps|
  {
    if steps != [] {
      StepSafe(w, steps[0]);
      RetiredStays(w, steps[0]);
      RetiredRun(Next(w, steps[0]), steps[1..], last);
    }
  }

  /** The store holds the last snapshot sent, record by record, and that snapshot is the live data. */
  ghost predicate FinalStored(w: World) {
    && w.sent != [] && w.stored == Merge(w.base, w.sent[|w.sent| - 1])
    && Contents(w.sent[|w.sent| - 1]) == Content(w.live)
    && HoldsRecords(w.stored, w.sent[|w.sent| - 1])
  }

  lemma RetiredHoldsFinal(w: World)
    requires SavingOk(w) && SentOk(w) && GrownOk(w) && StoreOk(w) && w.control.stage.Retired?
    ensures FinalStored(w)
  {
    var n := |w.sent| - 1;
    LastDelivered(w.base, w.sent, w.schedule, n);
    SoundContinues(w.base, w.feed, w.sent[n]);
    SnapshotHeld(w.base, w.sent[n]);
  }

  ghost predicate AllStored(handed: seq<TimelineEvent>, t: Stored) {
    forall e :: e in handed && Handled(e) ==> StoredRecord(t, e)
  }

  lemma RetiredStoredAll(w: World)
    requires HandedOk(w) && FinalStored(w) && w.control.stage.Retired?
    ensures AllStored(w.handed, w.stored)
  {
    var c := w.sent[|w.sent| - 1];
    forall e | e in w.handed && Handled(e) ensures StoredRecord(w.stored, e) {
      var i :| 0 <= i < |w.handed| && w.handed[i] == e;
      assert Kept(w, e);
      assert Contents(c).messages == Content(w.live).messages && Contents(c).processed == Content(w.live).processed;
      HeldRecord(w.stored, c, e);
    }
  }

  lemma RetiredFinal(w: World)
    requires Inv(w) && w.control.stage.Retired?
    ensures FinalStored(w) && AllStored(w.handed, w.stored)
  {
    RetiredHoldsFinal(w);
    RetiredStoredAll(w);
  }

  lemma RetiredForGood(done: World, more: seq<Step>, later: World)
    requires Inv(done) && done.control.stage.Retired? && Run(done, more, later)
    ensures later.stored == done.stored
  {
    RetiredRun(done, more, later);
    RetiredFinal(done);
    RetiredFinal(later);
    SameFinal(done, later);
  }

  lemma SameFinal(a: World, b: World)
    requires FinalStored(a) && FinalStored(b) && a.base == b.base && a.sent == b.sent
    ensures a.stored == b.stored
  {}

  /**
   * End to end: once a finalize succeeded the store holds the final snapshot
   * record by record, which is all the runtime recorded, so every event handed
   * over is stored with its content; and no late or repeated write can change the
   * stored session any more.
   */
  lemma {:induction false} FinalizedForGood(w: World, steps: seq<Step>, done: World, more: seq<Step>, later: World)
    requires Init(w) && Run(w, steps, done) && done.control.stage.Retired? && Run(done, more, later)
    ensures FinalStored(done) && AllStored(done.handed, done.stored)
    ensures later.stored == done.stored
  {
    InitSafe(w);
    RunSafe(w, steps, done);
    RetiredFinal(done);
    RetiredForGood(done, more, later);
  }
}
