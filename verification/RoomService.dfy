/**
 * The Chat Service's handlers for one room, changing the room's entries and its
 * runtime in place (backend/chat-service/src/sessions/sessions.service.ts). Each
 * is proved to do what its counterpart in ChatRoom says.
 */
module RoomServices {
  import opened Options
  import opened KeyedLists
  import opened Records
  import opened CheckpointMerge
  import opened SessionRuntimes
  import opened EventRecording
  import opened ChatRoom

  class RoomService {
    const etherpad: bool
    const runtime: SessionRuntime
    var stage: Stage
    var dirty: bool
    var checkpointTimer: bool
    var request: Request
    var ruleWork: nat
    var windowWork: nat
    var endTimer: EndTimer
    var phase: Phase
    /** How many snapshots went out so far. */
    var sentCount: nat

    function Entries(): Control
      reads this
    {
      Control(stage, dirty, checkpointTimer, request, ruleWork, windowWork, endTimer, phase)
    }

    function View(): Room
      reads this, runtime
    {
      Room(Entries(), runtime.View())
    }

    ghost predicate Valid()
      reads this, runtime
    {
      runtime.Valid()
    }

    constructor (etherpad: bool, runtime: SessionRuntime)
      requires runtime.Valid()
      ensures Valid() && this.etherpad == etherpad && this.runtime == runtime
      ensures View() == Room(STOPPED.(stage := Running), runtime.View())
    {
      this.etherpad, this.runtime := etherpad, runtime;
      stage, dirty, checkpointTimer, request := Running, false, false, NoRequest;
      ruleWork, windowWork, endTimer, phase, sentCount := 0, 0, NoTimer, Idle, 0;
    }

    /** The replay loop of doStartSession: history first, then the buffered events. */
    method ReplayEvents(events: seq<TimelineEvent>)
      requires Valid()
      modifies this, runtime
      ensures Valid() && View() == Replay(old(View()), AppendUnique([], EventKey, events), etherpad)
    {
      ghost var start := View();
      ghost var unique: seq<TimelineEvent> := [];
      var replayed: set<string> := {};
      for i := 0 to |events|
        invariant Valid() && View() == Replay(start, unique, etherpad)
        invariant unique == AppendUnique([], EventKey, events[..i])
        invariant forall k :: k in replayed <==> k in Keys(unique, EventKey)
      {
        assert events[..i + 1][..i] == events[..i];
        var event := events[i];
        if event.eventId !in replayed {
          KeysPush(unique, EventKey, event);
          assert (unique + [event])[..|unique|] == unique;
          unique := unique + [event];
          replayed := replayed + {event.eventId};
          HandleTimelineEvent(event);
        }
      }
      assert events[..|events|] == events;
    }

    /** handleEvent for an installed runtime. */
    method HandleTimelineEvent(event: TimelineEvent)
      requires Valid()
      modifies this, runtime
      ensures Valid() && View() == Handle(old(View()), event, etherpad)
    {
      if phase != Idle { return; }
      if event.service {
        if !event.payload.Text? || event.eventId in runtime.processedEventIds { return; }
        runtime.DoMarkProcessed(event.eventId);
        runtime.DoRecordMessage(MessageOf(event));
        ScheduleCheckpoint();
        return;
      }
      if event.eventId in runtime.processedEventIds { return; }
      runtime.DoMarkProcessed(event.eventId);
      RecordParticipantEvent(event);
      ruleWork := ruleWork + 1;
    }

    method RecordParticipantEvent(event: TimelineEvent)
      requires Valid()
      modifies runtime
      ensures Valid() && runtime.View() == RecordEvent(old(runtime.View()), event, etherpad)
    {
      match event.payload
      case Text(_, _) => runtime.DoRecordMessage(MessageOf(event));
      case RankingEdit(ranking) =>
        if etherpad { return; }
        runtime.DoRecordRanking(RankingOf(event));
        if ranking.movement.Some? { runtime.DoRecordBehavior(MoveOf(event)); }
      case Behavior(kind, _) =>
        if kind.RankingMove? { return; }
        runtime.DoRecordBehavior(BehaviorOf(event));
      case Other =>
    }

    method ScheduleCheckpoint()
      modifies `dirty, `checkpointTimer
      ensures Entries() == Schedule(old(Entries()))
    {
      if phase != Idle { return; }
      dirty := true;
      if request != NoRequest || checkpointTimer { return; }
      checkpointTimer := true;
    }

    /** flushCheckpoint: the snapshot goes out before anything else can run. */
    method FlushCheckpoint() returns (write: Option<Checkpoint>)
      requires Valid()
      modifies this, runtime
      ensures Valid() && Entries() == Flush(old(Entries()), old(sentCount))
      ensures write.Some? == Flushes(old(Entries()))
      ensures write.Some? ==> runtime.View() == Bumped(old(runtime.View())) && write.value == Snapshot(runtime.View())
      ensures write.None? ==> runtime.View() == old(runtime.View())
      ensures sentCount == old(sentCount) + if write.Some? then 1 else 0
    {
      checkpointTimer := false;
      if stage != Running || phase != Idle || !dirty { return None; }
      dirty := false;
      var checkpoint := runtime.TakeCheckpoint();
      request := Awaiting(sentCount);
      sentCount := sentCount + 1;
      write := Some(checkpoint);
    }

    /** endSession resumed after an await that is over. */
    method ResumeEnd() returns (write: Option<Checkpoint>)
      requires Valid() && EndReady(Entries())
      modifies this, runtime
      ensures Valid() && Entries() == AdvanceEnd(old(Entries()), old(sentCount))
      ensures write.Some? == old(phase).AwaitingCheckpoint?
      ensures write.Some? ==> runtime.View() == Bumped(old(runtime.View())) && write.value == Snapshot(runtime.View())
      ensures write.None? ==> runtime.View() == old(runtime.View())
    {
      write := None;
      match phase
      case AwaitingWindows => phase := AwaitingRules;
      case AwaitingRules =>
        checkpointTimer := false;
        phase := AwaitingCheckpoint;
      case AwaitingCheckpoint =>
        var checkpoint := runtime.TakeCheckpoint();
        phase := Finalizing(sentCount);
        sentCount := sentCount + 1;
        write := Some(checkpoint);
    }
  }
}
