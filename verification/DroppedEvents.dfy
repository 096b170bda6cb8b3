/**
 * What a room does not record: events that arrive while it finalizes
 * (handleEvent in backend/chat-service/src/sessions/sessions.service.ts).
 */
module DroppedEvents {
  import opened Options
  import opened KeyedLists
  import opened WindowEvaluations
  import opened Records
  import opened CheckpointMerge
  import opened Convergence
  import opened StoredSnapshots
  import opened SessionRuntimes
  import opened EventRecording
  import opened ChatRoom
  import opened ChatRoomSafety
  import opened RoomRestarts

  // ---- nothing else is recorded ----

  /** Every processed event was stored at the start or handed over, and so was every buffered one. */
  ghost predicate OnlyHanded(w: World) {
    && (forall id :: id in w.live.processed ==> id in Restart(w.base).processed || id in Keys(w.handed, EventKey))
    && (forall e :: e in w.pending ==> e in w.handed)
  }

  lemma {:induction false} OnlyReplayed(l: Live, es: seq<TimelineEvent>, etherpad: bool, id: string)
    requires id in HandleAll(l, es, etherpad).processed
    ensures id in l.processed || id in Keys(es, EventKey)
  {
    if es != [] {
      var n := |es| - 1;
      KeysLast(es, EventKey);
      HandledOne(HandleAll(l, es[..n], etherpad), es[n], etherpad, id);
      if id in HandleAll(l, es[..n], etherpad).processed { OnlyReplayed(l, es[..n], etherpad, id); }
    }
  }

  lemma HandledOne(l: Live, e: TimelineEvent, etherpad: bool, id: string)
    requires id in HandleEvent(l, e, etherpad).processed
    ensures id in l.processed || id == e.eventId
  {}

  lemma HandedMore(handed: seq<TimelineEvent>, more: seq<TimelineEvent>)
    ensures forall id :: id in Keys(handed + more, EventKey) <==> id in Keys(handed, EventKey) || id in Keys(more, EventKey)
  {
    assert Keys(handed + more, EventKey) == Keys(handed, EventKey) + Keys(more, EventKey);
  }

  lemma InstallOnlyHanded(w: World, history: seq<TimelineEvent>)
    requires ControlOk(w.control, |w.sent|) && OnlyHanded(w) && Enabled(w, Install(history))
    ensures OnlyHanded(Next(w, Install(history)))
  {
    var es := AppendUnique([], EventKey, history + w.pending);
    ReplayRecords(Room(w.control.(stage := Running), Restart(w.base)), es, w.base.etherpad);
    AppendUniqueAdds([], EventKey, history + w.pending);
    var n := Next(w, Install(history));
    HandedMore(w.handed, history);
    forall id | id in n.live.processed ensures id in Restart(w.base).processed || id in Keys(n.handed, EventKey) {
      OnlyReplayed(Restart(w.base), es, w.base.etherpad, id);
      if id in Keys(es, EventKey) {
        MemberKey(es, EventKey, id);
        var e :| e in es && e.eventId == id;
        var i :| 0 <= i < |es| && es[i] == e;
        assert e in history + w.pending;
        if e in history { KeyOfMember(history, EventKey, e); } else { KeyOfMember(w.handed, EventKey, e); }
      }
    }
  }

  lemma DeliverOnlyHanded(w: World, e: TimelineEvent)
    requires OnlyHanded(w) && Enabled(w, Deliver(e))
    ensures OnlyHanded(Next(w, Deliver(e)))
  {
    HandedMore(w.handed, [e]);
    assert Keys([e], EventKey) == [e.eventId];
    var n := Next(w, Deliver(e));
    forall id | id in n.live.processed ensures id in Restart(w.base).processed || id in Keys(n.handed, EventKey) {
      if id !in w.live.processed { HandledOne(w.live, e, w.base.etherpad, id); }
    }
    forall x | x in n.pending ensures x in n.handed {
      assert x in w.pending || x == e;
    }
  }

  lemma OtherOnlyHanded(w: World, step: Step)
    requires OnlyHanded(w) && Enabled(w, step) && !step.Install? && !step.Deliver?
    ensures OnlyHanded(Next(w, step))
  {}

  lemma StepOnlyHanded(w: World, step: Step)
    requires ControlOk(w.control, |w.sent|) && OnlyHanded(w) && Enabled(w, step)
    ensures OnlyHanded(Next(w, step))
  {
    match step
    case Install(history) => InstallOnlyHanded(w, history);
    case Deliver(e) => DeliverOnlyHanded(w, e);
    case _ => OtherOnlyHanded(w, step);
  }

  lemma {:induction false} RunOnlyHanded(w: World, steps: seq<Step>, last: World)
    requires Inv(w) && OnlyHanded(w) && Run(w, steps, last)
    ensures OnlyHanded(last)
    decreases |steps|
  {
    if steps != [] {
      StepSafe(w, steps[0]);
      StepOnlyHanded(w, steps[0]);
      RunOnlyHanded(Next(w, steps[0]), steps[1..], last);
    }
  }

  /**
   * In every run, once the runtime is installed: an event of the room is
   * processed, and with it recorded, if and only if it was stored at the start or
   * handed over. Handed over means found in the replayed history, delivered before
   * the installation, or delivered while the room was live and not finalizing.
   */
  lemma {:induction false} RecordedExactly(w: World, steps: seq<Step>, last: World, e: TimelineEvent)
    requires Init(w) && Run(w, steps, last) && !last.control.stage.Starting?
    requires FromFeed(w.feed, e) && Handled(e)
    ensures e.eventId in last.live.processed <==> e in last.handed || e.eventId in w.base.processed
    ensures e.eventId in last.live.processed ==> Recorded(last.live, e, w.base.etherpad)
  {
    InitSafe(w);
    RunSafe(w, steps, last);
    SameStart(w, steps, last);
    RunOnlyHanded(w, steps, last);
    JoinedMembers([], w.base.processed);
    ProcessedFromHanded(last, e);
  }

  lemma ProcessedFromHanded(w: World, e: TimelineEvent)
    requires HandedOk(w) && OnlyHanded(w) && LiveOk(w) && GrownOk(w) && !w.control.stage.Starting?
    requires FromFeed(w.feed, e) && Handled(e)
    ensures e.eventId in w.live.processed <==> e in w.handed || e.eventId in Restart(w.base).processed
    ensures e.eventId in w.live.processed ==> Recorded(w.live, e, w.base.etherpad)
  {
    HandedKept(w);
    if e.eventId in w.live.processed && e.eventId !in Restart(w.base).processed {
      MemberKey(w.handed, EventKey, e.eventId);
      var x :| x in w.handed && x.eventId == e.eventId;
      var i :| 0 <= i < |w.handed| && w.handed[i] == x;
      assert FromFeed(w.feed, x);
    }
  }

  /** An event that arrives while the room finalizes, or after, leaves no trace. */
  lemma DroppedWhileFinalizing(w: World, e: TimelineEvent)
    requires Enabled(w, Deliver(e)) && (w.control.stage.Retired? || (w.control.stage.Running? && !w.control.phase.Idle?))
    ensures Next(w, Deliver(e)) == w
  {}

  // ---- a failed finalize loses an event ----

  function Note(id: string): TimelineEvent { TimelineEvent(id, "ann", false, 1, Text("hello", None)) }

  const START: Ranking := Ranking("", "moon", [], Time("", None), "system", None)

  function Feed1(): map<string, TimelineEvent> { map["$e" := Note("$e")] }

  function Room0(): World { Begin(Fresh(false, START), Feed1()) }

  lemma More(w: World, step: Step, steps: seq<Step>, last: World)
    requires Enabled(w, step) && Run(Next(w, step), steps, last)
    ensures Run(w, [step] + steps, last)
  {
    assert ([step] + steps)[1..] == steps;
  }

  lemma One(w: World, step: Step)
    requires Enabled(w, step)
    ensures Run(w, [step], Next(w, step))
  {
    assert [step][1..] == [];
  }

  /** The room at rest between two attempts to finalize: n snapshots sent, nothing recorded. */
  predicate Resting(w: World, n: nat) {
    && w.control == Control(Running, false, false, NoRequest, 0, 0, w.control.endTimer, Idle) && !w.control.endTimer.NoTimer?
    && w.live.processed == [] && w.handed == [] && w.feed == Feed1() && |w.sent| == n
  }

  predicate Waiting(w: World, n: nat) {
    && w.control == Control(Running, false, false, NoRequest, 0, 0, NoTimer, Finalizing(n))
    && w.live.processed == [] && w.handed == [] && w.feed == Feed1() && |w.sent| == n + 1
  }

  /** The room with its finalization in the given phase. */
  predicate Ending(w: World, n: nat, phase: Phase) {
    && w.control == Control(Running, false, false, NoRequest, 0, 0, NoTimer, phase)
    && w.live.processed == [] && w.handed == [] && w.feed == Feed1() && |w.sent| == n
  }

  lemma FirstPhases(w: World, n: nat)
    requires Resting(w, n)
    ensures Enabled(w, EndTimerFires) && Ending(Next(w, EndTimerFires), n, AwaitingWindows)
  {}

  lemma NextPhases(w: World, n: nat)
    ensures Ending(w, n, AwaitingWindows) ==> Enabled(w, EndAdvances) && Ending(Next(w, EndAdvances), n, AwaitingRules)
    ensures Ending(w, n, AwaitingRules) ==> Enabled(w, EndAdvances) && Ending(Next(w, EndAdvances), n, AwaitingCheckpoint)
    ensures Ending(w, n, AwaitingCheckpoint) ==> Enabled(w, EndAdvances) && Waiting(Next(w, EndAdvances), n)
  {}

  lemma StartsFinalizing(w: World, n: nat) returns (steps: seq<Step>, last: World)
    requires Resting(w, n)
    ensures Run(w, steps, last) && Waiting(last, n)
  {
    FirstPhases(w, n);
    var a := Next(w, EndTimerFires);
    NextPhases(a, n);
    var b := Next(a, EndAdvances);
    NextPhases(b, n);
    var c := Next(b, EndAdvances);
    NextPhases(c, n);
    last := Next(c, EndAdvances);
    One(c, EndAdvances);
    More(b, EndAdvances, [EndAdvances], last);
    More(a, EndAdvances, [EndAdvances] + [EndAdvances], last);
    steps := [EndTimerFires] + ([EndAdvances] + ([EndAdvances] + [EndAdvances]));
    More(w, EndTimerFires, [EndAdvances] + ([EndAdvances] + [EndAdvances]), last);
  }

  lemma RunFirst(w: World, steps: seq<Step>, last: World)
    requires Run(w, steps, last) && steps != []
    ensures Enabled(w, steps[0]) && Run(Next(w, steps[0]), steps[1..], last)
  {}

  lemma RunOfNone(w: World, last: World)
    requires Run(w, [], last)
    ensures last == w
  {}

  lemma Regroup(step: Step, rest: seq<Step>, second: seq<Step>)
    ensures ([step] + rest) + second == [step] + (rest + second)
  {}

  lemma SameRun(w: World, steps: seq<Step>, same: seq<Step>, last: World)
    requires Run(w, steps, last) && steps == same
    ensures Run(w, same, last)
  {}

  lemma JoinFirst(w: World, step: Step, rest: seq<Step>, second: seq<Step>, last: World)
    requires Enabled(w, step) && Run(Next(w, step), rest + second, last)
    ensures Run(w, ([step] + rest) + second, last)
  {
    More(w, step, rest + second, last);
    Regroup(step, rest, second);
    SameRun(w, [step] + (rest + second), ([step] + rest) + second, last);
  }

  lemma {:induction false} Joins(w: World, first: seq<Step>, middle: World, second: seq<Step>, last: World)
    requires Run(w, first, middle) && Run(middle, second, last)
    ensures Run(w, first + second, last)
    decreases |first|
  {
    if first == [] {
      RunOfNone(w, middle);
      assert first + second == second;
    } else {
      var step, rest := first[0], first[1..];
      RunFirst(w, first, middle);
      Joins(Next(w, step), rest, middle, second, last);
      JoinFirst(w, step, rest, second, last);
      assert first == [step] + rest;
    }
  }

  lemma Installs() returns (w: World)
    ensures Run(Room0(), [Install([])], w) && Resting(w, 0)
  {
    assert [] + Room0().pending == [];
    w := Next(Room0(), Install([]));
    One(Room0(), Install([]));
  }

  /** The finalize fails, the event came meanwhile, the retry succeeds. */
  lemma FailsThenSucceeds(w: World) returns (steps: seq<Step>, last: World)
    requires Waiting(w, 0)
    ensures Run(w, steps, last) && last.control.stage.Retired? && last.handed == [] && Deliver(Note("$e")) in steps
  {
    var drop, fail := Deliver(Note("$e")), FinalizeAnswered(false);
    DroppedWhileFinalizing(w, Note("$e"));
    var rested := Next(w, fail);
    One(w, fail);
    More(w, drop, [fail], rested);
    var again, waiting := StartsFinalizing(rested, 1);
    var applied := Next(waiting, StoreApplies(1));
    assert applied.schedule[|waiting.schedule|] == 1;
    last := Next(applied, FinalizeAnswered(true));
    One(applied, FinalizeAnswered(true));
    More(waiting, StoreApplies(1), [FinalizeAnswered(true)], last);
    Joins(rested, again, waiting, [StoreApplies(1)] + [FinalizeAnswered(true)], last);
    Joins(w, [drop] + [fail], rested, again + ([StoreApplies(1)] + [FinalizeAnswered(true)]), last);
    steps := [drop] + [fail] + (again + ([StoreApplies(1)] + [FinalizeAnswered(true)]));
    assert steps[0] == drop;
  }

  /** A run in which an event delivered during a finalize that then fails is never stored, though the retry succeeds. */
  lemma {:induction false} FailedFinalizeLosesAnEvent() returns (steps: seq<Step>, done: World)
    ensures Init(Room0()) && Run(Room0(), steps, done) && done.control.stage.Retired?
    ensures Deliver(Note("$e")) in steps && "$e" !in done.stored.processed
  {
    FreshIsGood(false, START, Feed1());
    var installed := Installs();
    var ending, waiting := StartsFinalizing(installed, 0);
    var rest, last := FailsThenSucceeds(waiting);
    Joins(Room0(), [Install([])], installed, ending, waiting);
    Joins(Room0(), [Install([])] + ending, waiting, rest, last);
    steps, done := [Install([])] + ending + rest, last;
    RecordedExactly(Room0(), steps, done, Note("$e"));
    FinalizedForGood(Room0(), steps, done, [], done);
  }
}
