/** The writing workspace's service over its stored records. */
module EtherpadServices {
  import opened Options
  import opened KeyedLists
  import opened Etherpad

  class EtherpadService {
    var control: Control
    var admissions: seq<Admission>
    var pads: seq<Pad>
    var index: map<Key, nat>
    var told: seq<Told>

    function View(): Workspace reads this { Workspace(control, admissions, pads, index, told) }

    constructor ()
      ensures View() == FRESH
    {
      control, admissions, pads, index, told := Control(false, Stopped, None), [], [], map[], [];
    }

    method PutAdmission(a: Admission)
      modifies this`admissions
      ensures admissions == Upsert(old(admissions), ByOwner, Newest, a)
    {
      var i := 0;
      while i < |admissions| && admissions[i].owner != a.owner
        invariant 0 <= i <= Find(admissions, ByOwner, a.owner)
      {
        i := i + 1;
      }
      if i < |admissions| { admissions := admissions[i := a]; } else { admissions := admissions + [a]; }
    }

    method AttachSeat(owner: string, sessionId: string, participantId: string, duration: int, now: int) returns (ok: bool)
      modifies this`admissions, this`pads
      ensures Done(View(), ok) == Attach(old(View()), owner, sessionId, participantId, duration, now)
    {
      var admission := At(admissions, ByOwner, owner);
      if admission.None? || !admission.value.etherpad { return false; }
      PutAdmission(admission.value.(sessionId := Some(sessionId), participantId := participantId,
                                    expiresAt := now + duration * 60_000 + AFTER_DISCUSSION));
      ghost var stored := admissions;
      for i := 0 to |pads|
        invariant admissions == stored && |pads| == |old(pads)|
        invariant forall k :: 0 <= k < i ==> pads[k] == Attached(old(pads), owner, sessionId)[k]
        invariant forall k :: i <= k < |pads| ==> pads[k] == old(pads)[k]
      {
        if pads[i].key.GroupOf? || pads[i].key.owner != owner { continue; }
        pads := pads[i := pads[i].(sessionId := Some(sessionId))];
      }
      assert pads == Attached(old(pads), owner, sessionId);
      return true;
    }

    method CapturePad(i: nat, answer: Option<Content>, now: int) returns (ok: bool)
      requires i < |pads|
      modifies this`pads
      ensures Done(View(), ok) == Capture(old(View()), i, answer, now)
    {
      if pads[i].state.Captured? { return true; }
      if answer.None? || |answer.value.text| > MAX_TEXT {
        pads := pads[i := pads[i].(state := Errored)];
        return false;
      }
      pads := pads[i := pads[i].(content := answer, state := Captured, capturedAt := now)];
      return true;
    }

    method AddPad(pad: Pad)
      modifies this`pads, this`index
      ensures View() == Added(old(View()), pad)
    {
      index := index[pad.key := |pads|];
      pads := pads + [pad];
    }

    method Supervisor(command: Command)
      modifies this`told
      ensures View() == Tell(old(View()), command)
    {
      told := told + [Told(command, |pads|)];
    }

    method ActiveAdmissions(now: int) returns (active: seq<Admission>)
      ensures active == ActiveAt(admissions, now)
    {
      active := [];
      for i := 0 to |admissions|
        invariant active == ActiveAt(admissions[..i], now)
      {
        assert admissions[..i + 1][..i] == admissions[..i];
        if Active(admissions[i], now) { active := active + [admissions[i]]; }
      }
      assert admissions[..|admissions|] == admissions;
    }

    method RetireOver(env: World)
      modifies this`admissions
      ensures View() == Retired(old(View()), |old(admissions)|, env)
    {
      var listed := admissions;
      for i := 0 to |listed|
        invariant View() == Retired(old(View()), i, env)
      {
        var a := listed[i];
        if !Active(a, env.first) { continue; }
        if Over(a, env.facts) { PutAdmission(a.(done := true)); }
      }
    }

    method CreateGroupPads(active: seq<Admission>, facts: map<string, Facts>)
      modifies this`pads, this`index
      ensures View() == GroupPads(old(View()), active, facts)
    {
      for i := 0 to |active|
        invariant View() == GroupPads(old(View()), active[..i], facts)
      {
        assert active[..i + 1][..i] == active[..i];
        var a := active[i];
        if a.sessionId.None? || a.sessionId.value !in facts { continue; }
        if GroupOf(a.sessionId.value) in index { continue; }
        var f := facts[a.sessionId.value];
        if f.startedAt.None? || !(f.status.Running? || f.status.Completed?) { continue; }
        AddPad(NewPad(GroupOf(a.sessionId.value), a.sessionId, f.startedAt.value + f.duration * 60_000));
      }
      assert active[..|active|] == active;
    }

    /** The capture loop; a failure ends it. */
    method CaptureUncaptured(active: seq<Admission>, env: World) returns (ok: bool)
      modifies this`pads
      ensures Done(View(), ok) == CaptureDue(old(View()), |old(pads)|, active, env)
    {
      ok := true;
      ghost var was := View();
      for i := 0 to |pads|
        invariant |pads| == |was.pads|
        invariant ok ==> Done(View(), ok) == CaptureDue(was, i, active, env)
        invariant !ok ==> Done(View(), ok) == CaptureDue(was, |was.pads|, active, env)
      {
        if ok && !pads[i].state.Captured? && DueNow(pads[i], active, env.facts, env.second) {
          if env.created(i) {
            ok := CapturePad(i, env.answers(i), env.second);
          } else {
            ok := false;
          }
          if !ok { FailureStays(was, i + 1, active, env); }
        }
      }
    }

    method AnyUncaptured() returns (any: bool)
      ensures any <==> !AllCaptured(pads)
    {
      for i := 0 to |pads|
        invariant forall k :: 0 <= k < i ==> pads[k].state.Captured?
      {
        if !pads[i].state.Captured? { return true; }
      }
      return false;
    }

    method StopWhenDrained(before: Control, env: World)
      modifies this`told, this`control
      ensures View() == StopIfDrained(old(View()), before, env)
    {
      if control.enabled { return; }
      var active := ActiveAdmissions(env.last);
      if active != [] { return; }
      var uncaptured := AnyUncaptured();
      if uncaptured { return; }
      Supervisor(Stop);
      control := if env.stopped.None? then before.(state := Failed)
                 else Control(false, if env.stopped.value then Stopping else Stopped, None);
    }

    /** Start the server if it is needed, capture what is due, stop it if it is not. */
    method Supervise(active: seq<Admission>, env: World)
      modifies this`pads, this`told, this`control
      ensures View() == Supervised(old(View()), active, env)
    {
      var before := control;
      var uncaptured := AnyUncaptured();
      if control.enabled || active != [] || uncaptured {
        Supervisor(Start);
        if env.started.None? {
          control := before.(state := Failed);
          return;
        }
        if !env.started.value {
          var since := if before.transitionAt.Some? then before.transitionAt.value else env.second;
          control := if env.second - since > START_TIMEOUT then before.(state := Failed)
                     else Control(before.enabled, Starting, Some(since));
          return;
        }
        var ok := CaptureUncaptured(active, env);
        if !ok {
          control := before.(state := Failed);
          return;
        }
        control := Control(before.enabled, if before.enabled then Ready else Draining, None);
      }
      StopWhenDrained(before, env);
    }

    method Reconciled(env: World)
      modifies this
      ensures View() == Reconcile(old(View()), env)
    {
      RetireOver(env);
      var active := ActiveAdmissions(env.second);
      CreateGroupPads(active, env.facts);
      Supervise(active, env);
    }
  }

  /** A failed capture ends the loop. */
  lemma {:induction false} FailureStays(w: Workspace, n: nat, active: seq<Admission>, env: World)
    requires n <= |w.pads| && !CaptureDue(w, n, active, env).ok
    ensures CaptureDue(w, |w.pads|, active, env) == CaptureDue(w, n, active, env)
    decreases |w.pads| - n
  {
    if n < |w.pads| { FailureStays(w, n + 1, active, env); }
  }
}
