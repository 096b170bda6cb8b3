/**
 * The writing workspace: admissions, pads and the supervisor that drains and
 * stops the Etherpad server (backend/session-manager/src/etherpad/etherpad.service.ts).
 * Every operation runs under one chain, so a run is a sequence of them.
 */
module Etherpad {
  import opened Options
  import opened KeyedLists
  import M = Matchmaking

  datatype ServerState = Stopped | Starting | Ready | Draining | Stopping | Failed

  datatype Control = Control(enabled: bool, state: ServerState, transitionAt: Option<int>)

  datatype Admission = Admission(
    owner: string, etherpad: bool, expiresAt: int, sessionId: Option<string>, participantId: string, done: bool)

  datatype PadState = Open | Captured | Errored

  /** The index entry of a pad: private pads by owner, the group pad by session. */
  datatype Key = EntryOf(owner: string) | ExitOf(owner: string) | GroupOf(session: string)

  datatype Content = Content(text: string, revision: int)

  datatype Pad = Pad(
    key: Key, sessionId: Option<string>, deadline: int,
    state: PadState, content: Option<Content>, capturedAt: int)

  datatype Command = Start | Stop

  /** A command to the supervisor and how many pads existed when it was sent. */
  datatype Told = Told(command: Command, pads: nat)

  datatype Workspace = Workspace(
    control: Control, admissions: seq<Admission>, pads: seq<Pad>, index: map<Key, nat>, told: seq<Told>)

  const FRESH := Workspace(Control(false, Stopped, None), [], [], map[], [])

  /** What the store says of a session. */
  datatype Facts = Facts(status: M.Status, startedAt: Option<int>, duration: int, finished: set<string>)

  const ADMISSION_TTL := 30 * 60_000
  const AFTER_DISCUSSION := 20 * 60_000
  const ENTRY_MINUTES := 5
  const EXIT_MINUTES := 2
  const START_TIMEOUT := 90_000
  const MAX_TEXT := 1000

  function ByOwner(a: Admission): string { a.owner }

  function Put(w: Workspace, a: Admission): Workspace { w.(admissions := Upsert(w.admissions, ByOwner, Newest, a)) }

  predicate Active(a: Admission, now: int) { a.etherpad && !a.done && a.expiresAt > now }

  function ActiveAt(admissions: seq<Admission>, now: int): seq<Admission> {
    if admissions == [] then []
    else
      var n := |admissions| - 1;
      ActiveAt(admissions[..n], now) + if Active(admissions[n], now) then [admissions[n]] else []
  }

  predicate AllCaptured(pads: seq<Pad>) { forall i :: 0 <= i < |pads| ==> pads[i].state.Captured? }

  function Tell(w: Workspace, command: Command): Workspace { w.(told := w.told + [Told(command, |w.pads|)]) }

  function Added(w: Workspace, pad: Pad): Workspace {
    w.(pads := w.pads + [pad], index := w.index[pad.key := |w.pads|])
  }

  function NewPad(key: Key, sessionId: Option<string>, deadline: int): Pad { Pad(key, sessionId, deadline, Open, None, 0) }

  // ---- the operations ----

  /** The answer of an operation: whether it succeeded. */
  datatype Done = Done(w: Workspace, ok: bool)

  function SetEnabled(w: Workspace, enabled: bool, configured: bool, now: int): Done {
    if w.control.state.Starting? || w.control.state.Stopping? then Done(w, false)
    else if enabled && !configured then Done(w, false)
    else Done(w.(control := Control(enabled, if enabled then Starting else Draining, Some(now))), true)
  }

  function Prepare(w: Workspace, owner: string, now: int): Done {
    if At(w.admissions, ByOwner, owner).Some? then Done(w, true)
    else if w.control.enabled && w.control.state != Ready then Done(w, false)
    else Done(Put(w, Admission(owner, w.control.enabled, now + ADMISSION_TTL, None, "", false)), true)
  }

  function Attached(pads: seq<Pad>, owner: string, sessionId: string): (after: seq<Pad>)
    ensures |after| == |pads|
  {
    seq(|pads|, i requires 0 <= i < |pads| =>
      if !pads[i].key.GroupOf? && pads[i].key.owner == owner then pads[i].(sessionId := Some(sessionId)) else pads[i])
  }

  function Attach(w: Workspace, owner: string, sessionId: string, participantId: string, duration: int, now: int): Done {
    var a := At(w.admissions, ByOwner, owner);
    if a.None? || !a.value.etherpad then Done(w, false)
    else
      var seated := a.value.(sessionId := Some(sessionId), participantId := participantId,
                             expiresAt := now + duration * 60_000 + AFTER_DISCUSSION);
      Done(Put(w, seated).(pads := Attached(w.pads, owner, sessionId)), true)
  }

  /** capture; answer is what closing the pad on the server returned, if anything. */
  function Capture(w: Workspace, i: nat, answer: Option<Content>, now: int): Done
    requires i < |w.pads|
  {
    if w.pads[i].state.Captured? then Done(w, true)
    else if answer.Some? && |answer.value.text| <= MAX_TEXT then
      Done(w.(pads := w.pads[i := w.pads[i].(content := answer, state := Captured, capturedAt := now)]), true)
    else Done(w.(pads := w.pads[i := w.pads[i].(state := Errored)]), false)
  }

  /** What the server does during one call of pad: start, create, close. */
  datatype Server = Server(ready: bool, created: bool, answer: Option<Content>)

  /** The checks of pad on a session phase. */
  predicate PhaseOpen(a: Admission, key: Key, sessionId: string, facts: Option<Facts>, now: int) {
    key.EntryOf? ||
    (a.sessionId == Some(sessionId) && facts.Some? &&
     var f := facts.value;
     if key.GroupOf? then key.session == sessionId && (f.status.Running? || f.status.Completed?)
     else f.status.Completed? || (f.status.Running? && f.startedAt.Some? && now >= f.startedAt.value + f.duration * 60_000))
  }

  /** The deadline of a new pad; a group without a start has none and the call fails. */
  function DeadlineOf(key: Key, facts: Option<Facts>, now: int): Option<int> {
    match key
    case GroupOf(_) =>
      if facts.Some? && facts.value.startedAt.Some? then Some(facts.value.startedAt.value + facts.value.duration * 60_000)
      else None
    case EntryOf(_) => Some(now + ENTRY_MINUTES * 60_000)
    case ExitOf(_) => Some(now + EXIT_MINUTES * 60_000)
  }

  /** The pad record behind pad: the indexed one, or a new one where the rules allow it. */
  function Ensured(w: Workspace, a: Admission, key: Key, sessionId: string, facts: Option<Facts>, now: int): Done {
    if key in w.index then Done(w, true)
    else if a.done || a.expiresAt <= now || (key.EntryOf? && a.sessionId.Some?) then Done(w, false)
    else
      var deadline := DeadlineOf(key, facts, now);
      if deadline.None? then Done(w, false)
      else Done(Added(w, NewPad(key, if key.EntryOf? then a.sessionId else Some(sessionId), deadline.value)), true)
  }

  function OpenPad(w: Workspace, owner: string, key: Key, sessionId: string, facts: Option<Facts>,
                   now: int, later: int, server: Server): Done {
    var a := At(w.admissions, ByOwner, owner);
    if a.None? || !a.value.etherpad || (!key.GroupOf? && key.owner != owner) then Done(w, false)
    else if !PhaseOpen(a.value, key, sessionId, facts, now) then Done(w, false)
    else
      var ensured := Ensured(w, a.value, key, sessionId, facts, now);
      if !ensured.ok || key !in ensured.w.index then ensured
      else Served(ensured.w, ensured.w.index[key], later, server)
  }

  function Served(w: Workspace, i: nat, now: int, server: Server): Done {
    if i >= |w.pads| || w.pads[i].state.Captured? then Done(w, true)
    else
      var started := Tell(w, Start);
      if !server.ready || !server.created then Done(started, false)
      else if now >= w.pads[i].deadline then Capture(started, i, server.answer, now)
      else Done(started, true)
  }

  function Finish(w: Workspace, owner: string, i: nat, access: bool, now: int, answer: Option<Content>): Done {
    if i >= |w.pads| then Done(w, false)
    else
      var key := w.pads[i].key;
      if (if key.GroupOf? then !access else key.owner != owner) then Done(w, false)
      else if key.GroupOf? && now < w.pads[i].deadline then Done(w, false)
      else
        var saved := Capture(w, i, answer, now);
        var a := At(w.admissions, ByOwner, owner);
        if saved.ok && key.ExitOf? && a.Some? then Done(Put(saved.w, a.value.(done := true)), true) else saved
  }

  function Leave(w: Workspace, owner: string): Workspace {
    var a := At(w.admissions, ByOwner, owner);
    if a.None? || !a.value.etherpad then w else Put(w, a.value.(done := true))
  }

  // ---- reconcile ----

  /** Everything one reconcile meets: store reads, the three clock readings, and the server's answers pad by pad. */
  datatype World = World(
    facts: map<string, Facts>, first: int, second: int, last: int,
    started: Option<bool>, created: nat -> bool, answers: nat -> Option<Content>, stopped: Option<bool>)

  predicate Over(a: Admission, facts: map<string, Facts>) {
    a.sessionId.Some? && a.sessionId.value in facts
    && (facts[a.sessionId.value].status.Aborted? || a.participantId in facts[a.sessionId.value].finished)
  }

  /** Aborted and finished participants no longer keep the server alive. */
  function Retired(w: Workspace, n: nat, env: World): (after: Workspace)
    requires n <= |w.admissions|
  {
    if n == 0 then w
    else
      var before, a := Retired(w, n - 1, env), w.admissions[n - 1];
      if Active(a, env.first) && Over(a, env.facts) then Put(before, a.(done := true)) else before
  }

  /** The group pad of every active session that started. */
  function GroupPads(w: Workspace, active: seq<Admission>, facts: map<string, Facts>): Workspace {
    if active == [] then w
    else
      var before, a := GroupPads(w, active[..|active| - 1], facts), active[|active| - 1];
      if a.sessionId.None? || a.sessionId.value !in facts || GroupOf(a.sessionId.value) in before.index then before
      else
        var f := facts[a.sessionId.value];
        if f.startedAt.None? || !(f.status.Running? || f.status.Completed?) then before
        else Added(before, NewPad(GroupOf(a.sessionId.value), a.sessionId, f.startedAt.value + f.duration * 60_000))
  }

  predicate Abandoned(p: Pad, active: seq<Admission>) {
    !p.key.GroupOf? && p.key.owner !in Keys(active, ByOwner)
  }

  predicate DueNow(p: Pad, active: seq<Admission>, facts: map<string, Facts>, now: int) {
    || now >= p.deadline
    || Abandoned(p, active)
    || (p.sessionId.Some? && p.sessionId.value in facts && facts[p.sessionId.value].status.Aborted?)
  }

  /** The capture loop over the first n pads; it stops at the first failure. */
  function CaptureDue(w: Workspace, n: nat, active: seq<Admission>, env: World): (done: Done)
    requires n <= |w.pads|
    ensures |done.w.pads| == |w.pads|
  {
    if n == 0 then Done(w, true)
    else
      var before := CaptureDue(w, n - 1, active, env);
      var i := n - 1;
      if !before.ok || before.w.pads[i].state.Captured? || !DueNow(before.w.pads[i], active, env.facts, env.second) then before
      else if !env.created(i) then Done(before.w, false)
      else Capture(before.w, i, env.answers(i), env.second)
  }

  function Broken(w: Workspace, control: Control): Workspace { w.(control := control.(state := Failed)) }

  predicate Drained(w: Workspace, now: int) {
    !w.control.enabled && ActiveAt(w.admissions, now) == [] && AllCaptured(w.pads)
  }

  /** The last part of reconcile: stop the server once nothing is left. */
  function StopIfDrained(w: Workspace, control: Control, env: World): Workspace {
    if !Drained(w, env.last) then w
    else
      var told := Tell(w, Stop);
      if env.stopped.None? then Broken(told, control)
      else told.(control := Control(false, if env.stopped.value then Stopping else Stopped, None))
  }

  /** reconcile once the group pads exist. */
  function Supervised(w: Workspace, active: seq<Admission>, env: World): Workspace {
    var control := w.control;
    if !control.enabled && active == [] && AllCaptured(w.pads) then StopIfDrained(w, control, env)
    else
      var told := Tell(w, Start);
      if env.started.None? then Broken(told, control)
      else if !env.started.value then
        var since := if control.transitionAt.Some? then control.transitionAt.value else env.second;
        if env.second - since > START_TIMEOUT then Broken(told, control)
        else told.(control := Control(control.enabled, Starting, Some(since)))
      else
        var captured := CaptureDue(told, |told.pads|, active, env);
        if !captured.ok then Broken(captured.w, control)
        else
          StopIfDrained(captured.w.(control := Control(control.enabled, if control.enabled then Ready else Draining, None)),
                   control, env)
  }

  function Reconcile(w: Workspace, env: World): Workspace {
    var retired := Retired(w, |w.admissions|, env);
    var active := ActiveAt(retired.admissions, env.second);
    Supervised(GroupPads(retired, active, env.facts), active, env)
  }

  // ---- runs ----

  datatype Step =
    | Switch(enabled: bool, configured: bool, now: int)
    | Arrive(owner: string, now: int)
    | Seat(owner: string, sessionId: string, participantId: string, duration: int, now: int)
    | Write(owner: string, key: Key, sessionId: string, facts: Option<Facts>, now: int, later: int, server: Server)
    | FinishPad(owner: string, i: nat, access: bool, now: int, answer: Option<Content>)
    | Depart(owner: string)
    | Supervise(env: World)

  function Next(w: Workspace, step: Step): Workspace {
    match step
    case Switch(enabled, configured, now) => SetEnabled(w, enabled, configured, now).w
    case Arrive(owner, now) => Prepare(w, owner, now).w
    case Seat(owner, sessionId, participantId, duration, now) => Attach(w, owner, sessionId, participantId, duration, now).w
    case Write(owner, key, sessionId, facts, now, later, server) => OpenPad(w, owner, key, sessionId, facts, now, later, server).w
    case FinishPad(owner, i, access, now, answer) => Finish(w, owner, i, access, now, answer).w
    case Depart(owner) => Leave(w, owner)
    case Supervise(env) => Reconcile(w, env)
  }

  function Run(w: Workspace, steps: seq<Step>): Workspace {
    if steps == [] then w else Next(Run(w, steps[..|steps| - 1]), steps[|steps| - 1])
  }
}

/** What every serialized run of the writing workspace keeps. */
module EtherpadSafety {
  import opened Options
  import opened KeyedLists
  import opened Etherpad

  // ---- pads: captured for good, one per index entry, none lost to a stop ----

  /** What no operation undoes: pads stay, and a captured one keeps its content. */
  ghost predicate PadsKept(pads: seq<Pad>, after: seq<Pad>) {
    |pads| <= |after| && forall i :: 0 <= i < |pads| ==> PadKept(pads[i], after[i])
  }

  predicate PadKept(p: Pad, after: Pad) {
    && after.key == p.key && after.deadline == p.deadline
    && (p.state.Captured? ==> after.state.Captured? && after.content == p.content && after.capturedAt == p.capturedAt)
  }

  /** Every pad is indexed, and the index leads to it alone. */
  ghost predicate Indexed(w: Workspace) {
    && (forall i :: 0 <= i < |w.pads| ==> w.pads[i].key in w.index && w.index[w.pads[i].key] == i)
    && (forall k :: k in w.index ==> w.index[k] < |w.pads| && w.pads[w.index[k]].key == k)
  }

  predicate Sound(p: Pad) {
    if p.state.Captured? then p.content.Some? && |p.content.value.text| <= MAX_TEXT else p.content.None?
  }

  predicate AllSound(pads: seq<Pad>) { forall i :: 0 <= i < |pads| ==> Sound(pads[i]) }

  /** Whatever existed when the server was told to stop had been captured. */
  ghost predicate StopsDrained(told: seq<Told>, pads: seq<Pad>) {
    forall k :: 0 <= k < |told| && told[k].command.Stop? ==> told[k].pads <= |pads| && AllCaptured(pads[..told[k].pads])
  }

  ghost predicate Good(w: Workspace) { Indexed(w) && AllSound(w.pads) && StopsDrained(w.told, w.pads) }

  /** One operation's mark on the pads: nothing undone, the log only longer, and no Stop in the new part unless drained. */
  ghost predicate Keeps(w: Workspace, after: Workspace) {
    PadsKept(w.pads, after.pads) && Good(after) && w.told <= after.told
  }

  lemma KeepsTransitive(a: Workspace, b: Workspace, c: Workspace)
    requires Keeps(a, b) && Keeps(b, c)
    ensures Keeps(a, c)
  {
    forall i | 0 <= i < |a.pads| ensures PadKept(a.pads[i], c.pads[i]) {
      assert PadKept(a.pads[i], b.pads[i]);
      assert PadKept(b.pads[i], c.pads[i]);
    }
  }

  lemma StopsStayDrained(told: seq<Told>, pads: seq<Pad>, after: seq<Pad>)
    requires StopsDrained(told, pads) && PadsKept(pads, after)
    ensures StopsDrained(told, after)
  {
    forall k | 0 <= k < |told| && told[k].command.Stop? ensures told[k].pads <= |after| && AllCaptured(after[..told[k].pads]) {
      forall i | 0 <= i < told[k].pads ensures after[i].state.Captured? {
        assert PadKept(pads[i], after[i]);
        assert pads[..told[k].pads][i].state.Captured?;
      }
    }
  }

  lemma SamePads(w: Workspace, after: Workspace)
    requires Good(w) && after.pads == w.pads && after.index == w.index && after.told == w.told
    ensures Keeps(w, after)
  {}

  lemma StartKeeps(w: Workspace)
    requires Good(w)
    ensures Keeps(w, Tell(w, Start))
  {}

  lemma StopKeeps(w: Workspace)
    requires Good(w) && AllCaptured(w.pads)
    ensures Keeps(w, Tell(w, Stop))
  {
    assert w.pads[..|w.pads|] == w.pads;
  }

  lemma AddKeeps(w: Workspace, key: Key, sessionId: Option<string>, deadline: int)
    requires Good(w) && key !in w.index
    ensures Keeps(w, Added(w, NewPad(key, sessionId, deadline)))
  {
    StopsStayDrained(w.told, w.pads, Added(w, NewPad(key, sessionId, deadline)).pads);
  }

  lemma CaptureKeeps(w: Workspace, i: nat, answer: Option<Content>, now: int)
    requires Good(w) && i < |w.pads|
    ensures Keeps(w, Capture(w, i, answer, now).w)
  {
    StopsStayDrained(w.told, w.pads, Capture(w, i, answer, now).w.pads);
  }

  lemma AttachKeeps(w: Workspace, owner: string, sessionId: string, participantId: string, duration: int, now: int)
    requires Good(w)
    ensures Keeps(w, Attach(w, owner, sessionId, participantId, duration, now).w)
  {
    StopsStayDrained(w.told, w.pads, Attached(w.pads, owner, sessionId));
  }

  lemma ServedKeeps(w: Workspace, i: nat, now: int, server: Server)
    requires Good(w)
    ensures Keeps(w, Served(w, i, now, server).w)
  {
    if i < |w.pads| && !w.pads[i].state.Captured? {
      StartKeeps(w);
      CaptureKeeps(Tell(w, Start), i, server.answer, now);
      KeepsTransitive(w, Tell(w, Start), Capture(Tell(w, Start), i, server.answer, now).w);
    }
  }

  lemma OpenKeeps(w: Workspace, owner: string, key: Key, sessionId: string, facts: Option<Facts>,
                  now: int, later: int, server: Server)
    requires Good(w)
    ensures Keeps(w, OpenPad(w, owner, key, sessionId, facts, now, later, server).w)
  {
    var a := At(w.admissions, ByOwner, owner);
    if a.Some? {
      var ensured := Ensured(w, a.value, key, sessionId, facts, now);
      var deadline := DeadlineOf(key, facts, now);
      if key !in w.index && deadline.Some? {
        AddKeeps(w, key, if key.EntryOf? then a.value.sessionId else Some(sessionId), deadline.value);
      }
      if ensured.ok && key in ensured.w.index {
        ServedKeeps(ensured.w, ensured.w.index[key], later, server);
        KeepsTransitive(w, ensured.w, Served(ensured.w, ensured.w.index[key], later, server).w);
      }
    }
  }

  lemma FinishKeeps(w: Workspace, owner: string, i: nat, access: bool, now: int, answer: Option<Content>)
    requires Good(w)
    ensures Keeps(w, Finish(w, owner, i, access, now, answer).w)
  {
    if i < |w.pads| { CaptureKeeps(w, i, answer, now); }
  }

  lemma {:induction false} RetiredKeepsPads(w: Workspace, n: nat, env: World)
    requires n <= |w.admissions|
    ensures var after := Retired(w, n, env); after.(admissions := w.admissions) == w
  {
    if n > 0 { RetiredKeepsPads(w, n - 1, env); }
  }

  /** One turn of the loop adds nothing, or a group pad not indexed yet. */
  lemma GroupPadCases(w: Workspace, active: seq<Admission>, facts: map<string, Facts>, before: Workspace) returns (pad: Pad)
    requires active != [] && before == GroupPads(w, active[..|active| - 1], facts)
    ensures var after := GroupPads(w, active, facts);
            after == before
            || (pad == NewPad(pad.key, pad.sessionId, pad.deadline) && pad.key !in before.index && after == Added(before, pad))
  {
    var a := active[|active| - 1];
    pad := NewPad(GroupOf(""), None, 0);
    if a.sessionId.Some? && a.sessionId.value in facts && facts[a.sessionId.value].startedAt.Some? {
      var f := facts[a.sessionId.value];
      pad := NewPad(GroupOf(a.sessionId.value), a.sessionId, f.startedAt.value + f.duration * 60_000);
    }
  }

  lemma GroupPadStep(w: Workspace, active: seq<Admission>, facts: map<string, Facts>, before: Workspace)
    requires active != [] && before == GroupPads(w, active[..|active| - 1], facts) && Good(before)
    ensures Keeps(before, GroupPads(w, active, facts))
  {
    var pad := GroupPadCases(w, active, facts, before);
    if GroupPads(w, active, facts) == before {
      SamePads(before, before);
    } else {
      AddKeeps(before, pad.key, pad.sessionId, pad.deadline);
    }
  }

  lemma {:induction false} GroupPadsKeep(w: Workspace, active: seq<Admission>, facts: map<string, Facts>)
    requires Good(w)
    ensures Keeps(w, GroupPads(w, active, facts))
  {
    if active == [] {
      SamePads(w, w);
    } else {
      var before := GroupPads(w, active[..|active| - 1], facts);
      GroupPadsKeep(w, active[..|active| - 1], facts);
      GroupPadStep(w, active, facts, before);
      KeepsTransitive(w, before, GroupPads(w, active, facts));
    }
  }

  lemma CaptureDueStep(w: Workspace, before: Workspace, n: nat, active: seq<Admission>, env: World)
    requires 0 < n <= |w.pads| && before == CaptureDue(w, n - 1, active, env).w && Good(before)
    ensures Keeps(before, CaptureDue(w, n, active, env).w)
  {
    CaptureKeeps(before, n - 1, env.answers(n - 1), env.second);
    SamePads(before, before);
  }

  lemma {:induction false} CaptureDueKeeps(w: Workspace, n: nat, active: seq<Admission>, env: World)
    requires Good(w) && n <= |w.pads|
    ensures Keeps(w, CaptureDue(w, n, active, env).w)
  {
    if n == 0 {
      SamePads(w, w);
    } else {
      var before := CaptureDue(w, n - 1, active, env).w;
      CaptureDueKeeps(w, n - 1, active, env);
      CaptureDueStep(w, before, n, active, env);
      KeepsTransitive(w, before, CaptureDue(w, n, active, env).w);
    }
  }

  lemma StopIfDrainedKeeps(w: Workspace, control: Control, env: World)
    requires Good(w)
    ensures Keeps(w, StopIfDrained(w, control, env))
  {
    if Drained(w, env.last) { StopKeeps(w); }
  }

  /** What the supervisor's start leads to. */
  lemma StartedCases(w: Workspace, active: seq<Admission>, env: World)
    requires w.control.enabled || active != [] || !AllCaptured(w.pads)
    ensures var told, after := Tell(w, Start), Supervised(w, active, env);
            var captured := CaptureDue(told, |told.pads|, active, env).w;
            || after == told.(control := after.control)
            || after == captured.(control := after.control)
            || after == StopIfDrained(captured.(control := Settled(w.control)), w.control, env)
  {}

  function Settled(control: Control): Control {
    Control(control.enabled, if control.enabled then Ready else Draining, None)
  }

  lemma ControlKeeps(w: Workspace, after: Workspace, control: Control)
    requires Keeps(w, after)
    ensures Keeps(w, after.(control := control))
  {}

  lemma SupervisedKeeps(w: Workspace, active: seq<Admission>, env: World)
    requires Good(w)
    ensures Keeps(w, Supervised(w, active, env))
  {
    if !w.control.enabled && active == [] && AllCaptured(w.pads) {
      StopIfDrainedKeeps(w, w.control, env);
    } else {
      var told, after := Tell(w, Start), Supervised(w, active, env);
      StartKeeps(w);
      ControlKeeps(w, told, after.control);
      CaptureDueKeeps(told, |told.pads|, active, env);
      var captured := CaptureDue(told, |told.pads|, active, env).w;
      KeepsTransitive(w, told, captured);
      ControlKeeps(w, captured, after.control);
      var settled := captured.(control := Settled(w.control));
      ControlKeeps(w, captured, Settled(w.control));
      StopIfDrainedKeeps(settled, w.control, env);
      KeepsTransitive(w, settled, StopIfDrained(settled, w.control, env));
      StartedCases(w, active, env);
    }
  }

  lemma ReconcileKeeps(w: Workspace, env: World)
    requires Good(w)
    ensures Keeps(w, Reconcile(w, env))
  {
    var retired := Retired(w, |w.admissions|, env);
    RetiredKeepsPads(w, |w.admissions|, env);
    SamePads(w, retired);
    var active := ActiveAt(retired.admissions, env.second);
    GroupPadsKeep(retired, active, env.facts);
    var grouped := GroupPads(retired, active, env.facts);
    SupervisedKeeps(grouped, active, env);
    KeepsTransitive(w, retired, grouped);
    KeepsTransitive(w, grouped, Supervised(grouped, active, env));
  }

  lemma StepKeeps(w: Workspace, step: Step)
    requires Good(w)
    ensures Keeps(w, Next(w, step))
  {
    match step
    case Seat(owner, sessionId, participantId, duration, now) => AttachKeeps(w, owner, sessionId, participantId, duration, now);
    case Write(owner, key, sessionId, facts, now, later, server) => OpenKeeps(w, owner, key, sessionId, facts, now, later, server);
    case FinishPad(owner, i, access, now, answer) => FinishKeeps(w, owner, i, access, now, answer);
    case Supervise(env) => ReconcileKeeps(w, env);
    case _ => SamePads(w, Next(w, step));
  }

  lemma {:induction false} RunKeeps(w: Workspace, steps: seq<Step>)
    requires Good(w)
    ensures Keeps(w, Run(w, steps))
  {
    if steps != [] {
      var n := |steps| - 1;
      RunKeeps(w, steps[..n]);
      StepKeeps(Run(w, steps[..n]), steps[n]);
      KeepsTransitive(w, Run(w, steps[..n]), Run(w, steps));
    }
  }

  /** Over any further run, a captured pad keeps its text, revision and capture time. */
  lemma {:induction false} CapturedForGood(before: seq<Step>, later: seq<Step>, i: nat)
    requires i < |Run(FRESH, before).pads| && Run(FRESH, before).pads[i].state.Captured?
    ensures var now, after := Run(FRESH, before).pads, Run(Run(FRESH, before), later).pads;
            i < |after| && after[i].state.Captured? && after[i].content == now[i].content && after[i].capturedAt == now[i].capturedAt
  {
    RunKeeps(FRESH, before);
    RunKeeps(Run(FRESH, before), later);
    assert PadKept(Run(FRESH, before).pads[i], Run(Run(FRESH, before), later).pads[i]);
  }

  /** In every run a session has at most one group pad, and an owner one entry and one exit pad. */
  lemma OnePadEach(steps: seq<Step>, i: nat, j: nat)
    requires i < |Run(FRESH, steps).pads| && j < |Run(FRESH, steps).pads|
    requires Run(FRESH, steps).pads[i].key == Run(FRESH, steps).pads[j].key
    ensures i == j && Run(FRESH, steps).pads[i].key in Run(FRESH, steps).index
  {
    RunKeeps(FRESH, steps);
  }

  /** In every run, each pad that existed when a stop was sent had been captured before, and still is. */
  lemma NothingLostToAStop(steps: seq<Step>, k: nat, i: nat)
    requires k < |Run(FRESH, steps).told| && Run(FRESH, steps).told[k].command.Stop?
    requires i < Run(FRESH, steps).told[k].pads
    ensures i < |Run(FRESH, steps).pads| && Run(FRESH, steps).pads[i].state.Captured?
    ensures Run(FRESH, steps).pads[i].content.Some?
  {
    RunKeeps(FRESH, steps);
    var w := Run(FRESH, steps);
    assert w.pads[..w.told[k].pads][i].state.Captured?;
    assert Sound(w.pads[i]);
  }

  // ---- when the stop is sent ----

  predicate StopSent(w: Workspace, after: Workspace) {
    |after.told| > |w.told| && after.told[|after.told| - 1].command.Stop?
  }

  lemma ActiveExact(admissions: seq<Admission>, now: int)
    ensures ActiveAt(admissions, now) == [] <==> forall i :: 0 <= i < |admissions| ==> !Active(admissions[i], now)
  {}

  /** The server answers everything that a reconcile asks. */
  ghost predicate Answering(env: World) {
    && env.started == Some(true)
    && forall i: nat :: env.created(i) && env.answers(i).Some? && |env.answers(i).value.text| <= MAX_TEXT
  }

  /** Captured already, or captured by a reconcile at its time. */
  predicate WillBeCaptured(p: Pad, active: seq<Admission>, env: World) {
    p.state.Captured? || DueNow(p, active, env.facts, env.second)
  }

  predicate AllWillBeCaptured(pads: seq<Pad>, active: seq<Admission>, env: World) {
    forall i :: 0 <= i < |pads| ==> WillBeCaptured(pads[i], active, env)
  }

  lemma {:induction false} CaptureDueExact(w: Workspace, n: nat, active: seq<Admission>, env: World)
    requires Answering(env) && n <= |w.pads|
    ensures CaptureDue(w, n, active, env).ok
    ensures var after := CaptureDue(w, n, active, env).w;
            && (forall i :: n <= i < |w.pads| ==> after.pads[i] == w.pads[i])
            && (forall i :: 0 <= i < n ==> (after.pads[i].state.Captured? <==> WillBeCaptured(w.pads[i], active, env)))
            && after.control == w.control && after.admissions == w.admissions && after.told == w.told
  {
    if n > 0 { CaptureDueExact(w, n - 1, active, env); }
  }

  lemma StopIfDrainedExact(w: Workspace, control: Control, env: World)
    ensures StopSent(w, StopIfDrained(w, control, env)) <==> Drained(w, env.last)
    ensures !StopSent(w, StopIfDrained(w, control, env)) ==> StopIfDrained(w, control, env) == w
  {}

  /** What a reconcile has before it turns to the server: admissions retired, group pads created. */
  function Readied(w: Workspace, env: World): Workspace {
    var retired := Retired(w, |w.admissions|, env);
    GroupPads(retired, ActiveAt(retired.admissions, env.second), env.facts)
  }

  lemma ReadiedSame(w: Workspace, env: World)
    ensures Readied(w, env).control == w.control && Readied(w, env).told == w.told
    ensures Readied(w, env).admissions == Retired(w, |w.admissions|, env).admissions
    ensures Reconcile(w, env) == Supervised(Readied(w, env), ActiveAt(Readied(w, env).admissions, env.second), env)
  {
    var retired := Retired(w, |w.admissions|, env);
    RetiredKeepsPads(w, |w.admissions|, env);
    GroupPadsControl(retired, ActiveAt(retired.admissions, env.second), env.facts);
  }

  /**
   * With a server that answers, a reconcile sends the stop exactly when the
   * mode is off, no writing admission is active any more, and every pad is
   * captured or due for capture now.
   */
  lemma StopsExactly(w: Workspace, env: World)
    requires Answering(env)
    ensures var ready := Readied(w, env);
            StopSent(w, Reconcile(w, env)) <==>
              && !w.control.enabled
              && ActiveAt(ready.admissions, env.last) == []
              && AllWillBeCaptured(ready.pads, ActiveAt(ready.admissions, env.second), env)
  {
    ReadiedSame(w, env);
    var ready := Readied(w, env);
    SupervisedStopsExactly(ready, ActiveAt(ready.admissions, env.second), env);
    assert StopSent(ready, Reconcile(w, env)) <==> StopSent(w, Reconcile(w, env));
  }

  /** The capture loop captures everything exactly when everything is captured or due. */
  lemma AllCapturedExactly(w: Workspace, active: seq<Admission>, env: World)
    requires Answering(env)
    ensures CaptureDue(w, |w.pads|, active, env).ok
    ensures var after := CaptureDue(w, |w.pads|, active, env).w;
            && after.control == w.control && after.admissions == w.admissions && after.told == w.told
            && (AllCaptured(after.pads) <==> AllWillBeCaptured(w.pads, active, env))
  {
    CaptureDueExact(w, |w.pads|, active, env);
  }

  lemma SupervisedStopsExactly(w: Workspace, active: seq<Admission>, env: World)
    requires Answering(env)
    ensures StopSent(w, Supervised(w, active, env)) <==>
              !w.control.enabled && ActiveAt(w.admissions, env.last) == [] && AllWillBeCaptured(w.pads, active, env)
  {
    if !w.control.enabled && active == [] && AllCaptured(w.pads) {
      StopIfDrainedExact(w, w.control, env);
    } else {
      var told := Tell(w, Start);
      AllCapturedExactly(told, active, env);
      var settled := CaptureDue(told, |told.pads|, active, env).w.(control := Settled(w.control));
      StopIfDrainedExact(settled, w.control, env);
      assert Supervised(w, active, env) == StopIfDrained(settled, w.control, env);
      assert settled.told == w.told + [Told(Start, |w.pads|)];
    }
  }

  lemma {:induction false} GroupPadsControl(w: Workspace, active: seq<Admission>, facts: map<string, Facts>)
    ensures var after := GroupPads(w, active, facts);
            after.control == w.control && after.admissions == w.admissions && after.told == w.told
  {
    if active != [] { GroupPadsControl(w, active[..|active| - 1], facts); }
  }

  lemma SupervisedStopsOnlyWhenDrained(w: Workspace, active: seq<Admission>, env: World)
    requires StopSent(w, Supervised(w, active, env))
    ensures var after := Supervised(w, active, env);
            !after.control.enabled && AllCaptured(after.pads) && ActiveAt(after.admissions, env.last) == []
  {
    var told := Tell(w, Start);
    CaptureDueControl(told, |told.pads|, active, env);
    var captured := CaptureDue(told, |told.pads|, active, env).w;
    if w.control.enabled || active != [] || !AllCaptured(w.pads) {
      StartedCases(w, active, env);
      StopIfDrainedExact(captured.(control := Settled(w.control)), w.control, env);
    }
  }

  /** Whatever the server answers: a stop leaves the mode off, nobody writing and every pad captured. */
  lemma StopsOnlyWhenDrained(w: Workspace, env: World)
    requires StopSent(w, Reconcile(w, env))
    ensures var after := Reconcile(w, env);
            && !after.control.enabled && AllCaptured(after.pads)
            && forall i :: 0 <= i < |after.admissions| ==> !Active(after.admissions[i], env.last)
  {
    ReadiedSame(w, env);
    var ready := Readied(w, env);
    assert StopSent(ready, Reconcile(w, env));
    SupervisedStopsOnlyWhenDrained(ready, ActiveAt(ready.admissions, env.second), env);
    ActiveExact(Reconcile(w, env).admissions, env.last);
  }

  lemma {:induction false} CaptureDueControl(w: Workspace, n: nat, active: seq<Admission>, env: World)
    requires n <= |w.pads|
    ensures var after := CaptureDue(w, n, active, env).w;
            after.control == w.control && after.admissions == w.admissions && after.told == w.told
  {
    if n > 0 { CaptureDueControl(w, n - 1, active, env); }
  }

  /** What the capture loop captures was due, and holds what the server answered for it. */
  lemma {:induction false} CaptureDueOnlyDue(w: Workspace, n: nat, active: seq<Admission>, env: World)
    requires n <= |w.pads|
    ensures var after := CaptureDue(w, n, active, env).w.pads;
            && (forall i :: n <= i < |w.pads| ==> after[i] == w.pads[i])
            && (forall i :: 0 <= i < n && !w.pads[i].state.Captured? && after[i].state.Captured? ==>
                  DueNow(w.pads[i], active, env.facts, env.second) && after[i].content == env.answers(i))
  {
    if n > 0 { CaptureDueOnlyDue(w, n - 1, active, env); }
  }

  /**
   * The supervisor closes no pad early: what a reconcile captures was past its
   * deadline, abandoned by its writer, or of an aborted session, and its content
   * is what the server answered.
   */
  lemma ReconcileCapturesOnlyDue(w: Workspace, env: World, i: nat)
    requires i < |Readied(w, env).pads| && !Readied(w, env).pads[i].state.Captured?
    ensures i < |Reconcile(w, env).pads|
    ensures Reconcile(w, env).pads[i].state.Captured? ==>
              && DueNow(Readied(w, env).pads[i], ActiveAt(Readied(w, env).admissions, env.second), env.facts, env.second)
              && Reconcile(w, env).pads[i].content == env.answers(i)
  {
    ReadiedSame(w, env);
    var ready := Readied(w, env);
    var active, told := ActiveAt(ready.admissions, env.second), Tell(ready, Start);
    CaptureDueOnlyDue(told, |told.pads|, active, env);
    if ready.control.enabled || active != [] || !AllCaptured(ready.pads) { StartedCases(ready, active, env); }
  }

  // ---- admissions ----

  /** Nobody changes mode, done stays done, and while the mode is off nobody new is admitted to writing. */
  ghost predicate AdmissionsKept(admissions: seq<Admission>, after: seq<Admission>, off: bool) {
    forall owner ::
      var a, b := At(admissions, ByOwner, owner), At(after, ByOwner, owner);
      && (a.Some? ==> b.Some? && b.value.etherpad == a.value.etherpad && (a.value.done ==> b.value.done))
      && (a.None? && b.Some? && off ==> !b.value.etherpad)
  }

  lemma PutAt(w: Workspace, x: Admission, owner: string)
    ensures At(Put(w, x).admissions, ByOwner, owner) == if x.owner == owner then Some(x) else At(w.admissions, ByOwner, owner)
  {
    UpsertAt(w.admissions, ByOwner, Newest, x, owner);
    assert [x][..0] == [];
  }

  lemma PutKept(w: Workspace, x: Admission, off: bool)
    requires var a := At(w.admissions, ByOwner, x.owner);
             if a.Some? then x.etherpad == a.value.etherpad && (a.value.done ==> x.done) else off ==> !x.etherpad
    ensures AdmissionsKept(w.admissions, Put(w, x).admissions, off)
  {
    forall owner
      ensures At(Put(w, x).admissions, ByOwner, owner) == if x.owner == owner then Some(x) else At(w.admissions, ByOwner, owner)
    {
      PutAt(w, x, owner);
    }
  }

  predicate Owners(w: Workspace) { Distinct(Keys(w.admissions, ByOwner)) }

  lemma PutOwners(w: Workspace, x: Admission)
    requires Owners(w)
    ensures Owners(Put(w, x))
  {
    UpsertKeys(w.admissions, ByOwner, Newest, x);
  }

  lemma KeptTransitive(a: seq<Admission>, b: seq<Admission>, c: seq<Admission>, off: bool)
    requires AdmissionsKept(a, b, off) && AdmissionsKept(b, c, off)
    ensures AdmissionsKept(a, c, off)
  {
    forall owner
      ensures var x, y := At(a, ByOwner, owner), At(c, ByOwner, owner);
              && (x.Some? ==> y.Some? && y.value.etherpad == x.value.etherpad && (x.value.done ==> y.value.done))
              && (x.None? && y.Some? && off ==> !y.value.etherpad)
    {
      assert At(b, ByOwner, owner).Some? || At(b, ByOwner, owner).None?;
    }
  }

  lemma {:induction false} RetiredKept(w: Workspace, n: nat, env: World, off: bool)
    requires Owners(w) && n <= |w.admissions|
    ensures Owners(Retired(w, n, env)) && AdmissionsKept(w.admissions, Retired(w, n, env).admissions, off)
  {
    if n > 0 {
      RetiredKept(w, n - 1, env, off);
      var before, a := Retired(w, n - 1, env), w.admissions[n - 1];
      FindDistinct(w.admissions, ByOwner, n - 1);
      assert At(w.admissions, ByOwner, a.owner) == Some(a);
      PutOwners(before, a.(done := true));
      PutKept(before, a.(done := true), off);
      KeptTransitive(w.admissions, before.admissions, Put(before, a.(done := true)).admissions, off);
    }
  }

  lemma ReconcileKept(w: Workspace, env: World, off: bool)
    requires Owners(w)
    ensures Owners(Reconcile(w, env)) && AdmissionsKept(w.admissions, Reconcile(w, env).admissions, off)
    ensures Reconcile(w, env).control.enabled ==> w.control.enabled
  {
    var retired := Retired(w, |w.admissions|, env);
    RetiredKept(w, |w.admissions|, env, off);
    RetiredKeepsPads(w, |w.admissions|, env);
    var active := ActiveAt(retired.admissions, env.second);
    var grouped := GroupPads(retired, active, env.facts);
    GroupPadsControl(retired, active, env.facts);
    var told := Tell(grouped, Start);
    CaptureDueControl(told, |told.pads|, active, env);
    assert Reconcile(w, env).admissions == retired.admissions;
  }

  lemma ServedSameAdmissions(w: Workspace, i: nat, now: int, server: Server)
    ensures Served(w, i, now, server).w.admissions == w.admissions && Served(w, i, now, server).w.control == w.control
  {}

  lemma OpenSameAdmissions(w: Workspace, owner: string, key: Key, sessionId: string, facts: Option<Facts>,
                           now: int, later: int, server: Server)
    ensures var after := OpenPad(w, owner, key, sessionId, facts, now, later, server).w;
            after.admissions == w.admissions && after.control == w.control
  {
    var a := At(w.admissions, ByOwner, owner);
    if a.Some? {
      var ensured := Ensured(w, a.value, key, sessionId, facts, now);
      if ensured.ok && key in ensured.w.index {
        ServedSameAdmissions(ensured.w, ensured.w.index[key], later, server);
      }
    }
  }

  lemma FinishKept(w: Workspace, owner: string, i: nat, access: bool, now: int, answer: Option<Content>, off: bool)
    requires Owners(w)
    ensures var after := Finish(w, owner, i, access, now, answer).w;
            Owners(after) && AdmissionsKept(w.admissions, after.admissions, off) && after.control == w.control
  {
    if i < |w.pads| { DoneKept(Capture(w, i, answer, now).w, owner, off); }
  }

  lemma DoneKept(w: Workspace, owner: string, off: bool)
    requires Owners(w)
    ensures var a := At(w.admissions, ByOwner, owner);
            a.Some? ==>
              Owners(Put(w, a.value.(done := true)))
              && AdmissionsKept(w.admissions, Put(w, a.value.(done := true)).admissions, off)
  {
    var a := At(w.admissions, ByOwner, owner);
    AtKeepsKey(w.admissions, ByOwner, owner);
    if a.Some? {
      PutOwners(w, a.value.(done := true));
      PutKept(w, a.value.(done := true), off);
    }
  }

  predicate SwitchesOn(step: Step) { step.Switch? && step.enabled }

  lemma ArriveKept(w: Workspace, owner: string, now: int, off: bool)
    requires Owners(w) && (off ==> !w.control.enabled)
    ensures var after := Prepare(w, owner, now).w;
            Owners(after) && AdmissionsKept(w.admissions, after.admissions, off) && after.control == w.control
  {
    var x := Admission(owner, w.control.enabled, now + ADMISSION_TTL, None, "", false);
    PutOwners(w, x);
    if At(w.admissions, ByOwner, owner).None? { PutKept(w, x, off); }
  }

  lemma SeatKept(w: Workspace, owner: string, sessionId: string, participantId: string, duration: int, now: int, off: bool)
    requires Owners(w)
    ensures var after := Attach(w, owner, sessionId, participantId, duration, now).w;
            Owners(after) && AdmissionsKept(w.admissions, after.admissions, off) && after.control == w.control
  {
    var a := At(w.admissions, ByOwner, owner);
    AtKeepsKey(w.admissions, ByOwner, owner);
    if a.Some? {
      var x := a.value.(sessionId := Some(sessionId), participantId := participantId,
                        expiresAt := now + duration * 60_000 + AFTER_DISCUSSION);
      PutOwners(w, x);
      PutKept(w, x, off);
    }
  }

  lemma DepartKept(w: Workspace, owner: string, off: bool)
    requires Owners(w)
    ensures var after := Leave(w, owner);
            Owners(after) && AdmissionsKept(w.admissions, after.admissions, off) && after.control == w.control
  {
    DoneKept(w, owner, off);
  }

  lemma StepKept(w: Workspace, step: Step, off: bool)
    requires Owners(w) && (off ==> !w.control.enabled)
    ensures Owners(Next(w, step)) && AdmissionsKept(w.admissions, Next(w, step).admissions, off)
    ensures !SwitchesOn(step) && Next(w, step).control.enabled ==> w.control.enabled
  {
    match step
    case Arrive(owner, now) => ArriveKept(w, owner, now, off);
    case Seat(owner, sessionId, participantId, duration, now) => SeatKept(w, owner, sessionId, participantId, duration, now, off);
    case Depart(owner) => DepartKept(w, owner, off);
    case Write(owner, key, sessionId, facts, now, later, server) =>
      OpenSameAdmissions(w, owner, key, sessionId, facts, now, later, server);
    case FinishPad(owner, i, access, now, answer) => FinishKept(w, owner, i, access, now, answer, off);
    case Supervise(env) => ReconcileKept(w, env, off);
    case Switch(_, _, _) =>
  }

  /**
   * Over any run in which nobody switches the mode on again: it stays off,
   * everybody keeps the mode they were admitted in, and no further writer is
   * admitted, so a drain has only the admissions of its start to wait for.
   */
  lemma {:induction false} NoNewWritersWhileOff(w: Workspace, steps: seq<Step>)
    requires Owners(w) && !w.control.enabled && forall k :: 0 <= k < |steps| ==> !SwitchesOn(steps[k])
    ensures Owners(Run(w, steps)) && !Run(w, steps).control.enabled
    ensures AdmissionsKept(w.admissions, Run(w, steps).admissions, true)
  {
    if steps != [] {
      var n := |steps| - 1;
      NoNewWritersWhileOff(w, steps[..n]);
      StepKept(Run(w, steps[..n]), steps[n], true);
      KeptTransitive(w.admissions, Run(w, steps[..n]).admissions, Run(w, steps).admissions, true);
      assert !SwitchesOn(steps[n]);
    }
  }
}
