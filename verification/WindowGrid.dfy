/**
 * The self-rescheduling contribution-window timer
 * (scheduleWindowTick and onWindowBoundary in backend/chat-service/src/sessions/sessions.service.ts,
 * claimWindowBoundary in session-runtime.ts, windowIndex in rules/bot-rules.ts).
 * Times are whole milliseconds.
 */
module WindowGrid {
  import opened Options

  datatype Grid = Grid(startedAt: int, warmup: int, window: int)

  predicate ValidGrid(g: Grid) { g.startedAt >= 0 && g.window > 0 }

  /** The timer grid starts when the warm-up ends; a negative warm-up counts as none. */
  function GridStart(g: Grid): int { g.startedAt + if g.warmup > 0 then g.warmup else 0 }

  function Boundary(g: Grid, k: int): int { GridStart(g) + k * g.window }

  ghost predicate OnGrid(g: Grid, b: int) { exists k :: k >= 1 && b == Boundary(g, k) }

  function Max(a: int, b: int): int { if a > b then a else b }

  /** The boundary scheduleWindowTick arms the timer for. */
  function NextBoundary(g: Grid, now: int, previous: int): int
    requires ValidGrid(g)
  {
    var elapsed := Max(0, now - GridStart(g));
    Max(GridStart(g) + (elapsed / g.window + 1) * g.window, previous + g.window)
  }

  /** The index the rules record, computed from the raw warm-up; Math.round rounds halves up. */
  function WindowIndex(g: Grid, windowEnd: int): int {
    if g.window <= 0 then 0
    else
      var start := g.startedAt + g.warmup;
      Max(0, (2 * (windowEnd - start) + g.window) / (2 * g.window) - 1)
  }

  // ---- the scheduler over a whole session, restarts included ----

  datatype Claim = Claim(end: int, at: int)

  datatype Evaluation = Evaluation(end: int, at: int, index: int)

  /**
   * timer: the armed boundary. queue: claimed boundaries whose evaluation has not
   * finished, oldest first. recorded: the evaluation records so far.
   */
  datatype Scheduler = Scheduler(timer: int, lastClaimed: int, queue: seq<Claim>, recorded: seq<Evaluation>)

  datatype Step =
    | Fire(now: int)                  // the timer callback, whatever the clock says
    | Finish(recorded: bool)          // the oldest evaluation ends, with or without a record
    | Restart(kept: nat, now: int)    // a new runtime from a checkpoint holding the first kept records

  function LastRecorded(recorded: seq<Evaluation>): int {
    if recorded == [] then 0 else Max(LastRecorded(recorded[..|recorded| - 1]), recorded[|recorded| - 1].end)
  }

  function Started(g: Grid, now: int, recorded: seq<Evaluation>): Scheduler
    requires ValidGrid(g)
  {
    Scheduler(NextBoundary(g, now, 0), LastRecorded(recorded), [], recorded)
  }

  predicate Enabled(s: Scheduler, step: Step) {
    match step
    case Fire(_) => true
    case Finish(_) => s.queue != []
    case Restart(kept, _) => kept <= |s.recorded|
  }

  /** onWindowBoundary */
  function Fired(g: Grid, s: Scheduler, now: int): Scheduler
    requires ValidGrid(g)
  {
    if now < s.timer then s
    else if s.timer <= s.lastClaimed then s.(timer := NextBoundary(g, now, s.timer))
    else s.(timer := NextBoundary(g, now, s.timer), lastClaimed := s.timer, queue := s.queue + [Claim(s.timer, now)])
  }

  function Next(g: Grid, s: Scheduler, step: Step): Scheduler
    requires ValidGrid(g) && Enabled(s, step)
  {
    match step
    case Fire(now) => Fired(g, s, now)
    case Finish(ok) =>
      var c := s.queue[0];
      s.(queue := s.queue[1..],
         recorded := if ok then s.recorded + [Evaluation(c.end, c.at, WindowIndex(g, c.end))] else s.recorded)
    case Restart(kept, now) => Started(g, now, s.recorded[..kept])
  }

  // ---- grid arithmetic ----

  lemma MulOrder(a: int, b: int, w: int)
    requires a <= b && w > 0
    ensures a * w <= b * w
  {}

  lemma NextIsOnGrid(g: Grid, now: int, previous: int)
    requires ValidGrid(g) && (previous == 0 || OnGrid(g, previous))
    ensures OnGrid(g, NextBoundary(g, now, previous))
    ensures NextBoundary(g, now, previous) >= previous + g.window
    ensures NextBoundary(g, now, previous) > now
  {
    var elapsed := Max(0, now - GridStart(g));
    var k := elapsed / g.window + 1;
    MulOrder(1, k, g.window);
    assert elapsed < k * g.window;
    assert Boundary(g, k) == GridStart(g) + k * g.window;
    if previous != 0 {
      var j :| j >= 1 && previous == Boundary(g, j);
      assert (j + 1) * g.window == j * g.window + g.window;
      assert previous + g.window == Boundary(g, j + 1);
    }
  }

  /** Two grid points are at least a window apart. */
  lemma GridApart(g: Grid, a: int, b: int)
    requires ValidGrid(g) && OnGrid(g, a) && OnGrid(g, b) && a < b
    ensures a + g.window <= b
  {
    var j :| j >= 1 && a == Boundary(g, j);
    var k :| k >= 1 && b == Boundary(g, k);
    if k <= j { MulOrder(k, j, g.window); }
    MulOrder(j + 1, k, g.window);
    assert (j + 1) * g.window == j * g.window + g.window;
  }

  /** Fired in time, the timer moves to the very next boundary: no window is skipped. */
  lemma {:induction false} NoWindowSkipped(g: Grid, s: Scheduler, now: int)
    requires ValidGrid(g) && OnGrid(g, s.timer) && s.timer <= now < s.timer + g.window
    ensures Fired(g, s, now).timer == s.timer + g.window
  {
    var k :| k >= 1 && s.timer == Boundary(g, k);
    var elapsed := Max(0, now - GridStart(g));
    MulOrder(0, k, g.window);
    assert k * g.window <= elapsed < (k + 1) * g.window by {
      assert (k + 1) * g.window == k * g.window + g.window;
    }
    Quotient(elapsed, k, g.window);
  }

  lemma Quotient(n: int, k: int, w: int)
    requires w > 0 && k * w <= n < (k + 1) * w
    ensures n / w == k
  {
    var q := n / w;
    assert n == q * w + n % w;
    assert (q + 1) * w == q * w + w;
    if q < k { MulOrder(q + 1, k, w); }
    if q > k { MulOrder(k + 1, q, w); }
  }

  /**
   * The recorded index of the k-th boundary is k - 1 for every k exactly when the
   * raw warm-up is not so negative that rounding reaches the next window. (Stored
   * conditions clamp the warm-up at zero.)
   */
  lemma {:induction false} WindowIndexExact(g: Grid)
    requires ValidGrid(g)
    ensures (forall k :: k >= 1 ==> WindowIndex(g, Boundary(g, k)) == k - 1) <==> -2 * g.warmup < g.window
  {
    var shift := if g.warmup > 0 then 0 else -g.warmup;
    forall k | k >= 1
      ensures shift * 2 < g.window ==> WindowIndex(g, Boundary(g, k)) == k - 1
      ensures shift * 2 >= g.window ==> WindowIndex(g, Boundary(g, k)) > k - 1
    {
      var w2 := 2 * g.window;
      var n := 2 * (Boundary(g, k) - (g.startedAt + g.warmup)) + g.window;
      assert n == k * w2 + 2 * shift + g.window;
      if shift * 2 < g.window {
        assert (k + 1) * w2 == k * w2 + w2;
        Quotient(n, k, w2);
      } else {
        assert n >= (k + 1) * w2 by { assert (k + 1) * w2 == k * w2 + w2; }
        AtLeast(n, k + 1, w2);
      }
    }
    assert WindowIndex(g, Boundary(g, 1)) == 0 || shift * 2 >= g.window;
  }

  lemma AtLeast(n: int, k: int, w: int)
    requires w > 0 && n >= k * w
    ensures n / w >= k
  {
    var q := n / w;
    assert n == q * w + n % w;
    assert (q + 1) * w == q * w + w;
    if q < k { MulOrder(q + 1, k, w); }
  }

  // ---- what every step keeps ----

  /** The ends of everything recorded, then of everything still queued. */
  function Ends(s: Scheduler): (ends: seq<int>)
    ensures |ends| == |s.recorded| + |s.queue|
  {
    seq(|s.recorded|, i requires 0 <= i < |s.recorded| => s.recorded[i].end)
      + seq(|s.queue|, i requires 0 <= i < |s.queue| => s.queue[i].end)
  }

  predicate Increasing(ends: seq<int>) { forall i, j :: 0 <= i < j < |ends| ==> ends[i] < ends[j] }

  ghost predicate Inv(g: Grid, s: Scheduler) {
    && OnGrid(g, s.timer)
    && Increasing(Ends(s))
    && (forall i :: 0 <= i < |s.recorded| ==> OnGrid(g, s.recorded[i].end) && s.recorded[i].end <= s.lastClaimed)
    && (forall i :: 0 <= i < |s.queue| ==> OnGrid(g, s.queue[i].end) && s.queue[i].end <= s.lastClaimed)
    && (forall i :: 0 <= i < |s.recorded| ==>
          s.recorded[i].end <= s.recorded[i].at && s.recorded[i].index == WindowIndex(g, s.recorded[i].end))
    && (forall i :: 0 <= i < |s.queue| ==> s.queue[i].end <= s.queue[i].at)
  }

  lemma {:induction false} LastRecordedBounds(recorded: seq<Evaluation>)
    ensures forall i :: 0 <= i < |recorded| ==> recorded[i].end <= LastRecorded(recorded)
    ensures LastRecorded(recorded) == 0 || exists i :: 0 <= i < |recorded| && recorded[i].end == LastRecorded(recorded)
  {
    if recorded != [] {
      LastRecordedBounds(recorded[..|recorded| - 1]);
      assert forall i :: 0 <= i < |recorded| - 1 ==> recorded[..|recorded| - 1][i] == recorded[i];
    }
  }

  lemma FireKeeps(g: Grid, s: Scheduler, now: int)
    requires ValidGrid(g) && Inv(g, s)
    ensures Inv(g, Fired(g, s, now))
  {
    NextIsOnGrid(g, now, s.timer);
    var n := Fired(g, s, now);
    if s.lastClaimed < s.timer <= now {
      assert Ends(n) == Ends(s) + [s.timer];
      assert forall i :: 0 <= i < |Ends(s)| ==> Ends(s)[i] <= s.lastClaimed;
    }
  }

  lemma FinishKeeps(g: Grid, s: Scheduler, ok: bool)
    requires ValidGrid(g) && Inv(g, s) && s.queue != []
    ensures Inv(g, Next(g, s, Finish(ok)))
  {
    var n := Next(g, s, Finish(ok));
    var m := |s.recorded|;
    if ok {
      assert Ends(n) == Ends(s);
    } else {
      assert Ends(n) == Ends(s)[..m] + Ends(s)[m + 1..];
    }
    assert forall i :: 0 <= i < |n.queue| ==> n.queue[i] == s.queue[i + 1];
    assert s.queue[0].end <= s.lastClaimed;
  }

  lemma RestartKeeps(g: Grid, s: Scheduler, kept: nat, now: int)
    requires ValidGrid(g) && Inv(g, s) && kept <= |s.recorded|
    ensures Inv(g, Next(g, s, Restart(kept, now)))
  {
    var n := Next(g, s, Restart(kept, now));
    NextIsOnGrid(g, now, 0);
    LastRecordedBounds(s.recorded[..kept]);
    assert Ends(n) == Ends(s)[..kept];
  }

  ghost predicate Run(g: Grid, s: Scheduler, steps: seq<Step>, last: Scheduler)
    requires ValidGrid(g)
    decreases |steps|
  {
    if steps == [] then last == s
    else Enabled(s, steps[0]) && Run(g, Next(g, s, steps[0]), steps[1..], last)
  }

  lemma {:induction false} RunKeeps(g: Grid, s: Scheduler, steps: seq<Step>, last: Scheduler)
    requires ValidGrid(g) && Inv(g, s) && Run(g, s, steps, last)
    ensures Inv(g, last)
    decreases |steps|
  {
    if steps != [] {
      match steps[0] {
        case Fire(now) => FireKeeps(g, s, now);
        case Finish(ok) => FinishKeeps(g, s, ok);
        case Restart(kept, now) => RestartKeeps(g, s, kept, now);
      }
      RunKeeps(g, Next(g, s, steps[0]), steps[1..], last);
    }
  }

  /**
   * Every run from a fresh start, with early timers, clock jumps and restarts:
   * the recorded boundaries are strictly increasing grid points, none evaluated
   * before its end, each with the index the grid gives it; and the next claim is
   * beyond everything recorded or being evaluated.
   */
  lemma WindowBoundaries(g: Grid, start: int, steps: seq<Step>, last: Scheduler)
    requires ValidGrid(g) && Run(g, Started(g, start, []), steps, last)
    ensures forall i :: 0 <= i < |last.recorded| ==>
              && OnGrid(g, last.recorded[i].end)
              && last.recorded[i].end <= last.recorded[i].at
              && (forall k :: k >= 1 && last.recorded[i].end == Boundary(g, k) && -2 * g.warmup < g.window ==>
                    last.recorded[i].index == k - 1)
    ensures forall i, j :: 0 <= i < j < |last.recorded| ==> last.recorded[i].end < last.recorded[j].end
    ensures forall now :: |Fired(g, last, now).queue| > |last.queue| ==>
              && last.timer <= now
              && forall i :: 0 <= i < |last.recorded| ==> last.recorded[i].end < last.timer
  {
    var s := Started(g, start, []);
    NextIsOnGrid(g, start, 0);
    assert Ends(s) == [];
    RunKeeps(g, s, steps, last);
    WindowIndexExact(g);
    assert forall i :: 0 <= i < |last.recorded| ==> Ends(last)[i] == last.recorded[i].end;
  }

  /** In every run the boundaries recorded, and those still being evaluated, are at least one window length apart. */
  lemma {:induction false} WindowsApart(g: Grid, start: int, steps: seq<Step>, last: Scheduler)
    requires ValidGrid(g) && Run(g, Started(g, start, []), steps, last)
    ensures forall i, j :: 0 <= i < j < |Ends(last)| ==> Ends(last)[i] + g.window <= Ends(last)[j]
  {
    var s := Started(g, start, []);
    NextIsOnGrid(g, start, 0);
    assert Ends(s) == [];
    RunKeeps(g, s, steps, last);
    forall i, j | 0 <= i < j < |Ends(last)| ensures Ends(last)[i] + g.window <= Ends(last)[j] {
      EndOnGrid(g, last, i);
      EndOnGrid(g, last, j);
      GridApart(g, Ends(last)[i], Ends(last)[j]);
    }
  }

  lemma EndOnGrid(g: Grid, s: Scheduler, i: nat)
    requires Inv(g, s) && i < |Ends(s)|
    ensures OnGrid(g, Ends(s)[i])
  {
    if i < |s.recorded| { assert Ends(s)[i] == s.recorded[i].end; }
    else { assert Ends(s)[i] == s.queue[i - |s.recorded|].end; }
  }

  /** The scheduler's entries in the service, changed in place. */
  class WindowTimer {
    const grid: Grid
    var armed: int
    var lastWindowBoundaryMs: int
    var pending: seq<Claim>
    var evaluations: seq<Evaluation>

    function View(): Scheduler
      reads this
    {
      Scheduler(armed, lastWindowBoundaryMs, pending, evaluations)
    }

    constructor (grid: Grid, now: int)
      requires ValidGrid(grid)
      ensures this.grid == grid && View() == Started(grid, now, [])
    {
      this.grid := grid;
      armed, lastWindowBoundaryMs, pending, evaluations := NextBoundary(grid, now, 0), 0, [], [];
    }

    method ScheduleWindowTick(now: int, previousBoundary: int)
      requires ValidGrid(grid)
      modifies `armed
      ensures armed == NextBoundary(grid, now, previousBoundary)
    {
      var warmupMs := if grid.warmup > 0 then grid.warmup else 0;
      var gridStartMs := grid.startedAt + warmupMs;
      var elapsed := if now - gridStartMs > 0 then now - gridStartMs else 0;
      var nextBoundary := gridStartMs + (elapsed / grid.window + 1) * grid.window;
      if previousBoundary + grid.window > nextBoundary { nextBoundary := previousBoundary + grid.window; }
      armed := nextBoundary;
    }

    method OnWindowBoundary(now: int)
      requires ValidGrid(grid)
      modifies `armed, `lastWindowBoundaryMs, `pending
      ensures View() == Fired(grid, old(View()), now)
    {
      var windowEndMs := armed;
      if windowEndMs - now > 0 { return; }
      if windowEndMs <= lastWindowBoundaryMs {
        ScheduleWindowTick(now, windowEndMs);
        return;
      }
      lastWindowBoundaryMs := windowEndMs;
      pending := pending + [Claim(windowEndMs, now)];
      ScheduleWindowTick(now, windowEndMs);
    }
  }
}
