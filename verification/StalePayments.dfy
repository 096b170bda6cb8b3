/**
 * Payments when the worker works on records it read earlier: one pass reads all
 * due outcomes first, and anything may happen to an outcome before its turn
 * (processDue in backend/session-manager/src/prolific/prolific-actions.service.ts).
 */
module StalePayments {
  import opened Options
  import opened ProlificActions

  /** A whole operation, or a pass over the record as it was after the first read turns. */
  datatype Turn = Operation(step: Step) | StalePass(read: nat, l: Luck)

  function After(d: Desk, turns: seq<Turn>): Desk
    decreases |turns|
  {
    if turns == [] then d
    else
      var init := turns[..|turns| - 1];
      match turns[|turns| - 1]
      case Operation(step) => Next(After(d, init), step)
      case StalePass(read, l) =>
        if read <= |init| && Due(After(d, init[..read]).record) then Work(After(d, init), After(d, init[..read]).record, l)
        else After(d, init)
  }

  /** What can be read off the two records before a pass: it asks for the return, knows of a batch, or finds a paid mark. */
  predicate Guard(seen: Record, current: Record) {
    !seen.returnRequested || seen.batch.Some? || current.submitted
  }

  /** The pass of turn k, if it is one on a due record. */
  predicate PassAt(d: Desk, turns: seq<Turn>, k: nat)
    requires k < |turns|
  {
    turns[k].StalePass? && turns[k].read <= k && Due(After(d, turns[..turns[k].read]).record)
  }

  /** After a payment, every pass meets the guard. */
  predicate Guarded(d: Desk, turns: seq<Turn>) {
    forall k :: 0 <= k < |turns| && PassAt(d, turns, k) && Payments(After(d, turns[..k]).calls) > 0 ==>
      Guard(After(d, turns[..turns[k].read]).record, After(d, turns[..k]).record)
  }

  // ---- what a record never takes back ----

  predicate Later(r: Record, after: Record) {
    && SameTerms(r, after)
    && (r.returnRequested ==> after.returnRequested)
    && (r.batch.Some? ==> after.batch.Some?)
    && (r.submitted ==> after.submitted)
  }

  lemma PayLater(d: Desk, seen: Record, l: Luck)
    ensures Later(d.record, PayBonus(d, seen, l).desk.record)
  {}

  lemma PrepareLater(d: Desk, seen: Record, l: Luck)
    ensures Later(d.record, PrepareBonus(d, seen, l).desk.record)
  {}

  lemma ReturnLater(d: Desk, l: Luck)
    ensures Later(d.record, RequestReturn(d, l).desk.record)
  {}

  lemma PrepareAndPayLater(d: Desk, seen: Record, l: Luck)
    ensures Later(d.record, PrepareAndPay(d, seen, l).desk.record)
  {
    PrepareLater(d, seen, l);
    var prepared := PrepareBonus(d, seen, l).desk;
    PayLater(prepared, prepared.record, l);
    PayLater(d, seen, l);
  }

  lemma WorkLater(d: Desk, seen: Record, l: Luck)
    ensures Later(d.record, Work(d, seen, l).record)
  {
    ReturnLater(d, l);
    var asked := RequestReturn(d, l).desk;
    PrepareAndPayLater(asked, asked.record, l);
    PrepareAndPayLater(d, seen, l);
  }

  lemma StepLater(d: Desk, step: Step)
    ensures Later(d.record, Next(d, step).record)
  {
    match step
    case AdminReturn(l) => ReturnLater(d, l);
    case SweepReturn(l) => ReturnLater(d, l);
    case AdminPrepare(l) =>
      ReturnLater(d, l);
      var asked := RequestReturn(d, l).desk;
      PrepareLater(asked, asked.record, l);
      PrepareLater(d, d.record, l);
    case AdminPay(l) => PayLater(d, d.record, l);
    case AdminResolve(m) =>
    case Worker(l) => WorkLater(d, d.record, l);
  }

  /** Whatever an earlier record knew, a later one knows. */
  lemma {:induction false} ReadEarlier(d: Desk, turns: seq<Turn>, read: nat)
    requires read <= |turns|
    ensures Later(After(d, turns[..read]).record, After(d, turns).record)
    decreases |turns|
  {
    if read == |turns| {
      assert turns[..read] == turns;
    } else {
      var n := |turns| - 1;
      var before := After(d, turns[..n]);
      ReadEarlier(d, turns[..n], read);
      assert turns[..n][..read] == turns[..read];
      match turns[n] {
        case Operation(step) => StepLater(before, step);
        case StalePass(other, l) =>
          if other <= n { WorkLater(before, After(d, turns[..n][..other]).record, l); }
      }
    }
  }

  // ---- guarded passes ----

  /** A pass over an earlier record keeps the payment invariant if it meets the guard, or nothing was paid yet. */
  lemma PassPrudent(d: Desk, seen: Record, l: Luck)
    requires Prudent(d) && Due(seen) && Later(seen, d.record)
    requires Payments(d.calls) > 0 ==> Guard(seen, d.record)
    ensures Prudent(Work(d, seen, l))
  {
    if !seen.returnRequested {
      ReturnPrudent(d, l);
      var asked := RequestReturn(d, l);
      if asked.thrown == Fine { PrepareAndPayPrudent(asked.desk, l); }
    } else if seen.batch.Some? {
      KnownBatchPaysNothing(d, seen, l);
    } else {
      PrepareAgainPrudent(d, seen, l);
    }
    FailurePrudent(ProcessAll(d, seen, l).desk, l);
  }

  lemma PrepareAgainPrudent(d: Desk, seen: Record, l: Luck)
    requires Prudent(d) && seen.ended && seen.returnRequested && seen.batch.None? && Later(seen, d.record)
    requires Payments(d.calls) == 0 || d.record.submitted
    ensures Prudent(PrepareAndPay(d, seen, l).desk)
  {
    if seen.partial && seen.amount > 0 {
      PreparePrudent(d, l);
      assert PrepareBonus(d, seen, l) == PrepareBonus(d, d.record, l);
      var prepared := PrepareBonus(d, seen, l).desk;
      if !prepared.record.submitted { PayPrudent(prepared, l); }
    }
  }

  lemma {:induction false} GuardedPrudent(d: Desk, turns: seq<Turn>)
    requires Untouched(d) && Guarded(d, turns)
    ensures Prudent(After(d, turns))
    decreases |turns|
  {
    if turns != [] {
      var n := |turns| - 1;
      GuardedInit(d, turns);
      GuardedPrudent(d, turns[..n]);
      match turns[n] {
        case Operation(step) => StepPrudent(After(d, turns[..n]), step);
        case StalePass(read, l) =>
          if PassAt(d, turns, n) {
            assert turns[..n][..read] == turns[..read];
            ReadEarlier(d, turns[..n], read);
            PassPrudent(After(d, turns[..n]), After(d, turns[..read]).record, l);
          } else if read <= n {
            assert turns[..n][..read] == turns[..read];
          }
      }
    }
  }

  lemma GuardedInit(d: Desk, turns: seq<Turn>)
    requires Guarded(d, turns) && turns != []
    ensures Guarded(d, turns[..|turns| - 1])
  {
    var init := turns[..|turns| - 1];
    forall k | 0 <= k < |init| && PassAt(d, init, k) && Payments(After(d, init[..k]).calls) > 0
      ensures Guard(After(d, init[..init[k].read]).record, After(d, init[..k]).record)
    {
      assert init[..k] == turns[..k] && init[..init[k].read] == turns[..turns[k].read];
      assert PassAt(d, turns, k);
    }
  }

  /**
   * Over every sequence of operations and of passes over records read earlier,
   * with any answers and any failed writes: if every such pass after a payment
   * meets the guard, the pay endpoint is called at most once, and only after a
   * return request and a preparation of a positive amount, for an ended partial
   * outcome.
   */
  lemma {:induction false} GuardedPaysAtMostOnce(d: Desk, turns: seq<Turn>)
    requires Untouched(d) && Guarded(d, turns)
    ensures var calls := After(d, turns).calls;
            && Payments(calls) <= 1
            && (Payments(calls) == 1 ==> d.record.ended && d.record.partial && d.record.amount > 0)
            && forall k :: 0 <= k < |calls| && calls[k].Pay? ==> Grounded(calls, k)
  {
    GuardedPrudent(d, turns);
    ReadEarlier(d, turns, 0);
    assert turns[..0] == [];
  }

  /**
   * The guard is exact: after a payment, a pass over a record read earlier is
   * safe, whatever is answered in it and whatever operations follow, if and only
   * if the two records meet it.
   */
  lemma {:induction false} PassSafeExactly(d0: Desk, turns: seq<Turn>, read: nat)
    requires Untouched(d0) && Guarded(d0, turns) && read <= |turns|
    requires Due(After(d0, turns[..read]).record) && Payments(After(d0, turns).calls) == 1
    ensures var d, seen := After(d0, turns), After(d0, turns[..read]).record;
            (forall l, more :: Payments(Run(Work(d, seen, l), more).calls) <= 1) <==> Guard(seen, d.record)
  {
    var d, seen := After(d0, turns), After(d0, turns[..read]).record;
    GuardedPrudent(d0, turns);
    ReadEarlier(d0, turns, read);
    if Guard(seen, d.record) {
      forall l, more ensures Payments(Run(Work(d, seen, l), more).calls) <= 1 {
        PassPrudent(d, seen, l);
        RunPrudent(Work(d, seen, l), more);
      }
    } else {
      StaleScanPaysAgainExactly(d, seen, SMOOTH);
      assert Run(Work(d, seen, SMOOTH), []) == Work(d, seen, SMOOTH);
    }
  }

  const HALTED := SMOOTH.(guardMark := NotWritten, failureMark := NotWritten)

  const REPREPARED := Desk(Record(true, true, 100, BonusPrepared, true, Some("b"), false), DOUBTFUL.calls + [Prepare(100)])

  lemma PassPreparesAgain()
    ensures Work(DOUBTFUL, READ.record, HALTED) == REPREPARED
  {
    var prepared := PrepareBonus(DOUBTFUL, READ.record, HALTED);
    assert prepared == Done(REPREPARED, Fine);
    assert PayBonus(REPREPARED, REPREPARED.record, HALTED) == Done(REPREPARED, Error);
  }

  lemma CallsCounted(calls: seq<Call>)
    requires calls == DOUBTFUL.calls
    ensures Payments(calls) == 1
  {
    var n := [AskReturn, Prepare(100), Prepare(100)];
    assert calls[..3] == n && n[..2] == [AskReturn, Prepare(100)] && n[..2][..1] == [AskReturn] && n[..1][..0] == [];
    assert Payments(n[..1]) == 0;
    assert Payments(n[..2]) == 0;
  }

  /** A failed guard may also pay twice later: the pass stops short of paying, and an administrator pays what it prepared. */
  lemma {:induction false} PreparedAgainPaysLater()
    ensures !Guard(READ.record, DOUBTFUL.record)
    ensures Payments(Work(DOUBTFUL, READ.record, HALTED).calls) == 1
    ensures Payments(Next(Work(DOUBTFUL, READ.record, HALTED), AdminPay(SMOOTH)).calls) == 2
  {
    PassPreparesAgain();
    CallsCounted(DOUBTFUL.calls);
    CallsGrow(DOUBTFUL.calls, Prepare(100));
    PaysOnce(REPREPARED, SMOOTH);
  }
}
