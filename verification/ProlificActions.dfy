/**
 * The Prolific writes of one terminal outcome: request a return, prepare a
 * bonus, pay it (backend/session-manager/src/prolific/prolific-actions.service.ts).
 */
module ProlificActions {
  import opened Options

  datatype Status =
    | NotRequired | Pending | ReturnRequested | BonusPrepared | PaymentInProgress
    | PaymentSubmitted | PaymentUncertain | Failed | ResolvedManually

  /** ended: an outcome is recorded and it is not "completed". */
  datatype Record = Record(
    ended: bool, partial: bool, amount: int, status: Status,
    returnRequested: bool, batch: Option<string>, submitted: bool)

  datatype Call = AskReturn | Prepare(amount: int) | Pay(batch: string)

  /** The stored record and every call that reached Prolific, in order. */
  datatype Desk = Desk(record: Record, calls: seq<Call>)

  /** What becomes of one write to the store: a failed one may have been written all the same. */
  datatype Mark = Written | NotWritten | WrittenThrew

  /** Everything the service does not control during one operation. */
  datatype Luck = Luck(
    token: bool,
    returnOk: bool, returnMark: Mark,
    batch: Option<string>, batchMark: Mark,
    guardMark: Mark, payOk: bool, paidMark: Mark, uncertainMark: Mark,
    failureMark: Mark)

  datatype Thrown = Fine | Error | Uncertain

  datatype Done = Done(desk: Desk, thrown: Thrown)

  function Marked(d: Desk, after: Record, m: Mark): Done {
    match m
    case Written => Done(d.(record := after), Fine)
    case NotWritten => Done(d, Error)
    case WrittenThrew => Done(d.(record := after), Error)
  }

  /** What a termination settles once. */
  predicate SameTerms(r: Record, after: Record) {
    after.ended == r.ended && after.partial == r.partial && after.amount == r.amount
  }

  function Called(d: Desk, call: Call): Desk { d.(calls := d.calls + [call]) }

  function RequestReturn(d: Desk, l: Luck): (done: Done)
    ensures SameTerms(d.record, done.desk.record)
  {
    if !l.token then Done(d, Error)
    else
      var asked := Called(d, AskReturn);
      if !l.returnOk then Done(asked, Error)
      else Marked(asked, asked.record.(status := ReturnRequested, returnRequested := true), l.returnMark)
  }

  /** seen is the record as the caller last read it. */
  function PrepareBonus(d: Desk, seen: Record, l: Luck): (done: Done)
    ensures SameTerms(d.record, done.desk.record)
  {
    if seen.amount <= 0 || !l.token then Done(d, Error)
    else
      var asked := Called(d, Prepare(seen.amount));
      if l.batch.None? || l.batch.value == "" then Done(asked, Error)
      else Marked(asked, asked.record.(status := BonusPrepared, batch := l.batch), l.batchMark)
  }

  function PayBonus(d: Desk, seen: Record, l: Luck): (done: Done)
    ensures SameTerms(d.record, done.desk.record)
  {
    if seen.batch.None? || seen.status != BonusPrepared || !l.token then Done(d, Error)
    else
      var guarded := Marked(d, d.record.(status := PaymentInProgress), l.guardMark);
      if guarded.thrown != Fine then guarded
      else
        var called := Called(guarded.desk, Pay(seen.batch.value));
        if l.payOk then
          var paid := Marked(called, called.record.(status := PaymentSubmitted, submitted := true), l.paidMark);
          if paid.thrown == Fine then paid else Done(paid.desk, Uncertain)
        else
          var doubt := Marked(called, called.record.(status := PaymentUncertain), l.uncertainMark);
          if doubt.thrown == Fine then Done(doubt.desk, Uncertain) else doubt
  }

  function RecordFailure(d: Desk, l: Luck): (after: Desk)
    ensures SameTerms(d.record, after.record)
  {
    Marked(d, d.record.(status := Failed), l.failureMark).desk
  }

  function RequestReturnById(d: Desk, l: Luck): (done: Done)
    ensures SameTerms(d.record, done.desk.record)
  {
    if !d.record.ended then Done(d, Error)
    else if d.record.returnRequested then Done(d, Fine)
    else RequestReturn(d, l)
  }

  /** requestReturnAndRecordFailureById */
  function AutoReturn(d: Desk, l: Luck): (done: Done)
    ensures SameTerms(d.record, done.desk.record)
  {
    var asked := RequestReturnById(d, l);
    if asked.thrown == Fine then asked else Done(RecordFailure(asked.desk, l), asked.thrown)
  }

  function PrepareBonusById(d: Desk, l: Luck): (done: Done)
    ensures SameTerms(d.record, done.desk.record)
  {
    if !d.record.ended || !d.record.partial then Done(d, Error)
    else if d.record.batch.Some? then Done(d, Fine)
    else
      var asked := if d.record.returnRequested then Done(d, Fine) else RequestReturn(d, l);
      if asked.thrown != Fine then asked else PrepareBonus(asked.desk, asked.desk.record, l)
  }

  function PayBonusById(d: Desk, l: Luck): (done: Done)
    ensures SameTerms(d.record, done.desk.record)
  {
    if !d.record.ended then Done(d, Error)
    else if d.record.submitted then Done(d, Fine)
    else PayBonus(d, d.record, l)
  }

  function ResolveManually(d: Desk, m: Mark): (done: Done)
    ensures SameTerms(d.record, done.desk.record)
  {
    if !d.record.ended then Done(d, Error) else Marked(d, d.record.(status := ResolvedManually), m)
  }

  /** The preparation and payment part of processAll, on the record as last read. */
  function PrepareAndPay(d: Desk, seen: Record, l: Luck): (done: Done)
    ensures SameTerms(d.record, done.desk.record)
  {
    if !seen.partial || seen.amount <= 0 then Done(d, Fine)
    else
      var prepared := if seen.batch.Some? then Done(d, Fine) else PrepareBonus(d, seen, l);
      if prepared.thrown != Fine then prepared
      else
        var current := if seen.batch.Some? then seen else prepared.desk.record;
        if current.submitted then prepared else PayBonus(prepared.desk, current, l)
  }

  /** processAll, on the record as the scan read it. */
  function ProcessAll(d: Desk, seen: Record, l: Luck): (done: Done)
    ensures SameTerms(d.record, done.desk.record)
  {
    if !seen.ended then Done(d, Fine)
    else if !seen.returnRequested && seen.status != ReturnRequested then
      var asked := RequestReturn(d, l);
      if asked.thrown != Fine then asked else PrepareAndPay(asked.desk, asked.desk.record, l)
    else PrepareAndPay(d, seen, l)
  }

  predicate Due(r: Record) { r.ended && (r.status.Pending? || r.status.Failed?) }

  /** One due outcome in processDue. */
  function Work(d: Desk, seen: Record, l: Luck): (after: Desk)
    ensures SameTerms(d.record, after.record)
  {
    var done := ProcessAll(d, seen, l);
    if done.thrown == Error then RecordFailure(done.desk, l) else done.desk
  }

  // ---- runs ----

  datatype Step =
    | AdminReturn(l: Luck)
    | SweepReturn(l: Luck)
    | AdminPrepare(l: Luck)
    | AdminPay(l: Luck)
    | AdminResolve(m: Mark)
    | Worker(l: Luck)

  /** One whole operation; the worker reads the record it works on. */
  function Next(d: Desk, step: Step): Desk {
    match step
    case AdminReturn(l) => RequestReturnById(d, l).desk
    case SweepReturn(l) => AutoReturn(d, l).desk
    case AdminPrepare(l) => PrepareBonusById(d, l).desk
    case AdminPay(l) => PayBonusById(d, l).desk
    case AdminResolve(m) => ResolveManually(d, m).desk
    case Worker(l) => if Due(d.record) then Work(d, d.record, l) else d
  }

  function Run(d: Desk, steps: seq<Step>): Desk {
    if steps == [] then d else Next(Run(d, steps[..|steps| - 1]), steps[|steps| - 1])
  }

  function Payments(calls: seq<Call>): nat {
    if calls == [] then 0 else Payments(calls[..|calls| - 1]) + if calls[|calls| - 1].Pay? then 1 else 0
  }

  /** A record as termination or completion writes it. */
  predicate Untouched(d: Desk) {
    d.calls == [] && !d.record.returnRequested && d.record.batch.None? && !d.record.submitted
    && (d.record.status.Pending? || d.record.status.NotRequired?)
  }

  // ---- the invariant ----

  /** A call k that follows a return request and then a preparation of a positive amount. */
  predicate Grounded(calls: seq<Call>, k: int) {
    exists i, j :: 0 <= i < j < k <= |calls| && calls[i].AskReturn? && calls[j].Prepare? && calls[j].amount > 0
  }

  predicate Asked(calls: seq<Call>) { exists i :: 0 <= i < |calls| && calls[i].AskReturn? }

  predicate PaymentsGrounded(calls: seq<Call>) {
    forall k :: 0 <= k < |calls| && calls[k].Pay? ==> Grounded(calls, k)
  }

  ghost predicate Prudent(d: Desk) {
    && Payments(d.calls) <= 1
    && PaymentsGrounded(d.calls)
    && (d.record.returnRequested ==> Asked(d.calls))
    && (d.record.status.ReturnRequested? ==> d.record.returnRequested)
    && (d.record.batch.Some? ==>
          Grounded(d.calls, |d.calls|) && d.record.ended && d.record.partial && d.record.returnRequested && d.record.amount > 0)
    && (d.record.status.BonusPrepared? ==> d.record.batch.Some? && (Payments(d.calls) == 0 || d.record.submitted))
    && (Payments(d.calls) > 0 ==> d.record.batch.Some?)
  }

  lemma CallsGrow(calls: seq<Call>, call: Call)
    ensures Payments(calls + [call]) == Payments(calls) + if call.Pay? then 1 else 0
    ensures Asked(calls) || call.AskReturn? ==> Asked(calls + [call])
    ensures Grounded(calls, |calls|) ==> Grounded(calls + [call], |calls| + 1)
    ensures PaymentsGrounded(calls) && (call.Pay? ==> Grounded(calls, |calls|)) ==> PaymentsGrounded(calls + [call])
  {
    var more := calls + [call];
    assert more[..|calls|] == calls;
    if Asked(calls) {
      var i :| 0 <= i < |calls| && calls[i].AskReturn?;
      assert more[i].AskReturn?;
    } else if call.AskReturn? {
      assert more[|calls|].AskReturn?;
    }
    forall k | 0 <= k <= |calls| && Grounded(calls, k) ensures Grounded(more, k) && Grounded(more, |calls| + 1) {
      var i, j :| 0 <= i < j < k <= |calls| && calls[i].AskReturn? && calls[j].Prepare? && calls[j].amount > 0;
      assert more[i] == calls[i] && more[j] == calls[j];
    }
  }

  lemma AskedThenPrepared(calls: seq<Call>, amount: int)
    requires Asked(calls) && amount > 0
    ensures Grounded(calls + [Prepare(amount)], |calls| + 1)
  {
    var i :| 0 <= i < |calls| && calls[i].AskReturn?;
    var more := calls + [Prepare(amount)];
    assert more[i] == calls[i] && more[|calls|] == Prepare(amount);
  }

  lemma ReturnPrudent(d: Desk, l: Luck)
    requires Prudent(d) && d.record.ended
    ensures Prudent(RequestReturn(d, l).desk)
    ensures RequestReturn(d, l).desk.record.ended
    ensures RequestReturn(d, l).thrown == Fine ==> RequestReturn(d, l).desk.record.returnRequested
  {
    CallsGrow(d.calls, AskReturn);
  }

  lemma PreparePrudent(d: Desk, l: Luck)
    requires Prudent(d) && d.record.ended && d.record.partial && d.record.returnRequested
    requires Payments(d.calls) == 0 || d.record.submitted
    ensures Prudent(PrepareBonus(d, d.record, l).desk)
  {
    CallsGrow(d.calls, Prepare(d.record.amount));
    if d.record.amount > 0 { AskedThenPrepared(d.calls, d.record.amount); }
  }

  /** A desk that only moved on from a prepared bonus, with or without the payment call. */
  lemma MovedOnPrudent(d: Desk, after: Desk)
    requires Prudent(d) && !d.record.submitted
    requires d.record.status.BonusPrepared? && !after.record.status.BonusPrepared? && !after.record.status.ReturnRequested?
    requires after.record.(status := d.record.status, submitted := d.record.submitted) == d.record
    requires after.calls == d.calls || after.calls == d.calls + [Pay(d.record.batch.value)]
    ensures Prudent(after)
  {
    CallsGrow(d.calls, Pay(d.record.batch.value));
  }

  lemma PayPrudent(d: Desk, l: Luck)
    requires Prudent(d) && !d.record.submitted
    ensures Prudent(PayBonus(d, d.record, l).desk)
  {
    var after := PayBonus(d, d.record, l).desk;
    if after != d { MovedOnPrudent(d, after); }
  }

  lemma FailurePrudent(d: Desk, l: Luck)
    requires Prudent(d)
    ensures Prudent(RecordFailure(d, l))
  {}

  lemma PrepareAndPayPrudent(d: Desk, l: Luck)
    requires Prudent(d) && d.record.ended && d.record.returnRequested
    ensures Prudent(PrepareAndPay(d, d.record, l).desk)
  {
    if d.record.partial && d.record.amount > 0 {
      if d.record.batch.None? {
        PreparePrudent(d, l);
        var prepared := PrepareBonus(d, d.record, l).desk;
        if !prepared.record.submitted { PayPrudent(prepared, l); }
      } else if !d.record.submitted {
        PayPrudent(d, l);
      }
    }
  }

  lemma WorkPrudent(d: Desk, l: Luck)
    requires Prudent(d) && Due(d.record)
    ensures Prudent(Work(d, d.record, l))
  {
    if d.record.returnRequested {
      PrepareAndPayPrudent(d, l);
    } else {
      ReturnPrudent(d, l);
      var asked := RequestReturn(d, l);
      if asked.thrown == Fine { PrepareAndPayPrudent(asked.desk, l); }
    }
    FailurePrudent(ProcessAll(d, d.record, l).desk, l);
  }

  lemma StepPrudent(d: Desk, step: Step)
    requires Prudent(d)
    ensures Prudent(Next(d, step))
  {
    match step
    case AdminReturn(l) => if d.record.ended { ReturnPrudent(d, l); }
    case SweepReturn(l) =>
      if d.record.ended { ReturnPrudent(d, l); }
      FailurePrudent(RequestReturnById(d, l).desk, l);
    case AdminPrepare(l) =>
      if d.record.ended && d.record.partial && d.record.batch.None? {
        if d.record.returnRequested {
          PreparePrudent(d, l);
        } else {
          ReturnPrudent(d, l);
          var asked := RequestReturn(d, l);
          if asked.thrown == Fine { PreparePrudent(asked.desk, l); }
        }
      }
    case AdminPay(l) => if !d.record.submitted { PayPrudent(d, l); }
    case AdminResolve(m) =>
    case Worker(l) => if Due(d.record) { WorkPrudent(d, l); }
  }

  lemma {:induction false} RunPrudent(d: Desk, steps: seq<Step>)
    requires Prudent(d)
    ensures Prudent(Run(d, steps))
  {
    if steps != [] {
      RunPrudent(d, steps[..|steps| - 1]);
      StepPrudent(Run(d, steps[..|steps| - 1]), steps[|steps| - 1]);
    }
  }

  lemma {:induction false} RunKeepsTerms(d: Desk, steps: seq<Step>)
    ensures SameTerms(d.record, Run(d, steps).record)
  {
    if steps != [] { RunKeepsTerms(d, steps[..|steps| - 1]); }
  }

  /**
   * Over every sequence of admin actions, sweeps and worker passes, with any
   * API answers and any failed or half-failed store writes: the pay endpoint is
   * called at most once, only for an ended outcome with a positive partial
   * bonus, and only after a return request and a preparation of a positive amount.
   */
  lemma {:induction false} PaidAtMostOnce(d: Desk, steps: seq<Step>)
    requires Untouched(d)
    ensures var calls := Run(d, steps).calls;
            && Payments(calls) <= 1
            && (Payments(calls) == 1 ==> d.record.ended && d.record.partial && d.record.amount > 0)
            && forall k :: 0 <= k < |calls| && calls[k].Pay? ==> Grounded(calls, k)
  {
    RunPrudent(d, steps);
    RunKeepsTerms(d, steps);
  }

  // ---- a stale scan ----

  /** Everything goes well for a preparation and a payment. */
  predicate Smooth(l: Luck) {
    l.token && l.batch.Some? && l.batch.value != "" && l.batchMark.Written? && l.guardMark.Written?
  }

  /** Preparing once more after a payment pays once more, unless something stops it. */
  lemma PreparedAgain(d: Desk, seen: Record, l: Luck)
    requires Payments(d.calls) == 1 && seen.partial && seen.amount > 0 && seen.batch.None?
    ensures Payments(PrepareAndPay(d, seen, l).desk.calls) == if Smooth(l) && !d.record.submitted then 2 else 1
  {
    var prepared := PrepareBonus(d, seen, l);
    CallsGrow(d.calls, Prepare(seen.amount));
    if prepared.thrown == Fine && !prepared.desk.record.submitted {
      PaysOnce(prepared.desk, l);
    }
  }

  lemma PaysOnce(d: Desk, l: Luck)
    requires d.record.batch.Some? && d.record.status == BonusPrepared
    ensures Payments(PayBonus(d, d.record, l).desk.calls)
         == Payments(d.calls) + if l.token && l.guardMark.Written? then 1 else 0
  {
    CallsGrow(d.calls, Pay(d.record.batch.value));
  }

  /** A read record that knows of the batch pays nothing unless it is payable itself. */
  lemma KnownBatchPaysNothing(d: Desk, seen: Record, l: Luck)
    requires seen.batch.Some? && seen.status != BonusPrepared
    ensures PrepareAndPay(d, seen, l).desk == d
  {}

  /**
   * The calls of one pass over a record read earlier, after a payment: it pays
   * again within the pass exactly when that record had its return requested but
   * no bonus prepared yet, no paid mark is stored, and everything answers.
   */
  lemma {:induction false} StaleScanPaysAgainExactly(d: Desk, seen: Record, l: Luck)
    requires Prudent(d) && Payments(d.calls) == 1
    requires Due(seen) && SameTerms(seen, d.record)
    ensures Payments(Work(d, seen, l).calls)
         == if seen.returnRequested && seen.batch.None? && !d.record.submitted && Smooth(l) then 2 else 1
  {
    if seen.returnRequested {
      if seen.batch.None? { PreparedAgain(d, seen, l); } else { KnownBatchPaysNothing(d, seen, l); }
    } else {
      CallsGrow(d.calls, AskReturn);
      var asked := RequestReturn(d, l);
      if asked.thrown == Fine { KnownBatchPaysNothing(asked.desk, asked.desk.record, l); }
    }
  }

  const SMOOTH := Luck(true, true, Written, Some("b"), Written, Written, false, Written, Written, Written)

  const READ := Desk(Record(true, true, 100, Failed, true, None, false), [AskReturn, Prepare(100)])

  const PREPARED := Desk(Record(true, true, 100, BonusPrepared, true, Some("b"), false), [AskReturn, Prepare(100), Prepare(100)])

  const DOUBTFUL :=
    Desk(Record(true, true, 100, PaymentUncertain, true, Some("b"), false), [AskReturn, Prepare(100), Prepare(100), Pay("b")])

  const NEW := Desk(Record(true, true, 100, Pending, false, None, false), [])

  lemma FirstPassFails()
    ensures Next(NEW, Worker(SMOOTH.(batch := None))) == READ
  {
    assert [] + [AskReturn] == [AskReturn];
    assert [AskReturn] + [Prepare(100)] == READ.calls;
  }

  lemma AdminPreparesAndPays()
    ensures Next(READ, AdminPrepare(SMOOTH)) == PREPARED
    ensures Next(PREPARED, AdminPay(SMOOTH)) == DOUBTFUL
  {
    assert READ.calls + [Prepare(100)] == PREPARED.calls;
    assert PREPARED.calls + [Pay("b")] == DOUBTFUL.calls;
  }

  lemma Three(d: Desk, a: Step, b: Step, c: Step)
    ensures Run(d, [a, b, c][..1]) == Next(d, a)
    ensures Run(d, [a, b, c]) == Next(Next(Next(d, a), b), c)
  {
    var s := [a, b, c];
    assert s[..1][..0] == [] && s[..2][..1] == s[..1] && s[..3] == s && s[..3][..2] == s[..2];
    assert Run(d, s[..1]) == Next(d, a);
    assert Run(d, s[..2]) == Next(Next(d, a), b);
  }

  /** Such a schedule: the scan reads the record, an admin prepares and pays, the pass then works on what it read. */
  lemma {:induction false} StaleScanPaysTwice() returns (steps: seq<Step>)
    ensures Untouched(NEW) && |steps| == 3 && Due(Run(NEW, steps[..1]).record)
    ensures Payments(Run(NEW, steps).calls) == 1
    ensures Payments(Work(Run(NEW, steps), Run(NEW, steps[..1]).record, SMOOTH).calls) == 2
  {
    steps := [Worker(SMOOTH.(batch := None)), AdminPrepare(SMOOTH), AdminPay(SMOOTH)];
    Three(NEW, steps[0], steps[1], steps[2]);
    FirstPassFails();
    AdminPreparesAndPays();
    RunPrudent(NEW, steps);
    assert DOUBTFUL.calls == PREPARED.calls + [Pay("b")];
    CallsGrow(PREPARED.calls, Pay("b"));
    StaleScanPaysAgainExactly(DOUBTFUL, READ.record, SMOOTH);
  }
}

/** The service over one stored record. */
module ProlificActionsServices {
  import opened Options
  import opened ProlificActions

  class ProlificActionsService {
    var record: Record
    var calls: seq<Call>

    function View(): Desk reads this { Desk(record, calls) }

    method MarkProlificAction(after: Record, m: Mark) returns (thrown: Thrown)
      modifies this`record
      ensures Done(View(), thrown) == Marked(old(View()), after, m)
    {
      if !m.NotWritten? { record := after; }
      return if m.Written? then Fine else Error;
    }

    method DoRequestReturn(l: Luck) returns (thrown: Thrown)
      modifies this
      ensures Done(View(), thrown) == RequestReturn(old(View()), l)
    {
      if !l.token { return Error; }
      calls := calls + [AskReturn];
      if !l.returnOk { return Error; }
      thrown := MarkProlificAction(record.(status := ReturnRequested, returnRequested := true), l.returnMark);
    }

    method DoPrepareBonus(seen: Record, l: Luck) returns (thrown: Thrown)
      modifies this
      ensures Done(View(), thrown) == PrepareBonus(old(View()), seen, l)
    {
      if seen.amount <= 0 { return Error; }
      if !l.token { return Error; }
      calls := calls + [Prepare(seen.amount)];
      if l.batch.None? || l.batch.value == "" { return Error; }
      thrown := MarkProlificAction(record.(status := BonusPrepared, batch := l.batch), l.batchMark);
    }

    method DoPayBonus(seen: Record, l: Luck) returns (thrown: Thrown)
      modifies this
      ensures Done(View(), thrown) == PayBonus(old(View()), seen, l)
    {
      if seen.batch.None? { return Error; }
      if seen.status != BonusPrepared { return Error; }
      if !l.token { return Error; }
      // The one-way guard is stored before the call.
      thrown := MarkProlificAction(record.(status := PaymentInProgress), l.guardMark);
      if thrown != Fine { return; }
      calls := calls + [Pay(seen.batch.value)];
      if !l.payOk {
        thrown := MarkProlificAction(record.(status := PaymentUncertain), l.uncertainMark);
        if thrown == Fine { thrown := Uncertain; }
        return;
      }
      thrown := MarkProlificAction(record.(status := PaymentSubmitted, submitted := true), l.paidMark);
      if thrown != Fine { thrown := Uncertain; }
    }

    method DoProcessAll(outcome: Record, l: Luck) returns (thrown: Thrown)
      modifies this
      ensures Done(View(), thrown) == ProcessAll(old(View()), outcome, l)
    {
      thrown := Fine;
      if !outcome.ended { return; }
      var current := outcome;
      if !current.returnRequested && current.status != ReturnRequested {
        thrown := DoRequestReturn(l);
        if thrown != Fine { return; }
        current := record;
      }
      if current.partial && current.amount > 0 {
        if current.batch.None? {
          thrown := DoPrepareBonus(current, l);
          if thrown != Fine { return; }
          current := record;
        }
        if !current.submitted { thrown := DoPayBonus(current, l); }
      }
    }

    /** One due outcome in processDue. */
    method ProcessDue(outcome: Record, l: Luck)
      modifies this
      ensures View() == Work(old(View()), outcome, l)
    {
      var thrown := DoProcessAll(outcome, l);
      if thrown == Error {
        var _ := MarkProlificAction(record.(status := Failed), l.failureMark);
      }
    }
  }

  /** How many due outcomes one pass takes. */
  const SCAN_LIMIT := 20

  function DueIndices(desks: seq<Desk>): seq<nat> {
    if desks == [] then []
    else
      var n := |desks| - 1;
      DueIndices(desks[..n]) + if Due(desks[n].record) then [n] else []
  }

  /** The outcomes of one pass: the first due ones, in order. */
  function Scan(desks: seq<Desk>): seq<nat> {
    var due := DueIndices(desks);
    if |due| > SCAN_LIMIT then due[..SCAN_LIMIT] else due
  }

  lemma {:induction false} DueIndicesExact(desks: seq<Desk>)
    ensures var due := DueIndices(desks);
            && (forall i :: i in due <==> 0 <= i < |desks| && Due(desks[i].record))
            && (forall j, k :: 0 <= j < k < |due| ==> due[j] < due[k])
  {
    if desks != [] {
      var n := |desks| - 1;
      DueIndicesExact(desks[..n]);
      var due := DueIndices(desks[..n]);
      assert forall j :: 0 <= j < |due| ==> due[j] in due;
      assert forall i :: 0 <= i < n ==> desks[..n][i] == desks[i];
    }
  }

  lemma ScanExact(desks: seq<Desk>)
    ensures var due := Scan(desks);
            && |due| <= SCAN_LIMIT
            && (forall k :: 0 <= k < |due| ==> due[k] < |desks| && Due(desks[due[k]].record))
            && (forall j, k :: 0 <= j < k < |due| ==> due[j] != due[k])
  {
    DueIndicesExact(desks);
    var due, all := Scan(desks), DueIndices(desks);
    forall k | 0 <= k < |due| ensures due[k] < |desks| && Due(desks[due[k]].record) {
      assert all[k] in all;
    }
  }

  /** The desks after the listed ones were worked on, each from the record the scan read. */
  function WorkedOn(desks: seq<Desk>, due: seq<nat>, lucks: seq<Luck>): (after: seq<Desk>)
    requires |lucks| == |desks| && forall k :: 0 <= k < |due| ==> due[k] < |desks|
    ensures |after| == |desks|
  {
    if due == [] then desks
    else
      var before, i := WorkedOn(desks, due[..|due| - 1], lucks), due[|due| - 1];
      before[i := Work(before[i], desks[i].record, lucks[i])]
  }

  /** One pass works on each listed outcome once, and on no other. */
  lemma {:induction false} WorkedOnExact(desks: seq<Desk>, due: seq<nat>, lucks: seq<Luck>)
    requires |lucks| == |desks| && forall k :: 0 <= k < |due| ==> due[k] < |desks|
    requires forall j, k :: 0 <= j < k < |due| ==> due[j] != due[k]
    ensures forall i :: 0 <= i < |desks| ==>
              WorkedOn(desks, due, lucks)[i] == if i in due then Work(desks[i], desks[i].record, lucks[i]) else desks[i]
  {
    if due != [] {
      var init, last := due[..|due| - 1], due[|due| - 1];
      WorkedOnExact(desks, init, lucks);
      assert due == init + [last] && last !in init;
    }
  }

  /** The worker over all outcomes, as one pass when nothing comes between. */
  class ProlificWorker {
    var desks: seq<Desk>
    var running: bool

    /** The records are read before the first of them is worked on. */
    method ProcessAllDue(lucks: seq<Luck>)
      requires |lucks| == |desks|
      modifies this
      ensures running == old(running)
      ensures ScanInRange(old(desks))
      ensures desks == if running then old(desks) else WorkedOn(old(desks), Scan(old(desks)), lucks)
    {
      ScanExact(desks);
      if running { return; }
      running := true;
      ghost var was := desks;
      var due := Scan(desks);
      var outcomes := seq(|desks|, i requires 0 <= i < |desks| reads this => desks[i].record);
      for k := 0 to |due|
        invariant running && desks == WorkedOn(was, due[..k], lucks)
      {
        assert due[..k + 1][..k] == due[..k];
        desks := desks[due[k] := Work(desks[due[k]], outcomes[due[k]], lucks[due[k]])];
      }
      assert due[..|due|] == due;
      running := false;
    }
  }

  ghost predicate ScanInRange(desks: seq<Desk>) { forall k :: 0 <= k < |Scan(desks)| ==> Scan(desks)[k] < |desks| }
}
