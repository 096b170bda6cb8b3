/**
 * The contribution split of one closed window and the nudge decision
 * (backend/chat-service/src/rules/bot-rules.ts). Scores are exact reals.
 */
module ContributionRules {
  import opened Options
  import opened KeyedLists
  import opened Records
  import opened CheckpointMerge
  import opened Sorting
  import W = WindowGrid

  datatype Mode = Baseline | Public | Private

  datatype Config = Config(
    mode: Mode, threshold: real, warmup: int, wrapUp: int, window: int,
    messageWeight: real, wordWeight: real, shareWeight: real, meaningWeight: real, llmActive: bool)

  predicate ValidConfig(c: Config) {
    c.window > 0 && c.messageWeight >= 0.0 && c.wordWeight >= 0.0
  }

  // ---- which messages count ----

  /** The whitespace class of JavaScript's regular expressions. */
  predicate IsSpace(c: char) {
    || '\U{9}' <= c <= '\U{d}' || c == ' ' || c == '\U{a0}' || c == '\U{1680}' || '\U{2000}' <= c <= '\U{200a}'
    || c in {'\U{2028}', '\U{2029}', '\U{202f}', '\U{205f}', '\U{3000}', '\U{feff}'}
  }

  /** Whitespace-separated words: the places where a word starts. */
  function CountWords(text: string): nat {
    if text == "" then 0
    else
      var n := |text| - 1;
      CountWords(text[..n]) + if !IsSpace(text[n]) && (n == 0 || IsSpace(text[n - 1])) then 1 else 0
  }

  /** Words on both sides of a space are counted apart. */
  lemma {:induction false} WordsOnBothSides(a: string, space: char, b: string)
    requires IsSpace(space)
    ensures CountWords(a + [space] + b) == CountWords(a) + CountWords(b)
  {
    var text := a + [space] + b;
    var n := |text| - 1;
    if b == "" {
      assert text[..n] == a;
    } else {
      WordsOnBothSides(a, space, b[..|b| - 1]);
      assert text[..n] == a + [space] + b[..|b| - 1];
    }
  }

  /** A text of one run of other characters is one word. */
  lemma {:induction false} OneWord(word: string)
    requires word != "" && forall i :: 0 <= i < |word| ==> !IsSpace(word[i])
    ensures CountWords(word) == 1
  {
    if |word| > 1 { OneWord(word[..|word| - 1]); }
  }

  /** The closed window, less everything up to and including the tracker reset. */
  predicate InWindow(m: Message, end: int, window: int, reset: int) {
    end - window <= m.at <= end && m.at > reset
  }

  predicate Invites(m: Message, judged: seq<Classification>) {
    var c := At(judged, ClassifiedId, m.id);
    c.Some? && c.value.invites
  }

  predicate Excluded(m: Message, c: Config, judged: seq<Classification>) { c.llmActive && Invites(m, judged) }

  /** What the window asks of a message, besides its sender. */
  datatype Scope = Scope(config: Config, judged: seq<Classification>, end: int, reset: int)

  /** One member's counters. */
  datatype Stats = Stats(messageCount: nat, wordCount: nat, invitationCount: nat, meaningfulness: seq<real>)

  const NOTHING := Stats(0, 0, 0, [])

  /** The counters after one more message of the window: an invitation to speak is left out of the split. */
  function Counted(st: Stats, m: Message, s: Scope): Stats {
    var c := At(s.judged, ClassifiedId, m.id);
    if Excluded(m, s.config, s.judged) then st.(invitationCount := st.invitationCount + 1)
    else
      Stats(st.messageCount + 1, st.wordCount + CountWords(m.text), st.invitationCount,
            if c.Some? then st.meaningfulness + [c.value.meaningfulness] else st.meaningfulness)
  }

  function Tally(ms: seq<Message>, user: string, s: Scope): Stats {
    if ms == [] then NOTHING
    else
      var before, m := Tally(ms[..|ms| - 1], user, s), ms[|ms| - 1];
      if m.senderId == user && InWindow(m, s.end, s.config.window, s.reset) then Counted(before, m, s) else before
  }

  function RealSum(rs: seq<real>): real {
    if rs == [] then 0.0 else RealSum(rs[..|rs| - 1]) + rs[|rs| - 1]
  }

  function Mean(rs: seq<real>): real { if rs == [] then 0.0 else RealSum(rs) / (|rs| as real) }

  function Score(st: Stats, c: Config): real {
    (st.messageCount as real) * c.messageWeight + (st.wordCount as real) * c.wordWeight
  }

  datatype Share = Share(
    userId: string, messageCount: nat, wordCount: nat, invitationCount: nat,
    score: real, share: real, meaningfulness: real, dominance: real)

  function Scores(ms: seq<Message>, ids: seq<string>, s: Scope): seq<real> {
    seq(|ids|, i requires 0 <= i < |ids| => Score(Tally(ms, ids[i], s), s.config))
  }

  function ShareOf(user: string, st: Stats, total: real, c: Config): Share {
    var score := Score(st, c);
    var share := if total > 0.0 then score / total else 0.0;
    var meaning := Mean(st.meaningfulness);
    Share(user, st.messageCount, st.wordCount, st.invitationCount, score, share, meaning,
          if c.llmActive then c.shareWeight * share + c.meaningWeight * meaning else share)
  }

  /** contributionSplit */
  function Split(ms: seq<Message>, ids: seq<string>, s: Scope): (split: seq<Share>)
    ensures |split| == |ids| && forall i :: 0 <= i < |ids| ==> split[i].userId == ids[i]
  {
    seq(|ids|, i requires 0 <= i < |ids| => ShareOf(ids[i], Tally(ms, ids[i], s), RealSum(Scores(ms, ids, s)), s.config))
  }

  // ---- the loops ----

  /** The counting loop over the messages, one counter record per active member. */
  method CountMessages(messages: seq<Message>, classifications: seq<Classification>, ids: seq<string>,
                       config: Config, now: int, reset: int)
    returns (byUser: map<string, Stats>)
    ensures forall id :: id in byUser <==> id in ids
    ensures forall id :: id in ids ==>
              byUser[id] == Tally(messages, id, Scope(config, PutAll([], ClassifiedId, classifications), now, reset))
  {
    byUser := map[];
    for i := 0 to |ids|
      invariant forall id :: id in byUser <==> id in ids[..i]
      invariant forall id :: id in byUser ==> byUser[id] == NOTHING
    {
      byUser := byUser[ids[i] := NOTHING];
    }
    assert ids[..|ids|] == ids;
    var judged := MapOf(classifications, ClassifiedId);
    var s := Scope(config, judged, now, reset);
    for i := 0 to |messages|
      invariant forall id :: id in byUser <==> id in ids
      invariant forall id :: id in ids ==> byUser[id] == Tally(messages[..i], id, s)
    {
      assert messages[..i + 1][..i] == messages[..i];
      var message := messages[i];
      if message.at < now - config.window || message.at > now { continue; }
      if message.at <= reset { continue; }
      if message.senderId !in byUser { continue; }
      byUser := byUser[message.senderId := Counted(byUser[message.senderId], message, s)];
    }
    assert messages[..|messages|] == messages;
  }

  /** The counters are the members' tallies. */
  ghost predicate Tallied(byUser: map<string, Stats>, ms: seq<Message>, ids: seq<string>, s: Scope) {
    forall i :: 0 <= i < |ids| ==> ids[i] in byUser && byUser[ids[i]] == Tally(ms, ids[i], s)
  }

  method TotalScore(byUser: map<string, Stats>, ids: seq<string>, config: Config, ghost ms: seq<Message>, ghost s: Scope)
    returns (total: real)
    requires Tallied(byUser, ms, ids, s) && s.config == config
    ensures total == RealSum(Scores(ms, ids, s))
  {
    total := 0.0;
    ghost var scores := Scores(ms, ids, s);
    for i := 0 to |ids|
      invariant total == RealSum(scores[..i])
    {
      assert scores[..i + 1][..i] == scores[..i];
      total := total + Score(byUser[ids[i]], config);
    }
    assert scores[..|ids|] == scores;
  }

  method ContributionSplit(messages: seq<Message>, classifications: seq<Classification>, ids: seq<string>,
                           config: Config, now: int, reset: int)
    returns (split: seq<Share>)
    ensures split == Split(messages, ids, Scope(config, PutAll([], ClassifiedId, classifications), now, reset))
  {
    var byUser := CountMessages(messages, classifications, ids, config, now, reset);
    ghost var s := Scope(config, PutAll([], ClassifiedId, classifications), now, reset);
    assert Tallied(byUser, messages, ids, s);
    var total := TotalScore(byUser, ids, config, messages, s);
    split := [];
    for i := 0 to |ids|
      invariant |split| == i && forall k :: 0 <= k < i ==> split[k] == Split(messages, ids, s)[k]
    {
      split := split + [ShareOf(ids[i], byUser[ids[i]], total, config)];
    }
  }

  // ---- accounting ----

  /** The messages of the members that the window looks at. */
  function Seen(ms: seq<Message>, ids: seq<string>, s: Scope): nat {
    if ms == [] then 0
    else
      var m := ms[|ms| - 1];
      Seen(ms[..|ms| - 1], ids, s) + if m.senderId in ids && InWindow(m, s.end, s.config.window, s.reset) then 1 else 0
  }

  function CountedPlusExcluded(ms: seq<Message>, ids: seq<string>, s: Scope): nat {
    if ids == [] then 0
    else
      var st := Tally(ms, ids[|ids| - 1], s);
      CountedPlusExcluded(ms, ids[..|ids| - 1], s) + st.messageCount + st.invitationCount
  }

  lemma {:induction false} OneMoreMessage(ms: seq<Message>, m: Message, ids: seq<string>, s: Scope)
    requires Distinct(ids)
    ensures CountedPlusExcluded(ms + [m], ids, s)
         == CountedPlusExcluded(ms, ids, s)
            + if m.senderId in ids && InWindow(m, s.end, s.config.window, s.reset) then 1 else 0
  {
    if ids != [] {
      var init, last := ids[..|ids| - 1], ids[|ids| - 1];
      OneMoreMessage(ms, m, init, s);
      assert (ms + [m])[..|ms|] == ms;
      assert ids == init + [last];
      assert last !in init;
    }
  }

  /** Counted messages plus excluded invitations are exactly the members' messages in the window. */
  lemma {:induction false} Accounting(ms: seq<Message>, ids: seq<string>, s: Scope)
    requires Distinct(ids)
    ensures CountedPlusExcluded(ms, ids, s) == Seen(ms, ids, s)
  {
    if ms == [] {
      NoMessages(ids, s);
    } else {
      Accounting(ms[..|ms| - 1], ids, s);
      OneMoreMessage(ms[..|ms| - 1], ms[|ms| - 1], ids, s);
      assert ms == ms[..|ms| - 1] + [ms[|ms| - 1]];
    }
  }

  lemma {:induction false} NoMessages(ids: seq<string>, s: Scope)
    ensures CountedPlusExcluded([], ids, s) == 0
  {
    if ids != [] { NoMessages(ids[..|ids| - 1], s); }
  }

  lemma {:induction false} SumNonnegative(rs: seq<real>)
    requires forall i :: 0 <= i < |rs| ==> rs[i] >= 0.0
    ensures RealSum(rs) >= 0.0
    ensures forall i :: 0 <= i < |rs| ==> rs[i] <= RealSum(rs)
  {
    if rs != [] {
      SumNonnegative(rs[..|rs| - 1]);
      forall i | 0 <= i < |rs| ensures rs[i] <= RealSum(rs) {
        if i < |rs| - 1 { assert rs[..|rs| - 1][i] == rs[i]; }
      }
    }
  }

  lemma {:induction false} SumScaled(rs: seq<real>, qs: seq<real>, total: real)
    requires total > 0.0 && |rs| == |qs| && forall i :: 0 <= i < |rs| ==> qs[i] == rs[i] / total
    ensures RealSum(qs) == RealSum(rs) / total
  {
    if rs != [] {
      SumScaled(rs[..|rs| - 1], qs[..|qs| - 1], total);
    }
  }

  function SharesOf(split: seq<Share>): seq<real> {
    seq(|split|, i requires 0 <= i < |split| => split[i].share)
  }

  lemma ScoresNonnegative(ms: seq<Message>, ids: seq<string>, s: Scope)
    requires ValidConfig(s.config)
    ensures var scores := Scores(ms, ids, s);
            forall i :: 0 <= i < |scores| ==> 0.0 <= scores[i] <= RealSum(scores)
  {
    var scores := Scores(ms, ids, s);
    forall i | 0 <= i < |ids| ensures scores[i] >= 0.0 {
      ScoreNonnegative(Tally(ms, ids[i], s), s.config);
    }
    SumNonnegative(scores);
  }

  /** Every share lies in [0, 1]; without a positive total all shares and scores are 0. */
  lemma SharesAreFractions(ms: seq<Message>, ids: seq<string>, s: Scope, i: nat)
    requires ValidConfig(s.config) && i < |ids|
    ensures 0.0 <= Split(ms, ids, s)[i].share <= 1.0
    ensures RealSum(Scores(ms, ids, s)) <= 0.0 ==>
              Split(ms, ids, s)[i].share == 0.0 && Split(ms, ids, s)[i].score == 0.0
  {
    ScoresNonnegative(ms, ids, s);
    var score, total := Scores(ms, ids, s)[i], RealSum(Scores(ms, ids, s));
    if total > 0.0 { FractionOf(score, total); }
    assert Split(ms, ids, s)[i].score == score;
  }

  /** When anything scored, the shares sum to 1. */
  lemma SharesSumToOne(ms: seq<Message>, ids: seq<string>, s: Scope)
    requires RealSum(Scores(ms, ids, s)) > 0.0
    ensures RealSum(SharesOf(Split(ms, ids, s))) == 1.0
  {
    var scores, total := Scores(ms, ids, s), RealSum(Scores(ms, ids, s));
    var shares := SharesOf(Split(ms, ids, s));
    forall i | 0 <= i < |ids| ensures shares[i] == scores[i] / total {}
    SumScaled(scores, shares, total);
    Whole(total);
  }

  /** Without the judgements, who scored more dominates more. */
  lemma {:induction false} ScoresDecide(ms: seq<Message>, ids: seq<string>, s: Scope, i: nat, j: nat)
    requires !s.config.llmActive && RealSum(Scores(ms, ids, s)) > 0.0 && i < |ids| && j < |ids|
    ensures var split := Split(ms, ids, s);
            && split[i].score == Scores(ms, ids, s)[i]
            && (split[i].dominance > split[j].dominance <==> Scores(ms, ids, s)[i] > Scores(ms, ids, s)[j])
  {
    var scores, total := Scores(ms, ids, s), RealSum(Scores(ms, ids, s));
    DivisionOrder(scores[i], scores[j], total);
  }

  lemma DivisionOrder(a: real, b: real, total: real)
    requires total > 0.0
    ensures a / total > b / total <==> a > b
  {
    assert a / total * total == a && b / total * total == b;
  }

  lemma ScoreNonnegative(st: Stats, c: Config)
    requires ValidConfig(c)
    ensures Score(st, c) >= 0.0
  {
    Product(st.messageCount as real, c.messageWeight);
    Product(st.wordCount as real, c.wordWeight);
  }

  lemma Product(a: real, b: real)
    requires a >= 0.0 && b >= 0.0
    ensures a * b >= 0.0
  {}

  lemma FractionOf(a: real, total: real)
    requires 0.0 <= a <= total && total > 0.0
    ensures 0.0 <= a / total <= 1.0
  {}

  lemma Whole(total: real)
    requires total > 0.0
    ensures total / total == 1.0
  {}

  // ---- the decision at a boundary ----

  datatype Outcome = Nudged(target: string) | NoTarget | BaselineSuppressed | WarmUp | WrapUp | TooFewParticipants

  /** isInsideInterventionWindow */
  predicate Inside(c: Config, startedAt: int, duration: int, now: int) {
    var elapsed := if now > startedAt then now - startedAt else 0;
    elapsed >= c.warmup && !(duration > 0 && duration - elapsed <= (if c.wrapUp > 0 then c.wrapUp else 0))
  }

  function MoreDominant(a: Share, b: Share): bool {
    a.dominance > b.dominance || (a.dominance == b.dominance && a.score > b.score)
  }

  function OverThreshold(split: seq<Share>, threshold: real): seq<Share> {
    if split == [] then []
    else
      var init := OverThreshold(split[..|split| - 1], threshold);
      if split[|split| - 1].dominance >= threshold then init + [split[|split| - 1]] else init
  }

  lemma {:induction false} OverThresholdExact(split: seq<Share>, threshold: real)
    ensures forall e :: e in OverThreshold(split, threshold) <==> e in split && e.dominance >= threshold
  {
    if split != [] {
      OverThresholdExact(split[..|split| - 1], threshold);
      assert split == split[..|split| - 1] + [split[|split| - 1]];
    }
  }

  function Candidates(split: seq<Share>, threshold: real): seq<Share> {
    Sorted(OverThreshold(split, threshold), MoreDominant)
  }

  /** What onWindowElapsed decides; active and stillActive are the two membership reads. */
  function Decision(c: Config, startedAt: int, duration: int, now: int, split: seq<Share>,
                    active: seq<string>, stillActive: seq<string>): Outcome {
    if !Inside(c, startedAt, duration, now) then
      (if (if now > startedAt then now - startedAt else 0) < c.warmup then WarmUp else WrapUp)
    else if |active| < 2 then TooFewParticipants
    else
      var over := Candidates(split, c.threshold);
      if over == [] then NoTarget
      else if c.mode.Baseline? then BaselineSuppressed
      else if |stillActive| < 2 then TooFewParticipants
      else if over[0].userId !in stillActive then NoTarget
      else Nudged(over[0].userId)
  }

  /** The first member of the split that nobody dominates more. */
  ghost predicate Top(split: seq<Share>, i: int) {
    && 0 <= i < |split|
    && (forall j :: 0 <= j < i ==> MoreDominant(split[i], split[j]))
    && (forall j :: i < j < |split| ==> !MoreDominant(split[j], split[i]))
  }

  /** Filtering by the threshold and sorting puts the most dominant member first. */
  lemma {:induction false} CandidatesStartAtTop(split: seq<Share>, threshold: real) returns (i: int)
    ensures Candidates(split, threshold) == [] ==> forall j :: 0 <= j < |split| ==> split[j].dominance < threshold
    ensures Candidates(split, threshold) != [] ==>
              Top(split, i) && split[i] == Candidates(split, threshold)[0] && split[i].dominance >= threshold
  {
    i := 0;
    if split != [] {
      var n := |split| - 1;
      var init, last := split[..n], split[n];
      i := CandidatesStartAtTop(init, threshold);
      var over := Candidates(init, threshold);
      if last.dominance >= threshold {
        var all := OverThreshold(split, threshold);
        assert all[..|all| - 1] == OverThreshold(init, threshold);
        assert Candidates(split, threshold) == Insert(over, MoreDominant, last);
        if over == [] || MoreDominant(last, over[0]) {
          LastIsTop(split, i, threshold, over == []);
          i := n;
        }
      }
    }
  }

  lemma LastIsTop(split: seq<Share>, i: int, threshold: real, none: bool)
    requires |split| > 0 && split[|split| - 1].dominance >= threshold
    requires none ==> forall j :: 0 <= j < |split| - 1 ==> split[j].dominance < threshold
    requires !none ==> Top(split[..|split| - 1], i) && MoreDominant(split[|split| - 1], split[i])
    ensures Top(split, |split| - 1)
  {}

  /**
   * A nudge goes out exactly when the boundary lies inside the intervention
   * phase, the arm delivers nudges, at least two members are there before and
   * after the text was made, and the most dominant member of the split is at or
   * above the threshold and still there; it goes to that member.
   */
  lemma NudgeExactly(c: Config, startedAt: int, duration: int, now: int, split: seq<Share>,
                     active: seq<string>, stillActive: seq<string>)
    ensures var d := Decision(c, startedAt, duration, now, split, active, stillActive);
            d.Nudged? <==>
              && Inside(c, startedAt, duration, now) && |active| >= 2 && |stillActive| >= 2 && !c.mode.Baseline?
              && exists i :: Top(split, i) && split[i].dominance >= c.threshold && split[i].userId in stillActive
    ensures var d := Decision(c, startedAt, duration, now, split, active, stillActive);
            d.Nudged? ==> exists i :: Top(split, i) && split[i].dominance >= c.threshold && split[i].userId == d.target
  {
    var i := CandidatesStartAtTop(split, c.threshold);
  }

  // ---- the rule state over a session ----

  /** What one boundary meets: the messages and judgements so far, the membership reads (None: failed) and the post. */
  datatype Boundary = Boundary(
    end: int, messages: seq<Message>, classifications: seq<Classification>,
    active: Option<seq<string>>, stillActive: Option<seq<string>>, posted: bool)

  datatype Evaluation = Evaluation(end: int, outcome: Outcome, split: seq<Share>)

  datatype Rules = Rules(lastInterventionAt: Option<int>, evaluations: seq<Evaluation>)

  /** A session's frozen settings. */
  datatype Setting = Setting(config: Config, startedAt: int, duration: int)

  function ResetOf(last: Option<int>, s: Setting): int {
    var from, warmupEnd := if last.Some? then last.value else 0, s.startedAt + s.config.warmup;
    if from > warmupEnd then from else warmupEnd
  }

  function ScopeAt(r: Rules, b: Boundary, s: Setting): Scope {
    Scope(s.config, PutAll([], ClassifiedId, b.classifications), b.end, ResetOf(r.lastInterventionAt, s))
  }

  /** The evaluation a boundary leaves; none when a membership read or the post fails. */
  function EvaluationAt(r: Rules, b: Boundary, s: Setting): Option<Evaluation> {
    if !Inside(s.config, s.startedAt, s.duration, b.end) then
      Some(Evaluation(b.end, Decision(s.config, s.startedAt, s.duration, b.end, [], [], []), []))
    else if b.active.None? then None
    else if |b.active.value| < 2 then Some(Evaluation(b.end, TooFewParticipants, []))
    else
      var split := Split(b.messages, b.active.value, ScopeAt(r, b, s));
      if Candidates(split, s.config.threshold) == [] then Some(Evaluation(b.end, NoTarget, split))
      else if s.config.mode.Baseline? then Some(Evaluation(b.end, BaselineSuppressed, split))
      else if b.stillActive.None? then None
      else
        var outcome := Decision(s.config, s.startedAt, s.duration, b.end, split, b.active.value, b.stillActive.value);
        if outcome.Nudged? && !b.posted then None else Some(Evaluation(b.end, outcome, split))
  }

  /** The reads and the post must succeed, too; everything else is NudgeExactly. */
  lemma {:induction false} NudgesExactly(r: Rules, b: Boundary, s: Setting)
    ensures NudgeAt(r, b, s) <==>
              && Inside(s.config, s.startedAt, s.duration, b.end) && !s.config.mode.Baseline? && b.posted
              && b.active.Some? && |b.active.value| >= 2 && b.stillActive.Some? && |b.stillActive.value| >= 2
              && var split := Split(b.messages, b.active.value, ScopeAt(r, b, s));
                 exists i :: Top(split, i) && split[i].dominance >= s.config.threshold && split[i].userId in b.stillActive.value
  {
    if b.active.Some? && b.stillActive.Some? {
      var split := Split(b.messages, b.active.value, ScopeAt(r, b, s));
      NudgeExactly(s.config, s.startedAt, s.duration, b.end, split, b.active.value, b.stillActive.value);
    }
  }

  /** onWindowElapsed on the rule state */
  function Elapsed(r: Rules, b: Boundary, s: Setting): Rules {
    var e := EvaluationAt(r, b, s);
    if e.None? then r
    else Rules(if e.value.outcome.Nudged? then Some(b.end) else r.lastInterventionAt, r.evaluations + [e.value])
  }

  function ElapsedAll(r: Rules, bs: seq<Boundary>, s: Setting): (after: Rules)
    ensures r.evaluations <= after.evaluations && |after.evaluations| <= |r.evaluations| + |bs|
  {
    if bs == [] then r else Elapsed(ElapsedAll(r, bs[..|bs| - 1], s), bs[|bs| - 1], s)
  }

  class StudyBotRules {
    var lastInterventionAt: Option<int>
    var evaluations: seq<Evaluation>

    function View(): Rules reads this { Rules(lastInterventionAt, evaluations) }

    method OnWindowElapsed(b: Boundary, s: Setting)
      modifies this
      ensures View() == Elapsed(old(View()), b, s)
    {
      var elapsed := if b.end > s.startedAt then b.end - s.startedAt else 0;
      if !Inside(s.config, s.startedAt, s.duration, b.end) {
        Record(b.end, if elapsed < s.config.warmup then WarmUp else WrapUp, []);
        return;
      }
      if b.active.None? { return; }
      var active := b.active.value;
      if |active| < 2 {
        Record(b.end, TooFewParticipants, []);
        return;
      }
      var split := ContributionSplit(
        b.messages, b.classifications, active, s.config, b.end, ResetOf(lastInterventionAt, s));
      var over := Candidates(split, s.config.threshold);
      if over == [] {
        Record(b.end, NoTarget, split);
        return;
      }
      if s.config.mode.Baseline? {
        Record(b.end, BaselineSuppressed, split);
        return;
      }
      if b.stillActive.None? { return; }
      var stillActive := b.stillActive.value;
      if |stillActive| < 2 || over[0].userId !in stillActive {
        Record(b.end, if |stillActive| < 2 then TooFewParticipants else NoTarget, split);
        return;
      }
      if !b.posted { return; }
      lastInterventionAt := Some(b.end);
      Record(b.end, Nudged(over[0].userId), split);
    }

    method Record(end: int, outcome: Outcome, split: seq<Share>)
      modifies this`evaluations
      ensures evaluations == old(evaluations) + [Evaluation(end, outcome, split)]
    {
      evaluations := evaluations + [Evaluation(end, outcome, split)];
    }
  }

  // ---- no message counts twice ----

  /** Boundaries as the window timer claims them: at least one window length apart. */
  ghost predicate Spaced(bs: seq<Boundary>, window: int) {
    forall i, j :: 0 <= i < j < |bs| ==> bs[i].end + window <= bs[j].end
  }

  /** The scope the n-th boundary of a session is evaluated in. */
  function NthScope(r: Rules, bs: seq<Boundary>, n: nat, s: Setting): Scope
    requires n < |bs|
  {
    ScopeAt(ElapsedAll(r, bs[..n], s), bs[n], s)
  }

  predicate NudgedAt(r: Rules, bs: seq<Boundary>, k: nat, s: Setting)
    requires k < |bs|
  {
    NudgeAt(ElapsedAll(r, bs[..k], s), bs[k], s)
  }

  predicate NudgeAt(r: Rules, b: Boundary, s: Setting) {
    var e := EvaluationAt(r, b, s);
    e.Some? && e.value.outcome.Nudged?
  }

  lemma OneMoreBoundary(r: Rules, bs: seq<Boundary>, n: nat, s: Setting)
    requires 0 < n <= |bs|
    ensures ElapsedAll(r, bs[..n], s) == Elapsed(ElapsedAll(r, bs[..n - 1], s), bs[n - 1], s)
  {
    assert bs[..n][..n - 1] == bs[..n - 1];
  }

  /** A nudge stamps its boundary, anything else leaves the stamp. */
  lemma Stamped(r: Rules, b: Boundary, s: Setting)
    ensures Elapsed(r, b, s).lastInterventionAt == if NudgeAt(r, b, s) then Some(b.end) else r.lastInterventionAt
  {}

  lemma StampAfter(r: Rules, bs: seq<Boundary>, n: nat, s: Setting)
    requires n < |bs|
    ensures ElapsedAll(r, bs[..n + 1], s).lastInterventionAt
         == if NudgedAt(r, bs, n, s) then Some(bs[n].end) else ElapsedAll(r, bs[..n], s).lastInterventionAt
  {
    OneMoreBoundary(r, bs, n + 1, s);
    Stamped(ElapsedAll(r, bs[..n], s), bs[n], s);
  }

  /** Stamps that only move to the ends of later nudges. */
  lemma {:induction false} StampsGrow(stamps: seq<Option<int>>, nudged: seq<bool>, ends: seq<int>, k: nat, n: nat)
    requires |stamps| == |ends| + 1 && |nudged| == |ends| && k < n <= |ends| && nudged[k]
    requires forall i, j :: 0 <= i < j < |ends| ==> ends[i] <= ends[j]
    requires forall i :: 0 <= i < |ends| ==> stamps[i + 1] == if nudged[i] then Some(ends[i]) else stamps[i]
    ensures stamps[n].Some? && ends[k] <= stamps[n].value
    decreases n
  {
    assert stamps[n - 1 + 1] == if nudged[n - 1] then Some(ends[n - 1]) else stamps[n - 1];
    if k < n - 1 { StampsGrow(stamps, nudged, ends, k, n - 1); }
  }

  /** From a nudge on, the tracker reset lies at or after its boundary. */
  lemma {:induction false} NudgeResets(r: Rules, bs: seq<Boundary>, k: nat, n: nat, s: Setting)
    requires k < n <= |bs| && Spaced(bs, s.config.window) && s.config.window > 0 && NudgedAt(r, bs, k, s)
    ensures ElapsedAll(r, bs[..n], s).lastInterventionAt.Some?
    ensures bs[k].end <= ElapsedAll(r, bs[..n], s).lastInterventionAt.value
  {
    var stamps := seq(|bs| + 1, i requires 0 <= i <= |bs| => ElapsedAll(r, bs[..i], s).lastInterventionAt);
    var nudged := seq(|bs|, i requires 0 <= i < |bs| => NudgedAt(r, bs, i, s));
    var ends := seq(|bs|, i requires 0 <= i < |bs| => bs[i].end);
    forall i | 0 <= i < |ends| ensures stamps[i + 1] == if nudged[i] then Some(ends[i]) else stamps[i] {
      StampAfter(r, bs, i, s);
    }
    StampsGrow(stamps, nudged, ends, k, n);
  }

  predicate Within(m: Message, s: Scope) { InWindow(m, s.end, s.config.window, s.reset) }

  lemma {:induction false} SpacedCountOnce(r: Rules, bs: seq<Boundary>, s: Setting, i: nat, j: nat, m: Message)
    requires i < j < |bs| && Spaced(bs, s.config.window) && s.config.window > 0
    requires Within(m, NthScope(r, bs, j, s))
    ensures Within(m, NthScope(r, bs, i, s)) ==> m.at == bs[i].end && bs[j].end == bs[i].end + s.config.window
    ensures NudgedAt(r, bs, i, s) ==> m.at > bs[i].end && !Within(m, NthScope(r, bs, i, s))
  {
    if NudgedAt(r, bs, i, s) { NudgeResets(r, bs, i, j, s); }
  }

  /** The boundaries are those a run of the window timer recorded, on the grid of the same session. */
  ghost predicate Timed(bs: seq<Boundary>, s: Setting, start: int, steps: seq<W.Step>, last: W.Scheduler) {
    var g := W.Grid(s.startedAt, s.config.warmup, s.config.window);
    && W.ValidGrid(g) && W.Run(g, W.Started(g, start, []), steps, last)
    && |bs| == |last.recorded| && forall k :: 0 <= k < |bs| ==> bs[k].end == last.recorded[k].end
  }

  lemma TimedAreSpaced(bs: seq<Boundary>, s: Setting, start: int, steps: seq<W.Step>, last: W.Scheduler)
    requires Timed(bs, s, start, steps, last)
    ensures Spaced(bs, s.config.window)
  {
    var g := W.Grid(s.startedAt, s.config.warmup, s.config.window);
    W.WindowsApart(g, start, steps, last);
    forall i, j | 0 <= i < j < |bs| ensures bs[i].end + s.config.window <= bs[j].end {
      assert W.Ends(last)[i] == bs[i].end && W.Ends(last)[j] == bs[j].end;
    }
  }

  /**
   * Over the boundaries that any run of the window timer recorded, clock jumps
   * and restarts included: a message that two evaluations look at lies exactly on
   * their shared boundary, and one at or before a nudge's boundary is looked at
   * by no later evaluation.
   */
  lemma {:induction false} CountedOnce(r: Rules, bs: seq<Boundary>, s: Setting, start: int, steps: seq<W.Step>,
                                       last: W.Scheduler, i: nat, j: nat, m: Message)
    requires Timed(bs, s, start, steps, last) && i < j < |bs|
    requires Within(m, NthScope(r, bs, j, s))
    ensures Within(m, NthScope(r, bs, i, s)) ==> m.at == bs[i].end && bs[j].end == bs[i].end + s.config.window
    ensures NudgedAt(r, bs, i, s) ==> m.at > bs[i].end && !Within(m, NthScope(r, bs, i, s))
  {
    TimedAreSpaced(bs, s, start, steps, last);
    SpacedCountOnce(r, bs, s, i, j, m);
  }

  /**
   * The window is closed at both ends: on two adjacent boundaries of which the
   * first sends no nudge, exactly the messages on the first are looked at twice.
   */
  lemma BoundaryCountsTwice(r: Rules, bs: seq<Boundary>, s: Setting, i: nat, m: Message)
    requires i + 1 < |bs| && bs[i + 1].end == bs[i].end + s.config.window && s.config.window > 0
    requires !NudgedAt(r, bs, i, s) && NthScope(r, bs, i, s).reset < bs[i].end
    ensures Within(m, NthScope(r, bs, i, s)) && Within(m, NthScope(r, bs, i + 1, s)) <==> m.at == bs[i].end
  {
    assert bs[..i + 1][..i] == bs[..i];
  }
}
