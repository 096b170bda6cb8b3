/**
 * One evaluation record per window boundary
 * (backend/session-manager/src/store/window-evaluations.ts).
 */
module WindowEvaluations {
  import opened Options
  import opened KeyedLists

  /**
   * A recorded boundary. An empty interventionId stands for null. counts holds
   * the counted messages of each member of the split.
   */
  datatype WindowEvaluation = WindowEvaluation(
    id: string, windowIndex: int, windowEnd: int, outcome: string,
    counts: seq<nat>, interventionId: string)

  function EvaluationId(e: WindowEvaluation): string { e.id }

  function WindowEnd(e: WindowEvaluation): int { e.windowEnd }

  function Sum(counts: seq<nat>): nat {
    if counts == [] then 0 else Sum(counts[..|counts| - 1]) + counts[|counts| - 1]
  }

  function MessageTotal(e: WindowEvaluation): nat { Sum(e.counts) }

  predicate Outranks(candidate: WindowEvaluation, current: WindowEvaluation) {
    if (candidate.interventionId != "") != (current.interventionId != "") then candidate.interventionId != ""
    else MessageTotal(candidate) > MessageTotal(current)
  }

  function Champion(current: WindowEvaluation, candidate: WindowEvaluation): WindowEvaluation {
    if Outranks(candidate, current) then candidate else current
  }

  /** What dedupeWindowEvaluations returns: the champion of each boundary, in order of first occurrence. */
  function Deduped(evaluations: seq<WindowEvaluation>): seq<WindowEvaluation> {
    UpsertAll([], WindowEnd, Champion, evaluations)
  }

  method DedupeWindowEvaluations(evaluations: seq<WindowEvaluation>) returns (kept: seq<WindowEvaluation>)
    ensures kept == Deduped(evaluations)
  {
    kept := [];
    for i := 0 to |evaluations|
      invariant kept == Deduped(evaluations[..i])
    {
      assert evaluations[..i + 1][..i] == evaluations[..i];
      var evaluation := evaluations[i];
      var at := Find(kept, WindowEnd, evaluation.windowEnd);
      if at == |kept| {
        kept := kept + [evaluation];
      } else if Outranks(evaluation, kept[at]) {
        kept := kept[at := evaluation];
      }
    }
    assert evaluations[..|evaluations|] == evaluations;
  }

  ghost predicate Any(e: WindowEvaluation) { true }

  lemma ChampionLawful()
    ensures Lawful(WindowEnd, Champion, Any)
    ensures KeepsKey(WindowEnd, Champion)
  {}

  /** Every input record is matched by a kept one of its boundary that it does not outrank. */
  lemma {:induction false} KeptOutranksAll(evaluations: seq<WindowEvaluation>, e: WindowEvaluation)
    requires e in evaluations
    ensures var kept := At(Deduped(evaluations), WindowEnd, e.windowEnd);
            kept.Some? && kept.value in evaluations && !Outranks(e, kept.value)
  {
    var init, last := evaluations[..|evaluations| - 1], evaluations[|evaluations| - 1];
    UpsertAt(Deduped(init), WindowEnd, Champion, last, e.windowEnd);
    assert [last][..0] == [];
    if e in init {
      KeptOutranksAll(init, e);
    } else if At(Deduped(init), WindowEnd, e.windowEnd).Some? {
      KeptFromInput(init, e.windowEnd);
    }
  }

  lemma {:induction false} KeptFromInput(evaluations: seq<WindowEvaluation>, end: int)
    ensures var kept := At(Deduped(evaluations), WindowEnd, end);
            kept.Some? ==> kept.value in evaluations && kept.value.windowEnd == end
  {
    if evaluations != [] {
      var init, last := evaluations[..|evaluations| - 1], evaluations[|evaluations| - 1];
      KeptFromInput(init, end);
      UpsertAt(Deduped(init), WindowEnd, Champion, last, end);
      assert [last][..0] == [];
    }
  }

  /**
   * The kept list: one record per boundary, boundaries in order of first
   * occurrence, every kept record an input record that nothing of its boundary outranks.
   */
  lemma DedupeKeepsTheBest(evaluations: seq<WindowEvaluation>)
    ensures var kept := Deduped(evaluations);
            && Keys(kept, WindowEnd) == Joined([], Keys(evaluations, WindowEnd))
            && Distinct(Keys(kept, WindowEnd))
            && (forall k :: k in kept ==> k in evaluations)
            && (forall k, e :: k in kept && e in evaluations && e.windowEnd == k.windowEnd ==> !Outranks(e, k))
  {
    var kept := Deduped(evaluations);
    ChampionLawful();
    UpsertAllKeys([], WindowEnd, Champion, evaluations);
    UpsertAllDistinct([], WindowEnd, Champion, evaluations);
    forall k | k in kept ensures k in evaluations && At(kept, WindowEnd, k.windowEnd) == Some(k) {
      var i :| 0 <= i < |kept| && kept[i] == k;
      FindDistinct(kept, WindowEnd, i);
      KeptFromInput(evaluations, k.windowEnd);
    }
    forall k, e | k in kept && e in evaluations && e.windowEnd == k.windowEnd ensures !Outranks(e, k) {
      KeptOutranksAll(evaluations, e);
    }
  }

  /** Records that outrank nothing kept leave the kept list alone. */
  lemma {:induction false} Absorbed(kept: seq<WindowEvaluation>, more: seq<WindowEvaluation>)
    requires forall e :: e in more ==>
               At(kept, WindowEnd, e.windowEnd).Some? && !Outranks(e, At(kept, WindowEnd, e.windowEnd).value)
    ensures UpsertAll(kept, WindowEnd, Champion, more) == kept
  {
    if more != [] {
      Absorbed(kept, more[..|more| - 1]);
      assert more[|more| - 1] in more;
    }
  }

  lemma DedupedStable(evaluations: seq<WindowEvaluation>)
    requires Distinct(Keys(evaluations, WindowEnd))
    ensures Deduped(evaluations) == evaluations
  {
    var d := Deduped(evaluations);
    ChampionLawful();
    UpsertAllKeys([], WindowEnd, Champion, evaluations);
    JoinedFresh(Keys(evaluations, WindowEnd));
    forall k | k in Keys(d, WindowEnd) ensures At(d, WindowEnd, k) == At(evaluations, WindowEnd, k) {
      UpsertAllAt([], WindowEnd, Champion, evaluations, k);
      FoldOfDistinct(evaluations, k);
    }
    Extensional(d, evaluations, WindowEnd);
  }

  lemma {:induction false} FoldOfDistinct(evaluations: seq<WindowEvaluation>, k: int)
    requires Distinct(Keys(evaluations, WindowEnd)) && k in Keys(evaluations, WindowEnd)
    ensures Fold(None, WindowEnd, Champion, evaluations, k) == At(evaluations, WindowEnd, k)
  {
    var n := |evaluations| - 1;
    var init := evaluations[..n];
    assert Keys(init, WindowEnd) == Keys(evaluations, WindowEnd)[..n];
    if evaluations[n].windowEnd == k {
      FindDistinct(evaluations, WindowEnd, n);
      FoldAbsentKey(None, WindowEnd, Champion, init, k);
    } else {
      FoldOfDistinct(init, k);
      var i := Find(init, WindowEnd, k);
      assert Keys(init, WindowEnd)[i] == k;
      FindDistinct(evaluations, WindowEnd, i);
    }
  }

  ghost predicate Consistent(s: seq<WindowEvaluation>, more: seq<WindowEvaluation>) {
    forall x, v :: x in more && (v in s || v in more) && v.id == x.id ==> v == x
  }

  /**
   * When no record changes under its id, deduplicating after the id-keyed merge
   * is the same as offering the new records to the deduplicated list.
   */
  lemma {:induction false} DedupeAfterPut(s: seq<WindowEvaluation>, more: seq<WindowEvaluation>)
    requires Consistent(s, more)
    ensures Deduped(PutAll(s, EvaluationId, more)) == UpsertAll(Deduped(s), WindowEnd, Champion, more)
    ensures forall e :: e in PutAll(s, EvaluationId, more) ==> e in s || e in more
  {
    if more != [] {
      var init, x := more[..|more| - 1], more[|more| - 1];
      DedupeAfterPut(s, init);
      var merged := PutAll(s, EvaluationId, init);
      var i := Find(merged, EvaluationId, x.id);
      if i < |merged| {
        assert merged[i] in merged;
        assert merged[i] == x;
        assert merged[i := x] == merged;
        KeptOutranksAll(merged, x);
        assert [x][..0] == [];
        Absorbed(Deduped(merged), [x]);
      } else {
        assert (merged + [x])[..|merged|] == merged;
      }
    }
  }

  function MergedWindows(stored: seq<WindowEvaluation>, incoming: seq<WindowEvaluation>): seq<WindowEvaluation> {
    Deduped(PutAll(PutAll([], EvaluationId, stored), EvaluationId, incoming))
  }

  /** Merging the same evaluations again changes nothing, whatever was stored. */
  lemma MergedWindowsTwice(stored: seq<WindowEvaluation>, incoming: seq<WindowEvaluation>)
    ensures var once := MergedWindows(stored, incoming);
            MergedWindows(once, incoming) == once
  {
    var base := PutAll([], EvaluationId, stored);
    var all := PutAll(base, EvaluationId, incoming);
    var once := Deduped(all);
    var latest := PutAll([], EvaluationId, incoming);
    UpsertAllDistinct([], EvaluationId, Newest, stored);
    UpsertAllDistinct(base, EvaluationId, Newest, incoming);
    UpsertAllDistinct([], EvaluationId, Newest, incoming);
    DedupeKeepsTheBest(all);
    DistinctPart(once, all);
    PutAllOverPrefix([], EvaluationId, once);
    PutAllLatest(once, EvaluationId, incoming);
    forall x | x in latest ensures x in all { LatestInMerged(base, incoming, x); }
    assert Consistent(once, latest) by {
      forall x, v | x in latest && (v in once || v in latest) && v.id == x.id ensures v == x {
        SameIdSame(all, v, x);
      }
    }
    DedupeAfterPut(once, latest);
    DedupedStable(once);
    forall x | x in latest
      ensures At(once, WindowEnd, x.windowEnd).Some? && !Outranks(x, At(once, WindowEnd, x.windowEnd).value)
    {
      KeptOutranksAll(all, x);
    }
    Absorbed(once, latest);
  }

  lemma SameIdSame(all: seq<WindowEvaluation>, v: WindowEvaluation, x: WindowEvaluation)
    requires Distinct(Keys(all, EvaluationId)) && v in all && x in all && v.id == x.id
    ensures v == x
  {
    var i :| 0 <= i < |all| && all[i] == v;
    var j :| 0 <= j < |all| && all[j] == x;
    assert Keys(all, EvaluationId)[i] == Keys(all, EvaluationId)[j];
  }

  lemma LatestInMerged(base: seq<WindowEvaluation>, incoming: seq<WindowEvaluation>, x: WindowEvaluation)
    requires x in PutAll([], EvaluationId, incoming)
    ensures x in PutAll(base, EvaluationId, incoming)
  {
    var latest := PutAll([], EvaluationId, incoming);
    var i :| 0 <= i < |latest| && latest[i] == x;
    UpsertAllKeys([], EvaluationId, Newest, incoming);
    UpsertAllDistinct([], EvaluationId, Newest, incoming);
    JoinedMembers([], Keys(incoming, EvaluationId));
    assert Keys(latest, EvaluationId)[i] == x.id;
    FindDistinct(latest, EvaluationId, i);
    UpsertAllAt([], EvaluationId, Newest, incoming, x.id);
    UpsertAllAt(base, EvaluationId, Newest, incoming, x.id);
    FoldNewest(At(base, EvaluationId, x.id), None, EvaluationId, incoming, x.id);
  }

  /** One record per boundary out of records with distinct ids still has distinct ids. */
  lemma DistinctPart(part: seq<WindowEvaluation>, all: seq<WindowEvaluation>)
    requires Distinct(Keys(all, EvaluationId)) && Distinct(Keys(part, WindowEnd))
    requires forall e :: e in part ==> e in all
    ensures Distinct(Keys(part, EvaluationId))
  {
    forall i, j | 0 <= i < j < |part| ensures Keys(part, EvaluationId)[i] != Keys(part, EvaluationId)[j] {
      assert Keys(part, WindowEnd)[i] != Keys(part, WindowEnd)[j];
      assert part[i] != part[j] && part[i] in all && part[j] in all;
      if part[i].id == part[j].id { SameIdSame(all, part[i], part[j]); }
    }
  }

  /**
   * The convergence step of the window list: with stored records that begin the
   * runtime's list, an older list leaves no trace, before or after a newer one.
   */
  lemma MergedWindowsConverge(stored: seq<WindowEvaluation>, older: seq<WindowEvaluation>, newer: seq<WindowEvaluation>)
    requires stored <= older <= newer && Distinct(Keys(newer, EvaluationId))
    ensures MergedWindows(MergedWindows(stored, older), newer) == MergedWindows(stored, newer)
    ensures MergedWindows(MergedWindows(stored, newer), older) == MergedWindows(stored, newer)
  {
    assert Keys(older, EvaluationId) <= Keys(newer, EvaluationId);
    assert Keys(stored, EvaluationId) <= Keys(older, EvaluationId);
    PutAllOverPrefix([], EvaluationId, stored);
    PutAllOverPrefix(stored, EvaluationId, older);
    PutAllOverPrefix(stored, EvaluationId, newer);
    OlderThenNewer(older, newer);
    NewerThenOlder(older, newer);
  }

  lemma OlderThenNewer(older: seq<WindowEvaluation>, newer: seq<WindowEvaluation>)
    requires older <= newer && Distinct(Keys(older, EvaluationId)) && Distinct(Keys(newer, EvaluationId))
    ensures MergedWindows(Deduped(older), newer) == Deduped(newer)
  {
    OfferAgain(older, newer);
    ChampionLawful();
    UpsertAllOlderFirst([], WindowEnd, Champion, Any, older, newer);
  }

  lemma NewerThenOlder(older: seq<WindowEvaluation>, newer: seq<WindowEvaluation>)
    requires older <= newer && Distinct(Keys(older, EvaluationId)) && Distinct(Keys(newer, EvaluationId))
    ensures MergedWindows(Deduped(newer), older) == Deduped(newer)
  {
    OfferAgain(newer, older);
    forall x | x in older
      ensures var kept := At(Deduped(newer), WindowEnd, x.windowEnd); kept.Some? && !Outranks(x, kept.value)
    {
      KeptOutranksAll(newer, x);
    }
    Absorbed(Deduped(newer), older);
  }

  lemma OfferAgain(a: seq<WindowEvaluation>, b: seq<WindowEvaluation>)
    requires Distinct(Keys(a, EvaluationId)) && Distinct(Keys(b, EvaluationId)) && (a <= b || b <= a)
    ensures MergedWindows(Deduped(a), b) == UpsertAll(Deduped(a), WindowEnd, Champion, b)
  {
    var d := Deduped(a);
    var all := if a <= b then b else a;
    DedupeKeepsTheBest(a);
    DistinctPart(d, a);
    PutAllOverPrefix([], EvaluationId, d);
    assert Consistent(d, b) by {
      forall x, v | x in b && (v in d || v in b) && v.id == x.id ensures v == x { SameIdSame(all, v, x); }
    }
    DedupeAfterPut(d, b);
    DedupedStable(d);
  }
}
