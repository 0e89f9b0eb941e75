/**
 The whole run: the gathered batch results line up with the input links, the
 split loop produces the valid and dead lists, and the completeness check
 compares them with the input.
 */
module Pipeline {
  import opened Wrappers
  import opened Status
  import opened Links
  import opened Fallback
  import opened Partition
  import opened Reconcile

  /** `asyncio.gather` keeps task order, and each task returns its own URL. */
  predicate Aligned(links: seq<Url>, results: seq<ProbeOutcome>)
  {
    Urls(results) == links
  }

  predicate NoDuplicates(links: seq<Url>)
  {
    forall i, j :: 0 <= i < j < |links| ==> links[i] != links[j]
  }

  /** A URL is left unchecked exactly when every batch entry for it failed
      twice; with duplicate-free input that is exactly the unresolved URLs. */
  lemma UncheckedAreUnresolved(links: seq<Url>, results: seq<ProbeOutcome>, retry: Prober, u: Url)
    requires Aligned(links, results)
    ensures u in Unchecked(links, UrlsWithFate(results, retry, Valid), UrlsWithFate(results, retry, Dead))
        <==> u in links
             && forall i :: 0 <= i < |results| && results[i].url == u ==> FateOf(results[i], retry) == Unresolved
  {
    var valid, dead := UrlsWithFate(results, retry, Valid), UrlsWithFate(results, retry, Dead);
    if u in links && u !in valid && u !in dead {
      forall i | 0 <= i < |results| && results[i].url == u
        ensures FateOf(results[i], retry) == Unresolved
      {
        assert FateOf(results[i], retry) == Valid ==> u in valid;
        assert FateOf(results[i], retry) == Dead ==> u in dead;
      }
    }
    if u in links && forall i :: 0 <= i < |results| && results[i].url == u ==> FateOf(results[i], retry) == Unresolved {
      assert u !in valid && u !in dead;
    }
  }

  /** Completeness under success: if every entry is resolved by the batch or by
      its single retry, the completeness check passes. */
  lemma AllResolvedConfirms(links: seq<Url>, results: seq<ProbeOutcome>, retry: Prober)
    requires Aligned(links, results)
    requires forall i :: 0 <= i < |results| ==> IsTruthy(results[i].status) || IsTruthy(retry(results[i].url))
    ensures ConfirmLinksChecked(links, UrlsWithFate(results, retry, Valid), UrlsWithFate(results, retry, Dead))
  {
    forall u | u in links
      ensures u in UrlsWithFate(results, retry, Valid) || u in UrlsWithFate(results, retry, Dead)
    {
      var i :| 0 <= i < |links| && links[i] == u;
      assert results[i].url == u;
      assert FateOf(results[i], retry) != Unresolved;
    }
  }

  /** Any entry that fails twice makes the completeness check fail when the
      input has no duplicates. */
  lemma DoubleFailureIsReported(links: seq<Url>, results: seq<ProbeOutcome>, retry: Prober, i: int)
    requires Aligned(links, results) && NoDuplicates(links)
    requires 0 <= i < |results| && !IsTruthy(results[i].status) && !IsTruthy(retry(results[i].url))
    ensures results[i].url in Unchecked(links, UrlsWithFate(results, retry, Valid), UrlsWithFate(results, retry, Dead))
    ensures !ConfirmLinksChecked(links, UrlsWithFate(results, retry, Valid), UrlsWithFate(results, retry, Dead))
  {
    UncheckedAreUnresolved(links, results, retry, results[i].url);
    assert results[i].url == links[i];
  }

  /** A URL of an entry with the given fate sits at that entry's position of the input. */
  lemma FateListWithinInput(links: seq<Url>, results: seq<ProbeOutcome>, retry: Prober, f: Fate, u: Url)
    requires Aligned(links, results)
    requires u in UrlsWithFate(results, retry, f)
    ensures exists i :: 0 <= i < |links| && links[i] == u && FateOf(results[i], retry) == f
  {
    var i :| 0 <= i < |results| && results[i].url == u && FateOf(results[i], retry) == f;
    assert links[i] == u;
  }

  /** For duplicate-free input no URL is both valid and dead. */
  lemma DistinctValidDeadDisjoint(links: seq<Url>, results: seq<ProbeOutcome>, retry: Prober)
    requires Aligned(links, results) && NoDuplicates(links)
    ensures ToSet(UrlsWithFate(results, retry, Valid)) !! ToSet(UrlsWithFate(results, retry, Dead))
  {
    forall u | u in UrlsWithFate(results, retry, Valid) && u in UrlsWithFate(results, retry, Dead)
      ensures false
    {
      FateListWithinInput(links, results, retry, Valid, u);
      FateListWithinInput(links, results, retry, Dead, u);
    }
  }

  /** For duplicate-free input the remainder is exactly the set of unresolved URLs. */
  lemma DistinctRemainderIsUnresolved(links: seq<Url>, results: seq<ProbeOutcome>, retry: Prober)
    requires Aligned(links, results) && NoDuplicates(links)
    ensures Unchecked(links, UrlsWithFate(results, retry, Valid), UrlsWithFate(results, retry, Dead))
         == ToSet(UrlsWithFate(results, retry, Unresolved))
  {
    var rest := Unchecked(links, UrlsWithFate(results, retry, Valid), UrlsWithFate(results, retry, Dead));
    var unresolved := UrlsWithFate(results, retry, Unresolved);
    forall u | u in rest
      ensures u in unresolved
    {
      UncheckedAreUnresolved(links, results, retry, u);
      var i :| 0 <= i < |links| && links[i] == u;
      assert results[i].url == u;
    }
    forall u | u in unresolved
      ensures u in rest
    {
      var i :| 0 <= i < |results| && results[i].url == u && FateOf(results[i], retry) == Unresolved;
      DoubleFailureIsReported(links, results, retry, i);
    }
  }

  /** The valid, dead and unchecked URLs together are exactly the input set,
      duplicates or not. */
  lemma ListsCoverInput(links: seq<Url>, results: seq<ProbeOutcome>, retry: Prober)
    requires Aligned(links, results)
    ensures var valid, dead := UrlsWithFate(results, retry, Valid), UrlsWithFate(results, retry, Dead);
            ToSet(valid) + ToSet(dead) + Unchecked(links, valid, dead) == ToSet(links)
  {
    var valid, dead := UrlsWithFate(results, retry, Valid), UrlsWithFate(results, retry, Dead);
    forall u | u in valid || u in dead
      ensures u in links
    {
      if u in valid {
        FateListWithinInput(links, results, retry, Valid, u);
      } else {
        FateListWithinInput(links, results, retry, Dead, u);
      }
    }
  }

  /** For duplicate-free input the valid, dead and unchecked URLs split the
      input set into three disjoint parts, and the unchecked ones are exactly
      the unresolved entries. */
  lemma DistinctInputPartitions(links: seq<Url>, results: seq<ProbeOutcome>, retry: Prober)
    requires Aligned(links, results) && NoDuplicates(links)
    ensures var valid, dead := UrlsWithFate(results, retry, Valid), UrlsWithFate(results, retry, Dead);
            var rest := Unchecked(links, valid, dead);
            && ToSet(valid) !! ToSet(dead)
            && ToSet(valid) + ToSet(dead) + rest == ToSet(links)
            && rest == ToSet(UrlsWithFate(results, retry, Unresolved))
  {
    DistinctValidDeadDisjoint(links, results, retry);
    DistinctRemainderIsUnresolved(links, results, retry);
    ListsCoverInput(links, results, retry);
  }

  /** Without the duplicate-free premise the lists can overlap: one URL listed
      twice, answered 200 and 404 by the batch, is both valid and dead. */
  lemma DuplicateUrlCanBeValidAndDead(retry: Prober)
    ensures var results := [ProbeOutcome("u", Some(200)), ProbeOutcome("u", Some(404))];
            UrlsWithFate(results, retry, Valid) == ["u"] && UrlsWithFate(results, retry, Dead) == ["u"]
  {
    var results := [ProbeOutcome("u", Some(200)), ProbeOutcome("u", Some(404))];
    assert results[1..] == [ProbeOutcome("u", Some(404))];
    assert results[1..][1..] == [];
  }
}
