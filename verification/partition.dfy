/**
 The loop at the end of the asynchronous check: it walks the gathered batch
 results in order, retries each failed entry once, and appends each resolved
 URL to the valid or the dead list.
 */
module Partition {
  import opened Status
  import opened Links
  import opened Fallback

  /** The URLs of the batch results, in order. */
  function Urls(results: seq<ProbeOutcome>): (us: seq<Url>)
    ensures |us| == |results|
    ensures forall i :: 0 <= i < |results| ==> us[i] == results[i].url
  {
    if |results| == 0 then [] else [results[0].url] + Urls(results[1..])
  }

  /** Reference definition of one output list: the URLs of the entries with
      fate `f`, in the order of the batch. */
  function UrlsWithFate(results: seq<ProbeOutcome>, retry: Prober, f: Fate): (us: seq<Url>)
    ensures |us| <= |results|
    ensures forall u :: u in us <==>
              exists i :: 0 <= i < |results| && results[i].url == u && FateOf(results[i], retry) == f
  {
    if |results| == 0 then []
    else
      var rest := UrlsWithFate(results[1..], retry, f);
      assert forall i :: 1 <= i < |results| ==> results[i] == results[1..][i - 1];
      if FateOf(results[0], retry) == f then [results[0].url] + rest else rest
  }

  /** The URLs handed to the synchronous probe: those whose batch status is falsy. */
  function RetriedUrls(results: seq<ProbeOutcome>): (us: seq<Url>)
    ensures |us| <= |results|
    ensures forall u :: u in us <==>
              exists i :: 0 <= i < |results| && results[i].url == u && !IsTruthy(results[i].status)
  {
    if |results| == 0 then []
    else
      var rest := RetriedUrls(results[1..]);
      assert forall i :: 1 <= i < |results| ==> results[i] == results[1..][i - 1];
      if !IsTruthy(results[0].status) then [results[0].url] + rest else rest
  }

  /** `a` is an order-preserving subsequence of `b`. */
  predicate SubsequenceOf(a: seq<Url>, b: seq<Url>)
    decreases |b|
  {
    if |a| == 0 then true
    else if |b| == 0 then false
    else (a[0] == b[0] && SubsequenceOf(a[1..], b[1..])) || SubsequenceOf(a, b[1..])
  }

  lemma UrlsWithFateAppend(results: seq<ProbeOutcome>, o: ProbeOutcome, retry: Prober, f: Fate)
    ensures UrlsWithFate(results + [o], retry, f)
         == UrlsWithFate(results, retry, f) + (if FateOf(o, retry) == f then [o.url] else [])
  {
    if |results| > 0 {
      assert (results + [o])[1..] == results[1..] + [o];
      UrlsWithFateAppend(results[1..], o, retry, f);
    }
  }

  lemma RetriedUrlsAppend(results: seq<ProbeOutcome>, o: ProbeOutcome)
    ensures RetriedUrls(results + [o])
         == RetriedUrls(results) + (if !IsTruthy(o.status) then [o.url] else [])
  {
    if |results| > 0 {
      assert (results + [o])[1..] == results[1..] + [o];
      RetriedUrlsAppend(results[1..], o);
    }
  }

  /**
   The split loop. `retried` lists, in order, the URLs passed to the
   synchronous probe: one call per entry with a falsy batch status, and
   no call for any other entry.
   */
  method CheckLinks(results: seq<ProbeOutcome>, retry: Prober)
    returns (valid: seq<Url>, dead: seq<Url>, retried: seq<Url>)
    ensures valid == UrlsWithFate(results, retry, Valid)
    ensures dead == UrlsWithFate(results, retry, Dead)
    ensures retried == RetriedUrls(results)
  {
    valid, dead, retried := [], [], [];
    var i := 0;
    while i < |results|
      invariant 0 <= i <= |results|
      invariant valid == UrlsWithFate(results[..i], retry, Valid)
      invariant dead == UrlsWithFate(results[..i], retry, Dead)
      invariant retried == RetriedUrls(results[..i])
    {
      var url, status := results[i].url, results[i].status;
      assert results[..i + 1] == results[..i] + [results[i]];
      UrlsWithFateAppend(results[..i], results[i], retry, Valid);
      UrlsWithFateAppend(results[..i], results[i], retry, Dead);
      RetriedUrlsAppend(results[..i], results[i]);
      if !IsTruthy(status) {
        retried := retried + [url];
        status := retry(url);
        if !IsTruthy(status) {
          i := i + 1;
          continue;
        }
      }
      if IsValidStatus(status.value) {
        valid := valid + [url];
      } else {
        dead := dead + [url];
      }
      i := i + 1;
    }
    assert results[..i] == results;
  }

  /** Each output list keeps the batch order: it is a subsequence of the URLs. */
  lemma {:induction false} UrlsWithFateIsSubsequence(results: seq<ProbeOutcome>, retry: Prober, f: Fate)
    ensures SubsequenceOf(UrlsWithFate(results, retry, f), Urls(results))
  {
    if |results| > 0 {
      UrlsWithFateIsSubsequence(results[1..], retry, f);
      var us := UrlsWithFate(results, retry, f);
      var rest := UrlsWithFate(results[1..], retry, f);
      if FateOf(results[0], retry) == f {
        assert us[1..] == rest;
      }
    }
  }

  /** Every entry lands in exactly one of valid, dead or unresolved: together
      the three lists hold the batch URLs with their multiplicities, so their
      lengths add up to the number of batch results. */
  lemma {:induction false} FatesCoverResults(results: seq<ProbeOutcome>, retry: Prober)
    ensures multiset(UrlsWithFate(results, retry, Valid)) + multiset(UrlsWithFate(results, retry, Dead))
          + multiset(UrlsWithFate(results, retry, Unresolved)) == multiset(Urls(results))
    ensures |UrlsWithFate(results, retry, Valid)| + |UrlsWithFate(results, retry, Dead)|
          + |UrlsWithFate(results, retry, Unresolved)| == |results|
  {
    if |results| > 0 {
      FatesCoverResults(results[1..], retry);
      assert Urls(results) == [results[0].url] + Urls(results[1..]);
    }
  }

  /** Only retried entries can stay unresolved, in retry order. */
  lemma {:induction false} UnresolvedWereRetried(results: seq<ProbeOutcome>, retry: Prober)
    ensures SubsequenceOf(UrlsWithFate(results, retry, Unresolved), RetriedUrls(results))
  {
    if |results| > 0 {
      UnresolvedWereRetried(results[1..], retry);
      var us := UrlsWithFate(results, retry, Unresolved);
      var rest := UrlsWithFate(results[1..], retry, Unresolved);
      if FateOf(results[0], retry) == Unresolved {
        assert us[1..] == rest;
      }
    }
  }

  /** The outputs depend on the retry probe only at the URLs of failed entries:
      a truthy batch status is never retried. */
  lemma {:induction false} RetryConsultedOnlyForFailures(results: seq<ProbeOutcome>, retry1: Prober, retry2: Prober, f: Fate)
    requires forall i :: 0 <= i < |results| && !IsTruthy(results[i].status) ==>
               retry1(results[i].url) == retry2(results[i].url)
    ensures UrlsWithFate(results, retry1, f) == UrlsWithFate(results, retry2, f)
  {
    if |results| > 0 {
      assert forall i :: 1 <= i < |results| ==> results[i] == results[1..][i - 1];
      RetryConsultedOnlyForFailures(results[1..], retry1, retry2, f);
    }
  }
}
