/**
 Single-URL runs: a live link, a dead link, a link recovered by the fallback
 and a link that fails twice.
 */
module Scenarios {
  import opened Wrappers
  import opened Links
  import opened Fallback
  import opened Partition
  import opened Reconcile

  /** Runs the split on one batch entry and reports valid, dead and whether
      the completeness check passes. */
  function RunOne(url: Url, batch: Option<int>, retry: Prober): (r: (seq<Url>, seq<Url>, bool))
    ensures r.0 == (if FateOf(ProbeOutcome(url, batch), retry) == Valid then [url] else [])
    ensures r.1 == (if FateOf(ProbeOutcome(url, batch), retry) == Dead then [url] else [])
    ensures r.2 <==> FateOf(ProbeOutcome(url, batch), retry) != Unresolved
  {
    var results := [ProbeOutcome(url, batch)];
    assert results[1..] == [];
    assert url in [url];
    var valid := UrlsWithFate(results, retry, Valid);
    var dead := UrlsWithFate(results, retry, Dead);
    (valid, dead, ConfirmLinksChecked([url], valid, dead))
  }

  lemma LiveLink(retry: Prober)
    ensures RunOne("http://a.test", Some(200), retry) == (["http://a.test"], [], true)
  {
  }

  lemma DeadLink(retry: Prober)
    ensures RunOne("http://b.test", Some(404), retry) == ([], ["http://b.test"], true)
  {
  }

  lemma FallbackRecovers()
    ensures RunOne("http://c.test", None, u => Some(301)) == (["http://c.test"], [], true)
  {
  }

  lemma DoubleFailureIsUnresolved()
    ensures RunOne("http://d.test", None, u => None) == ([], [], false)
    ensures RunOne("http://d.test", Some(0), u => Some(0)) == ([], [], false)
  {
  }
}
