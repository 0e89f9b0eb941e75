# Link checker decision logic, in Dafny

This project models the decision logic of a fast dead-link checker. The checker
probes a batch of URLs concurrently. It gives every URL whose concurrent probe
failed one synchronous retry. It sorts each resolved URL into a *valid* list or a
*dead* list by its HTTP status code. Finally it checks that every input URL
landed in one of the two lists.

The network is abstracted away:

- The gathered batch results are an input sequence of `ProbeOutcome(url, status)`.
  `asyncio.gather` keeps task order, so these entries line up with the input links
  position by position (`Pipeline.Aligned`).
- The synchronous probe `get_status_code` is a total function `Url -> Option<int>`
  (`Fallback.Prober`). It returns the status code, or `None` when the request raised.
- Python truthiness decides whether a status counts as failed. Both `None` and `0`
  are falsy (`Status.IsTruthy`), so a `0` status is retried exactly like a missing one.

Modules:

- `Wrappers`: `Option`.
- `Links`: the `Url` type.
- `Status`: the status-code policy (`[200, 400)` is valid) and a reference
  classification by the status classes of section 15 of RFC 9110.
- `Fallback`: the fate of a single batch entry (valid, dead or unresolved) after at
  most one retry.
- `Partition`: the split loop as a method, and the functional reference it is proved
  equal to.
- `Reconcile`: the completeness check, done on sets.
- `Pipeline`: what the split and the completeness check guarantee together.
- `Scenarios`: single-URL runs.

## Model

| member | source | states |
|---|---|---|
| Status.IsValidStatus | link_checker.py:170-178 | a code is valid exactly when it is a 2xx success or a 3xx redirect; 1xx, 4xx, 5xx and out-of-range codes are all not valid |
| Status.ErrorsAndInformationalAreNotValid | link_checker.py:170-178 | every informational, client-error, server-error or unrecognized code is not valid, although the doc comment mentions only client errors |
| Status.ValidBoundaries | link_checker.py:176-178 | 199 is not valid, 200 is valid, 399 is valid, 400 is not valid |
| Status.ZeroIsFalsy | link_checker.py:240-243 | a status of 0 fails the truthiness test just like a missing status |
| Fallback.DecidingStatus | link_checker.py:238-248 | the status that decides an entry is the batch status when truthy, else the retry's status when truthy; it is absent exactly when both are falsy |
| Fallback.FateOf | link_checker.py:240-253 | a truthy batch status alone decides valid vs. dead; after a failed batch, a truthy retry status alone decides it; an entry is unresolved iff both statuses are falsy |
| Fallback.TruthyIgnoresRetry | link_checker.py:240-242 | an entry with a truthy batch status gets the same fate whatever the retry probe would answer |
| Fallback.FalsyDependsOnlyOnRetry | link_checker.py:240-248 | a failed entry's fate depends only on the retry's answer for its URL |
| Partition.UrlsWithFate | link_checker.py:237-255 | a URL is in the list for a fate iff some batch entry with that URL has that fate, and the list is no longer than the batch |
| Partition.RetriedUrls | link_checker.py:238-242 | a URL is passed to the synchronous probe iff some batch entry for it has a falsy status |
| Partition.CheckLinks | link_checker.py:237-255 | the loop builds exactly the valid list and the dead list of the reference definition, and calls the synchronous probe once per failed entry, in batch order, and for no other entry |
| Partition.UrlsWithFateIsSubsequence | link_checker.py:238-253 | the valid list and the dead list each keep batch order: each is a subsequence of the batch URLs |
| Partition.FatesCoverResults | link_checker.py:238-255 | each entry lands in exactly one of valid, dead or unresolved: the three lists together hold the batch URLs with their multiplicities, so the three lengths add up to the batch length and valid plus dead is at most the batch length |
| Partition.UnresolvedWereRetried | link_checker.py:240-248 | a URL is dropped only after its retry: the unresolved URLs are a subsequence of the retried URLs |
| Partition.RetryConsultedOnlyForFailures | link_checker.py:240-243 | two retry probes that agree on the failed entries' URLs produce the same lists |
| Reconcile.Unchecked | link_checker.py:263-267 | the remainder holds exactly the input URLs that are in neither the valid nor the dead list |
| Reconcile.ConfirmLinksChecked | link_checker.py:258-279 | true iff every input URL is in the valid or the dead list |
| Reconcile.OnlySetsMatter | link_checker.py:263-267 | order and duplicates in any of the three lists do not change the remainder or the verdict |
| Reconcile.ExtraEntriesKeepConfirmation | link_checker.py:263-273 | extra entries in the valid or dead list, or fewer input links, never turn a pass into a failure |
| Pipeline.UncheckedAreUnresolved | link_checker.py:237-267 | after the split, an input URL is left over iff every batch entry for it failed both the batch probe and the retry |
| Pipeline.AllResolvedConfirms | link_checker.py:237-273 | if every entry gets a truthy status from the batch or its single retry, the completeness check passes |
| Pipeline.DoubleFailureIsReported | link_checker.py:245-279 | for duplicate-free input, an entry that fails twice is in the remainder and the completeness check fails |
| Pipeline.ListsCoverInput | link_checker.py:237-267 | for any aligned input, duplicates included, the valid set, the dead set and the remainder together are exactly the input set |
| Pipeline.DistinctValidDeadDisjoint | link_checker.py:238-253 | for duplicate-free input, no URL is in both the valid and the dead list |
| Pipeline.DistinctRemainderIsUnresolved | link_checker.py:237-267 | for duplicate-free input, the remainder of the completeness check is exactly the set of URLs that failed both probes |
| Pipeline.DistinctInputPartitions | link_checker.py:237-267 | for duplicate-free input, the valid and dead sets are disjoint, valid, dead and remainder together are the input set, and the remainder is exactly the set of unresolved URLs |
| Pipeline.DuplicateUrlCanBeValidAndDead | link_checker.py:238-253 | one URL listed twice, answered 200 and then 404, lands in both the valid and the dead list |
| Scenarios.RunOne | link_checker.py:237-273 | on one batch entry the valid list, the dead list and the completeness verdict follow that entry's fate |
| Scenarios.LiveLink | link_checker.py:250-251 | a 200 answer gives a valid link and a passing check |
| Scenarios.DeadLink | link_checker.py:252-253 | a 404 answer gives a dead link and a passing check |
| Scenarios.FallbackRecovers | link_checker.py:240-251 | a failed batch probe whose retry answers 301 gives a valid link |
| Scenarios.DoubleFailureIsUnresolved | link_checker.py:240-248 | a URL whose batch probe and retry both fail, or both answer 0, is in neither list and the check fails |

## Left out

- The HTTP requests through `requests` and `aiohttp`, and the conversion of their exceptions into `None` (link_checker.py:156-167, 190-207). They are foreign I/O. The model represents them as the batch-result input and the `Prober` function.
- The asyncio scheduling: `ensure_future`, `gather`, the `TCPConnector` limits and `MAX_CONNECTIONS` (link_checker.py:190-191, 225-233). Their semantics live in the library. Only the ordering fact is kept: results line up with the links. `MAX_CONNECTIONS` limits a connector that each request builds for itself (link_checker.py:190-194), so it does not bound the batch; neither that limit nor the resulting concurrency is modelled.
- The exception handler around `gather` (link_checker.py:234-235). It leaves `results` unbound, so the following loop crashes. It is a crash path, not specified behaviour.
- The random delay before each request and the random choice of request headers (link_checker.py:151, 154, 189, 231). They involve randomness, floats and timing.
- `_ProgressBar` (link_checker.py:109-141). It is terminal output with float percentages.
- Argument parsing, reading the URL file with `ast.literal_eval`, writing JSON output, all printing, and the entry point (link_checker.py:89-106, 293-321). They are command-line I/O. `check_links` only runs the asynchronous function to completion, so it adds nothing beyond `Partition.CheckLinks`.
- The synchronous probe is a pure function, so two retries of the same URL get the same answer. The batch results are a free input, so two batch entries for the same URL may differ, as they can in the real concurrent run.
- A retry that never returns is not modelled: `Fallback.Prober` is a total function, but `requests.get` at link_checker.py:157 has no timeout, so the synchronous retry can block forever.
- Partition.CheckLinks returns a third list, `retried`, that the source does not return. It records the calls made to the synchronous probe, so that "retried exactly once, and only when failed" can be stated.

## Notes on the source

- The doc comment of `is_valid_status` says only client errors are invalid. The code accepts exactly `[200, 400)`. The model follows the code.
- One might expect a URL never to be both valid and dead. The code ensures that only for duplicate-free input. `Pipeline.DistinctInputPartitions` proves it under that premise, and `Pipeline.DuplicateUrlCanBeValidAndDead` shows the overlap without it.
- Each batch result carries its own URL (link_checker.py:203, 207), so classifying a URL does not depend on the order of the results. Only the order of the valid and dead lists does. `Pipeline.Aligned` states that this order is the order of the input links, because `gather` returns results in task order.
