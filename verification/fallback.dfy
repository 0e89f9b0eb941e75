/**
 What happens to one batch result: a truthy status is classified directly; a
 falsy one (`None` or `0`) gets exactly one synchronous retry, whose status,
 if truthy, is classified instead; otherwise the URL stays unresolved.
 */
module Fallback {
  import opened Wrappers
  import opened Status
  import opened Links

  /** One entry of the gathered batch: the URL and the status the concurrent
      probe returned, `None` when the probe raised. */
  datatype ProbeOutcome = ProbeOutcome(url: Url, status: Option<int>)

  /** The synchronous probe: the status code of a URL, or `None` when the
      request raised. Its network behaviour is not modelled. */
  type Prober = Url -> Option<int>

  /** Where one URL ends up after the batch and the fallback. */
  datatype Fate = Valid | Dead | Unresolved

  /** The status that decides an entry: the batch status when truthy,
      else the retry's status when truthy, else none. */
  function DecidingStatus(o: ProbeOutcome, retry: Prober): (s: Option<int>)
    ensures s.None? || IsTruthy(s)
    ensures IsTruthy(o.status) ==> s == o.status
    ensures !IsTruthy(o.status) ==> s.None? || s == retry(o.url)
    ensures s.None? <==> !IsTruthy(o.status) && !IsTruthy(retry(o.url))
  {
    if IsTruthy(o.status) then o.status
    else
      var again := retry(o.url);
      if IsTruthy(again) then again else None
  }

  /** The list an entry is appended to, or `Unresolved` for neither. */
  function FateOf(o: ProbeOutcome, retry: Prober): (f: Fate)
    ensures IsTruthy(o.status) ==> f == (if IsValidStatus(o.status.value) then Valid else Dead)
    ensures !IsTruthy(o.status) && IsTruthy(retry(o.url)) ==>
              f == (if IsValidStatus(retry(o.url).value) then Valid else Dead)
    ensures f == Unresolved <==> !IsTruthy(o.status) && !IsTruthy(retry(o.url))
  {
    match DecidingStatus(o, retry)
    case None => Unresolved
    case Some(code) => if IsValidStatus(code) then Valid else Dead
  }

  /** A truthy batch status never consults the retry probe: any two probes
      give the entry the same fate. */
  lemma TruthyIgnoresRetry(o: ProbeOutcome, retry1: Prober, retry2: Prober)
    requires IsTruthy(o.status)
    ensures FateOf(o, retry1) == FateOf(o, retry2)
  {
  }

  /** The fate of a failed entry depends only on what the retry returns for its URL. */
  lemma FalsyDependsOnlyOnRetry(o: ProbeOutcome, retry1: Prober, retry2: Prober)
    requires !IsTruthy(o.status) && retry1(o.url) == retry2(o.url)
    ensures FateOf(o, retry1) == FateOf(o, retry2)
  {
  }
}
