/**
 The final completeness check: every input URL must be in the valid or the
 dead list. All three lists are compared as sets.
 */
module Reconcile {
  import opened Links

  function ToSet(s: seq<Url>): (r: set<Url>)
    ensures forall u :: u in r <==> u in s
  {
    set u | u in s
  }

  /** The URLs the checker asks the user to rerun: input URLs in neither list. */
  function Unchecked(links: seq<Url>, valid: seq<Url>, dead: seq<Url>): (rest: set<Url>)
    ensures forall u :: u in rest <==> u in links && u !in valid && u !in dead
  {
    ToSet(links) - ToSet(valid) - ToSet(dead)
  }

  /** True iff nothing is left to rerun. */
  function ConfirmLinksChecked(links: seq<Url>, valid: seq<Url>, dead: seq<Url>): (ok: bool)
    ensures ok <==> forall u :: u in links ==> u in valid || u in dead
  {
    Unchecked(links, valid, dead) == {}
  }

  /** The check ignores order and duplicates: lists with the same elements give
      the same remainder and the same verdict. */
  lemma OnlySetsMatter(links: seq<Url>, valid: seq<Url>, dead: seq<Url>,
                       links': seq<Url>, valid': seq<Url>, dead': seq<Url>)
    requires ToSet(links) == ToSet(links') && ToSet(valid) == ToSet(valid') && ToSet(dead) == ToSet(dead')
    ensures Unchecked(links, valid, dead) == Unchecked(links', valid', dead')
    ensures ConfirmLinksChecked(links, valid, dead) == ConfirmLinksChecked(links', valid', dead')
  {
  }

  /** Extra entries in the valid or dead list, or fewer input links, never turn
      a passing check into a failing one. */
  lemma ExtraEntriesKeepConfirmation(links: seq<Url>, valid: seq<Url>, dead: seq<Url>,
                                     links': seq<Url>, valid': seq<Url>, dead': seq<Url>)
    requires ToSet(links') <= ToSet(links) && ToSet(valid) <= ToSet(valid') && ToSet(dead) <= ToSet(dead')
    requires ConfirmLinksChecked(links, valid, dead)
    ensures ConfirmLinksChecked(links', valid', dead')
  {
    assert Unchecked(links', valid', dead') <= Unchecked(links, valid, dead);
  }
}
