/** The `Reporter` callback contract: `on_checkout_start` returns an index,
    and `on_checkout_complete` is later handed that same index. The model's
    reporter records every callback in a log. */
module Reporting {
  import opened GitTypes

  datatype Event =
    | CheckoutStart(url: Url, rev: GitReference, index: nat)
    | CheckoutComplete(url: Url, commit: GitOid, index: nat)

  /** A log that honours the contract: the index a start returns is its
      position in the log; every completion refers to an earlier start of the
      same URL; and no start is completed twice. */
  ghost predicate Paired(log: seq<Event>)
  {
    && (forall k | 0 <= k < |log| && log[k].CheckoutStart? :: log[k].index == k)
    && (forall k | 0 <= k < |log| && log[k].CheckoutComplete? ::
          && log[k].index < k
          && log[log[k].index].CheckoutStart?
          && log[log[k].index].url == log[k].url)
    && (forall k, k' | 0 <= k < k' < |log| && log[k].CheckoutComplete? && log[k'].CheckoutComplete? ::
          log[k].index != log[k'].index)
  }

  /** A reporter that records its callbacks. */
  class Reporter {
    var log: seq<Event>

    constructor ()
      ensures log == []
    {
      log := [];
    }

    /** `on_checkout_start`: the index it returns is the position of the new entry. */
    method OnCheckoutStart(url: Url, rev: GitReference) returns (index: nat)
      modifies this
      ensures index == |old(log)|
      ensures log == old(log) + [CheckoutStart(url, rev, index)]
    {
      index := |log|;
      log := log + [CheckoutStart(url, rev, index)];
    }

    /** `on_checkout_complete`. */
    method OnCheckoutComplete(url: Url, commit: GitOid, index: nat)
      modifies this
      ensures log == old(log) + [CheckoutComplete(url, commit, index)]
    {
      log := log + [CheckoutComplete(url, commit, index)];
    }
  }
}
