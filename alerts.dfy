/**
 * The warnings the health sources emit. The source builds them as formatted text
 * ("LOCAL: High CPU ...", "AZURE: VM ... state=...", "CUSTOM: ... DOWN (...)"); here
 * each kind of text is one constructor holding the values it is formatted from.
 */
module Alerts {
  import opened Wrappers
  import opened Json

  datatype ResourceKind = VirtualMachines | AppServices | StorageAccounts

  datatype Warning =
    | HighCpu(percent: real, threshold: real)
    | HighMemory(percent: real, threshold: real)
    | HighDisk(percent: real, threshold: real)
    | AzureAuthFailed(detail: string)
    | VmState(vmName: string, state: string)
    | AppServiceState(appName: string, state: string)
    | StorageState(accountName: string, provisioningState: string)
    | ListingFailed(kind: ResourceKind, detail: string)
    | EndpointsNotAList
    | EndpointDown(endpointName: Value, error: Option<string>)

  /** How many items fail their check. */
  function Unhealthy<T>(items: seq<T>, healthy: T -> bool): nat {
    if items == [] then 0
    else Unhealthy(items[..|items| - 1], healthy) + (if healthy(items[|items| - 1]) then 0 else 1)
  }

  /**
   * One warning per unhealthy item, in the items' order: what a loop appending a warning
   * whenever an item fails its check produces.
   */
  function Flagged<T>(items: seq<T>, healthy: T -> bool, warn: T -> Warning): (ws: seq<Warning>)
    ensures |ws| <= |items|
  {
    if items == [] then []
    else
      var last := items[|items| - 1];
      Flagged(items[..|items| - 1], healthy, warn) + (if healthy(last) then [] else [warn(last)])
  }

  /** No warning at all exactly when every item passes its check. */
  lemma {:induction false} FlaggedEmptyIff<T>(items: seq<T>, healthy: T -> bool, warn: T -> Warning)
    ensures Flagged(items, healthy, warn) == [] <==> forall i :: 0 <= i < |items| ==> healthy(items[i])
  {
    if items != [] {
      var front := items[..|items| - 1];
      FlaggedEmptyIff(front, healthy, warn);
      assert forall i :: 0 <= i < |items| - 1 ==> items[i] == front[i];
    }
  }

  /** Appending an item appends its warning, if any. */
  lemma FlaggedSnoc<T>(items: seq<T>, x: T, healthy: T -> bool, warn: T -> Warning)
    ensures Flagged(items + [x], healthy, warn)
         == Flagged(items, healthy, warn) + (if healthy(x) then [] else [warn(x)])
  {
    assert (items + [x])[..|items|] == items;
  }

  /** Exactly one warning per item that fails its check. */
  lemma {:induction false} FlaggedCount<T>(items: seq<T>, healthy: T -> bool, warn: T -> Warning)
    ensures |Flagged(items, healthy, warn)| == Unhealthy(items, healthy)
  {
    if items != [] {
      FlaggedCount(items[..|items| - 1], healthy, warn);
    }
  }

  /** Every unhealthy item has its warning in the list, and only warnings of unhealthy items are there. */
  lemma {:induction false} FlaggedCovers<T>(items: seq<T>, healthy: T -> bool, warn: T -> Warning)
    ensures forall i :: 0 <= i < |items| && !healthy(items[i]) ==> warn(items[i]) in Flagged(items, healthy, warn)
    ensures forall w :: w in Flagged(items, healthy, warn) ==>
              exists i :: 0 <= i < |items| && !healthy(items[i]) && w == warn(items[i])
  {
    if items != [] {
      var front := items[..|items| - 1];
      FlaggedCovers(front, healthy, warn);
      assert forall i :: 0 <= i < |front| ==> items[i] == front[i];
    }
  }
}
