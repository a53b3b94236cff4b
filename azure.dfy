/**
 * `azure_health`: the Azure resource-group check. The token acquisition and the three
 * management REST listings are inputs; each listing either returns its items or fails
 * as a whole, and each VM's instance-view request either answers or raises.
 */
module Azure {
  import opened Wrappers
  import opened Seqs
  import opened Text
  import opened Alerts

  datatype AzureConfig = AzureConfig(subscriptionId: string, resourceGroup: string)

  /** The outcome of one listing request (`raise_for_status` and transport errors give ListFailed). */
  datatype Listing<T> = Listed(items: seq<T>) | ListFailed(detail: string)

  /** The outcome of a VM's instance-view request: a status code with the status codes listed, or an exception. */
  datatype InstanceView = ViewResponse(statusCode: int, codes: seq<string>) | ViewRaised(detail: string)

  datatype VmItem = VmItem(name: string, view: InstanceView)
  /** `properties.state`, None when absent. */
  datatype AppItem = AppItem(name: string, state: Option<string>)
  /** `properties.provisioningState`, None when absent. */
  datatype StorageItem = StorageItem(name: string, provisioningState: Option<string>)

  datatype VmEntry = VmEntry(name: string, state: string)
  datatype AppEntry = AppEntry(name: string, state: string)
  datatype StorageEntry = StorageEntry(name: string, provisioningState: string)

  datatype AzureStatus = StatusOk | StatusWarnings | NotConfigured | AuthFailed

  datatype AzureSnapshot = AzureSnapshot(
    configured: bool, status: AzureStatus,
    vms: seq<VmEntry>, appServices: seq<AppEntry>, storageAccounts: seq<StorageEntry>,
    warnings: seq<Warning>)

  const Unknown := "unknown"
  const PowerStatePrefix := "PowerState/"

  predicate IsPowerState(code: string) {
    StartsWith(code, PowerStatePrefix)
  }

  /** A VM's power state: after "PowerState/" in the first such status code of a 200 answer, else "unknown". */
  function PowerStateOf(view: InstanceView): (state: string)
    ensures view.ViewResponse? && view.statusCode == 200 && FirstWhere(view.codes, IsPowerState) < |view.codes| ==>
              PowerStatePrefix + state == view.codes[FirstWhere(view.codes, IsPowerState)]
    ensures !(view.ViewResponse? && view.statusCode == 200) ==> state == Unknown
    ensures view.ViewResponse? && (forall i :: 0 <= i < |view.codes| ==> !IsPowerState(view.codes[i])) ==>
              state == Unknown
  {
    if view.ViewResponse? && view.statusCode == 200 then
      var k := FirstWhere(view.codes, IsPowerState);
      if k < |view.codes| then
        var code := view.codes[k];
        assert code == code[..|PowerStatePrefix|] + code[|PowerStatePrefix|..];
        code[|PowerStatePrefix|..]
      else Unknown
    else Unknown
  }

  predicate ViewFailed(it: VmItem) { it.view.ViewRaised? }

  function VmEntryOf(it: VmItem): VmEntry { VmEntry(it.name, PowerStateOf(it.view)) }
  function AppEntryOf(it: AppItem): AppEntry { AppEntry(it.name, it.state.GetOr(Unknown)) }
  function StorageEntryOf(it: StorageItem): StorageEntry {
    StorageEntry(it.name, it.provisioningState.GetOr(Unknown))
  }

  /** Power states that do not warn (compared as written, case-sensitively). */
  predicate VmHealthy(e: VmEntry) { e.state in {"running", "stopped", "deallocated"} }
  predicate AppHealthy(e: AppEntry) { Lower(e.state) == "running" }
  predicate StorageHealthy(e: StorageEntry) { Lower(e.provisioningState) == "succeeded" }

  function VmWarning(e: VmEntry): Warning { VmState(e.name, e.state) }
  function AppWarning(e: AppEntry): Warning { AppServiceState(e.name, e.state) }
  function StorageWarning(e: StorageEntry): Warning { StorageState(e.name, e.provisioningState) }

  /**
   * The VM section: entries for the VMs before the first instance-view exception, a
   * warning per unhealthy one, and one "VM list failed" warning if an exception ended it.
   */
  function VmSection(listing: Listing<VmItem>): (r: (seq<VmEntry>, seq<Warning>)) {
    match listing
    case ListFailed(d) => ([], [ListingFailed(VirtualMachines, d)])
    case Listed(items) =>
      var k := FirstWhere(items, ViewFailed);
      var entries := MapSeq(items[..k], VmEntryOf);
      (entries, Flagged(entries, VmHealthy, VmWarning)
                + (if k < |items| then [ListingFailed(VirtualMachines, items[k].view.detail)] else []))
  }

  function AppSection(listing: Listing<AppItem>): (r: (seq<AppEntry>, seq<Warning>)) {
    match listing
    case ListFailed(d) => ([], [ListingFailed(AppServices, d)])
    case Listed(items) =>
      var entries := MapSeq(items, AppEntryOf);
      (entries, Flagged(entries, AppHealthy, AppWarning))
  }

  function StorageSection(listing: Listing<StorageItem>): (r: (seq<StorageEntry>, seq<Warning>)) {
    match listing
    case ListFailed(d) => ([], [ListingFailed(StorageAccounts, d)])
    case Listed(items) =>
      var entries := MapSeq(items, StorageEntryOf);
      (entries, Flagged(entries, StorageHealthy, StorageWarning))
  }

  predicate Configured(config: AzureConfig) {
    config.subscriptionId != "" && config.resourceGroup != ""
  }

  /** The `azure` object of the health report, from the configuration, the token and the three listings. */
  function AzureSnapshotOf(config: AzureConfig, token: Result<string, string>, vmListing: Listing<VmItem>,
                           appListing: Listing<AppItem>, storageListing: Listing<StorageItem>): AzureSnapshot {
    if !Configured(config) then AzureSnapshot(false, NotConfigured, [], [], [], [])
    else if token.Err? then AzureSnapshot(true, AuthFailed, [], [], [], [AzureAuthFailed(token.error)])
    else
      var warnings := VmSection(vmListing).1 + AppSection(appListing).1 + StorageSection(storageListing).1;
      AzureSnapshot(true, if warnings == [] then StatusOk else StatusWarnings,
                    VmSection(vmListing).0, AppSection(appListing).0, StorageSection(storageListing).0, warnings)
  }

  /** The VM block of `azure_health`: an exception from an instance-view request ends the whole block. */
  method CheckVms(listing: Listing<VmItem>) returns (vms: seq<VmEntry>, warnings: seq<Warning>)
    ensures vms == VmSection(listing).0 && warnings == VmSection(listing).1
  {
    vms, warnings := [], [];
    match listing {
      case ListFailed(d) =>
        warnings := warnings + [ListingFailed(VirtualMachines, d)];
      case Listed(items) =>
        ghost var k := FirstWhere(items, ViewFailed);
        var i := 0;
        while i < |items| && !items[i].view.ViewRaised?
          invariant 0 <= i <= k
          invariant vms == MapSeq(items[..i], VmEntryOf)
          invariant warnings == Flagged(vms, VmHealthy, VmWarning)
        {
          var entry := VmEntryOf(items[i]);
          FlaggedSnoc(vms, entry, VmHealthy, VmWarning);
          MapSeqPrefix(items, i, VmEntryOf);
          vms := vms + [entry];
          if !VmHealthy(entry) {
            warnings := warnings + [VmWarning(entry)];
          }
          i := i + 1;
        }
        assert i == k;
        if i < |items| {
          warnings := warnings + [ListingFailed(VirtualMachines, items[i].view.detail)];
        }
    }
  }

  /** The App Service block of `azure_health`. */
  method CheckAppServices(listing: Listing<AppItem>) returns (apps: seq<AppEntry>, warnings: seq<Warning>)
    ensures apps == AppSection(listing).0 && warnings == AppSection(listing).1
  {
    apps, warnings := [], [];
    match listing {
      case ListFailed(d) =>
        warnings := warnings + [ListingFailed(AppServices, d)];
      case Listed(items) =>
        var i := 0;
        while i < |items|
          invariant 0 <= i <= |items|
          invariant apps == MapSeq(items[..i], AppEntryOf)
          invariant warnings == Flagged(apps, AppHealthy, AppWarning)
        {
          var entry := AppEntryOf(items[i]);
          FlaggedSnoc(apps, entry, AppHealthy, AppWarning);
          MapSeqPrefix(items, i, AppEntryOf);
          apps := apps + [entry];
          if !AppHealthy(entry) {
            warnings := warnings + [AppWarning(entry)];
          }
          i := i + 1;
        }
        assert items[..i] == items;
    }
  }

  /** The storage-account block of `azure_health`. */
  method CheckStorageAccounts(listing: Listing<StorageItem>) returns (storages: seq<StorageEntry>, warnings: seq<Warning>)
    ensures storages == StorageSection(listing).0 && warnings == StorageSection(listing).1
  {
    storages, warnings := [], [];
    match listing {
      case ListFailed(d) =>
        warnings := warnings + [ListingFailed(StorageAccounts, d)];
      case Listed(items) =>
        var i := 0;
        while i < |items|
          invariant 0 <= i <= |items|
          invariant storages == MapSeq(items[..i], StorageEntryOf)
          invariant warnings == Flagged(storages, StorageHealthy, StorageWarning)
        {
          var entry := StorageEntryOf(items[i]);
          FlaggedSnoc(storages, entry, StorageHealthy, StorageWarning);
          MapSeqPrefix(items, i, StorageEntryOf);
          storages := storages + [entry];
          if !StorageHealthy(entry) {
            warnings := warnings + [StorageWarning(entry)];
          }
          i := i + 1;
        }
        assert items[..i] == items;
    }
  }

  /** `azure_health`: not configured, auth failed, or the three blocks' results with "ok" iff no warning. */
  method AzureHealth(config: AzureConfig, token: Result<string, string>,
                     vmListing: Listing<VmItem>, appListing: Listing<AppItem>,
                     storageListing: Listing<StorageItem>) returns (snap: AzureSnapshot)
    ensures snap == AzureSnapshotOf(config, token, vmListing, appListing, storageListing)
    ensures !Configured(config) ==> snap == AzureSnapshot(false, NotConfigured, [], [], [], [])
    ensures Configured(config) && token.Err? ==>
              snap == AzureSnapshot(true, AuthFailed, [], [], [], [AzureAuthFailed(token.error)])
    ensures Configured(config) && token.Ok? ==>
              && snap.configured
              && snap.vms == VmSection(vmListing).0
              && snap.appServices == AppSection(appListing).0
              && snap.storageAccounts == StorageSection(storageListing).0
              && snap.warnings == VmSection(vmListing).1 + AppSection(appListing).1 + StorageSection(storageListing).1
              && (snap.status == StatusOk <==> snap.warnings == [])
              && (snap.status == StatusWarnings <==> snap.warnings != [])
  {
    if !Configured(config) {
      return AzureSnapshot(false, NotConfigured, [], [], [], []);
    }
    if token.Err? {
      return AzureSnapshot(true, AuthFailed, [], [], [], [AzureAuthFailed(token.error)]);
    }
    var vms, vmWarnings := CheckVms(vmListing);
    var apps, appWarnings := CheckAppServices(appListing);
    var storages, storageWarnings := CheckStorageAccounts(storageListing);
    var warnings := vmWarnings + appWarnings + storageWarnings;
    var status := if warnings == [] then StatusOk else StatusWarnings;
    snap := AzureSnapshot(true, status, vms, apps, storages, warnings);
  }

  /** The VM block adds no warning exactly when the listing succeeded and every VM answered and is healthy. */
  lemma VmQuietIff(listing: Listing<VmItem>)
    ensures VmSection(listing).1 == [] <==>
              listing.Listed? &&
              forall i :: 0 <= i < |listing.items| ==> !ViewFailed(listing.items[i]) && VmHealthy(VmEntryOf(listing.items[i]))
  {
    if listing.Listed? {
      var items := listing.items;
      var k := FirstWhere(items, ViewFailed);
      var entries := MapSeq(items[..k], VmEntryOf);
      var ws := VmSection(listing).1;
      if k < |items| {
        assert ws[|ws| - 1] == ListingFailed(VirtualMachines, items[k].view.detail);
        assert ViewFailed(items[k]);
      } else {
        assert items[..k] == items;
        assert ws == Flagged(entries, VmHealthy, VmWarning);
        FlaggedEmptyIff(entries, VmHealthy, VmWarning);
        assert (forall i :: 0 <= i < |entries| ==> VmHealthy(entries[i])) <==>
               (forall i :: 0 <= i < k ==> VmHealthy(VmEntryOf(items[i])));
      }
    }
  }

  /** The App Service block adds no warning exactly when the listing succeeded and every app is running. */
  lemma AppQuietIff(listing: Listing<AppItem>)
    ensures AppSection(listing).1 == [] <==>
              listing.Listed? && forall i :: 0 <= i < |listing.items| ==> AppHealthy(AppEntryOf(listing.items[i]))
  {
    if listing.Listed? {
      FlaggedEmptyIff(MapSeq(listing.items, AppEntryOf), AppHealthy, AppWarning);
    }
  }

  /** The storage block adds no warning exactly when the listing succeeded and every account has succeeded. */
  lemma StorageQuietIff(listing: Listing<StorageItem>)
    ensures StorageSection(listing).1 == [] <==>
              listing.Listed? && forall i :: 0 <= i < |listing.items| ==> StorageHealthy(StorageEntryOf(listing.items[i]))
  {
    if listing.Listed? {
      FlaggedEmptyIff(MapSeq(listing.items, StorageEntryOf), StorageHealthy, StorageWarning);
    }
  }

  /** A failed listing costs exactly one warning and leaves the other two blocks' warnings as they are. */
  lemma FailedListingIsolated(detail: string, appListing: Listing<AppItem>, storageListing: Listing<StorageItem>)
    ensures var w := VmSection(ListFailed(detail)).1 + AppSection(appListing).1 + StorageSection(storageListing).1;
            && w[0] == ListingFailed(VirtualMachines, detail)
            && w[1..] == AppSection(appListing).1 + StorageSection(storageListing).1
  {
  }
}
