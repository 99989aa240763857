/**
 * The virtual-machine list page: which VMs are listed, the choice between the
 * standard filter engine and the reduced-scan mode, the page window cut from the
 * result, the pagination state, the readiness and empty-state flags, and the
 * `namespace -> name` lookups handed to the table rows.
 *
 * Watched collections, the filter engine's output and the correlation mappers
 * are inputs here: they are produced by code that is not part of this model.
 */
module VirtualMachinesList {
  import opened Wrappers

  /** A virtual machine as the list reads it: its key and `status.printableStatus` (absent when unset). */
  datatype VirtualMachine = VirtualMachine(name: string, namespace: string, printableStatus: Option<string>)

  /** The running counterpart of a virtual machine, keyed like it. */
  datatype VirtualMachineInstance = VirtualMachineInstance(name: string, namespace: string)

  /** The two-level correlation index `namespace -> name -> entity`. */
  type Mapper<V> = map<string, map<string, V>>

  /** The health of the API-server proxy pod, which the source holds as `true`, `false` or `undefined`. */
  datatype ProxyPodHealth = Alive | Dead | Undetermined

  /** Which of the two list compositions is in force. */
  datatype ListMode = Standard | ReducedScan

  /** The query parameters that switch the reduced-scan mode to "live instances only". */
  const NodeFilterParam: string := "rowFilter-node"
  const IpFilterParam: string := "ip"

  const RunningStatus: string := "Running"

  function Min(a: int, b: int): int { if a < b then a else b }

  // ---------------------------------------------------------------------------
  // Lookups

  /**
   * `mapper?.[ns]?.[name]`, as `getVmi` and `getVmim` read the instance and migration
   * indexes: the entity stored under the key, absent when any level is missing.
   */
  function Lookup<V>(mapper: Option<Mapper<V>>, ns: string, name: string): (r: Option<V>)
    ensures r.Some? <==> mapper.Some? && ns in mapper.value && name in mapper.value[ns]
    ensures r.Some? ==> r.value == mapper.value[ns][name]
  {
    match mapper
    case None => None
    case Some(m) => if ns in m && name in m[ns] then Some(m[ns][name]) else None
  }

  // ---------------------------------------------------------------------------
  // Which VMs are listed

  /** `vmToShow`: while the guided tour runs, the list holds only the tour's demo VM. */
  function ShownVMs(tourRunning: bool, tourGuideVM: VirtualMachine, vms: seq<VirtualMachine>): (r: seq<VirtualMachine>)
    ensures tourRunning ==> r == [tourGuideVM]
    ensures !tourRunning ==> r == vms
  {
    if tourRunning then [tourGuideVM] else vms
  }

  /** `status.printableStatus`, defaulting to the empty string. */
  function StatusOf(vm: VirtualMachine): string
  {
    match vm.printableStatus
    case Some(s) => s
    case None => ""
  }

  /**
   * The reduced-scan rule: a VM stays when it has an instance in the index, or
   * when neither a node nor an IP query parameter is set and it is not running.
   */
  predicate KeptInReducedScan(vm: VirtualMachine, vmiMapper: Option<Mapper<VirtualMachineInstance>>, query: set<string>)
    ensures Lookup(vmiMapper, vm.namespace, vm.name).Some? ==> KeptInReducedScan(vm, vmiMapper, query)
    ensures NodeFilterParam in query || IpFilterParam in query ==>
      (KeptInReducedScan(vm, vmiMapper, query) <==> Lookup(vmiMapper, vm.namespace, vm.name).Some?)
    ensures StatusOf(vm) == RunningStatus ==>
      (KeptInReducedScan(vm, vmiMapper, query) <==> Lookup(vmiMapper, vm.namespace, vm.name).Some?)
    ensures vm.printableStatus == None && NodeFilterParam !in query && IpFilterParam !in query ==>
      KeptInReducedScan(vm, vmiMapper, query)
  {
    Lookup(vmiMapper, vm.namespace, vm.name).Some?
    || (NodeFilterParam !in query && IpFilterParam !in query && StatusOf(vm) != RunningStatus)
  }

  /** The elements of `s` at the positions where `mask` is true, in their order. */
  function Select<T>(s: seq<T>, mask: seq<bool>): (r: seq<T>)
    requires |mask| == |s|
    ensures |r| <= |s|
  {
    if |s| == 0 then []
    else if mask[0] then [s[0]] + Select(s[1..], mask[1..])
    else Select(s[1..], mask[1..])
  }

  /** `a` is obtained from `b` by dropping elements, keeping the order of the rest. */
  ghost predicate IsSubsequence<T>(a: seq<T>, b: seq<T>)
  {
    exists mask: seq<bool> :: |mask| == |b| && Select(b, mask) == a
  }

  /**
   * `vmToShow.filter(...)` in reduced-scan mode: exactly the VMs the rule keeps,
   * each as often as it occurs in the input.
   */
  function ReducedScanMatches(vms: seq<VirtualMachine>, vmiMapper: Option<Mapper<VirtualMachineInstance>>, query: set<string>)
    : (r: seq<VirtualMachine>)
    ensures |r| <= |vms|
    ensures forall vm :: vm in r ==> vm in vms && KeptInReducedScan(vm, vmiMapper, query)
    ensures forall vm :: KeptInReducedScan(vm, vmiMapper, query) ==> multiset(r)[vm] == multiset(vms)[vm]
  {
    if |vms| == 0 then []
    else
      var rest := ReducedScanMatches(vms[1..], vmiMapper, query);
      assert vms == [vms[0]] + vms[1..];
      if KeptInReducedScan(vms[0], vmiMapper, query) then [vms[0]] + rest else rest
  }

  /** The positions the reduced-scan rule keeps. */
  function KeepMask(vms: seq<VirtualMachine>, vmiMapper: Option<Mapper<VirtualMachineInstance>>, query: set<string>)
    : (mask: seq<bool>)
    ensures |mask| == |vms|
  {
    seq(|vms|, i requires 0 <= i < |vms| => KeptInReducedScan(vms[i], vmiMapper, query))
  }

  /** The reduced-scan filter keeps order: it selects the kept positions of its input. */
  lemma {:induction false} ReducedScanSelectsKeptPositions(
    vms: seq<VirtualMachine>, vmiMapper: Option<Mapper<VirtualMachineInstance>>, query: set<string>)
    ensures Select(vms, KeepMask(vms, vmiMapper, query)) == ReducedScanMatches(vms, vmiMapper, query)
  {
    var mask := KeepMask(vms, vmiMapper, query);
    if |vms| > 0 {
      assert mask[1..] == KeepMask(vms[1..], vmiMapper, query);
      ReducedScanSelectsKeptPositions(vms[1..], vmiMapper, query);
    }
  }

  /** Hence the reduced-scan result is a subsequence of its input. */
  lemma ReducedScanIsSubsequence(
    vms: seq<VirtualMachine>, vmiMapper: Option<Mapper<VirtualMachineInstance>>, query: set<string>)
    ensures IsSubsequence(ReducedScanMatches(vms, vmiMapper, query), vms)
  {
    ReducedScanSelectsKeptPositions(vms, vmiMapper, query);
  }

  // ---------------------------------------------------------------------------
  // The page window

  /** `Array.prototype.slice` index normalisation: a negative index counts from the end; then clamp to `[0, len]`. */
  function SliceIndex(i: int, len: nat): (r: nat)
    ensures r <= len
  {
    if i < 0 then (if len + i < 0 then 0 else len + i)
    else if i < len then i
    else len
  }

  /** `s.slice(start, end)`: never fails, clamps an end past the length, is empty when the window is. */
  function JsSlice<T>(s: seq<T>, start: int, end: int): (r: seq<T>)
    ensures |r| <= |s|
    ensures SliceIndex(start, |s|) + |r| <= |s|
    ensures r == s[SliceIndex(start, |s|)..SliceIndex(start, |s|) + |r|]
    ensures 0 <= start <= end ==> r == s[Min(start, |s|)..Min(end, |s|)]
    ensures 0 <= start <= end ==> |r| <= end - start
    ensures 0 <= start && |s| <= start ==> r == []
  {
    var lo := SliceIndex(start, |s|);
    var hi := SliceIndex(end, |s|);
    if lo < hi then s[lo..hi] else []
  }

  /** A page of 10 from 13 matches: page 2 holds the last three, the end index is clamped to 13. */
  lemma SecondPageOfThirteen(data: seq<VirtualMachine>)
    requires |data| == 13
    ensures JsSlice(data, 10, 20) == data[10..13]
    ensures |JsSlice(data, 10, 20)| == 3
  {
  }

  // ---------------------------------------------------------------------------
  // The mode gate and the composed view

  /**
   * The gate: the standard filter engine is used when the proxy feature is off or
   * the proxy pod is known to be dead; otherwise, also while its health is still
   * undetermined, the reduced-scan mode is used.
   */
  function SelectMode(featureEnabled: bool, health: ProxyPodHealth): (m: ListMode)
    ensures m == Standard <==> !featureEnabled || health == Dead
    ensures !featureEnabled ==> m == Standard
    ensures featureEnabled && health == Undetermined ==> m == ReducedScan
  {
    if !featureEnabled || health == Dead then Standard else ReducedScan
  }

  datatype Pagination = Pagination(page: int, perPage: int, startIndex: int, endIndex: int)

  /** `[unfilteredData, data, paginatedVMs]` */
  datatype ListView = ListView(unfilteredData: seq<VirtualMachine>, data: seq<VirtualMachine>, paginatedVMs: seq<VirtualMachine>)

  /**
   * The view composition. `unfilterData` and `dataFilters` are the standard filter
   * engine's output for `vmToShow`; in reduced-scan mode they are ignored.
   */
  function ComposeView(
    featureEnabled: bool, health: ProxyPodHealth,
    unfilterData: seq<VirtualMachine>, dataFilters: seq<VirtualMachine>,
    vmToShow: seq<VirtualMachine>, vmiMapper: Option<Mapper<VirtualMachineInstance>>,
    query: set<string>, pagination: Pagination): (v: ListView)
    ensures SelectMode(featureEnabled, health) == Standard ==>
      v.unfilteredData == unfilterData && v.data == dataFilters
    ensures SelectMode(featureEnabled, health) == ReducedScan ==>
      && v.unfilteredData == vmToShow
      && v.data == ReducedScanMatches(vmToShow, vmiMapper, query)
      && IsSubsequence(v.data, vmToShow)
    ensures v.paginatedVMs == JsSlice(v.data, pagination.startIndex, pagination.endIndex)
  {
    if SelectMode(featureEnabled, health) == Standard then
      ListView(unfilterData, dataFilters, JsSlice(dataFilters, pagination.startIndex, pagination.endIndex))
    else
      var matchedVMs := ReducedScanMatches(vmToShow, vmiMapper, query);
      ReducedScanIsSubsequence(vmToShow, vmiMapper, query);
      ListView(vmToShow, matchedVMs, JsSlice(matchedVMs, pagination.startIndex, pagination.endIndex))
  }

  /** The only subsequence of the empty list is the empty list. */
  lemma SubsequenceOfEmpty<T>(a: seq<T>)
    requires IsSubsequence(a, [])
    ensures a == []
  {
    var mask :| |mask| == 0 && Select([], mask) == a;
  }

  /**
   * In both modes `data` keeps the order of `unfilteredData`, provided the standard
   * engine's filtered output keeps the order of its unfiltered output.
   */
  lemma DataIsSubsequenceOfUnfiltered(
    featureEnabled: bool, health: ProxyPodHealth,
    unfilterData: seq<VirtualMachine>, dataFilters: seq<VirtualMachine>,
    vmToShow: seq<VirtualMachine>, vmiMapper: Option<Mapper<VirtualMachineInstance>>,
    query: set<string>, pagination: Pagination)
    requires IsSubsequence(dataFilters, unfilterData)
    ensures var v := ComposeView(featureEnabled, health, unfilterData, dataFilters, vmToShow, vmiMapper, query, pagination);
      IsSubsequence(v.data, v.unfilteredData)
  {
  }

  /** During the guided tour the reduced-scan view lists at most the demo VM. */
  lemma TourShowsOnlyGuideVM(
    featureEnabled: bool, health: ProxyPodHealth,
    unfilterData: seq<VirtualMachine>, dataFilters: seq<VirtualMachine>,
    tourGuideVM: VirtualMachine, vms: seq<VirtualMachine>,
    vmiMapper: Option<Mapper<VirtualMachineInstance>>, query: set<string>, pagination: Pagination)
    requires SelectMode(featureEnabled, health) == ReducedScan
    ensures var v := ComposeView(featureEnabled, health, unfilterData, dataFilters,
                                 ShownVMs(true, tourGuideVM, vms), vmiMapper, query, pagination);
      && v.unfilteredData == [tourGuideVM]
      && (v.data == [tourGuideVM] <==> KeptInReducedScan(tourGuideVM, vmiMapper, query))
      && (v.data == [] <==> !KeptInReducedScan(tourGuideVM, vmiMapper, query))
      && |v.paginatedVMs| <= 1
  {
    var shown := ShownVMs(true, tourGuideVM, vms);
    assert shown[1..] == [];
  }

  // ---------------------------------------------------------------------------
  // Readiness, empty state and selection

  /** The loaded flags of the inputs that the page waits for. */
  datatype ReadinessSignals = ReadinessSignals(
    vmLoaded: bool, vmiLoaded: bool, vmimsLoaded: bool,
    isSingleNodeLoaded: bool, loadingFeatureProxy: bool, loadedColumns: bool)

  /** The inputs the page waits for. */
  datatype ListInput = VmList | VmiList | VmimList | SingleNodeFlag | ProxyFeatureFlag | Columns

  predicate InputReady(s: ReadinessSignals, i: ListInput)
  {
    match i
    case VmList => s.vmLoaded
    case VmiList => s.vmiLoaded
    case VmimList => s.vmimsLoaded
    case SingleNodeFlag => s.isSingleNodeLoaded
    case ProxyFeatureFlag => !s.loadingFeatureProxy
    case Columns => s.loadedColumns
  }

  /** `loaded` */
  predicate Loaded(s: ReadinessSignals)
    ensures Loaded(s) <==>
      InputReady(s, VmList) && InputReady(s, VmiList) && InputReady(s, VmimList)
      && InputReady(s, SingleNodeFlag) && InputReady(s, ProxyFeatureFlag) && InputReady(s, Columns)
    ensures s.loadingFeatureProxy ==> !Loaded(s)
  {
    s.vmLoaded && s.vmiLoaded && s.vmimsLoaded && s.isSingleNodeLoaded && !s.loadingFeatureProxy && s.loadedColumns
  }

  /** The page is loaded exactly when every input it waits for is; any one missing makes it not loaded. */
  lemma LoadedIffEveryInputReady(s: ReadinessSignals)
    ensures Loaded(s) <==> forall i :: InputReady(s, i)
  {
    if !Loaded(s) {
      if !s.vmLoaded { assert !InputReady(s, VmList); }
      else if !s.vmiLoaded { assert !InputReady(s, VmiList); }
      else if !s.vmimsLoaded { assert !InputReady(s, VmimList); }
      else if !s.isSingleNodeLoaded { assert !InputReady(s, SingleNodeFlag); }
      else if s.loadingFeatureProxy { assert !InputReady(s, ProxyFeatureFlag); }
      else { assert !InputReady(s, Columns); }
    }
  }

  /**
   * `loaded && noVMs`: the empty state is shown once loaded, when nothing is listed,
   * unless the proxy pod is alive and some filter is selected.
   */
  function ShowEmptyState(loaded: bool, unfilteredData: seq<VirtualMachine>, health: ProxyPodHealth, selectedFilterCount: nat)
    : (r: bool)
    ensures r ==> loaded && unfilteredData == []
    ensures health != Alive ==> (r <==> loaded && unfilteredData == [])
    ensures health == Alive ==> (r <==> loaded && unfilteredData == [] && selectedFilterCount == 0)
  {
    var vmsFilteredWithProxy := health == Alive && selectedFilterCount > 0;
    var noVMs := |unfilteredData| == 0 && !vmsFilteredWithProxy;
    loaded && noVMs
  }

  /**
   * The empty state never hides a listed VM: when it is shown, `data` and the page
   * are empty too (in standard mode, given that the engine's filtered output is
   * drawn from its unfiltered output).
   */
  lemma EmptyStateHidesNoVM(
    featureEnabled: bool, health: ProxyPodHealth,
    unfilterData: seq<VirtualMachine>, dataFilters: seq<VirtualMachine>,
    vmToShow: seq<VirtualMachine>, vmiMapper: Option<Mapper<VirtualMachineInstance>>,
    query: set<string>, pagination: Pagination, loaded: bool, selectedFilterCount: nat)
    requires IsSubsequence(dataFilters, unfilterData)
    requires var v := ComposeView(featureEnabled, health, unfilterData, dataFilters, vmToShow, vmiMapper, query, pagination);
      ShowEmptyState(loaded, v.unfilteredData, health, selectedFilterCount)
    ensures var v := ComposeView(featureEnabled, health, unfilterData, dataFilters, vmToShow, vmiMapper, query, pagination);
      v.data == [] && v.paginatedVMs == []
  {
    var v := ComposeView(featureEnabled, health, unfilterData, dataFilters, vmToShow, vmiMapper, query, pagination);
    DataIsSubsequenceOfUnfiltered(featureEnabled, health, unfilterData, dataFilters, vmToShow, vmiMapper, query, pagination);
    SubsequenceOfEmpty(v.data);
  }

  /** A sub-multiset as large as the whole is the whole. */
  lemma SubMultisetOfEqualSize<T>(part: multiset<T>, whole: multiset<T>)
    requires part <= whole && |part| == |whole|
    ensures part == whole
  {
    assert whole == part + (whole - part);
  }

  /**
   * `allVMsSelected`: as many existing selected VMs as listed ones. When the selected
   * VMs are drawn from `data`, that means every listed VM is selected.
   */
  predicate AllVMsSelected(data: seq<VirtualMachine>, existingSelectedVMs: seq<VirtualMachine>)
    ensures multiset(existingSelectedVMs) <= multiset(data) ==>
      (AllVMsSelected(data, existingSelectedVMs) <==> multiset(existingSelectedVMs) == multiset(data))
  {
    var allSelected := |data| == |existingSelectedVMs|;
    if allSelected && multiset(existingSelectedVMs) <= multiset(data) then
      SubMultisetOfEqualSize(multiset(existingSelectedVMs), multiset(data));
      allSelected
    else
      allSelected
  }

  // ---------------------------------------------------------------------------
  // Pagination state

  /** A well-formed window: page `page` (from 1) of `perPage` rows. */
  predicate IsPageWindow(p: Pagination)
  {
    p.perPage > 0 && p.page >= 1 && p.startIndex == (p.page - 1) * p.perPage && p.endIndex == p.startIndex + p.perPage
  }

  /** The list's pagination state, replaced as a whole by each update. */
  class PaginationState {
    var pagination: Pagination

    constructor (initial: Pagination)
      ensures pagination == initial
    {
      pagination := initial;
    }

    /** `onPageChange`: the four values the pager supplies are stored as they are. */
    method OnPageChange(endIndex: int, page: int, perPage: int, startIndex: int)
      modifies this
      ensures pagination == Pagination(page, perPage, startIndex, endIndex)
    {
      pagination := Pagination(page, perPage, startIndex, endIndex);
    }

    /**
     * A filter change made in the toolbar: back to page 1, a window of the current
     * page size. A filter change pushed through the list's imperative handle does
     * not come through here and leaves the pagination as it is.
     */
    method OnFilterChange()
      modifies this
      ensures pagination == Pagination(1, old(pagination.perPage), 0, old(pagination.perPage))
      ensures pagination.perPage == old(pagination.perPage)
      ensures old(pagination.perPage) > 0 ==> IsPageWindow(pagination)
    {
      pagination := pagination.(endIndex := pagination.perPage, page := 1, startIndex := 0);
    }
  }

  /** After a filter change the page holds the first `perPage` VMs of `data`, or all of them if fewer. */
  lemma FilterResetShowsFirstPage(data: seq<VirtualMachine>, perPage: int)
    requires perPage >= 0
    ensures JsSlice(data, 0, perPage) == data[..Min(perPage, |data|)]
  {
  }
}
