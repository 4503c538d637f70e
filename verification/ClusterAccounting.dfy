/** Incremental accounting of a cluster quota: a total and one slice per namespace, kept in
    step by deltas. */
module ClusterAccounting {
  import opened Resources

  // ---------------------------------------------------------------- status

  datatype Slice = Slice(namespace: string, hard: ResourceList, used: ResourceList)

  datatype Status = Status(hard: Option<ResourceList>, total: ResourceList, slices: seq<Slice>)

  datatype WorkItem = WorkItem(namespace: string, force: bool)

  predicate DistinctSlices(slices: seq<Slice>) {
    forall j, k | 0 <= j < k < |slices| :: slices[j].namespace != slices[k].namespace
  }

  /** The first slice of a namespace. */
  function Lookup(slices: seq<Slice>, namespace: string): Option<Slice> {
    if slices == [] then None
    else if slices[0].namespace == namespace then Some(slices[0])
    else Lookup(slices[1..], namespace)
  }

  function Remove(slices: seq<Slice>, namespace: string): seq<Slice> {
    if slices == [] then []
    else if slices[0].namespace == namespace then Remove(slices[1..], namespace)
    else [slices[0]] + Remove(slices[1..], namespace)
  }

  function Replace(slices: seq<Slice>, slice: Slice): seq<Slice> {
    seq(|slices|, k requires 0 <= k < |slices| => if slices[k].namespace == slice.namespace then slice else slices[k])
  }

  /** In place where the namespace has a slice, at the end otherwise. */
  function Insert(slices: seq<Slice>, slice: Slice): seq<Slice> {
    if Lookup(slices, slice.namespace).Some? then Replace(slices, slice) else slices + [slice]
  }

  function UsedIn(slices: seq<Slice>, namespace: string): ResourceList {
    match Lookup(slices, namespace)
    case None => map[]
    case Some(slice) => slice.used
  }

  function SliceSum(slices: seq<Slice>, r: string): int {
    if slices == [] then 0 else Get(slices[0].used, r) + SliceSum(slices[1..], r)
  }

  /** The total is the sum of the slices, resource by resource. */
  ghost predicate Conserved(total: ResourceList, slices: seq<Slice>) {
    forall r :: Drift(total, slices, r) == 0
  }

  /** By how much the total exceeds the sum of the slices. */
  function Drift(total: ResourceList, slices: seq<Slice>, r: string): int {
    Get(total, r) - SliceSum(slices, r)
  }

  // ---------------------------------------------------------------- slices as the code handles them

  method GetSlice(slices: seq<Slice>, namespace: string) returns (slice: Option<Slice>)
    ensures slice == Lookup(slices, namespace)
  {
    for k := 0 to |slices|
      invariant Lookup(slices, namespace) == Lookup(slices[k..], namespace)
    {
      if slices[k].namespace == namespace {
        return Some(slices[k]);
      }
    }
    return None;
  }

  method RemoveSlice(slices: seq<Slice>, namespace: string) returns (kept: seq<Slice>)
    ensures kept == Remove(slices, namespace)
  {
    kept := [];
    for k := 0 to |slices|
      invariant kept + Remove(slices[k..], namespace) == Remove(slices, namespace)
    {
      if slices[k].namespace != namespace {
        kept := kept + [slices[k]];
      }
    }
    assert slices[|slices|..] == [];
  }

  method InsertSlice(slices: seq<Slice>, slice: Slice) returns (out: seq<Slice>)
    ensures out == Insert(slices, slice)
  {
    out := [];
    var found := false;
    for k := 0 to |slices|
      invariant |out| == k
      invariant forall j | 0 <= j < k :: out[j] == if slices[j].namespace == slice.namespace then slice else slices[j]
      invariant found <==> exists j :: 0 <= j < k && slices[j].namespace == slice.namespace
    {
      if slices[k].namespace == slice.namespace {
        out := out + [slice];
        found := true;
      } else {
        out := out + [slices[k]];
      }
    }
    LookupFinds(slices, slice.namespace);
    if !found {
      assert out == slices;
      out := out + [slice];
    } else {
      assert out == Replace(slices, slice);
    }
  }

  lemma LookupFinds(slices: seq<Slice>, namespace: string)
    ensures Lookup(slices, namespace).Some? <==> exists j :: 0 <= j < |slices| && slices[j].namespace == namespace
    ensures Lookup(slices, namespace).Some? ==>
              Lookup(slices, namespace).value in slices && Lookup(slices, namespace).value.namespace == namespace
  {
    if slices != [] {
      LookupFinds(slices[1..], namespace);
      if slices[0].namespace != namespace {
        assert forall j | 1 <= j < |slices| :: slices[j] == slices[1..][j - 1];
      }
    }
  }

  // ---------------------------------------------------------------- what the deltas do

  lemma {:induction false} RemoveEffect(slices: seq<Slice>, namespace: string)
    requires DistinctSlices(slices)
    ensures DistinctSlices(Remove(slices, namespace))
    ensures forall slice | slice in Remove(slices, namespace) :: slice in slices && slice.namespace != namespace
    ensures forall r :: SliceSum(Remove(slices, namespace), r)
             == SliceSum(slices, r) - Get(UsedIn(slices, namespace), r)
    ensures forall n :: Lookup(Remove(slices, namespace), n) == if n == namespace then None else Lookup(slices, n)
  {
    if slices != [] {
      RemoveEffect(slices[1..], namespace);
      LookupFinds(slices[1..], namespace);
      if slices[0].namespace == namespace {
        assert forall j | 0 <= j < |slices[1..]| :: slices[1..][j] == slices[j + 1];
        assert Lookup(slices[1..], namespace) == None;
      } else {
        var rest := Remove(slices[1..], namespace);
        assert ([slices[0]] + rest)[1..] == rest;
        forall k | 0 <= k < |rest|
          ensures rest[k].namespace != slices[0].namespace
        {
          assert rest[k] in slices[1..];
        }
      }
    }
  }

  lemma {:induction false} ReplaceEffect(slices: seq<Slice>, slice: Slice)
    requires DistinctSlices(slices) && Lookup(slices, slice.namespace).Some?
    ensures DistinctSlices(Replace(slices, slice))
    ensures forall r :: SliceSum(Replace(slices, slice), r)
                     == SliceSum(slices, r) - Get(UsedIn(slices, slice.namespace), r) + Get(slice.used, r)
    ensures forall n :: Lookup(Replace(slices, slice), n) ==
              if n == slice.namespace then Some(slice) else Lookup(slices, n)
  {
    var out := Replace(slices, slice);
    assert out[1..] == Replace(slices[1..], slice);
    if slices[0].namespace == slice.namespace {
      forall k | 0 <= k < |slices[1..]|
        ensures slices[1..][k].namespace != slice.namespace
      {
        assert slices[0].namespace != slices[k + 1].namespace;
      }
      assert out[1..] == slices[1..];
    } else {
      ReplaceEffect(slices[1..], slice);
    }
  }

  lemma {:induction false} AppendEffect(slices: seq<Slice>, slice: Slice)
    requires DistinctSlices(slices) && Lookup(slices, slice.namespace).None?
    ensures DistinctSlices(slices + [slice])
    ensures forall r :: SliceSum(slices + [slice], r) == SliceSum(slices, r) + Get(slice.used, r)
    ensures forall n :: Lookup(slices + [slice], n) == if n == slice.namespace then Some(slice) else Lookup(slices, n)
  {
    LookupFinds(slices, slice.namespace);
    if slices != [] {
      assert (slices + [slice])[1..] == slices[1..] + [slice];
      AppendEffect(slices[1..], slice);
    } else {
      assert [slice][1..] == [];
    }
  }

  lemma InsertEffect(slices: seq<Slice>, slice: Slice)
    requires DistinctSlices(slices)
    ensures DistinctSlices(Insert(slices, slice))
    ensures forall r :: SliceSum(Insert(slices, slice), r)
                     == SliceSum(slices, r) - Get(UsedIn(slices, slice.namespace), r) + Get(slice.used, r)
    ensures forall n :: Lookup(Insert(slices, slice), n) ==
              if n == slice.namespace then Some(slice) else Lookup(slices, n)
  {
    if Lookup(slices, slice.namespace).Some? {
      ReplaceEffect(slices, slice);
    } else {
      AppendEffect(slices, slice);
    }
  }

  // ---------------------------------------------------------------- one sync

  /** The limits, and the namespaces the mapper gives for the quota. */
  datatype View = View(hard: ResourceList, matching: set<string>)

  /** One lookup of the managed ClusterResourceQuota. */
  datatype Finding = Failing | Found(managed: Option<Status>)

  /** Whether what was found is merged: it is collected and there, and both statuses have their
      limits recorded. */
  predicate Merges(collects: bool, finding: Finding, status: Status) {
    collects && finding.Found? && finding.managed.Some? && finding.managed.value.hard.Some? && status.hard.Some?
  }

  /** Observed usage, overwritten by what the managed quota reports for the namespace. */
  function Merged(collects: bool, finding: Finding, status: Status, namespace: string,
                  observed: ResourceList): ResourceList {
    if Merges(collects, finding, status) then observed + UsedIn(finding.managed.value.slices, namespace) else observed
  }

  /** What each item's calculation comes to; None where it fails. */
  function Actual(collects: bool, finding: Finding, status: Status, item: WorkItem,
                  observed: Option<ResourceList>): Option<ResourceList> {
    match observed
    case None => None
    case Some(usage) => Some(Merged(collects, finding, status, item.namespace, usage))
  }

  function ActualUsages(collects: bool, findings: seq<Finding>, status: Status, items: seq<WorkItem>,
                        observed: seq<Option<ResourceList>>): (usages: seq<Option<ResourceList>>)
    requires |items| == |observed| == |findings|
    ensures |usages| == |items|
    ensures forall k | 0 <= k < |items| :: usages[k] == Actual(collects, findings[k], status, items[k], observed[k])
  {
    seq(|items|, k requires 0 <= k < |items| => Actual(collects, findings[k], status, items[k], observed[k]))
  }

  method IncludeUsageFromClusterResourceQuota(usage: ResourceList, managed: seq<Slice>, namespace: string)
    returns (actual: ResourceList)
    ensures actual == usage + UsedIn(managed, namespace)
  {
    actual := usage;
    for k := 0 to |managed|
      invariant actual == usage
      invariant Lookup(managed, namespace) == Lookup(managed[k..], namespace)
    {
      if managed[k].namespace == namespace {
        var todo := managed[k].used.Keys;
        while todo != {}
          invariant todo <= managed[k].used.Keys && actual == usage + (managed[k].used - todo)
          decreases todo
        {
          var r :| r in todo;
          actual := actual[r := managed[k].used[r]];
          todo := todo - {r};
        }
        assert managed[k].used - {} == managed[k].used;
        return;
      }
    }
  }

  datatype Progress = Progress(total: ResourceList, slices: seq<Slice>, retry: seq<WorkItem>)

  /** An unforced item for a slice with the current limits needs nothing. */
  predicate Needless(view: View, slices: seq<Slice>, item: WorkItem) {
    !item.force && Lookup(slices, item.namespace).Some? && Lookup(slices, item.namespace).value.hard == view.hard
  }

  /** One work item; `usage` is what its calculation comes to, None when it fails. */
  function ApplyItem(view: View, p: Progress, item: WorkItem, usage: Option<ResourceList>): Progress {
    if item.namespace !in view.matching then
      if Lookup(p.slices, item.namespace).Some?
      then p.(total := Subtract(p.total, UsedIn(p.slices, item.namespace)), slices := Remove(p.slices, item.namespace))
      else p
    else if Needless(view, p.slices, item) then p
    else match usage
      case None => p.(retry := p.retry + [item])
      case Some(actual) =>
        p.(total := Add(Subtract(p.total, UsedIn(p.slices, item.namespace)), actual),
           slices := Insert(p.slices, Slice(item.namespace, view.hard, actual)))
  }

  function ApplyItems(view: View, p: Progress, items: seq<WorkItem>, usages: seq<Option<ResourceList>>): Progress
    requires |items| == |usages|
  {
    if items == [] then p
    else
      var last := |items| - 1;
      ApplyItem(view, ApplyItems(view, p, items[..last], usages[..last]), items[last], usages[last])
  }

  /** Drops the slices of namespaces that no longer match, going over a copy of the slices. */
  function Prune(view: View, p: Progress, copy: seq<Slice>): Progress {
    if copy == [] then p
    else
      var before := Prune(view, p, copy[..|copy| - 1]);
      var slice := copy[|copy| - 1];
      if slice.namespace in view.matching then before
      else before.(total := Subtract(before.total, slice.used), slices := Remove(before.slices, slice.namespace))
  }

  function Outcome(view: View, status: Status, items: seq<WorkItem>, usages: seq<Option<ResourceList>>): Progress
    requires |items| == |usages|
  {
    var p := ApplyItems(view, Progress(status.total, status.slices, []), items, usages);
    Prune(view, p, p.slices)
  }

  /** The body of the loop over the work items. */
  method SyncItem(view: View, status: Status, p: Progress, item: WorkItem, observed: Option<ResourceList>,
                  collects: bool, finding: Finding)
    returns (after: Progress, failed: bool)
    ensures after == ApplyItem(view, p, item, Actual(collects, finding, status, item, observed))
    ensures (after.retry != p.retry ==> failed) && (failed ==> after.retry != p.retry || finding.Failing?)
  {
    after := p;
    failed := false;
    var slice := GetSlice(p.slices, item.namespace);
    if item.namespace !in view.matching {
      if slice.Some? {
        var kept := RemoveSlice(p.slices, item.namespace);
        after := p.(total := Subtract(p.total, slice.value.used), slices := kept);
      }
      return;
    }
    if !item.force && slice.Some? && slice.value.hard == view.hard {
      return;
    }
    if observed.None? {
      after := p.(retry := p.retry + [item]);
      assert |after.retry| != |p.retry|;
      return after, true;
    }
    var actual := observed.value;
    if collects {
      if finding.Failing? {
        failed := true;
      } else if finding.managed.Some? && finding.managed.value.hard.Some? && status.hard.Some? {
        actual := IncludeUsageFromClusterResourceQuota(actual, finding.managed.value.slices, item.namespace);
      }
    }
    var total := Add(Subtract(p.total, if slice.Some? then slice.value.used else map[]), actual);
    var slices := InsertSlice(p.slices, Slice(item.namespace, view.hard, actual));
    after := p.(total := total, slices := slices);
  }

  /** The loop over a copy of the slices that drops what no longer matches. */
  method PruneSlices(view: View, p: Progress) returns (after: Progress)
    ensures after == Prune(view, p, p.slices)
  {
    var copy := p.slices;
    after := p;
    for k := 0 to |copy|
      invariant after == Prune(view, p, copy[..k])
    {
      assert copy[..k + 1][..k] == copy[..k];
      if copy[k].namespace !in view.matching {
        var kept := RemoveSlice(after.slices, copy[k].namespace);
        after := after.(total := Subtract(after.total, copy[k].used), slices := kept);
      }
    }
    assert copy[..|copy|] == copy;
  }

  /** Brings the quota's status in line with the work items. `mapperCurrent` says whether the
      mapper's stamp for the quota is its selector; `observed` and `findings` what each item's
      calculation and lookup of the managed quota return; `refused` whether the API server
      refuses the write. Returns the status the sync ends with, whether an error is reported,
      and the items to retry. */
  method SyncQuotaForNamespaces(view: View, mapperCurrent: bool, status: Status, items: seq<WorkItem>,
                                observed: seq<Option<ResourceList>>, collects: bool, findings: seq<Finding>,
                                refused: bool)
    returns (stored: Status, failed: bool, retry: seq<WorkItem>)
    requires |items| == |observed| == |findings|
    ensures !mapperCurrent ==> stored == status && failed && retry == items
    ensures mapperCurrent ==>
              var p := Outcome(view, status, items, ActualUsages(collects, findings, status, items, observed));
              var next := Status(Some(view.hard), p.total, p.slices);
              if next != status && refused
              then stored == status && failed && retry == items
              else
                && stored == next && retry == p.retry
                && (retry != [] ==> failed) && (failed ==> retry != [] || Failing in findings)
  {
    if !mapperCurrent {
      return status, true, items;
    }
    var p := Progress(status.total, status.slices, []);
    failed := false;
    ghost var start := p;
    ghost var usages := ActualUsages(collects, findings, status, items, observed);
    for k := 0 to |items|
      invariant p == ApplyItems(view, start, items[..k], usages[..k])
      invariant (p.retry != [] ==> failed) && (failed ==> p.retry != [] || Failing in findings)
    {
      assert items[..k + 1][..k] == items[..k] && usages[..k + 1][..k] == usages[..k];
      var before := p;
      var error;
      p, error := SyncItem(view, status, p, items[k], observed[k], collects, findings[k]);
      assert |before.retry| <= |p.retry|;
      failed := failed || error;
    }
    assert items[..|items|] == items && usages[..|usages|] == usages;
    ghost var applied := p;
    p := PruneSlices(view, p);
    PruneKeepsRetry(view, applied, applied.slices);
    retry := p.retry;
    stored := Status(Some(view.hard), p.total, p.slices);
    if stored != status && refused {
      return status, true, items;
    }
  }

  lemma {:induction false} PruneKeepsRetry(view: View, p: Progress, copy: seq<Slice>)
    ensures Prune(view, p, copy).retry == p.retry
  {
    if copy != [] {
      PruneKeepsRetry(view, p, copy[..|copy| - 1]);
    }
  }

  // ---------------------------------------------------------------- conservation

  /** The slices stay distinct, and the total moves with them. */
  ghost predicate Steady(before: Progress, after: Progress) {
    && DistinctSlices(after.slices)
    && forall r :: Drift(after.total, after.slices, r) == Drift(before.total, before.slices, r)
  }

  lemma ItemIsSteady(view: View, p: Progress, item: WorkItem, usage: Option<ResourceList>)
    requires DistinctSlices(p.slices)
    ensures Steady(p, ApplyItem(view, p, item, usage))
  {
    RemoveEffect(p.slices, item.namespace);
    if usage.Some? {
      InsertEffect(p.slices, Slice(item.namespace, view.hard, usage.value));
    }
  }

  lemma {:induction false} ItemsAreSteady(view: View, p: Progress, items: seq<WorkItem>,
                                          usages: seq<Option<ResourceList>>)
    requires DistinctSlices(p.slices) && |items| == |usages|
    ensures Steady(p, ApplyItems(view, p, items, usages))
  {
    if items != [] {
      var last := |items| - 1;
      ItemsAreSteady(view, p, items[..last], usages[..last]);
      ItemIsSteady(view, ApplyItems(view, p, items[..last], usages[..last]), items[last], usages[last]);
    }
  }

  /** Pruning over any part of the slices: it drops exactly the non-matching ones among them,
      each with its own usage. */
  lemma {:induction false} PruneEffect(view: View, p: Progress, n: nat)
    requires DistinctSlices(p.slices) && n <= |p.slices|
    ensures var after := Prune(view, p, p.slices[..n]);
            && Steady(p, after) && after.retry == p.retry
            && forall ns :: Lookup(after.slices, ns) ==
                 if ns !in view.matching && (exists k :: 0 <= k < n && p.slices[k].namespace == ns) then None
                 else Lookup(p.slices, ns)
  {
    if n > 0 {
      assert p.slices[..n][..n - 1] == p.slices[..n - 1];
      PruneEffect(view, p, n - 1);
      var before := Prune(view, p, p.slices[..n - 1]);
      var slice := p.slices[n - 1];
      if slice.namespace !in view.matching {
        LookupAt(p.slices, n - 1);
        RemoveEffect(before.slices, slice.namespace);
      }
    }
  }

  lemma {:induction false} LookupAt(slices: seq<Slice>, k: nat)
    requires DistinctSlices(slices) && k < |slices|
    ensures Lookup(slices, slices[k].namespace) == Some(slices[k])
  {
    if k > 0 {
      assert slices[k] == slices[1..][k - 1];
      LookupAt(slices[1..], k - 1);
    }
  }

  /** After pruning all of them only matching namespaces have a slice. */
  lemma PruneAll(view: View, p: Progress)
    requires DistinctSlices(p.slices)
    ensures var after := Prune(view, p, p.slices);
            && Steady(p, after) && after.retry == p.retry
            && forall ns :: Lookup(after.slices, ns) == if ns in view.matching then Lookup(p.slices, ns) else None
  {
    assert p.slices[..|p.slices|] == p.slices;
    PruneEffect(view, p, |p.slices|);
    forall ns | ns !in view.matching
      ensures Lookup(Prune(view, p, p.slices).slices, ns) == None
    {
      LookupFinds(p.slices, ns);
    }
  }

  /** Conservation: whatever items are given, skipped, repeated or failed, a sync leaves the
      difference between the total and the sum of the slices as it was, so the total is the sum
      after it exactly if it was before; and only matching namespaces keep a slice. */
  lemma SyncConserves(view: View, status: Status, items: seq<WorkItem>, usages: seq<Option<ResourceList>>)
    requires |items| == |usages| && DistinctSlices(status.slices)
    ensures var p := Outcome(view, status, items, usages);
            && DistinctSlices(p.slices)
            && (forall r :: Drift(p.total, p.slices, r) == Drift(status.total, status.slices, r))
            && (Conserved(p.total, p.slices) <==> Conserved(status.total, status.slices))
            && forall slice | slice in p.slices :: slice.namespace in view.matching
  {
    var start := Progress(status.total, status.slices, []);
    ItemsAreSteady(view, start, items, usages);
    PruneAll(view, ApplyItems(view, start, items, usages));
    var slices := Outcome(view, status, items, usages).slices;
    forall slice | slice in slices
      ensures slice.namespace in view.matching
    {
      var k :| 0 <= k < |slices| && slices[k] == slice;
      LookupAt(slices, k);
    }
  }

  // ---------------------------------------------------------------- incremental equals batch

  /** Every calculation succeeds and comes to the namespace's usage. */
  ghost predicate AllCalculated(items: seq<WorkItem>, usages: seq<Option<ResourceList>>,
                                usage: map<string, ResourceList>) {
    && |items| == |usages|
    && forall k | 0 <= k < |items| && items[k].namespace in usage :: usages[k] == Some(usage[items[k].namespace])
  }

  predicate ForcesAll(view: View, items: seq<WorkItem>) {
    forall ns | ns in view.matching :: WorkItem(ns, true) in items
  }

  /** It does when every calculation finds the same usage and every lookup the same quota. */
  lemma SameReadingsAgree(collects: bool, finding: Finding, status: Status, items: seq<WorkItem>,
                          observed: seq<Option<ResourceList>>, findings: seq<Finding>, usage: map<string, ResourceList>)
    requires AllCalculated(items, observed, usage) && |findings| == |items|
    requires forall k | 0 <= k < |findings| :: findings[k] == finding
    ensures AllCalculated(items, ActualUsages(collects, findings, status, items, observed),
                          map ns | ns in usage :: Merged(collects, finding, status, ns, usage[ns]))
  {
  }

  /** From scratch: one slice per matching namespace, with its usage. */
  function BatchSlice(view: View, usage: map<string, ResourceList>, ns: string): Slice
    requires ns in usage
  {
    Slice(ns, view.hard, usage[ns])
  }

  /** From scratch: the sum over the matching namespaces. */
  ghost function BatchTotal(view: View, usage: map<string, ResourceList>, r: string): int
    requires view.matching <= usage.Keys
  {
    Total(map ns | ns in view.matching :: Get(BatchSlice(view, usage, ns).used, r))
  }

  /** A namespace some item has forced carries its recomputed slice from then on. */
  lemma {:induction false} ForcedIsRecomputed(view: View, p: Progress, items: seq<WorkItem>,
                                              usages: seq<Option<ResourceList>>, usage: map<string, ResourceList>,
                                              ns: string)
    requires DistinctSlices(p.slices) && AllCalculated(items, usages, usage)
    requires view.matching <= usage.Keys && ns in view.matching && WorkItem(ns, true) in items
    ensures Lookup(ApplyItems(view, p, items, usages).slices, ns) == Some(BatchSlice(view, usage, ns))
    ensures ApplyItems(view, p, items, usages).retry == p.retry
  {
    var last := |items| - 1;
    var before := ApplyItems(view, p, items[..last], usages[..last]);
    ItemsAreSteady(view, p, items[..last], usages[..last]);
    NothingToRetry(view, p, items, usages, usage);
    var item := items[last];
    RemoveEffect(before.slices, item.namespace);
    if item.namespace in view.matching {
      InsertEffect(before.slices, BatchSlice(view, usage, item.namespace));
    }
    if item != WorkItem(ns, true) {
      assert items == items[..last] + [item];
      assert WorkItem(ns, true) in items[..last];
      ForcedIsRecomputed(view, p, items[..last], usages[..last], usage, ns);
    }
  }

  lemma {:induction false} NothingToRetry(view: View, p: Progress, items: seq<WorkItem>,
                                          usages: seq<Option<ResourceList>>, usage: map<string, ResourceList>)
    requires AllCalculated(items, usages, usage) && view.matching <= usage.Keys
    ensures ApplyItems(view, p, items, usages).retry == p.retry
  {
    if items != [] {
      NothingToRetry(view, p, items[..|items| - 1], usages[..|items| - 1], usage);
    }
  }

  /** Incremental refines batch: when the items force every matching namespace and no usage
      calculation fails, the slices are those of a recomputation from scratch, whatever they
      were before, and whatever the order and repetition of the items; and so is the total, up
      to the difference it had from its slices before. */
  lemma IncrementalIsBatch(view: View, status: Status, items: seq<WorkItem>, usages: seq<Option<ResourceList>>,
                           usage: map<string, ResourceList>)
    requires AllCalculated(items, usages, usage) && ForcesAll(view, items) && view.matching <= usage.Keys
    requires DistinctSlices(status.slices)
    ensures var p := Outcome(view, status, items, usages);
            && p.retry == []
            && DistinctSlices(p.slices)
            && (forall ns :: Lookup(p.slices, ns) ==
                  if ns in view.matching then Some(BatchSlice(view, usage, ns)) else None)
            && (forall r :: Get(p.total, r) == BatchTotal(view, usage, r) + Drift(status.total, status.slices, r))
  {
    var start := Progress(status.total, status.slices, []);
    ItemsAreSteady(view, start, items, usages);
    NothingToRetry(view, start, items, usages, usage);
    var applied := ApplyItems(view, start, items, usages);
    PruneAll(view, applied);
    var p := Prune(view, applied, applied.slices);
    forall ns | ns in view.matching
      ensures Lookup(p.slices, ns) == Some(BatchSlice(view, usage, ns))
    {
      ForcedIsRecomputed(view, start, items, usages, usage, ns);
    }
    forall r
      ensures SliceSum(p.slices, r) == BatchTotal(view, usage, r)
    {
      SumOfSlices(p.slices, r);
      TotalEqual(SliceUsage(p.slices, r), map ns | ns in view.matching :: Get(BatchSlice(view, usage, ns).used, r));
    }
  }

  /** The usage each namespace's slice holds of one resource. */
  function SliceUsage(slices: seq<Slice>, r: string): map<string, int> {
    if slices == [] then map[]
    else SliceUsage(slices[1..], r)[slices[0].namespace := Get(slices[0].used, r)]
  }

  lemma {:induction false} SumOfSlices(slices: seq<Slice>, r: string)
    requires DistinctSlices(slices)
    ensures Total(SliceUsage(slices, r)) == SliceSum(slices, r)
    ensures forall ns :: Get(SliceUsage(slices, r), ns) == Get(UsedIn(slices, ns), r)
    ensures forall ns | ns in SliceUsage(slices, r) :: exists k :: 0 <= k < |slices| && slices[k].namespace == ns
  {
    if slices != [] {
      var rest := slices[1..];
      SumOfSlices(rest, r);
      assert slices[0].namespace !in SliceUsage(rest, r);
      TotalChange(SliceUsage(rest, r), SliceUsage(slices, r), slices[0].namespace);
      forall ns | ns in SliceUsage(slices, r)
        ensures exists k :: 0 <= k < |slices| && slices[k].namespace == ns
      {
        if ns == slices[0].namespace {
          assert slices[0].namespace == ns;
        } else {
          var k :| 0 <= k < |rest| && rest[k].namespace == ns;
          assert slices[k + 1].namespace == ns;
        }
      }
    }
  }

  // ---------------------------------------------------------------- what becomes of one item

  /** The status does what the item asks for: no slice for a namespace that does not match;
      for one that does, a slice with the current limits, and for a forced item one computed
      in this sync no earlier than the item was taken up. */
  ghost predicate Reflected(view: View, slices: seq<Slice>, items: seq<WorkItem>, usages: seq<Option<ResourceList>>,
                            k: nat)
    requires |items| == |usages| && k < |items|
  {
    var ns := items[k].namespace;
    if ns !in view.matching then Lookup(slices, ns) == None
    else
      && Lookup(slices, ns).Some? && Lookup(slices, ns).value.hard == view.hard
      && (items[k].force ==>
            exists j :: k <= j < |items| && items[j].namespace == ns && usages[j].Some?
              && Lookup(slices, ns).value.used == usages[j].value)
  }

  /** The last item is dealt with, or is the last to retry. */
  lemma LastReflected(view: View, before: Progress, items: seq<WorkItem>, usages: seq<Option<ResourceList>>)
    requires DistinctSlices(before.slices) && |items| == |usages| > 0
    ensures var k := |items| - 1;
            var after := ApplyItem(view, before, items[k], usages[k]);
            items[k] in after.retry || items[k].namespace !in view.matching
            || Reflected(view, after.slices, items, usages, k)
  {
    var k := |items| - 1;
    if usages[k].Some? {
      InsertEffect(before.slices, Slice(items[k].namespace, view.hard, usages[k].value));
    }
  }

  /** What was reflected stays so under one more item. */
  lemma StillReflected(view: View, before: Progress, items: seq<WorkItem>, usages: seq<Option<ResourceList>>, k: nat)
    requires DistinctSlices(before.slices) && |items| == |usages| && k < |items| - 1
    requires items[k].namespace in view.matching
    requires Reflected(view, before.slices, items[..|items| - 1], usages[..|items| - 1], k)
    ensures Reflected(view, ApplyItem(view, before, items[|items| - 1], usages[|items| - 1]).slices, items, usages, k)
  {
    var last := |items| - 1;
    var ns := items[k].namespace;
    var item := items[last];
    if item.namespace in view.matching && !Needless(view, before.slices, item) && usages[last].Some? {
      InsertEffect(before.slices, Slice(item.namespace, view.hard, usages[last].value));
    } else {
      RemoveEffect(before.slices, item.namespace);
    }
    if items[k].force && (item.namespace != ns || Needless(view, before.slices, item) || usages[last].None?) {
      var j :| k <= j < last && items[..last][j].namespace == ns && usages[..last][j].Some?
        && Lookup(before.slices, ns).value.used == usages[..last][j].value;
      assert items[j].namespace == ns && usages[j] == usages[..last][j];
    }
  }

  /** Halfway: reflected, or among the items to retry. */
  lemma {:induction false} ItemsReflected(view: View, p: Progress, items: seq<WorkItem>,
                                          usages: seq<Option<ResourceList>>, k: nat)
    requires DistinctSlices(p.slices) && |items| == |usages| && k < |items|
    ensures var after := ApplyItems(view, p, items, usages);
            items[k] in after.retry || items[k].namespace !in view.matching
            || Reflected(view, after.slices, items, usages, k)
  {
    var last := |items| - 1;
    var before := ApplyItems(view, p, items[..last], usages[..last]);
    ItemsAreSteady(view, p, items[..last], usages[..last]);
    if k == last {
      LastReflected(view, before, items, usages);
    } else {
      ItemsReflected(view, p, items[..last], usages[..last], k);
      if items[k].namespace in view.matching && items[k] !in before.retry {
        StillReflected(view, before, items, usages, k);
      }
    }
  }

  /** Each work item is reflected in the outcome or handed back for retry. */
  lemma ItemsAreNotLost(view: View, status: Status, items: seq<WorkItem>, usages: seq<Option<ResourceList>>, k: nat)
    requires |items| == |usages| && k < |items| && DistinctSlices(status.slices)
    ensures var p := Outcome(view, status, items, usages);
            items[k] in p.retry || Reflected(view, p.slices, items, usages, k)
  {
    var start := Progress(status.total, status.slices, []);
    ItemsAreSteady(view, start, items, usages);
    ItemsReflected(view, start, items, usages, k);
    PruneAll(view, ApplyItems(view, start, items, usages));
  }
}
