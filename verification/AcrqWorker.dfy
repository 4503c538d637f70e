/** The worker that takes recalculation requests off the bucketing queue. */
module AcrqWorker {
  import opened Resources
  import opened ClusterAccounting
  import BucketQueue
  import opened WorkQueueBucket

  /** What the worker finds on the way, beside the queue: the quota in the lister (None when
      it is not there), whether the lister reports an error, the quota on the API server, its
      limits and namespaces, and what each calculation and lookup returns. */
  datatype Surroundings = Surroundings(
    found: Option<Status>, listerFails: bool, onServer: Option<Status>,
    hard: ResourceList, matching: set<string>, mapperCurrent: bool,
    collects: bool, findings: nat -> Finding, observed: nat -> Option<ResourceList>,
    refused: bool, backOff: bool)

  function FirstOf<T>(values: nat -> T, n: nat): (first: seq<T>)
    ensures |first| == n
  {
    seq(n, k requires 0 <= k < n => values(k))
  }

  function UsagesOf(around: Surroundings, items: seq<WorkItem>): (usages: seq<Option<ResourceList>>)
    requires around.found.Some?
    ensures |usages| == |items|
  {
    var n := |items|;
    ActualUsages(around.collects, FirstOf(around.findings, n), around.found.value, items, FirstOf(around.observed, n))
  }

  function ViewOf(around: Surroundings): View {
    View(around.hard, around.matching)
  }

  // ---------------------------------------------------------------- what a sync comes to

  function OutcomeOf(around: Surroundings, items: seq<WorkItem>): Progress
    requires around.found.Some?
  {
    Outcome(ViewOf(around), around.found.value, items, UsagesOf(around, items))
  }

  /** The status the sync wants, from the copy in the lister. */
  function Wanted(around: Surroundings, items: seq<WorkItem>): Status
    requires around.found.Some?
  {
    var p := OutcomeOf(around, items);
    Status(Some(around.hard), p.total, p.slices)
  }

  /** The sync does not take place, or its write is refused, as one from an outdated copy is. */
  predicate GivesUp(around: Surroundings, items: seq<WorkItem>)
    requires around.found.Some?
  {
    || around.listerFails || !around.mapperCurrent
    || (Wanted(around, items) != around.found.value && (around.refused || around.found != around.onServer))
  }

  /** The items that go back on the queue. */
  function HandedBack(around: Surroundings, items: seq<WorkItem>): seq<WorkItem>
    requires around.found.Some?
  {
    if GivesUp(around, items) then items else OutcomeOf(around, items).retry
  }

  /** The status the sync ends with. */
  function EndStatus(around: Surroundings, items: seq<WorkItem>): Status
    requires around.found.Some?
  {
    if GivesUp(around, items) then around.found.value else Wanted(around, items)
  }

  /** The status then on the API server: a sync that finds nothing to change writes nothing. */
  function ServerAfter(around: Surroundings, items: seq<WorkItem>): Option<Status>
    requires around.found.Some?
  {
    var status := EndStatus(around, items);
    if status != around.found.value then Some(status) else around.onServer
  }

  /** What has become of the items a worker took: each is done in the status given, or waits
      on the queue again. */
  ghost predicate AllAccountedFor(around: Surroundings, items: seq<WorkItem>, status: Status, waiting: seq<WorkItem>)
    requires around.found.Some?
  {
    forall k | 0 <= k < |items| ::
      items[k] in waiting || Reflected(ViewOf(around), status.slices, items, UsagesOf(around, items), k)
  }

  /** No item is lost to the status the sync ends with. */
  lemma SyncAccountsForAll(around: Surroundings, items: seq<WorkItem>)
    requires around.found.Some? && DistinctSlices(around.found.value.slices)
    ensures AllAccountedFor(around, items, EndStatus(around, items), HandedBack(around, items))
  {
    forall k | 0 <= k < |items|
      ensures || items[k] in HandedBack(around, items)
              || Reflected(ViewOf(around), EndStatus(around, items).slices, items, UsagesOf(around, items), k)
    {
      ItemsAreNotLost(ViewOf(around), around.found.value, items, UsagesOf(around, items), k);
    }
  }

  // ---------------------------------------------------------------- the worker

  class AcrqController {
    const queue: Bucket

    constructor ()
      ensures queue.Valid() && fresh(queue) && fresh(queue.queue)
    {
      queue := new Bucket();
    }

    /** One round of the worker: `items` is what it took under `key`, `status` what the sync
        ended with, `server` the status then on the API server. */
    method Work(around: Surroundings)
      returns (quit: bool, key: string, items: seq<WorkItem>, status: Option<Status>, server: Option<Status>)
      requires queue.Valid()
      modifies queue, queue.queue
      ensures queue.Valid() && quit == (old(queue.queue.queue) == [])
      ensures !quit ==> key == old(queue.queue.queue)[0] && items == old(BucketQueue.Waiting(queue.Now(), key))
      ensures !quit ==> queue.Now().inProgress == old(queue.Now().inProgress)
      ensures !quit && around.found.None? ==>
                status == None && server == around.onServer && BucketQueue.Waiting(queue.Now(), key) == []
      ensures !quit && around.found.Some? ==>
                && status == Some(EndStatus(around, items)) && server == ServerAfter(around, items)
                && BucketQueue.Waiting(queue.Now(), key) == HandedBack(around, items)
      ensures !quit && around.found.Some? && DistinctSlices(around.found.value.slices) ==>
                AllAccountedFor(around, items, status.value, BucketQueue.Waiting(queue.Now(), key))
      ensures !quit && BucketQueue.Waiting(queue.Now(), key) != [] ==>
                key in queue.queue.queue || key in queue.queue.delayed
      ensures forall other | !quit && other != key ::
                BucketQueue.Waiting(queue.Now(), other) == old(BucketQueue.Waiting(queue.Now(), other))
    {
      status, server := None, around.onServer;
      key, items, quit := queue.GetWithData();
      if quit {
        return;
      }
      var again := None;
      if around.found.Some? {
        again, status, server := SyncFound(around, items);
      }
      GiveBack(key, again, around.backOff);
    }

    /** Ends the work on a key, after putting the items to retry back under it. */
    method GiveBack(key: string, again: Option<seq<WorkItem>>, backOff: bool)
      requires queue.Valid() && key in queue.Now().inProgress && BucketQueue.Waiting(queue.Now(), key) == []
      modifies queue, queue.queue
      ensures queue.Valid() && queue.Now().inProgress == old(queue.Now().inProgress) - {key}
      ensures queue.WaitsOnly(key, if again.Some? then again.value else [])
      ensures BucketQueue.Waiting(queue.Now(), key) != [] ==> key in queue.queue.queue || key in queue.queue.delayed
    {
      if again.Some? {
        queue.AddWithDataRateLimited(key, again.value, backOff);
      }
      queue.Done(key);
      BucketQueue.NothingIsStranded(queue.Now(), key);
    }
  }

  /** What the worker does with a quota in the lister: an error there gives all items back. */
  method SyncFound(around: Surroundings, items: seq<WorkItem>)
    returns (again: Option<seq<WorkItem>>, status: Option<Status>, server: Option<Status>)
    requires around.found.Some?
    ensures status == Some(EndStatus(around, items)) && server == ServerAfter(around, items)
    ensures HandedBack(around, items) == if again.Some? then again.value else []
    ensures DistinctSlices(around.found.value.slices) ==>
              AllAccountedFor(around, items, status.value, HandedBack(around, items))
  {
    if around.listerFails {
      again, status := Some(items), around.found;
    } else {
      again, status := Sync(around, items);
    }
    server := if status != around.found then status else around.onServer;
    if DistinctSlices(around.found.value.slices) {
      SyncAccountsForAll(around, items);
    }
  }

  /** The sync of the items taken, and what it gives back for retry, if it fails. */
  method Sync(around: Surroundings, items: seq<WorkItem>) returns (again: Option<seq<WorkItem>>, status: Option<Status>)
    requires around.found.Some? && !around.listerFails
    ensures status == Some(EndStatus(around, items))
    ensures HandedBack(around, items) == if again.Some? then again.value else []
  {
    var n := |items|;
    var ended, failed, retry := SyncQuotaForNamespaces(
      ViewOf(around), around.mapperCurrent, around.found.value, items, FirstOf(around.observed, n), around.collects,
      FirstOf(around.findings, n), around.refused || around.found != around.onServer);
    status := Some(ended);
    again := if failed then Some(retry) else None;
  }

  // ---------------------------------------------------------------- items and the API server

  /** A status as syncs leave it. */
  ghost predicate Plausible(status: Status) {
    DistinctSlices(status.slices) && Conserved(status.total, status.slices)
  }

  /** No item is lost to the API server. */
  ghost predicate AllOnServer(around: Surroundings, items: seq<WorkItem>)
    requires around.found.Some?
  {
    var server := ServerAfter(around, items);
    server.Some? ==> AllAccountedFor(around, items, server.value, HandedBack(around, items))
  }

  /** The sync goes back to the queue, or has something to write, or retries every item. */
  predicate NothingRidesOnTheCopy(around: Surroundings, items: seq<WorkItem>)
    requires around.found.Some?
  {
    || around.listerFails || !around.mapperCurrent || Wanted(around, items) != around.found.value
    || forall k | 0 <= k < |items| :: items[k] in OutcomeOf(around, items).retry
  }

  /** With an up-to-date copy no item is lost to the API server. */
  lemma CurrentCopyLosesNothing(around: Surroundings, items: seq<WorkItem>)
    requires around.found.Some? && DistinctSlices(around.found.value.slices) && around.onServer == around.found
    ensures AllOnServer(around, items)
  {
    SyncAccountsForAll(around, items);
  }

  /** Where the copy may be outdated in any way, no item is lost to the API server exactly if
      nothing rides on the copy: a sync that finds it as wanted writes nothing, and drops what
      it does not retry. */
  lemma KeptExactly(around: Surroundings, items: seq<WorkItem>)
    requires around.found.Some? && DistinctSlices(around.found.value.slices)
    ensures (forall server | Plausible(server) :: AllOnServer(around.(onServer := Some(server)), items))
       <==> NothingRidesOnTheCopy(around, items)
  {
    if NothingRidesOnTheCopy(around, items) {
      forall server | Plausible(server)
        ensures AllOnServer(around.(onServer := Some(server)), items)
      {
        SyncAccountsForAll(around.(onServer := Some(server)), items);
      }
    } else {
      var k :| 0 <= k < |items| && items[k] !in OutcomeOf(around, items).retry;
      var server := ServerWithout(around, items[k]);
      UnreflectedItem(around, items, k);
      assert OutcomeOf(around.(onServer := Some(server)), items) == OutcomeOf(around, items);
      assert !AllOnServer(around.(onServer := Some(server)), items);
    }
  }

  /** A status, other than the copy, that does not do what an item asks for: no slice where
      there should be one, or one where there should be none. */
  function ServerWithout(around: Surroundings, item: WorkItem): Status
    requires around.found.Some?
  {
    var hard := if around.found.value.hard.None? then Some(map[]) else None;
    Status(hard, map[], if item.namespace in around.matching then [] else [Slice(item.namespace, map[], map[])])
  }

  lemma UnreflectedItem(around: Surroundings, items: seq<WorkItem>, k: nat)
    requires around.found.Some? && k < |items|
    ensures var server := ServerWithout(around, items[k]);
            && Plausible(server) && Some(server) != around.found
            && !Reflected(ViewOf(around), server.slices, items, UsagesOf(around, items), k)
  {
    var slices := ServerWithout(around, items[k]).slices;
    forall r
      ensures SliceSum(slices, r) == 0
    {
      if slices != [] {
        assert slices[1..] == [] && SliceSum([], r) == 0;
        assert SliceSum(slices, r) == Get(slices[0].used, r) + SliceSum(slices[1..], r);
      }
    }
  }

  /** A lister copy that already shows the usage found, while the API server shows none. */
  function OneItem(): Surroundings {
    var hard := map["cpu" := 2];
    Surroundings(
      Some(Status(Some(hard), map["cpu" := 1], [Slice("ns", hard, map["cpu" := 1])])), false,
      Some(Status(Some(hard), map["cpu" := 0], [Slice("ns", hard, map["cpu" := 0])])),
      hard, {"ns"}, true, false, (_: nat) => Found(None), (_: nat) => Some(map["cpu" := 1]), false, false)
  }

  /** A round that takes one forced item then leaves the queue without it and the API server's
      status as it was, which does not reflect it. */
  lemma OutdatedCopyDropsItem()
    ensures var around, items := OneItem(), [WorkItem("ns", true)];
            && HandedBack(around, items) == [] && ServerAfter(around, items) == around.onServer
            && !Reflected(ViewOf(around), around.onServer.value.slices, items, UsagesOf(around, items), 0)
            && !AllOnServer(around, items)
  {
    var around, items := OneItem(), [WorkItem("ns", true)];
    var usages := UsagesOf(around, items);
    var slice := Slice("ns", map["cpu" := 2], map["cpu" := 1]);
    var start := Progress(map["cpu" := 1], [slice], []);
    assert usages == [Some(map["cpu" := 1])];
    assert ApplyItems(ViewOf(around), start, items[..|items| - 1], usages[..|items| - 1]) == start;
    assert Add(Subtract(map["cpu" := 1], map["cpu" := 1]), map["cpu" := 1]) == map["cpu" := 1];
    assert Replace([slice], slice) == [slice];
    assert ApplyItems(ViewOf(around), start, items, usages) == start;
    assert Prune(ViewOf(around), start, [slice][..0]) == start;
    assert Wanted(around, items) == around.found.value;
    var server := Slice("ns", map["cpu" := 2], map["cpu" := 0]);
    assert Lookup([server], "ns") == Some(server);
    assert map["cpu" := 0]["cpu"] != map["cpu" := 1]["cpu"];
  }
}
