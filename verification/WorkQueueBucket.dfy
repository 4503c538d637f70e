/** The bucketing work queue as the imperative code it is. An uninterrupted call is a run of
    the steps of the bucket queue's machine, so what is proved about every run holds for it. */
module WorkQueueBucket {
  import opened BucketQueue

  /** The rate-limiting queue of keys. */
  class KeyQueue {
    var queue: seq<string>
    var dirty: set<string>
    var processing: set<string>
    var delayed: set<string>

    ghost function Value(): Queue
      reads this
    {
      Queue(queue, dirty, processing, delayed)
    }

    constructor ()
      ensures Value() == EMPTY_QUEUE
    {
      queue, dirty, processing, delayed := [], {}, {}, {};
    }

    method Add(key: string)
      modifies this
      ensures Value() == AddKey(old(Value()), key)
    {
      if key in dirty {
        return;
      }
      dirty := dirty + {key};
      if key in processing {
        return;
      }
      queue := queue + [key];
    }

    /** Without a back-off the key is added at once. */
    method AddRateLimited(key: string, later: bool)
      modifies this
      ensures Value() == if later then AddKeyLater(old(Value()), key) else AddKey(old(Value()), key)
    {
      if !later {
        Add(key);
        return;
      }
      delayed := delayed + {key};
    }

    /** The back-off of a key ends. */
    method Fire(key: string)
      requires key in delayed
      modifies this
      ensures Value() == FireKey(old(Value()), key)
    {
      delayed := delayed - {key};
      Add(key);
    }

    method Get() returns (key: string)
      requires queue != []
      modifies this
      ensures key == old(queue)[0] && Value() == TakeKey(old(Value()))
    {
      key := queue[0];
      queue := queue[1..];
      processing := processing + {key};
      dirty := dirty - {key};
    }

    method Done(key: string)
      modifies this
      ensures Value() == FinishKey(old(Value()), key)
    {
      processing := processing - {key};
      if key in dirty {
        queue := queue + [key];
      }
    }
  }

  class Bucket {
    const queue: KeyQueue
    var work: map<string, seq<Data>>
    var dirtyWork: map<string, seq<Data>>
    var inProgress: map<string, bool>
    ghost var taken: set<string>
    ghost var log: seq<Event>

    ghost function Now(): State
      reads this, queue
    {
      State(queue.Value(), work, dirtyWork, (set key | key in inProgress && inProgress[key]), Free, taken, log)
    }

    /** Some run of the machine leads to the present state. */
    ghost predicate Valid()
      reads this, queue
    {
      Reachable(Now())
    }

    /** Only what waits under `key` has changed, to `data`. */
    twostate predicate WaitsOnly(key: string, data: seq<Data>)
      reads this, queue
    {
      && Waiting(Now(), key) == data
      && forall other | other != key :: Waiting(Now(), other) == old(Waiting(Now(), other))
    }

    constructor ()
      ensures Valid() && Now() == Start() && fresh(queue)
    {
      queue := new KeyQueue();
      work, dirtyWork, inProgress, taken, log := map[], map[], map[], {}, [];
      new;
      assert Now() == Start();
      assert Runs(Start(), [], Now());
    }

    method AddWithData(key: string, data: seq<Data>)
      requires Valid()
      modifies this, queue
      ensures Valid() && log == old(log) + [Added(key, data)]
      ensures queue.Value() == AddKey(old(queue.Value()), key) && Now().inProgress == old(Now().inProgress)
      ensures WaitsOnly(key, old(Waiting(Now(), key)) + data)
    {
      ghost var start := Now();
      queue.Add(key);
      AppendData(start, key, data, false);
    }

    method AddWithDataRateLimited(key: string, data: seq<Data>, later: bool)
      requires Valid()
      modifies this, queue
      ensures Valid() && log == old(log) + [Added(key, data)]
      ensures queue.Value() == if later then AddKeyLater(old(queue.Value()), key) else AddKey(old(queue.Value()), key)
      ensures Now().inProgress == old(Now().inProgress)
      ensures WaitsOnly(key, old(Waiting(Now(), key)) + data)
    {
      ghost var start := Now();
      queue.AddRateLimited(key, later);
      AppendData(start, key, data, later);
    }

    /** What both ways of adding do after the key is in the key queue. */
    method AppendData(ghost start: State, key: string, data: seq<Data>, ghost later: bool)
      requires Reachable(start) && start.lock.Free?
      requires Now() == Do(start, LockAdd(key, data, later)).(lock := Free)
      modifies this`work, this`dirtyWork, this`log
      ensures Now() == Do(Do(start, LockAdd(key, data, later)), Append) && Valid()
      ensures log == start.log + [Added(key, data)] && Waiting(Now(), key) == Waiting(start, key) + data
      ensures forall other | other != key :: Waiting(Now(), other) == Waiting(start, other)
    {
      ghost var end := AddEffect(start, key, data, later);
      if key in inProgress && inProgress[key] {
        dirtyWork := dirtyWork[key := (if key in dirtyWork then dirtyWork[key] else []) + data];
      } else {
        work := work[key := (if key in work then work[key] else []) + data];
      }
      log := log + [Added(key, data)];
      assert Now() == end;
    }

    /** A call that finds the key queue empty returns only when the queue is shut down. */
    method GetWithData() returns (key: string, data: seq<Data>, quit: bool)
      requires Valid()
      modifies this, queue
      ensures Valid() && quit == (old(queue.queue) == [])
      ensures quit ==> Now() == old(Now())
      ensures !quit ==>
                && key == old(queue.queue)[0] && key !in old(Now().inProgress)
                && data == old(Waiting(Now(), key)) && log == old(log) + [Delivered(key, data)]
                && WaitsOnly(key, [])
                && queue.Value() == TakeKey(old(queue.Value()))
                && Now().inProgress == old(Now().inProgress) + {key}
    {
      if |queue.queue| == 0 {
        return "", [], true;
      }
      quit := false;
      ghost var _, end := GetEffect(Now());
      key := queue.Get();
      data := if key in work then work[key] else [];
      work := work - {key};
      dirtyWork := dirtyWork - {key};
      inProgress := inProgress[key := true];
      taken := taken - {key};
      log := log + [Delivered(key, data)];
      assert Now() == end;
    }

    /** The back-off of a key ends. */
    method EndBackOff(key: string)
      requires Valid() && key in queue.delayed
      modifies queue
      ensures Valid() && queue.Value() == FireKey(old(queue.Value()), key)
      ensures Now() == old(Now()).(queue := queue.Value())
    {
      ReachableStep(Now(), Fire(key));
      ghost var end := Do(Now(), Fire(key));
      queue.Fire(key);
      assert Now() == end;
    }

    /** Called by the worker that got the key. */
    method Done(key: string)
      requires Valid() && key in Now().inProgress
      modifies this, queue
      ensures Valid() && log == old(log)
      ensures queue.Value() == FinishKey(old(queue.Value()), key) && Now().inProgress == old(Now().inProgress) - {key}
      ensures WaitsOnly(key, old(Waiting(Now(), key)))
    {
      ghost var end := DoneEffect(Now(), key);
      queue.Done(key);
      work := work[key := if key in dirtyWork then dirtyWork[key] else []];
      dirtyWork := dirtyWork - {key};
      inProgress := inProgress - {key};
      assert Now() == end;
    }
  }
}
