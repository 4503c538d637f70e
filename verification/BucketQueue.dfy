/** The bucketing work queue as a state machine: a de-duplicating, delaying work queue of
    keys, and beside it the data waiting for each key.

    A step is one critical section of one lock. AddWithData and Done take the bucket's lock
    first and the key queue's lock inside it, so each is two steps, between which another
    worker can take a key; GetWithData takes the two locks one after the other. */
module BucketQueue {
  import ClusterAccounting

  /** The queue treats what is added under a key as opaque; its one user adds work items. */
  type Data = ClusterAccounting.WorkItem

  // ---------------------------------------------------------------- the key queue

  /** `dirty` holds the keys that need processing, `processing` those handed out and not yet
      done, `delayed` those to be added once their back-off ends. */
  datatype Queue = Queue(queue: seq<string>, dirty: set<string>, processing: set<string>, delayed: set<string>)

  const EMPTY_QUEUE := Queue([], {}, {}, {})

  function AddKey(q: Queue, key: string): Queue {
    if key in q.dirty then q
    else if key in q.processing then q.(dirty := q.dirty + {key})
    else q.(dirty := q.dirty + {key}, queue := q.queue + [key])
  }

  function AddKeyLater(q: Queue, key: string): Queue {
    q.(delayed := q.delayed + {key})
  }

  function FireKey(q: Queue, key: string): Queue {
    AddKey(q.(delayed := q.delayed - {key}), key)
  }

  function TakeKey(q: Queue): Queue
    requires q.queue != []
  {
    q.(queue := q.queue[1..], dirty := q.dirty - {q.queue[0]}, processing := q.processing + {q.queue[0]})
  }

  function FinishKey(q: Queue, key: string): Queue {
    var rest := q.(processing := q.processing - {key});
    if key in q.dirty then rest.(queue := q.queue + [key]) else rest
  }

  // ---------------------------------------------------------------- the bucket

  /** Who holds the bucket's lock, between its two critical sections. */
  datatype Holder = Free | Adding(key: string, data: seq<Data>) | Finishing(key: string)

  datatype Event = Added(key: string, data: seq<Data>) | Delivered(key: string, data: seq<Data>)

  /** `taken` holds the keys a worker got from the key queue but has not collected the data
      of; `log` records what was added and delivered, in order. */
  datatype State = State(
    queue: Queue, work: map<string, seq<Data>>, dirtyWork: map<string, seq<Data>>, inProgress: set<string>,
    lock: Holder, taken: set<string>, log: seq<Event>)

  /** The data of a key; a key without an entry has none. */
  function At(m: map<string, seq<Data>>, key: string): seq<Data> {
    if key in m then m[key] else []
  }

  /** Everything added under a key and not delivered yet. */
  function Waiting(s: State, key: string): seq<Data> {
    At(s.work, key) + At(s.dirtyWork, key)
  }

  function AddedTo(log: seq<Event>, key: string): seq<Data> {
    if log == [] then []
    else
      var last := log[|log| - 1];
      AddedTo(log[..|log| - 1], key) + if last.Added? && last.key == key then last.data else []
  }

  function DeliveredFrom(log: seq<Event>, key: string): seq<Data> {
    if log == [] then []
    else
      var last := log[|log| - 1];
      DeliveredFrom(log[..|log| - 1], key) + if last.Delivered? && last.key == key then last.data else []
  }

  datatype Step =
    | LockAdd(key: string, data: seq<Data>, later: bool)
    | Append
    | Fire(key: string)
    | Take
    | Grab(key: string)
    | LockDone(key: string)
    | Release

  predicate Can(s: State, step: Step) {
    match step
    case LockAdd(key, data, later) => s.lock.Free?
    case Append => s.lock.Adding?
    case Fire(key) => key in s.queue.delayed
    case Take => s.queue.queue != []
    case Grab(key) => s.lock.Free? && key in s.taken
    case LockDone(key) => s.lock.Free? && key in s.inProgress
    case Release => s.lock.Finishing?
  }

  function Do(s: State, step: Step): State
    requires Can(s, step)
  {
    match step
    case LockAdd(key, data, later) =>
      s.(queue := if later then AddKeyLater(s.queue, key) else AddKey(s.queue, key), lock := Adding(key, data))
    case Append =>
      var key, data := s.lock.key, s.lock.data;
      var next := s.(lock := Free, log := s.log + [Added(key, data)]);
      if key in s.inProgress
      then next.(dirtyWork := s.dirtyWork[key := At(s.dirtyWork, key) + data])
      else next.(work := s.work[key := At(s.work, key) + data])
    case Fire(key) => s.(queue := FireKey(s.queue, key))
    case Take => s.(queue := TakeKey(s.queue), taken := s.taken + {s.queue.queue[0]})
    case Grab(key) =>
      s.(work := s.work - {key}, dirtyWork := s.dirtyWork - {key}, inProgress := s.inProgress + {key},
         taken := s.taken - {key}, log := s.log + [Delivered(key, At(s.work, key))])
    case LockDone(key) => s.(queue := FinishKey(s.queue, key), lock := Finishing(key))
    case Release =>
      var key := s.lock.key;
      s.(work := s.work[key := At(s.dirtyWork, key)], dirtyWork := s.dirtyWork - {key},
         inProgress := s.inProgress - {key}, lock := Free)
  }

  function Start(): State {
    State(EMPTY_QUEUE, map[], map[], {}, Free, {}, [])
  }

  ghost predicate Runs(s: State, steps: seq<Step>, end: State)
    decreases |steps|
  {
    if steps == [] then s == end
    else Can(s, steps[0]) && Runs(Do(s, steps[0]), steps[1..], end)
  }

  ghost predicate Reachable(s: State) {
    exists steps :: Runs(Start(), steps, s)
  }

  // ---------------------------------------------------------------- invariant

  ghost predicate QueueInv(q: Queue) {
    && (forall j, k | 0 <= j < k < |q.queue| :: q.queue[j] != q.queue[k])
    && (forall key :: key in q.queue <==> key in q.dirty && key !in q.processing)
  }

  /** A key is being processed by exactly one worker: one that has taken it, or one that has
      its data and is not yet finishing. */
  ghost predicate WorkersInv(processing: set<string>, inProgress: set<string>, lock: Holder, taken: set<string>) {
    && (lock.Finishing? ==> lock.key in inProgress)
    && (forall key :: key in processing <==>
          key in taken || (key in inProgress && !(lock.Finishing? && lock.key == key)))
    && (forall key | key in taken && key in inProgress :: lock.Finishing? && lock.key == key)
  }

  /** Only one of a key's two slots holds data: `dirtyWork` while a worker has the key. */
  ghost predicate SlotsInv(work: map<string, seq<Data>>, dirtyWork: map<string, seq<Data>>, inProgress: set<string>) {
    && (forall key | key in work && key in inProgress :: work[key] == [])
    && (forall key | key in dirtyWork && key !in inProgress :: dirtyWork[key] == [])
  }

  predicate Conserves(s: State, key: string) {
    AddedTo(s.log, key) == DeliveredFrom(s.log, key) + Waiting(s, key)
  }

  predicate Awake(s: State, key: string) {
    key in s.queue.dirty || key in s.queue.delayed || key in s.taken
  }

  ghost predicate WakeInv(s: State) {
    && (forall key | Waiting(s, key) != [] :: Awake(s, key))
    && (s.lock.Adding? ==> Awake(s, s.lock.key))
  }

  ghost predicate Inv(s: State) {
    && QueueInv(s.queue)
    && WorkersInv(s.queue.processing, s.inProgress, s.lock, s.taken)
    && SlotsInv(s.work, s.dirtyWork, s.inProgress)
    && (forall key :: Conserves(s, key))
    && WakeInv(s)
  }

  lemma StepKeepsQueue(s: State, step: Step)
    requires QueueInv(s.queue) && WorkersInv(s.queue.processing, s.inProgress, s.lock, s.taken) && Can(s, step)
    ensures QueueInv(Do(s, step).queue)
  {
    match step {
      case LockAdd(key, data, later) =>
      case Append =>
      case Fire(key) =>
      case Take =>
        assert s.queue.queue == [s.queue.queue[0]] + s.queue.queue[1..];
      case Grab(key) =>
      case LockDone(key) =>
      case Release =>
    }
  }

  lemma StepKeepsSlots(s: State, step: Step)
    requires WorkersInv(s.queue.processing, s.inProgress, s.lock, s.taken)
    requires SlotsInv(s.work, s.dirtyWork, s.inProgress)
    requires QueueInv(s.queue) && Can(s, step)
    ensures var t := Do(s, step);
            && WorkersInv(t.queue.processing, t.inProgress, t.lock, t.taken)
            && SlotsInv(t.work, t.dirtyWork, t.inProgress)
  {
  }

  lemma LogOneMore(log: seq<Event>, event: Event, key: string)
    ensures AddedTo(log + [event], key) == AddedTo(log, key)
                                       + if event.Added? && event.key == key then event.data else []
    ensures DeliveredFrom(log + [event], key)
         == DeliveredFrom(log, key) + if event.Delivered? && event.key == key then event.data else []
  {
    assert (log + [event])[..|log|] == log;
  }

  /** What waits under a key changes only by an append, and by a delivery of all of it. */
  lemma WaitingAfter(s: State, step: Step, key: string)
    requires Can(s, step) && WorkersInv(s.queue.processing, s.inProgress, s.lock, s.taken)
    requires SlotsInv(s.work, s.dirtyWork, s.inProgress)
    ensures Waiting(Do(s, step), key) ==
              if step.Append? && s.lock.key == key then Waiting(s, key) + s.lock.data
              else if step.Grab? && step.key == key then [] else Waiting(s, key)
    ensures step.Grab? && step.key == key ==> At(s.work, key) == Waiting(s, key)
  {
  }

  /** An append puts the data at the end of what waits. */
  lemma LogAdds(log: seq<Event>, key: string, data: seq<Data>, waiting: seq<Data>)
    requires AddedTo(log, key) == DeliveredFrom(log, key) + waiting
    ensures var after := log + [Added(key, data)];
            AddedTo(after, key) == DeliveredFrom(after, key) + (waiting + data)
  {
    LogOneMore(log, Added(key, data), key);
    assert DeliveredFrom(log, key) + (waiting + data) == DeliveredFrom(log, key) + waiting + data;
  }

  lemma LogDelivers(log: seq<Event>, key: string, waiting: seq<Data>)
    requires AddedTo(log, key) == DeliveredFrom(log, key) + waiting
    ensures var after := log + [Delivered(key, waiting)];
            AddedTo(after, key) == DeliveredFrom(after, key) + []
  {
    LogOneMore(log, Delivered(key, waiting), key);
  }

  lemma AppendConserves(s: State, key: string)
    requires WorkersInv(s.queue.processing, s.inProgress, s.lock, s.taken)
    requires SlotsInv(s.work, s.dirtyWork, s.inProgress)
    requires Conserves(s, key) && s.lock.Adding?
    ensures Conserves(Do(s, Append), key)
  {
    WaitingAfter(s, Append, key);
    if key == s.lock.key {
      LogAdds(s.log, key, s.lock.data, Waiting(s, key));
    } else {
      LogOneMore(s.log, Added(s.lock.key, s.lock.data), key);
    }
  }

  lemma GrabConserves(s: State, taken: string, key: string)
    requires WorkersInv(s.queue.processing, s.inProgress, s.lock, s.taken)
    requires SlotsInv(s.work, s.dirtyWork, s.inProgress)
    requires Conserves(s, key) && Can(s, Grab(taken))
    ensures Conserves(Do(s, Grab(taken)), key)
  {
    WaitingAfter(s, Grab(taken), key);
    if key == taken {
      LogDelivers(s.log, key, Waiting(s, key));
    } else {
      LogOneMore(s.log, Delivered(taken, At(s.work, taken)), key);
    }
  }

  lemma StepConserves(s: State, step: Step, key: string)
    requires WorkersInv(s.queue.processing, s.inProgress, s.lock, s.taken)
    requires SlotsInv(s.work, s.dirtyWork, s.inProgress)
    requires Conserves(s, key) && Can(s, step)
    ensures Conserves(Do(s, step), key)
  {
    match step {
      case Append => AppendConserves(s, key);
      case Grab(taken) => GrabConserves(s, taken, key);
      case Release => WaitingAfter(s, step, key);
      case LockAdd(_, _, _) =>
      case Fire(_) =>
      case Take =>
      case LockDone(_) =>
    }
  }

  lemma StepKeepsAwake(s: State, step: Step)
    requires WorkersInv(s.queue.processing, s.inProgress, s.lock, s.taken)
    requires SlotsInv(s.work, s.dirtyWork, s.inProgress)
    requires WakeInv(s) && Can(s, step)
    ensures WakeInv(Do(s, step))
  {
    var t := Do(s, step);
    forall key | Waiting(t, key) != []
      ensures Awake(t, key)
    {
      WaitingAfter(s, step, key);
      assert Awake(s, key);
    }
  }

  lemma StepKeepsInv(s: State, step: Step)
    requires Inv(s) && Can(s, step)
    ensures Inv(Do(s, step))
  {
    StepKeepsQueue(s, step);
    StepKeepsSlots(s, step);
    forall key
      ensures Conserves(Do(s, step), key)
    {
      assert Conserves(s, key);
      StepConserves(s, step, key);
    }
    StepKeepsAwake(s, step);
  }

  lemma {:induction false} RunKeepsInv(s: State, steps: seq<Step>, end: State)
    requires Inv(s) && Runs(s, steps, end)
    ensures Inv(end)
    decreases |steps|
  {
    if steps != [] {
      StepKeepsInv(s, steps[0]);
      RunKeepsInv(Do(s, steps[0]), steps[1..], end);
    }
  }

  lemma ReachableInv(s: State)
    requires Reachable(s)
    ensures Inv(s)
  {
    var steps :| Runs(Start(), steps, s);
    RunKeepsInv(Start(), steps, s);
  }

  lemma ReachableStep(s: State, step: Step)
    requires Reachable(s) && Can(s, step)
    ensures Reachable(Do(s, step))
  {
    var steps :| Runs(Start(), steps, s);
    assert Runs(s, [step], Do(s, step)) by {
      assert [step][1..] == [];
      assert Runs(Do(s, step), [], Do(s, step));
    }
    RunsConcat(Start(), steps, s, [step], Do(s, step));
  }

  // ---------------------------------------------------------------- main results

  /** In every reachable state, whatever the interleaving: what was delivered under a key,
      followed by what its two slots hold, is exactly what was added under it, in order. */
  lemma NothingIsLost(s: State, key: string)
    requires Reachable(s)
    ensures AddedTo(s.log, key) == DeliveredFrom(s.log, key) + At(s.work, key) + At(s.dirtyWork, key)
  {
    ReachableInv(s);
    assert Conserves(s, key);
    assert DeliveredFrom(s.log, key) + At(s.work, key) + At(s.dirtyWork, key)
        == DeliveredFrom(s.log, key) + (At(s.work, key) + At(s.dirtyWork, key));
  }

  /** In every reachable state data waiting under a key has that key queued, delayed, taken by
      a worker that has not collected the data yet, or marked so that the Done of the worker
      that has the key queues it again; and no two workers have the same key. */
  lemma NothingIsStranded(s: State, key: string)
    requires Reachable(s)
    ensures Waiting(s, key) != [] ==>
              || key in s.queue.queue || key in s.queue.delayed || key in s.taken
              || (key in s.queue.dirty && key in s.inProgress)
    ensures key in s.taken && key in s.inProgress ==> s.lock == Finishing(key)
  {
    ReachableInv(s);
  }

  // ---------------------------------------------------------------- delivery is always possible

  /** A run of the queue and its workers alone. */
  ghost predicate Serves(s: State, end: State) {
    exists steps :: Runs(s, steps, end) && AddsNothing(steps)
  }

  predicate AddsNothing(steps: seq<Step>) {
    forall k | 0 <= k < |steps| :: !steps[k].LockAdd?
  }

  lemma ServesHere(s: State)
    ensures Serves(s, s)
  {
    assert Runs(s, [], s);
  }

  lemma ServesOn(s: State, step: Step, end: State)
    requires Can(s, step) && !step.LockAdd? && Serves(Do(s, step), end)
    ensures Serves(s, end)
  {
    var rest :| Runs(Do(s, step), rest, end) && AddsNothing(rest);
    assert ([step] + rest)[1..] == rest;
    assert Runs(s, [step] + rest, end);
  }

  /** A worker that has taken the key collects its data. */
  lemma GrabDelivers(s: State, key: string) returns (end: State)
    requires Inv(s) && s.lock.Free? && key in s.taken
    ensures Serves(s, end) && Waiting(end, key) == []
  {
    end := Do(s, Grab(key));
    ServesHere(end);
    ServesOn(s, Grab(key), end);
    WaitingAfter(s, Grab(key), key);
  }

  /** A queued key reaches the front. */
  lemma {:induction false} QueuedIsDelivered(s: State, key: string) returns (end: State)
    requires Inv(s) && s.lock.Free? && key in s.queue.queue
    ensures Serves(s, end) && Waiting(end, key) == []
    decreases |s.queue.queue|
  {
    var t := Do(s, Take);
    StepKeepsInv(s, Take);
    if s.queue.queue[0] == key {
      end := GrabDelivers(t, key);
    } else {
      assert s.queue.queue == [s.queue.queue[0]] + s.queue.queue[1..];
      end := QueuedIsDelivered(t, key);
    }
    ServesOn(s, Take, end);
  }

  lemma DirtyIsDelivered(s: State, key: string) returns (end: State)
    requires Inv(s) && s.lock.Free? && key in s.queue.dirty
    ensures Serves(s, end) && Waiting(end, key) == []
  {
    if key in s.taken {
      end := GrabDelivers(s, key);
    } else if key in s.inProgress {
      var t := Do(s, LockDone(key));
      StepKeepsInv(s, LockDone(key));
      var u := Do(t, Release);
      StepKeepsInv(t, Release);
      end := QueuedIsDelivered(u, key);
      ServesOn(t, Release, end);
      ServesOn(s, LockDone(key), end);
    } else {
      end := QueuedIsDelivered(s, key);
    }
  }

  lemma UnlockedIsDelivered(s: State, key: string) returns (end: State)
    requires Inv(s) && s.lock.Free?
    ensures Serves(s, end) && Waiting(end, key) == []
  {
    if Waiting(s, key) == [] {
      end := s;
      ServesHere(s);
    } else if key in s.taken {
      end := GrabDelivers(s, key);
    } else if key in s.queue.dirty {
      end := DirtyIsDelivered(s, key);
    } else {
      StepKeepsInv(s, Fire(key));
      end := DirtyIsDelivered(Do(s, Fire(key)), key);
      ServesOn(s, Fire(key), end);
    }
  }

  /** From every reachable state the queue and its workers alone can bring the delivery of
      everything added under a key about: no state is stuck with waiting data. */
  lemma DeliveryIsPossible(s: State, key: string)
    requires Reachable(s)
    ensures exists end :: Serves(s, end) && Reachable(end) && DeliveredFrom(end.log, key) == AddedTo(end.log, key)
  {
    ReachableInv(s);
    var end;
    if s.lock.Free? {
      end := UnlockedIsDelivered(s, key);
    } else {
      var step: Step := if s.lock.Adding? then Append else Release;
      StepKeepsInv(s, step);
      end := UnlockedIsDelivered(Do(s, step), key);
      ServesOn(s, step, end);
    }
    ServedIsReachable(s, end);
    NothingIsLost(end, key);
    assert DeliveredFrom(end.log, key) + At(end.work, key) + At(end.dirtyWork, key)
        == DeliveredFrom(end.log, key) + Waiting(end, key);
  }

  lemma ServedIsReachable(s: State, end: State)
    requires Reachable(s) && Serves(s, end)
    ensures Reachable(end)
  {
    var steps :| Runs(Start(), steps, s);
    var more :| Runs(s, more, end) && AddsNothing(more);
    RunsConcat(Start(), steps, s, more, end);
  }

  lemma {:induction false} RunsConcat(s: State, first: seq<Step>, mid: State, second: seq<Step>, end: State)
    requires Runs(s, first, mid) && Runs(mid, second, end)
    ensures Runs(s, first + second, end)
    decreases |first|
  {
    if first == [] {
      assert first + second == second;
    } else {
      RunsConcat(Do(s, first[0]), first[1..], mid, second, end);
      assert (first + second)[1..] == first[1..] + second;
    }
  }

  // ---------------------------------------------------------------- uninterrupted calls

  /** Adding without interruption puts the data behind what waits under the key already. */
  lemma AddEffect(s: State, key: string, data: seq<Data>, later: bool) returns (end: State)
    requires Reachable(s) && s.lock.Free?
    ensures end == Do(Do(s, LockAdd(key, data, later)), Append) && Reachable(end)
    ensures end.log == s.log + [Added(key, data)] && Waiting(end, key) == Waiting(s, key) + data
    ensures forall other | other != key :: Waiting(end, other) == Waiting(s, other)
  {
    var locked := Do(s, LockAdd(key, data, later));
    ReachableStep(s, LockAdd(key, data, later));
    ReachableInv(locked);
    ReachableStep(locked, Append);
    end := Do(locked, Append);
    WaitingAfter(locked, Append, key);
    forall other | other != key
      ensures Waiting(end, other) == Waiting(s, other)
    {
      WaitingAfter(locked, Append, other);
    }
  }

  /** Taking the first key and at once collecting its data delivers all that waits under it. */
  lemma GetEffect(s: State) returns (key: string, end: State)
    requires Reachable(s) && s.lock.Free? && s.queue.queue != []
    ensures key == s.queue.queue[0] && key !in s.inProgress
    ensures Can(Do(s, Take), Grab(key)) && end == Do(Do(s, Take), Grab(key)) && Reachable(end)
    ensures At(s.work, key) == Waiting(s, key) && Waiting(end, key) == []
    ensures forall other | other != key :: Waiting(end, other) == Waiting(s, other)
  {
    key := s.queue.queue[0];
    ReachableInv(s);
    ReachableStep(s, Take);
    var taking := Do(s, Take);
    ReachableInv(taking);
    ReachableStep(taking, Grab(key));
    end := Do(taking, Grab(key));
    WaitingAfter(taking, Grab(key), key);
    forall other | other != key
      ensures Waiting(end, other) == Waiting(s, other)
    {
      WaitingAfter(taking, Grab(key), other);
    }
  }

  /** Finishing a key leaves what waits under every key as it is. */
  lemma DoneEffect(s: State, key: string) returns (end: State)
    requires Reachable(s) && s.lock.Free? && key in s.inProgress
    ensures end == Do(Do(s, LockDone(key)), Release) && Reachable(end)
    ensures forall other :: Waiting(end, other) == Waiting(s, other)
  {
    var locked := Do(s, LockDone(key));
    ReachableStep(s, LockDone(key));
    ReachableInv(locked);
    ReachableStep(locked, Release);
    end := Do(locked, Release);
    forall other
      ensures Waiting(end, other) == Waiting(s, other)
    {
      WaitingAfter(locked, Release, other);
    }
  }
}
