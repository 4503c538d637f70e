/** The mapping controller can always finish: from every reachable state the deliveries and
    workers alone can reach a state with nothing left to do, where the index is exact. */
module MappingSettles {
  import opened Resources
  import opened ClusterQuotaMapper
  import opened MappingController
  import opened MappingConvergence

  /** A run in which no object changes. */
  predicate OnlyWork(steps: seq<Step>) {
    forall k | 0 <= k < |steps| :: !steps[k].Put? && !steps[k].Delete?
  }

  ghost predicate Works(s: State, end: State) {
    exists steps :: Runs(s, steps, end) && OnlyWork(steps)
  }

  lemma WorksHere(s: State)
    ensures Works(s, s)
  {
    assert Runs(s, [], s);
  }

  lemma WorksOn(s: State, step: Step, end: State)
    requires Can(s, step) && !step.Put? && !step.Delete? && Works(Do(s, step), end)
    ensures Works(s, end)
  {
    var rest :| Runs(Do(s, step), rest, end) && OnlyWork(rest);
    assert ([step] + rest)[1..] == rest;
    assert Runs(s, [step] + rest, end);
  }

  lemma {:induction false} RunsConcat(s: State, first: seq<Step>, mid: State, second: seq<Step>, end: State)
    requires Runs(s, first, mid) && Runs(mid, second, end)
    ensures Runs(s, first + second, end)
    decreases |first|
  {
    if first == [] {
      assert first + second == second;
    } else {
      RunsConcat(Do(s, first[0]), first[1..], mid, second, end);
      assert (first + second)[1..] == first[1..] + second;
    }
  }

  lemma WorksTwice(s: State, mid: State, end: State)
    requires Works(s, mid) && Works(mid, end)
    ensures Works(s, end)
  {
    var first :| Runs(s, first, mid) && OnlyWork(first);
    var second :| Runs(mid, second, end) && OnlyWork(second);
    RunsConcat(s, first, mid, second, end);
  }

  /** One more step. */
  lemma WorksStep(s: State, mid: State, step: Step)
    requires Works(s, mid) && Can(mid, step) && !step.Put? && !step.Delete?
    ensures Works(s, Do(mid, step))
  {
    WorksHere(Do(mid, step));
    WorksOn(mid, step, Do(mid, step));
    WorksTwice(s, mid, Do(mid, step));
  }

  // ---------------------------------------------------------------- delivering

  lemma {:induction false} DeliverAll(s: State, key: Key) returns (end: State)
    requires Inv(s)
    ensures Works(s, end) && Inv(end) && end.store == s.store && Pending(end, key) == []
    ensures forall k | k != key :: Pending(end, k) == Pending(s, k)
    decreases |Pending(s, key)|
  {
    if Pending(s, key) == [] {
      end := s;
      WorksHere(s);
    } else {
      DeliveredEvents(s, key);
      DeliverKeepsInv(s, key);
      end := DeliverAll(Do(s, Deliver(key)), key);
      WorksOn(s, Deliver(key), end);
    }
  }

  lemma {:induction false} DeliverEverything(s: State, keys: set<Key>) returns (end: State)
    requires Inv(s) && forall k | k !in keys :: Pending(s, k) == []
    ensures Works(s, end) && Calm(end) && end.store == s.store
    decreases keys
  {
    if keys == {} {
      end := s;
      WorksHere(s);
    } else {
      var key :| key in keys;
      var mid := DeliverAll(s, key);
      end := DeliverEverything(mid, keys - {key});
      WorksTwice(s, mid, end);
    }
  }

  /** Every event is delivered, so what is required is what is stored. */
  ghost predicate Calm(s: State) {
    Inv(s) && forall k :: Pending(s, k) == []
  }

  // ---------------------------------------------------------------- finishing scans

  /** One step of the scan of `key`, in a calm state. */
  lemma CalmStep(s: State, step: Step)
    requires Calm(s) && Can(s, step) && !step.Put? && !step.Delete? && !step.Deliver?
    ensures var s' := Do(s, step);
            && Calm(s') && s'.store == s.store
            && (forall k | k != step.key ::
                (k in s'.scans <==> k in s.scans) && (k in s.scans ==> s'.scans[k] == s.scans[k]))
            && s'.queued == if step.Take? then s.queued - {step.key} else s.queued
  {
    StepKeepsInv(s, step);
    var s' := Do(s, step);
    assert s'.pending == s.pending;
    forall k
      ensures Pending(s', k) == []
    {
      assert Pending(s, k) == [];
    }
  }

  /** What finishing a scan leaves. */
  ghost predicate Without(s: State, end: State, key: Key) {
    && Works(s, end) && Calm(end) && end.store == s.store && end.queued == s.queued
    && end.scans.Keys == s.scans.Keys - {key}
  }

  lemma WithoutOn(s: State, step: Step, end: State, key: Key)
    requires Calm(s) && Can(s, step) && (step.Fetch? || step.List? || step.Visit? || step.Finish?) && step.key == key
    requires Without(Do(s, step), end, key)
    ensures Without(s, end, key)
  {
    CalmStep(s, step);
    WorksOn(s, step, end);
  }

  /** The scan that has visited everything stamps its key and ends. */
  lemma FinishLast(s: State, key: Key) returns (end: State)
    requires Calm(s) && key in s.scans && s.scans[key].Scanning? && s.scans[key].todo == map[]
    ensures Without(s, end, key)
  {
    CalmStep(s, Finish(key));
    end := Do(s, Finish(key));
    WorksHere(end);
    WithoutOn(s, Finish(key), end, key);
  }

  /** So does the one that finds its own object outdated, on its next visit. */
  lemma FinishAborted(s: State, key: Key, other: Key) returns (end: State)
    requires Calm(s) && Can(s, Visit(key, other)) && Required(s.mapping, key) != Some(s.scans[key].own)
    ensures Without(s, end, key)
  {
    CalmStep(s, Visit(key, other));
    end := Do(s, Visit(key, other));
    WorksHere(end);
    WithoutOn(s, Visit(key, other), end, key);
  }

  lemma {:induction false} FinishVisits(s: State, key: Key) returns (end: State)
    requires Calm(s) && key in s.scans && s.scans[key].Scanning?
    ensures Without(s, end, key)
    decreases |s.scans[key].todo|
  {
    var todo := s.scans[key].todo;
    if todo == map[] {
      end := FinishLast(s, key);
    } else {
      var other :| other in todo;
      assert Can(s, Visit(key, other));
      if Required(s.mapping, key) != Some(s.scans[key].own) {
        end := FinishAborted(s, key, other);
      } else {
        var t := Do(s, Visit(key, other));
        CalmStep(s, Visit(key, other));
        if Required(s.mapping, other) != Some(todo[other]) && other in s.store {
          end := VisitAgain(t, key, other);
        } else {
          Shrinks(todo, other);
          end := FinishVisits(t, key);
        }
        WithoutOn(s, Visit(key, other), end, key);
      }
    }
  }

  /** After a retry the copy held is the stored one, so the second visit writes the pair. */
  lemma VisitAgain(s: State, key: Key, other: Key) returns (end: State)
    requires Calm(s) && key in s.scans && s.scans[key].Scanning? && other in s.scans[key].todo
    requires other in s.store && s.scans[key].todo[other] == s.store[other]
    requires Required(s.mapping, key) == Some(s.scans[key].own)
    ensures Without(s, end, key)
    decreases |s.scans[key].todo|, 0
  {
    assert Pending(s, other) == [] && Required(s.mapping, other) == Stored(s, other);
    assert Can(s, Visit(key, other));
    CalmStep(s, Visit(key, other));
    Shrinks(s.scans[key].todo, other);
    end := FinishVisits(Do(s, Visit(key, other)), key);
    WithoutOn(s, Visit(key, other), end, key);
  }

  lemma Shrinks(todo: map<Key, Stamp>, other: Key)
    requires other in todo
    ensures |todo - {other}| < |todo|
  {
    assert (todo - {other}).Keys == todo.Keys - {other};
    assert |todo - {other}| == |todo.Keys - {other}|;
  }

  lemma FinishScan(s: State, key: Key) returns (end: State)
    requires Calm(s) && key in s.scans
    ensures Without(s, end, key)
  {
    match s.scans[key] {
      case Fetching =>
        var t := Do(s, Fetch(key));
        CalmStep(s, Fetch(key));
        if key in t.scans {
          end := FinishListing(t, key);
        } else {
          WorksHere(t);
          end := t;
        }
        WithoutOn(s, Fetch(key), end, key);
      case Listing(_) =>
        end := FinishListing(s, key);
      case Scanning(_, _) =>
        end := FinishVisits(s, key);
    }
  }

  lemma FinishListing(s: State, key: Key) returns (end: State)
    requires Calm(s) && key in s.scans && s.scans[key].Listing?
    ensures Without(s, end, key)
  {
    CalmStep(s, List(key));
    end := FinishVisits(Do(s, List(key)), key);
    WithoutOn(s, List(key), end, key);
  }

  lemma {:induction false} FinishScans(s: State) returns (end: State)
    requires Calm(s)
    ensures Works(s, end) && Calm(end) && end.store == s.store && end.queued == s.queued && end.scans == map[]
    decreases s.scans.Keys
  {
    if s.scans == map[] {
      end := s;
      WorksHere(s);
    } else {
      var key :| key in s.scans.Keys;
      var mid := FinishScan(s, key);
      end := FinishScans(mid);
      WorksTwice(s, mid, end);
    }
  }

  lemma {:induction false} DrainQueue(s: State) returns (end: State)
    requires Calm(s) && s.scans == map[]
    ensures Works(s, end) && Calm(end) && end.store == s.store && end.queued == {} && end.scans == map[]
    decreases s.queued
  {
    if s.queued == {} {
      end := s;
      WorksHere(s);
    } else {
      var key :| key in s.queued;
      CalmStep(s, Take(key));
      var mid := FinishScan(Do(s, Take(key)), key);
      end := DrainQueue(mid);
      WorksTwice(Do(s, Take(key)), mid, end);
      WorksOn(s, Take(key), end);
    }
  }

  lemma WorksReaches(s: State, end: State)
    requires Reachable(s) && Works(s, end)
    ensures Reachable(end)
  {
    var before :| Runs(INITIAL, before, s);
    var more :| Runs(s, more, end) && OnlyWork(more);
    RunsConcat(INITIAL, before, s, more, end);
  }

  /** From every reachable state the controller's own steps can lead to a quiescent state over
      the same objects, where the index relates exactly the matching pairs. */
  lemma MappingCanSettle(s: State)
    requires Reachable(s)
    ensures exists end :: Works(s, end) && Reachable(end) && Quiescent(end) && end.store == s.store && Exact(end)
  {
    ReachableInv(s);
    var delivered := DeliverEverything(s, s.pending.Keys);
    var scanned := FinishScans(delivered);
    var end := DrainQueue(scanned);
    WorksTwice(delivered, scanned, end);
    WorksTwice(s, delivered, end);
    WorksReaches(s, end);
    MappingConverges(end);
  }

  /** The index relates exactly the stored objects that match. */
  ghost predicate Exact(s: State) {
    forall q, n :: Linked(s.mapping, q, n) <==>
      && Quota(q) in s.store && Namespace(n) in s.store
      && StampsMatch(s.store[Quota(q)], s.store[Namespace(n)])
  }
}
