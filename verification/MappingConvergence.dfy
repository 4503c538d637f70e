/** The index converges: whatever outdated objects the scans held, a quiescent controller has
    mapped exactly the matching pairs. */
module MappingConvergence {
  import opened Resources
  import opened ClusterQuotaMapper
  import opened MappingController

  // ---------------------------------------------------------------- the invariant

  /** An undelivered event will change what is required of the key. */
  ghost predicate Expected(s: State, key: Key) {
    exists k :: 0 <= k < |Pending(s, key)| && Pending(s, key)[k] != Required(s.mapping, key)
  }

  predicate IsFetching(s: State, key: Key) {
    key in s.scans && s.scans[key].Fetching?
  }

  predicate IsListing(s: State, key: Key) {
    key in s.scans && s.scans[key].Listing? && Some(s.scans[key].own) == Required(s.mapping, key)
  }

  /** The key is going to be scanned against everything on the other side. */
  ghost predicate Due(s: State, key: Key) {
    Expected(s, key) || key in s.queued || IsFetching(s, key) || IsListing(s, key)
  }

  /** An up-to-date scan of `key` is still going to visit `other`. */
  predicate WillVisit(s: State, key: Key, other: Key) {
    && key in s.scans && s.scans[key].Scanning? && other in s.scans[key].todo
    && Some(s.scans[key].own) == Required(s.mapping, key)
  }

  /** What the relation should say about two required keys. */
  predicate Agrees(m: Mapping, a: Key, b: Key) {
    Required(m, a).Some? && Required(m, b).Some? ==>
      (Related(m, a, b) <==> StampsMatch(Required(m, a).value, Required(m, b).value))
  }

  ghost predicate PairOk(s: State, a: Key, b: Key) {
    Agrees(s.mapping, a, b) || Due(s, a) || Due(s, b) || WillVisit(s, a, b) || WillVisit(s, b, a)
  }

  ghost predicate Pairs(s: State) {
    forall a: Key, b: Key | Opposite(a, b) :: PairOk(s, a, b)
  }

  /** Delivering what is pending makes the required stamps those of the store. */
  ghost predicate Events(s: State) {
    forall key ::
      && (Pending(s, key) == [] ==> Required(s.mapping, key) == Stored(s, key))
      && (Pending(s, key) != [] ==> Pending(s, key)[|Pending(s, key)| - 1] == Stored(s, key))
  }

  /** A scan holds the required object, unless its key is due again or no longer required. */
  ghost predicate Scans(s: State) {
    forall key | key in s.scans && !s.scans[key].Fetching? ::
      || Some(s.scans[key].own) == Required(s.mapping, key) || Required(s.mapping, key) == None
      || Expected(s, key) || key in s.queued
  }

  /** The completion stamp is the required one, unless a scan is still to set it. */
  ghost predicate StampOk(s: State, key: Key) {
    || Required(s.mapping, key) == None
    || Completed(s.mapping, key) == Required(s.mapping, key)
    || Due(s, key)
    || (key in s.scans && s.scans[key].Scanning? && Some(s.scans[key].own) == Required(s.mapping, key))
  }

  ghost predicate Stamps(s: State) {
    forall key :: StampOk(s, key)
  }

  /** Quota keys carry selectors and namespace keys fields; listings are of the other side. */
  ghost predicate Typed(s: State) {
    && (forall key | key in s.store :: Fitting(key, s.store[key]))
    && (forall key, k | 0 <= k < |Pending(s, key)| && Pending(s, key)[k].Some? ::
        Fitting(key, Pending(s, key)[k].value))
    && (forall key | key in s.scans && !s.scans[key].Fetching? :: Fitting(key, s.scans[key].own))
    && (forall key, other | key in s.scans && s.scans[key].Scanning? && other in s.scans[key].todo ::
          Fitting(other, s.scans[key].todo[other]) && Opposite(key, other))
  }

  ghost predicate Inv(s: State) {
    && Consistent(s.mapping)
    && Typed(s)
    && Events(s)
    && Scans(s)
    && Pairs(s)
    && Stamps(s)
  }

  // ---------------------------------------------------------------- the index, by key

  lemma RequireEffect(m: Mapping, key: Key, stamp: Stamp)
    requires Fitting(key, stamp) && Consistent(m)
    ensures var m' := Require(m, key, stamp);
            && Consistent(m')
            && (forall k :: Required(m', k) == if k == key then Some(stamp) else Required(m, k))
            && (forall k :: Completed(m', k) == Completed(m, k))
            && (forall a, b :: Related(m', a, b) == Related(m, a, b))
  {
  }

  lemma CompleteEffect(m: Mapping, key: Key, stamp: Stamp)
    requires Fitting(key, stamp) && Consistent(m)
    ensures var m' := Complete(m, key, stamp);
            && Consistent(m')
            && (forall k :: Required(m', k) == Required(m, k))
            && (forall k :: Completed(m', k) == if k == key then Some(stamp) else Completed(m, k))
            && (forall a, b :: Related(m', a, b) == Related(m, a, b))
  {
  }

  lemma RemoveEffect(m: Mapping, key: Key)
    requires Consistent(m)
    ensures var m' := Remove(m, key);
            && Consistent(m')
            && (forall k :: Required(m', k) == if k == key then None else Required(m, k))
            && (forall k :: Completed(m', k) == if k == key then None else Completed(m, k))
            && (forall a, b :: Related(m', a, b) == (a != key && b != key && Related(m, a, b)))
  {
    match key {
      case Quota(name) => WithoutQuotaEffect(m, name);
      case Namespace(name) => WithoutNamespaceEffect(m, name);
    }
  }

  lemma PairWriteEffect(m: Mapping, quota: string, selector: Selector, namespace: string, fields: Fields, remove: bool)
    requires Consistent(m)
    requires Required(m, Quota(quota)) == Some(OfQuota(selector))
    requires Required(m, Namespace(namespace)) == Some(OfNamespace(fields))
    ensures var m', q, n := WithPair(m, quota, selector, namespace, fields, remove), Quota(quota), Namespace(namespace);
            && Consistent(m')
            && (forall k :: Required(m', k) == Required(m, k) && Completed(m', k) == Completed(m, k))
            && Related(m', q, n) == Related(m', n, q) == !remove
            && (forall x, y | !(x == q && y == n) && !(x == n && y == q) :: Related(m', x, y) == Related(m, x, y))
  {
    WithPairEffect(m, quota, selector, namespace, fields, remove);
  }

  /** An up-to-date write makes the pair agree and leaves every other pair alone. */
  lemma WriteEffect(m: Mapping, a: Key, own: Stamp, b: Key, other: Stamp)
    requires Consistent(m) && Fitting(a, own) && Fitting(b, other) && Opposite(a, b)
    requires Required(m, a) == Some(own) && Required(m, b) == Some(other)
    ensures var m' := Write(m, a, own, b, other);
            && Consistent(m')
            && (forall k :: Required(m', k) == Required(m, k) && Completed(m', k) == Completed(m, k))
            && Agrees(m', a, b) && Agrees(m', b, a)
            && (forall x, y | !(x == a && y == b) && !(x == b && y == a) :: Related(m', x, y) == Related(m, x, y))
  {
    var remove := !StampsMatch(own, other);
    match a {
      case Quota(name) => PairWriteEffect(m, name, own.selector, b.name, other.fields, remove);
      case Namespace(name) => PairWriteEffect(m, b.name, other.selector, name, own.fields, remove);
    }
  }

  // ---------------------------------------------------------------- steps

  /** A new event goes behind the pending ones of its key. */
  lemma StorePending(s: State, step: Step)
    requires Can(s, step) && (step.Put? || step.Delete?)
    ensures var s' := Do(s, step);
            var event := if step.Put? then Some(step.stamp) else None;
            && (forall k :: Pending(s', k) == if k == step.key then Pending(s, k) + [event] else Pending(s, k))
            && (forall k :: Stored(s', k) == if k == step.key then event else Stored(s, k))
  {
  }

  lemma StoreEvents(s: State, step: Step)
    requires Events(s) && Can(s, step) && (step.Put? || step.Delete?)
    ensures Events(Do(s, step))
  {
    StorePending(s, step);
  }

  lemma StoreTyped(s: State, step: Step)
    requires Typed(s) && Can(s, step) && (step.Put? || step.Delete?)
    ensures Typed(Do(s, step))
  {
    var s' := Do(s, step);
    StorePending(s, step);
    forall k, j | 0 <= j < |Pending(s', k)| && Pending(s', k)[j].Some?
      ensures Fitting(k, Pending(s', k)[j].value)
    {
      assert j < |Pending(s, k)| ==> Pending(s', k)[j] == Pending(s, k)[j];
    }
  }

  lemma StoreKeepsInv(s: State, step: Step)
    requires Inv(s) && Can(s, step) && (step.Put? || step.Delete?)
    ensures Inv(Do(s, step))
  {
    var s' := Do(s, step);
    StoreEvents(s, step);
    StoreTyped(s, step);
    StorePending(s, step);
    forall k | Expected(s, k)
      ensures Expected(s', k)
    {
      var j :| 0 <= j < |Pending(s, k)| && Pending(s, k)[j] != Required(s.mapping, k);
      assert Pending(s', k)[j] == Pending(s, k)[j];
    }
    forall a: Key, b: Key | Opposite(a, b)
      ensures PairOk(s', a, b)
    {
      assert PairOk(s, a, b);
    }
    forall k
      ensures StampOk(s', k)
    {
      assert StampOk(s, k);
    }
  }

  /** Frame for steps that leave the events alone: what must be shown for each key and pair. */
  ghost predicate SameEvents(s: State, s': State) {
    s'.store == s.store && s'.pending == s.pending && forall k :: Required(s'.mapping, k) == Required(s.mapping, k)
  }

  lemma SameEventsKeep(s: State, s': State)
    requires SameEvents(s, s')
    ensures forall k :: Pending(s', k) == Pending(s, k) && Stored(s', k) == Stored(s, k)
    ensures forall k :: Expected(s', k) == Expected(s, k)
    ensures Events(s) ==> Events(s')
  {
    forall k
      ensures Expected(s', k) == Expected(s, k)
    {
      assert Pending(s', k) == Pending(s, k);
    }
  }

  lemma TakeKeepsInv(s: State, key: Key)
    requires Inv(s) && Can(s, Take(key))
    ensures Inv(Do(s, Take(key)))
  {
    var s' := Do(s, Take(key));
    SameEventsKeep(s, s');
    assert IsFetching(s', key);
    assert forall k | Due(s, k) :: Due(s', k);
    forall a: Key, b: Key | Opposite(a, b)
      ensures PairOk(s', a, b)
    {
      assert PairOk(s, a, b);
    }
    forall k
      ensures StampOk(s', k)
    {
      assert StampOk(s, k);
    }
  }

  lemma MissingIsExpected(s: State, key: Key)
    requires Events(s) && Required(s.mapping, key) != Stored(s, key)
    ensures Expected(s, key)
  {
    assert Pending(s, key)[|Pending(s, key)| - 1] == Stored(s, key);
  }

  lemma FetchKeepsDue(s: State, key: Key)
    requires Inv(s) && Can(s, Fetch(key))
    ensures forall k | Due(s, k) :: Due(Do(s, Fetch(key)), k) || Required(s.mapping, k) == None
  {
    SameEventsKeep(s, Do(s, Fetch(key)));
    if Required(s.mapping, key) != Stored(s, key) {
      MissingIsExpected(s, key);
    }
  }

  lemma FetchKeepsPair(s: State, key: Key, a: Key, b: Key)
    requires Inv(s) && Can(s, Fetch(key)) && Opposite(a, b)
    ensures PairOk(Do(s, Fetch(key)), a, b)
  {
    var s' := Do(s, Fetch(key));
    SameEventsKeep(s, s');
    FetchKeepsDue(s, key);
    assert PairOk(s, a, b);
  }

  lemma FetchKeepsInv(s: State, key: Key)
    requires Inv(s) && Can(s, Fetch(key))
    ensures Inv(Do(s, Fetch(key)))
  {
    var s' := Do(s, Fetch(key));
    SameEventsKeep(s, s');
    FetchKeepsDue(s, key);
    forall a: Key, b: Key | Opposite(a, b)
      ensures PairOk(s', a, b)
    {
      FetchKeepsPair(s, key, a, b);
    }
    forall k
      ensures StampOk(s', k)
    {
      assert StampOk(s, k);
    }
  }

  lemma ListKeepsPair(s: State, key: Key, a: Key, b: Key)
    requires Inv(s) && Can(s, List(key)) && Opposite(a, b)
    ensures PairOk(Do(s, List(key)), a, b)
  {
    var s' := Do(s, List(key));
    SameEventsKeep(s, s');
    assert PairOk(s, a, b);
    assert forall k | k != key && Due(s, k) :: Due(s', k);
    if a == key && Due(s, key) {
      ListingCovers(s, key, b);
    } else if b == key && Due(s, key) {
      ListingCovers(s, key, a);
    }
  }

  lemma ListKeepsInv(s: State, key: Key)
    requires Inv(s) && Can(s, List(key))
    ensures Inv(Do(s, List(key)))
  {
    var s' := Do(s, List(key));
    SameEventsKeep(s, s');
    forall a: Key, b: Key | Opposite(a, b)
      ensures PairOk(s', a, b)
    {
      ListKeepsPair(s, key, a, b);
    }
    forall k
      ensures StampOk(s', k)
    {
      assert StampOk(s, k);
    }
  }

  /** After listing, a scan that was due to cover everything will visit each key it finds; the
      ones it does not find are about to be deleted. */
  lemma ListingCovers(s: State, key: Key, other: Key)
    requires Inv(s) && Can(s, List(key)) && Opposite(key, other) && Due(s, key)
    ensures var s' := Do(s, List(key));
            Due(s', key) || WillVisit(s', key, other) || Due(s', other) || Required(s.mapping, other) == None
  {
    var s' := Do(s, List(key));
    SameEventsKeep(s, s');
    if IsListing(s, key) && other !in s.store && Required(s.mapping, other) != None {
      MissingIsExpected(s, other);
    }
  }

  // ---------------------------------------------------------------- visiting

  /** What the events, queue and other scans say is unchanged by a step of one scan. */
  ghost predicate OneScan(s: State, s': State, key: Key) {
    && SameEvents(s, s') && s'.queued == s.queued
    && forall k | k != key :: (k in s'.scans <==> k in s.scans) && (k in s.scans ==> s'.scans[k] == s.scans[k])
  }

  lemma OneScanKeeps(s: State, s': State, key: Key)
    requires OneScan(s, s', key)
    requires key in s.scans && s.scans[key].Scanning?
    ensures forall k | Due(s, k) :: Due(s', k)
    ensures forall k, o | k != key && WillVisit(s, k, o) :: WillVisit(s', k, o)
    ensures Events(s) ==> Events(s')
    ensures forall k :: Pending(s', k) == Pending(s, k) && Expected(s', k) == Expected(s, k)
  {
    SameEventsKeep(s, s');
  }

  /** The scan ends because its own object is outdated. */
  lemma AbortKeepsInv(s: State, key: Key, other: Key)
    requires Inv(s) && Can(s, Visit(key, other)) && Required(s.mapping, key) != Some(s.scans[key].own)
    ensures Inv(Do(s, Visit(key, other)))
  {
    var s' := Do(s, Visit(key, other));
    CompleteEffect(s.mapping, key, s.scans[key].own);
    OneScanKeeps(s, s', key);
    forall a: Key, b: Key | Opposite(a, b)
      ensures PairOk(s', a, b)
    {
      assert PairOk(s, a, b);
    }
    forall k
      ensures StampOk(s', k)
    {
      assert StampOk(s, k);
    }
  }

  /** An up-to-date write keeps every pair in order. */
  lemma WriteKeepsPair(s: State, key: Key, other: Key, a: Key, b: Key)
    requires Inv(s) && Can(s, Visit(key, other)) && Opposite(a, b)
    requires Required(s.mapping, key) == Some(s.scans[key].own)
    requires Required(s.mapping, other) == Some(s.scans[key].todo[other])
    ensures PairOk(Do(s, Visit(key, other)), a, b)
  {
    var s' := Do(s, Visit(key, other));
    WriteEffect(s.mapping, key, s.scans[key].own, other, s.scans[key].todo[other]);
    OneScanKeeps(s, s', key);
    if !(a == key && b == other) && !(a == other && b == key) {
      assert PairOk(s, a, b);
      assert Agrees(s.mapping, a, b) ==> Agrees(s'.mapping, a, b);
      assert WillVisit(s, a, b) ==> WillVisit(s', a, b);
      assert WillVisit(s, b, a) ==> WillVisit(s', b, a);
    }
  }

  /** The pair is written. */
  lemma WriteKeepsInv(s: State, key: Key, other: Key)
    requires Inv(s) && Can(s, Visit(key, other))
    requires Required(s.mapping, key) == Some(s.scans[key].own)
    requires Required(s.mapping, other) == Some(s.scans[key].todo[other])
    ensures Inv(Do(s, Visit(key, other)))
  {
    var s' := Do(s, Visit(key, other));
    WriteEffect(s.mapping, key, s.scans[key].own, other, s.scans[key].todo[other]);
    OneScanKeeps(s, s', key);
    forall a: Key, b: Key | Opposite(a, b)
      ensures PairOk(s', a, b)
    {
      WriteKeepsPair(s, key, other, a, b);
    }
    forall k
      ensures StampOk(s', k)
    {
      assert StampOk(s, k);
    }
  }

  lemma RetryKeepsPair(s: State, key: Key, other: Key, a: Key, b: Key)
    requires Inv(s) && Can(s, Visit(key, other)) && Opposite(a, b)
    requires Required(s.mapping, key) == Some(s.scans[key].own)
    requires Required(s.mapping, other) != Some(s.scans[key].todo[other])
    ensures PairOk(Do(s, Visit(key, other)), a, b)
  {
    var s' := Do(s, Visit(key, other));
    OneScanKeeps(s, s', key);
    if other !in s.store && Required(s.mapping, other) != None {
      MissingIsExpected(s, other);
    }
    assert PairOk(s, a, b);
    assert WillVisit(s, a, b) ==> WillVisit(s', a, b) || Due(s', b) || Required(s.mapping, b) == None;
    assert WillVisit(s, b, a) ==> WillVisit(s', b, a) || Due(s', a) || Required(s.mapping, a) == None;
  }

  /** The other object is outdated: a newer copy is held, or the pair is skipped. */
  lemma RetryKeepsInv(s: State, key: Key, other: Key)
    requires Inv(s) && Can(s, Visit(key, other))
    requires Required(s.mapping, key) == Some(s.scans[key].own)
    requires Required(s.mapping, other) != Some(s.scans[key].todo[other])
    ensures Inv(Do(s, Visit(key, other)))
  {
    var s' := Do(s, Visit(key, other));
    OneScanKeeps(s, s', key);
    forall a: Key, b: Key | Opposite(a, b)
      ensures PairOk(s', a, b)
    {
      RetryKeepsPair(s, key, other, a, b);
    }
    forall k
      ensures StampOk(s', k)
    {
      assert StampOk(s, k);
    }
  }

  lemma FinishKeepsInv(s: State, key: Key)
    requires Inv(s) && Can(s, Finish(key))
    ensures Inv(Do(s, Finish(key)))
  {
    var s' := Do(s, Finish(key));
    CompleteEffect(s.mapping, key, s.scans[key].own);
    OneScanKeeps(s, s', key);
    forall a: Key, b: Key | Opposite(a, b)
      ensures PairOk(s', a, b)
    {
      assert PairOk(s, a, b);
    }
    forall k
      ensures StampOk(s', k)
    {
      assert StampOk(s, k);
    }
  }

  // ---------------------------------------------------------------- delivering an event

  /** What is left of the key's events after the oldest. */
  lemma DeliveredEvents(s: State, key: Key)
    requires Inv(s) && Can(s, Deliver(key))
    ensures var s' := Do(s, Deliver(key));
            && Pending(s', key) == Pending(s, key)[1..]
            && (forall k | k != key :: Pending(s', k) == Pending(s, k))
            && s'.store == s.store && s'.scans == s.scans
            && (forall k :: Required(s'.mapping, k) == if k == key then Pending(s, key)[0] else Required(s.mapping, k))
            && (forall k | k != key :: Completed(s'.mapping, k) == Completed(s.mapping, k))
            && Consistent(s'.mapping)
  {
    match Pending(s, key)[0]
    case None => RemoveEffect(s.mapping, key);
    case Some(stamp) => RequireEffect(s.mapping, key, stamp);
  }

  lemma DeliverKeepsDue(s: State, key: Key)
    requires Inv(s) && Can(s, Deliver(key))
    ensures var s' := Do(s, Deliver(key));
            && (forall k | k != key :: Due(s', k) <==> Due(s, k))
            && (forall k | k != key :: Expected(s', k) <==> Expected(s, k))
            && (Required(s'.mapping, key) == Required(s.mapping, key) ==>
                  && (Expected(s, key) ==> Expected(s', key)) && (Due(s, key) ==> Due(s', key)))
            && (Required(s'.mapping, key) != Required(s.mapping, key) ==>
                  Required(s'.mapping, key) == None || key in s'.queued)
  {
    var s' := Do(s, Deliver(key));
    DeliveredEvents(s, key);
    if Expected(s, key) && Required(s'.mapping, key) == Required(s.mapping, key) {
      var j :| 0 <= j < |Pending(s, key)| && Pending(s, key)[j] != Required(s.mapping, key);
      assert Pending(s', key)[j - 1] == Pending(s, key)[j];
    }
    forall k | k != key
      ensures Expected(s', k) <==> Expected(s, k)
    {
      assert Pending(s', k) == Pending(s, k);
    }
  }

  lemma DeliverKeepsEvents(s: State, key: Key)
    requires Inv(s) && Can(s, Deliver(key))
    ensures Events(Do(s, Deliver(key))) && Typed(Do(s, Deliver(key)))
  {
    var s' := Do(s, Deliver(key));
    DeliveredEvents(s, key);
    forall k
      ensures Pending(s', k) == [] ==> Required(s'.mapping, k) == Stored(s', k)
      ensures Pending(s', k) != [] ==> Pending(s', k)[|Pending(s', k)| - 1] == Stored(s', k)
    {
      assert Stored(s', k) == Stored(s, k);
      if k == key {
        assert Pending(s, key)[|Pending(s, key)| - 1] == Stored(s, key);
      } else {
        assert Pending(s', k) == Pending(s, k);
      }
    }
    forall k, j | 0 <= j < |Pending(s', k)| && Pending(s', k)[j].Some?
      ensures Fitting(k, Pending(s', k)[j].value)
    {
      assert Pending(s', k)[j] == Pending(s, k)[if k == key then j + 1 else j];
    }
  }

  lemma DeliverKeepsInv(s: State, key: Key)
    requires Inv(s) && Can(s, Deliver(key))
    ensures Inv(Do(s, Deliver(key)))
  {
    var s' := Do(s, Deliver(key));
    DeliveredEvents(s, key);
    DeliverKeepsDue(s, key);
    DeliverKeepsEvents(s, key);
    assert forall a, b | a != key && b != key :: Related(s'.mapping, a, b) == Related(s.mapping, a, b) by {
      match Pending(s, key)[0]
      case None => RemoveEffect(s.mapping, key);
      case Some(stamp) => RequireEffect(s.mapping, key, stamp);
    }
    assert Required(s'.mapping, key) == Required(s.mapping, key) && Required(s.mapping, key) != None ==>
             s'.mapping == s.mapping;
    forall a: Key, b: Key | Opposite(a, b)
      ensures PairOk(s', a, b)
    {
      assert PairOk(s, a, b);
    }
    forall k
      ensures StampOk(s', k)
    {
      assert StampOk(s, k);
    }
  }

  // ---------------------------------------------------------------- runs

  lemma StepKeepsInv(s: State, step: Step)
    requires Inv(s) && Can(s, step)
    ensures Inv(Do(s, step))
  {
    match step {
      case Put(_, _) => StoreKeepsInv(s, step);
      case Delete(_) => StoreKeepsInv(s, step);
      case Deliver(key) => DeliverKeepsInv(s, key);
      case Take(key) => TakeKeepsInv(s, key);
      case Fetch(key) => FetchKeepsInv(s, key);
      case List(key) => ListKeepsInv(s, key);
      case Visit(key, other) =>
        if Required(s.mapping, key) != Some(s.scans[key].own) {
          AbortKeepsInv(s, key, other);
        } else if Required(s.mapping, other) == Some(s.scans[key].todo[other]) {
          WriteKeepsInv(s, key, other);
        } else {
          RetryKeepsInv(s, key, other);
        }
      case Finish(key) => FinishKeepsInv(s, key);
    }
  }

  lemma {:induction false} RunKeepsInv(s: State, steps: seq<Step>, end: State)
    requires Inv(s) && Runs(s, steps, end)
    ensures Inv(end)
    decreases |steps|
  {
    if steps != [] {
      StepKeepsInv(s, steps[0]);
      RunKeepsInv(Do(s, steps[0]), steps[1..], end);
    }
  }

  lemma ReachableInv(s: State)
    requires Reachable(s)
    ensures Inv(s)
  {
    var steps :| Runs(INITIAL, steps, s);
    RunKeepsInv(INITIAL, steps, s);
  }

  /** Nothing is left to do for one key. */
  ghost predicate AtRest(s: State, key: Key) {
    Pending(s, key) == [] && key !in s.queued && key !in s.scans
  }

  /** A key at rest is required as it is stored, and stamped so. */
  lemma KeyAtRest(s: State, key: Key)
    requires Inv(s) && AtRest(s, key)
    ensures Required(s.mapping, key) == Stored(s, key) && !Due(s, key)
    ensures key in s.store ==> Completed(s.mapping, key) == Some(s.store[key])
  {
    assert StampOk(s, key);
  }

  /** Convergence, pair by pair: once nothing is left to do for a quota and for a namespace,
      whatever else is in flight, they are linked exactly if both are stored and match. */
  lemma PairConverges(s: State, q: string, n: string)
    requires Reachable(s) && AtRest(s, Quota(q)) && AtRest(s, Namespace(n))
    ensures Linked(s.mapping, q, n) <==>
              && Quota(q) in s.store && Namespace(n) in s.store
              && StampsMatch(s.store[Quota(q)], s.store[Namespace(n)])
  {
    ReachableInv(s);
    KeyAtRest(s, Quota(q));
    KeyAtRest(s, Namespace(n));
    assert PairOk(s, Quota(q), Namespace(n));
    assert Linked(s.mapping, q, n) ==> q in s.mapping.requiredQuotas && n in s.mapping.requiredNamespaces by {
      assert Linked(s.mapping, q, n) == Has(s.mapping.quotaToNamespaces, q, n);
    }
  }

  /** Convergence: once everything is delivered and processed, the index relates exactly the
      stored quotas and namespaces whose selector matches, in both directions, and every
      completion stamp is the stored object's. */
  lemma MappingConverges(s: State)
    requires Reachable(s) && Quiescent(s)
    ensures forall q, n :: Linked(s.mapping, q, n) <==>
              && Quota(q) in s.store && Namespace(n) in s.store
              && StampsMatch(s.store[Quota(q)], s.store[Namespace(n)])
    ensures forall q, n :: Has(s.mapping.quotaToNamespaces, q, n) <==> Has(s.mapping.namespaceToQuotas, n, q)
    ensures forall key | key in s.store :: Completed(s.mapping, key) == Some(s.store[key])
  {
    ReachableInv(s);
    forall q, n
      ensures Linked(s.mapping, q, n) <==>
                && Quota(q) in s.store && Namespace(n) in s.store
                && StampsMatch(s.store[Quota(q)], s.store[Namespace(n)])
    {
      PairConverges(s, q, n);
    }
    forall key | key in s.store
      ensures Completed(s.mapping, key) == Some(s.store[key])
    {
      KeyAtRest(s, key);
    }
  }

  /** In every reachable state the indexes are inverse and mention only required objects, and a
      pair appears only in a step that found both its objects required and matching. */
  lemma PairsComeFromMatches(s: State, step: Step)
    requires Reachable(s) && Can(s, step)
    ensures Consistent(s.mapping)
    ensures forall q, n | Linked(Do(s, step).mapping, q, n) && !Linked(s.mapping, q, n) ::
              && q in s.mapping.requiredQuotas && n in s.mapping.requiredNamespaces
              && Matches(s.mapping.requiredQuotas[q], s.mapping.requiredNamespaces[n])
  {
    ReachableInv(s);
    if step.Visit? {
      VisitAddsMatches(s, step.key, step.other);
    } else if step.Deliver? {
      DeliveryAddsNothing(s, step.key);
    }
  }

  lemma DeliveryAddsNothing(s: State, key: Key)
    requires Inv(s) && Can(s, Deliver(key))
    ensures forall q, n | Linked(Do(s, Deliver(key)).mapping, q, n) :: Linked(s.mapping, q, n)
  {
    match Pending(s, key)[0]
    case None =>
      if key.Quota? {
        WithoutQuotaEffect(s.mapping, key.name);
      } else {
        WithoutNamespaceEffect(s.mapping, key.name);
      }
    case Some(stamp) =>
  }

  lemma VisitAddsMatches(s: State, key: Key, other: Key)
    requires Inv(s) && Can(s, Visit(key, other))
    ensures forall q, n | Linked(Do(s, Visit(key, other)).mapping, q, n) && !Linked(s.mapping, q, n) ::
              && q in s.mapping.requiredQuotas && n in s.mapping.requiredNamespaces
              && Matches(s.mapping.requiredQuotas[q], s.mapping.requiredNamespaces[n])
  {
    var own, held := s.scans[key].own, s.scans[key].todo[other];
    if Required(s.mapping, key) == Some(own) && Required(s.mapping, other) == Some(held) {
      match key {
        case Quota(name) =>
          WithPairEffect(s.mapping, name, own.selector, other.name, held.fields, !StampsMatch(own, held));
        case Namespace(name) =>
          WithPairEffect(s.mapping, other.name, held.selector, name, own.fields, !StampsMatch(own, held));
      }
    }
  }
}
