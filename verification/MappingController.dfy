/** The controller that keeps the index: informer events, two work queues whose keys are
    never processed twice in parallel, and scans that may hold outdated objects.

    Quotas and namespaces play mirrored roles, so the steps are written once over keys. */
module MappingController {
  import opened Resources
  import opened ClusterQuotaMapper

  datatype Key = Quota(name: string) | Namespace(name: string)

  /** The part of an object the mapping depends on. */
  datatype Stamp = OfQuota(selector: Selector) | OfNamespace(fields: Fields)

  predicate Fitting(key: Key, stamp: Stamp) {
    key.Quota? <==> stamp.OfQuota?
  }

  predicate Opposite(a: Key, b: Key) {
    a.Quota? <==> b.Namespace?
  }

  // ---------------------------------------------------------------- the index, by key

  function Required(m: Mapping, key: Key): Option<Stamp> {
    match key
    case Quota(name) => if name in m.requiredQuotas then Some(OfQuota(m.requiredQuotas[name])) else None
    case Namespace(name) => if name in m.requiredNamespaces then Some(OfNamespace(m.requiredNamespaces[name])) else None
  }

  function Completed(m: Mapping, key: Key): Option<Stamp> {
    match key
    case Quota(name) => if name in m.completedQuotas then Some(OfQuota(m.completedQuotas[name])) else None
    case Namespace(name) =>
      if name in m.completedNamespaces then Some(OfNamespace(m.completedNamespaces[name])) else None
  }

  predicate Related(m: Mapping, a: Key, b: Key) {
    match (a, b)
    case (Quota(q), Namespace(n)) => Linked(m, q, n)
    case (Namespace(n), Quota(q)) => Linked(m, q, n)
    case _ => false
  }

  predicate StampsMatch(a: Stamp, b: Stamp) {
    match (a, b)
    case (OfQuota(selector), OfNamespace(fields)) => Matches(selector, fields)
    case (OfNamespace(fields), OfQuota(selector)) => Matches(selector, fields)
    case _ => false
  }

  function Require(m: Mapping, key: Key, stamp: Stamp): Mapping
    requires Fitting(key, stamp)
  {
    match key
    case Quota(name) => m.(requiredQuotas := m.requiredQuotas[name := stamp.selector])
    case Namespace(name) => m.(requiredNamespaces := m.requiredNamespaces[name := stamp.fields])
  }

  function Complete(m: Mapping, key: Key, stamp: Stamp): Mapping
    requires Fitting(key, stamp)
  {
    match key
    case Quota(name) => m.(completedQuotas := m.completedQuotas[name := stamp.selector])
    case Namespace(name) => m.(completedNamespaces := m.completedNamespaces[name := stamp.fields])
  }

  function Remove(m: Mapping, key: Key): Mapping {
    match key
    case Quota(name) => WithoutQuota(m, name)
    case Namespace(name) => WithoutNamespace(m, name)
  }

  /** A scan's write for one pair, with the objects it holds. */
  function Write(m: Mapping, a: Key, own: Stamp, b: Key, other: Stamp): Mapping
    requires Fitting(a, own) && Fitting(b, other) && Opposite(a, b)
  {
    var remove := !StampsMatch(own, other);
    match a
    case Quota(name) => WithPair(m, name, own.selector, b.name, other.fields, remove)
    case Namespace(name) => WithPair(m, b.name, other.selector, name, own.fields, remove)
  }

  // ---------------------------------------------------------------- state

  /** What a worker that took a key is doing: about to fetch the object, about to list the
      other side, or going through the listing. */
  datatype Scan =
    | Fetching
    | Listing(own: Stamp)
    | Scanning(own: Stamp, todo: map<Key, Stamp>)

  /** `store` is what the listers return; `pending` the notifications, oldest first, still to
      be delivered for each key (None is a deletion). */
  datatype State = State(
    store: map<Key, Stamp>,
    pending: map<Key, seq<Option<Stamp>>>,
    mapping: Mapping,
    queued: set<Key>,
    scans: map<Key, Scan>)

  function Stored(s: State, key: Key): Option<Stamp> {
    if key in s.store then Some(s.store[key]) else None
  }

  function Pending(s: State, key: Key): seq<Option<Stamp>> {
    if key in s.pending then s.pending[key] else []
  }

  const INITIAL := State(map[], map[], NO_MAPPING, {}, map[])

  datatype Step =
    | Put(key: Key, stamp: Stamp)
    | Delete(key: Key)
    | Deliver(key: Key)
    | Take(key: Key)
    | Fetch(key: Key)
    | List(key: Key)
    | Visit(key: Key, other: Key)
    | Finish(key: Key)

  /** The objects of the other side in the store. */
  function Listed(s: State, key: Key): map<Key, Stamp> {
    map k | k in s.store && Opposite(key, k) :: s.store[k]
  }

  ghost predicate Can(s: State, step: Step) {
    match step
    case Put(key, stamp) => Fitting(key, stamp)
    case Delete(key) => key in s.store
    case Deliver(key) => Pending(s, key) != [] && (Pending(s, key)[0].Some? ==> Fitting(key, Pending(s, key)[0].value))
    case Take(key) => key in s.queued && key !in s.scans
    case Fetch(key) => key in s.scans && s.scans[key].Fetching?
    case List(key) => key in s.scans && s.scans[key].Listing?
    case Visit(key, other) =>
      && key in s.scans && s.scans[key].Scanning? && other in s.scans[key].todo
      && Fitting(key, s.scans[key].own) && Fitting(other, s.scans[key].todo[other]) && Opposite(key, other)
    case Finish(key) =>
      key in s.scans && s.scans[key].Scanning? && s.scans[key].todo == map[] && Fitting(key, s.scans[key].own)
  }

  /** An event handler: it records the object and queues the key, unless nothing changed; a
      deletion clears the key from the index. */
  function DeliverOne(s: State, key: Key): State
    requires Pending(s, key) != [] && (Pending(s, key)[0].Some? ==> Fitting(key, Pending(s, key)[0].value))
  {
    var s1 := s.(pending := s.pending[key := Pending(s, key)[1..]]);
    match Pending(s, key)[0]
    case None => s1.(mapping := Remove(s.mapping, key))
    case Some(stamp) =>
      if Required(s.mapping, key) == Some(stamp) then s1
      else s1.(mapping := Require(s.mapping, key, stamp), queued := s.queued + {key})
  }

  /** One pair of a scan. If the scan's own object is outdated the scan ends (and a quota's is
      stamped as complete all the same); if the other object is, a newer copy is tried next,
      or the pair is skipped when the object is gone. */
  function VisitOne(s: State, key: Key, other: Key): State
    requires key in s.scans && s.scans[key].Scanning? && other in s.scans[key].todo
    requires Fitting(key, s.scans[key].own) && Fitting(other, s.scans[key].todo[other]) && Opposite(key, other)
  {
    var Scanning(own, todo) := s.scans[key];
    if Required(s.mapping, key) != Some(own) then
      s.(scans := s.scans - {key}, mapping := if key.Quota? then Complete(s.mapping, key, own) else s.mapping)
    else if Required(s.mapping, other) == Some(todo[other]) then
      s.(scans := s.scans[key := Scanning(own, todo - {other})],
         mapping := Write(s.mapping, key, own, other, todo[other]))
    else
      var left := if other in s.store then todo[other := s.store[other]] else todo - {other};
      s.(scans := s.scans[key := Scanning(own, left)])
  }

  ghost function Do(s: State, step: Step): State
    requires Can(s, step)
  {
    match step
    case Put(key, stamp) =>
      s.(store := s.store[key := stamp], pending := s.pending[key := Pending(s, key) + [Some(stamp)]])
    case Delete(key) => s.(store := s.store - {key}, pending := s.pending[key := Pending(s, key) + [None]])
    case Deliver(key) => DeliverOne(s, key)
    case Take(key) => s.(queued := s.queued - {key}, scans := s.scans[key := Fetching])
    case Fetch(key) =>
      s.(scans := if key in s.store then s.scans[key := Listing(s.store[key])] else s.scans - {key})
    case List(key) => s.(scans := s.scans[key := Scanning(s.scans[key].own, Listed(s, key))])
    case Visit(key, other) => VisitOne(s, key, other)
    case Finish(key) =>
      s.(scans := s.scans - {key}, mapping := Complete(s.mapping, key, s.scans[key].own))
  }

  ghost predicate Runs(s: State, steps: seq<Step>, end: State)
    decreases |steps|
  {
    if steps == [] then s == end
    else Can(s, steps[0]) && Runs(Do(s, steps[0]), steps[1..], end)
  }

  ghost predicate Reachable(s: State) {
    exists steps :: Runs(INITIAL, steps, s)
  }

  /** All events are delivered, both queues are empty and no scan is in flight. */
  ghost predicate Quiescent(s: State) {
    && (forall key :: Pending(s, key) == [])
    && s.queued == {} && s.scans == map[]
  }
}
