/** Resource lists and sums over finite maps.

    A resource list maps resource names to exact integer quantities. Arithmetic on lists
    treats a missing key as zero, as the Kubernetes quota library does.
 */
module Resources {

  datatype Option<+T> = None | Some(value: T)

  type ResourceList = map<string, int>

  function Get(a: map<string, int>, r: string): int {
    if r in a then a[r] else 0
  }

  function Max(x: int, y: int): int {
    if x <= y then y else x
  }

  /** a + b for each named resource. */
  function Add(a: ResourceList, b: ResourceList): (c: ResourceList)
    ensures c.Keys == a.Keys + b.Keys
    ensures forall r :: Get(c, r) == Get(a, r) + Get(b, r)
  {
    map r | r in a.Keys + b.Keys :: Get(a, r) + Get(b, r)
  }

  /** a - b for each named resource; results may be negative. */
  function Subtract(a: ResourceList, b: ResourceList): (c: ResourceList)
    ensures c.Keys == a.Keys + b.Keys
    ensures forall r :: Get(c, r) == Get(a, r) - Get(b, r)
  {
    map r | r in a.Keys + b.Keys :: Get(a, r) - Get(b, r)
  }

  /** a - b with every result clamped at zero; a resource only b names becomes zero. */
  function SubtractNonNegative(a: ResourceList, b: ResourceList): (c: ResourceList)
    ensures c.Keys == a.Keys + b.Keys
    ensures forall r | r in a :: Get(c, r) == Max(Get(a, r) - Get(b, r), 0)
    ensures forall r | r !in a :: Get(c, r) == 0
  {
    map r | r in a.Keys + b.Keys :: if r in a then Max(a[r] - Get(b, r), 0) else 0
  }

  /** The larger quantity where both lists name a resource, otherwise the only one. */
  function MaxOf(a: ResourceList, b: ResourceList): (c: ResourceList)
    ensures c.Keys == a.Keys + b.Keys
  {
    map r | r in a.Keys + b.Keys ::
      if r in a && r in b then Max(a[r], b[r]) else if r in a then a[r] else b[r]
  }

  /** Only the values whose resource is named. */
  function Mask(a: ResourceList, names: set<string>): (c: ResourceList)
    ensures c.Keys == a.Keys * names
    ensures forall r :: Get(c, r) == if r in names then Get(a, r) else 0
  {
    map r | r in a && r in names :: a[r]
  }

  function RemoveZeros(a: ResourceList): (c: ResourceList)
    ensures forall r :: Get(c, r) == Get(a, r) && (r in c <==> Get(a, r) != 0)
  {
    map r | r in a && a[r] != 0 :: a[r]
  }

  predicate HasPrefix(s: string, prefix: string) {
    |prefix| <= |s| && s[..|prefix|] == prefix
  }

  /** Resources that the managed ResourceQuota does not enforce. */
  predicate IsSchedulable(name: string) {
    if name in {"pods", "cpu", "memory", "ephemeral-storage"} then true
    else if name == "requests.storage" then false
    else HasPrefix(name, "requests.") || HasPrefix(name, "limits.")
  }

  /** Drops the schedulable resources from a copy of the list. */
  method FilterNonSchedulableResources(resources: ResourceList) returns (kept: ResourceList)
    ensures kept == NonSchedulable(resources)
  {
    kept := resources;
    var todo := resources.Keys;
    while todo != {}
      invariant todo <= resources.Keys
      invariant kept == map r | r in resources && (r in todo || !IsSchedulable(r)) :: resources[r]
      decreases todo
    {
      var r :| r in todo;
      if IsSchedulable(r) {
        kept := kept - {r};
      }
      todo := todo - {r};
    }
  }

  function NonSchedulable(a: ResourceList): ResourceList {
    map r | r in a && !IsSchedulable(r) :: a[r]
  }

  // ---------------------------------------------------------------- sums over maps

  ghost function Total(m: map<string, int>): int
    decreases |m|
  {
    if m == map[] then 0
    else
      var k :| k in m;
      m[k] + Total(m - {k})
  }

  lemma {:induction false} TotalRemove(m: map<string, int>, k: string)
    requires k in m
    ensures Total(m) == m[k] + Total(m - {k})
    decreases |m|
  {
    var j :| j in m && Total(m) == m[j] + Total(m - {j});
    if j != k {
      TotalRemove(m - {j}, k);
      TotalRemove(m - {k}, j);
      assert m - {j} - {k} == m - {k} - {j};
    }
  }

  lemma GetWithout(m: map<string, int>, k: string)
    ensures forall j :: Get(m - {k}, j) == if j == k then 0 else Get(m, j)
    ensures |m - {k}| == if k in m then |m| - 1 else |m|
  {
    assert (m - {k}).Keys == m.Keys - {k};
    assert |m - {k}| == |m.Keys - {k}|;
  }

  /** Sums are monotone in the pointwise order that reads a missing key as zero. */
  lemma {:induction false} TotalMonotone(m: map<string, int>, n: map<string, int>)
    requires forall k :: Get(m, k) <= Get(n, k)
    ensures Total(m) <= Total(n)
    decreases |m| + |n|
  {
    if m != map[] || n != map[] {
      var k :| k in m.Keys + n.Keys;
      TotalSplit(m, k);
      TotalSplit(n, k);
      GetWithout(m, k);
      GetWithout(n, k);
      assert Get(m, k) <= Get(n, k);
      TotalMonotone(m - {k}, n - {k});
    }
  }

  lemma TotalSplit(m: map<string, int>, k: string)
    ensures Total(m) == Get(m, k) + Total(m - {k})
  {
    if k in m {
      TotalRemove(m, k);
    } else {
      assert m - {k} == m;
    }
  }

  lemma TotalEqual(m: map<string, int>, n: map<string, int>)
    requires forall k :: Get(m, k) == Get(n, k)
    ensures Total(m) == Total(n)
  {
    TotalMonotone(m, n);
    TotalMonotone(n, m);
  }

  /** Two maps that differ in one key only have sums that differ by that key's change. */
  lemma TotalChange(m: map<string, int>, n: map<string, int>, k: string)
    requires forall j | j != k :: Get(m, j) == Get(n, j)
    ensures Total(n) == Total(m) + Get(n, k) - Get(m, k)
  {
    TotalSplit(m, k);
    TotalSplit(n, k);
    GetWithout(m, k);
    GetWithout(n, k);
    TotalEqual(m - {k}, n - {k});
  }
}
