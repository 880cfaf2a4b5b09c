/** Network proposals: IPv4 addresses are numbers below 2^32, networks and endpoint ranges are
    intervals of them. */
module Network {
  import opened Wrappers

  const ADDRESSES: nat := 0x1_0000_0000

  datatype Net = Net(first: nat, size: nat)          // network address and number of addresses
  datatype Range = Range(first: nat, last: nat)      // inclusive, as configured
  datatype Proposal = Proposal(endpoint: nat, pod: Net, service: Net)

  datatype Failure = OversizedPool | ReversedRange | CidrExhausted | RangeExceedsBound | EndpointsExhausted | InvalidRange
  datatype Outcome<T> = Done(value: T) | Failed(why: Failure)

  // 10.32.0.0/11 in /16 subnets, 10.96.0.0/12 in /20 subnets
  const POD_POOL := Net(0x0a20_0000, 0x20_0000)
  const SERVICE_POOL := Net(0x0a60_0000, 0x10_0000)
  const POD_SIZE: nat := 0x1_0000
  const SERVICE_SIZE: nat := 0x1000

  predicate In(a: nat, n: Net) {
    n.first <= a < n.first + n.size
  }

  predicate Overlap(a: Net, b: Net) {
    a.first < b.first + b.size && b.first < a.first + a.size
  }

  predicate InRange(a: nat, r: Range) {
    r.first <= a <= r.last
  }

  /** A candidate meets the networks that exactly cover the range. */
  predicate MeetsRange(n: Net, r: Range) {
    n.first <= r.last && r.first < n.first + n.size
  }

  // ---- what the interval tests mean, address by address ----

  predicate InAny(a: nat, networks: seq<Net>) {
    exists i :: 0 <= i < |networks| && In(a, networks[i])
  }

  /** Some address of n is occupied, lies in an endpoint range or in an occupied network. */
  ghost predicate Taken(n: Net, networks: seq<Net>, ranges: seq<Range>, addresses: set<nat>) {
    exists a: nat :: In(a, n) && (a in addresses || InSome(a, ranges) || InAny(a, networks))
  }

  /** Every network has an address, and every range too. */
  predicate Proper(networks: seq<Net>, ranges: seq<Range>) {
    && (forall i :: 0 <= i < |networks| ==> networks[i].size > 0)
    && (forall i :: 0 <= i < |ranges| ==> ranges[i].first <= ranges[i].last)
  }

  lemma OverlapMeans(a: Net, b: Net)
    requires a.size > 0 && b.size > 0
    ensures Overlap(a, b) <==> exists x: nat :: In(x, a) && In(x, b)
  {
    var x := if a.first < b.first then b.first else a.first;
    assert Overlap(a, b) ==> In(x, a) && In(x, b);
  }

  lemma MeetsRangeMeans(n: Net, r: Range)
    requires n.size > 0 && r.first <= r.last
    ensures MeetsRange(n, r) <==> exists x: nat :: In(x, n) && InRange(x, r)
  {
    var x := if n.first < r.first then r.first else n.first;
    assert MeetsRange(n, r) ==> In(x, n) && InRange(x, r);
  }

  /** A subnet is clear exactly when none of its addresses is taken by anything. */
  lemma ClearMeans(n: Net, networks: seq<Net>, ranges: seq<Range>, addresses: set<nat>)
    requires n.size > 0 && Proper(networks, ranges)
    ensures Clear(n, networks, ranges, addresses) <==> !Taken(n, networks, ranges, addresses)
  {
    forall i | 0 <= i < |networks| ensures Overlap(n, networks[i]) <==> exists x: nat :: In(x, n) && In(x, networks[i]) {
      OverlapMeans(n, networks[i]);
    }
    forall i | 0 <= i < |ranges| ensures MeetsRange(n, ranges[i]) <==> exists x: nat :: In(x, n) && InRange(x, ranges[i]) {
      MeetsRangeMeans(n, ranges[i]);
    }
    hide Overlap, MeetsRange, In, InRange;
    if Taken(n, networks, ranges, addresses) {
      var a: nat :| In(a, n) && (a in addresses || InSome(a, ranges) || InAny(a, networks));
      if InSome(a, ranges) {
        var i :| 0 <= i < |ranges| && InRange(a, ranges[i]);
        assert MeetsRange(n, ranges[i]);
      } else if InAny(a, networks) {
        var i :| 0 <= i < |networks| && In(a, networks[i]);
        assert Overlap(n, networks[i]);
      }
    }
  }

  /** Whatever the intervals: nothing of a clear subnet is taken. */
  lemma ClearApart(n: Net, networks: seq<Net>, ranges: seq<Range>, addresses: set<nat>)
    requires Clear(n, networks, ranges, addresses)
    ensures !Taken(n, networks, ranges, addresses)
  {
    forall a: nat | In(a, n) ensures !InSome(a, ranges) && !InAny(a, networks) {
      forall i | 0 <= i < |networks| ensures !In(a, networks[i]) { assert !Overlap(n, networks[i]); }
      forall i | 0 <= i < |ranges| ensures !InRange(a, ranges[i]) { assert !MeetsRange(n, ranges[i]); }
    }
  }

  function Total(ranges: seq<Range>): int {
    if ranges == [] then 0 else ranges[0].last - ranges[0].first + 1 + Total(ranges[1..])
  }

  /** Endpoint pools `suggest_network` accepts. */
  predicate Acceptable(ranges: seq<Range>) {
    && ranges != [] && Total(ranges) <= 65536
    && forall i :: 0 <= i < |ranges| ==> ranges[i].first <= ranges[i].last
  }

  // ---- CIDR selection ----

  /** Clear of every occupied network, endpoint range and occupied address. */
  predicate Clear(n: Net, blocked: seq<Net>, ranges: seq<Range>, addresses: set<nat>) {
    && (forall i :: 0 <= i < |blocked| ==> !Overlap(n, blocked[i]))
    && (forall i :: 0 <= i < |ranges| ==> !MeetsRange(n, ranges[i]))
    && (forall a :: a in addresses ==> !In(a, n))
  }

  function Candidate(pool: Net, size: nat, i: nat): Net {
    Net(pool.first + i * size, size)
  }

  /** One of the equal subnets a pool is cut into. */
  ghost predicate Subnet(pool: Net, size: nat, n: Net)
    requires size > 0
  {
    exists i: nat :: i < pool.size / size && n == Candidate(pool, size, i)
  }

  /** The subnets are pairwise apart and make up the whole pool. */
  lemma SubnetsPartition(pool: Net, size: nat, a: nat)
    requires size > 0 && pool.size % size == 0
    ensures In(a, pool) <==> exists n :: Subnet(pool, size, n) && In(a, n)
    ensures forall m, n :: Subnet(pool, size, m) && Subnet(pool, size, n) && In(a, m) && In(a, n) ==> m == n
  {
    hide Subnet, In;
    if In(a, pool) { var n := SubnetOf(pool, size, a); }
    forall n | Subnet(pool, size, n) && In(a, n) ensures In(a, pool) { SubnetInPool(pool, size, n, a); }
    forall m, n | Subnet(pool, size, m) && Subnet(pool, size, n) && In(a, m) && In(a, n) ensures m == n {
      SubnetInPool(pool, size, m, a);
      SubnetInPool(pool, size, n, a);
    }
  }

  lemma SubnetOf(pool: Net, size: nat, a: nat) returns (n: Net)
    requires size > 0 && pool.size % size == 0 && In(a, pool)
    ensures Subnet(pool, size, n) && In(a, n)
  {
    var i := (a - pool.first) / size;
    QuotientBelow(a - pool.first, pool.size, size);
    n := Candidate(pool, size, i);
  }

  lemma SubnetInPool(pool: Net, size: nat, n: Net, a: nat)
    requires size > 0 && pool.size % size == 0 && Subnet(pool, size, n) && In(a, n)
    ensures In(a, pool) && n == Candidate(pool, size, (a - pool.first) / size)
  {
    var i: nat :| i < pool.size / size && n == Candidate(pool, size, i);
    CandidateInPool(pool, size, i);
    QuotientIs(a - pool.first, i, size);
  }

  lemma CandidateInPool(pool: Net, size: nat, i: nat)
    requires size > 0 && pool.size % size == 0 && i < pool.size / size
    ensures i * size + size <= pool.size
  {
    var q := pool.size / size;
    assert q * size == pool.size;
    MulOrder(i + 1, q, size);
    assert (i + 1) * size == i * size + size;
  }

  lemma QuotientBelow(x: nat, y: nat, k: nat)
    requires k > 0 && x < y && y % k == 0
    ensures x / k < y / k && x / k * k <= x < x / k * k + k
  {
    if x / k >= y / k { MulOrder(y / k, x / k, k); }
  }

  lemma QuotientIs(x: nat, i: nat, k: nat)
    requires k > 0 && i * k <= x < i * k + k
    ensures x / k == i
  {
    if x / k < i { MulOrder(x / k + 1, i, k); }
    if x / k > i { MulOrder(i + 1, x / k, k); }
  }

  /** The lowest subnet of the pool that is clear. */
  ghost predicate Lowest(pool: Net, size: nat, n: Net, blocked: seq<Net>, ranges: seq<Range>, addresses: set<nat>)
    requires size > 0
  {
    && Subnet(pool, size, n) && Clear(n, blocked, ranges, addresses)
    && forall m :: Subnet(pool, size, m) && Clear(m, blocked, ranges, addresses) ==> n.first <= m.first
  }

  /** No subnet of the pool is left. */
  ghost predicate UsedUp(pool: Net, size: nat, ranges: seq<Range>, addresses: set<nat>, networks: seq<Net>)
    requires size > 0
  {
    forall n :: Subnet(pool, size, n) ==> Taken(n, networks, ranges, addresses)
  }

  lemma NoneClear(pool: Net, size: nat, ranges: seq<Range>, addresses: set<nat>, networks: seq<Net>)
    requires size > 0 && Proper(networks, ranges)
    requires forall n :: Subnet(pool, size, n) ==> !Clear(n, networks, ranges, addresses)
    ensures UsedUp(pool, size, ranges, addresses, networks)
  {
    hide Clear;
    forall n | Subnet(pool, size, n) ensures Taken(n, networks, ranges, addresses) {
      ClearMeans(n, networks, ranges, addresses);
    }
  }

  lemma BelowAreTaken(pool: Net, size: nat, n: Net, networks: seq<Net>, ranges: seq<Range>, addresses: set<nat>)
    requires size > 0 && Proper(networks, ranges) && Lowest(pool, size, n, networks, ranges, addresses)
    ensures forall m :: Subnet(pool, size, m) && m.first < n.first ==> Taken(m, networks, ranges, addresses)
  {
    hide Clear;
    forall m | Subnet(pool, size, m) && m.first < n.first ensures Taken(m, networks, ranges, addresses) {
      ClearMeans(m, networks, ranges, addresses);
    }
  }

  method PickSubnet(pool: Net, size: nat, blocked: seq<Net>, ranges: seq<Range>, addresses: set<nat>)
    returns (result: Outcome<Net>)
    requires size > 0
    ensures result.Done? ==> Lowest(pool, size, result.value, blocked, ranges, addresses)
    ensures result.Failed? ==> result.why == CidrExhausted
    ensures result.Failed? ==> forall n :: Subnet(pool, size, n) ==> !Clear(n, blocked, ranges, addresses)
    // address by address
    ensures result.Done? ==> !Taken(result.value, blocked, ranges, addresses)
    ensures result.Done? && Proper(blocked, ranges) ==>
      forall m :: Subnet(pool, size, m) && m.first < result.value.first ==> Taken(m, blocked, ranges, addresses)
    ensures result.Failed? && Proper(blocked, ranges) ==> UsedUp(pool, size, ranges, addresses, blocked)
  {
    hide Taken, UsedUp;
    for i := 0 to pool.size / size
      invariant forall j: nat :: j < i ==> !Clear(Candidate(pool, size, j), blocked, ranges, addresses)
    {
      var candidate := Candidate(pool, size, i);
      if Clear(candidate, blocked, ranges, addresses) {
        LowestAt(pool, size, i, blocked, ranges, addresses);
        ClearApart(candidate, blocked, ranges, addresses);
        if Proper(blocked, ranges) { BelowAreTaken(pool, size, candidate, blocked, ranges, addresses); }
        return Done(candidate);
      }
    }
    if Proper(blocked, ranges) { NoneClear(pool, size, ranges, addresses, blocked); }
    return Failed(CidrExhausted);
  }

  lemma LowestAt(pool: Net, size: nat, i: nat, blocked: seq<Net>, ranges: seq<Range>, addresses: set<nat>)
    requires size > 0 && i < pool.size / size && Clear(Candidate(pool, size, i), blocked, ranges, addresses)
    requires forall j: nat :: j < i ==> !Clear(Candidate(pool, size, j), blocked, ranges, addresses)
    ensures Lowest(pool, size, Candidate(pool, size, i), blocked, ranges, addresses)
  {
    forall m | Subnet(pool, size, m) && Clear(m, blocked, ranges, addresses)
      ensures Candidate(pool, size, i).first <= m.first
    {
      var j: nat :| j < pool.size / size && m == Candidate(pool, size, j);
      MulOrder(i, j, size);
    }
  }

  lemma MulOrder(i: nat, j: nat, k: nat)
    ensures i <= j ==> i * k <= j * k
  {
  }

  // ---- endpoint selection ----

  /** Loopback, multicast, unspecified, link-local and broadcast addresses. */
  predicate Special(a: nat) {
    || 0x7f00_0000 <= a < 0x8000_0000
    || 0xe000_0000 <= a < 0xf000_0000
    || a == 0
    || 0xa9fe_0000 <= a < 0xa9ff_0000
    || a == 0xffff_ffff
  }

  predicate Free(a: nat, blocked: seq<Net>, addresses: set<nat>) {
    && a !in addresses && !Special(a)
    && forall i :: 0 <= i < |blocked| ==> !In(a, blocked[i])
  }

  predicate InSome(a: nat, ranges: seq<Range>) {
    exists i :: 0 <= i < |ranges| && InRange(a, ranges[i])
  }

  /** Python's tuple order. */
  predicate Before(a: Range, b: Range) {
    a.first < b.first || (a.first == b.first && a.last <= b.last)
  }

  predicate Ordered(s: seq<Range>) {
    forall i, j :: 0 <= i < j < |s| ==> Before(s[i], s[j])
  }

  function Insert(r: Range, s: seq<Range>): seq<Range> {
    if s == [] || Before(r, s[0]) then [r] + s else [s[0]] + Insert(r, s[1..])
  }

  function Sorted(s: seq<Range>): seq<Range> {
    if s == [] then [] else Insert(s[0], Sorted(s[1..]))
  }

  lemma {:induction false} InsertMembers(r: Range, s: seq<Range>)
    ensures multiset(Insert(r, s)) == multiset(s) + multiset{r}
  {
    if s != [] && !Before(r, s[0]) {
      assert s == [s[0]] + s[1..];
      InsertMembers(r, s[1..]);
    }
  }

  lemma {:induction false} InsertOrdered(r: Range, s: seq<Range>)
    requires Ordered(s)
    ensures Ordered(Insert(r, s))
  {
    if s != [] && !Before(r, s[0]) {
      InsertOrdered(r, s[1..]);
      InsertMembers(r, s[1..]);
      var rest := Insert(r, s[1..]);
      forall i | 0 <= i < |rest| ensures Before(s[0], rest[i]) {
        assert rest[i] in multiset(rest);
        assert rest[i] == r || rest[i] in multiset(s[1..]);
      }
    }
  }

  /** Sorting orders the ranges and loses none. */
  lemma {:induction false} SortedSorts(s: seq<Range>)
    ensures Ordered(Sorted(s)) && multiset(Sorted(s)) == multiset(s)
  {
    if s != [] {
      SortedSorts(s[1..]);
      InsertOrdered(s[0], Sorted(s[1..]));
      InsertMembers(s[0], Sorted(s[1..]));
      assert s == [s[0]] + s[1..];
    }
  }

  lemma SameMembers(s: seq<Range>, t: seq<Range>)
    requires multiset(s) == multiset(t)
    ensures forall x :: x in s <==> x in t
    ensures forall a :: InSome(a, s) <==> InSome(a, t)
  {
    assert forall x :: x in s <==> x in multiset(s);
    assert forall x :: x in t <==> x in multiset(t);
    forall a | InSome(a, s) ensures InSome(a, t) {
      var i :| 0 <= i < |s| && InRange(a, s[i]);
      assert s[i] in t;
    }
    forall a | InSome(a, t) ensures InSome(a, s) {
      var i :| 0 <= i < |t| && InRange(a, t[i]);
      assert t[i] in s;
    }
  }

  /** Least free address of the union of the ranges. */
  ghost predicate LeastFree(a: nat, ranges: seq<Range>, blocked: seq<Net>, addresses: set<nat>) {
    && InSome(a, ranges) && Free(a, blocked, addresses)
    && forall b :: InSome(b, ranges) && Free(b, blocked, addresses) ==> a <= b
  }

  method PickEndpoint(ranges: seq<Range>, blocked: seq<Net>, addresses: set<nat>) returns (result: Outcome<nat>)
    requires forall i :: 0 <= i < |ranges| ==> ranges[i].first <= ranges[i].last
    ensures result.Done? ==> LeastFree(result.value, ranges, blocked, addresses)
    ensures result.Failed? && result.why == RangeExceedsBound ==>
      exists i :: 0 <= i < |ranges| && ranges[i].last - ranges[i].first > 65535
    ensures result.Failed? && result.why != RangeExceedsBound ==>
      result.why == EndpointsExhausted && forall a :: InSome(a, ranges) ==> !Free(a, blocked, addresses)
  {
    var sorted := Sorted(ranges);
    SortedSorts(ranges);
    SameMembers(sorted, ranges);
    for i := 0 to |sorted|
      invariant forall j, a :: 0 <= j < i && InRange(a, sorted[j]) ==> !Free(a, blocked, addresses)
    {
      var r := sorted[i];
      assert r in ranges;
      if r.last - r.first > 65535 { return Failed(RangeExceedsBound); }
      for a := r.first to r.last + 1
        invariant forall b :: r.first <= b < a ==> !Free(b, blocked, addresses)
      {
        if Free(a, blocked, addresses) {
          LeastIsFirst(sorted, i, a, blocked, addresses);
          assert InSome(a, sorted);
          return Done(a);
        }
      }
    }
    return Failed(EndpointsExhausted);
  }

  /** The first free address met in start order is the least of the whole union, even where ranges
      overlap. */
  lemma LeastIsFirst(s: seq<Range>, i: nat, a: nat, blocked: seq<Net>, addresses: set<nat>)
    requires Ordered(s) && i < |s| && InRange(a, s[i])
    requires forall j, b :: 0 <= j < i && InRange(b, s[j]) ==> !Free(b, blocked, addresses)
    requires forall b :: s[i].first <= b < a ==> !Free(b, blocked, addresses)
    ensures forall b :: InSome(b, s) && Free(b, blocked, addresses) ==> a <= b
  {
    forall b | InSome(b, s) && Free(b, blocked, addresses) ensures a <= b {
      var j :| 0 <= j < |s| && InRange(b, s[j]);
      assert j >= i;
      assert s[i].first <= s[j].first;
    }
  }

  // ---- suggest_network ----

  /** A triple that respects everything known. */
  ghost predicate Valid(p: Proposal, ranges: seq<Range>, addresses: set<nat>, networks: seq<Net>) {
    && Subnet(POD_POOL, POD_SIZE, p.pod) && Clear(p.pod, networks, ranges, addresses)
    && Subnet(SERVICE_POOL, SERVICE_SIZE, p.service) && Clear(p.service, networks, ranges, addresses)
    && InSome(p.endpoint, ranges) && Free(p.endpoint, networks, addresses)
  }

  /** The componentwise least valid triple. */
  ghost predicate Best(p: Proposal, ranges: seq<Range>, addresses: set<nat>, networks: seq<Net>) {
    && Valid(p, ranges, addresses, networks)
    && forall q :: Valid(q, ranges, addresses, networks) ==>
         p.endpoint <= q.endpoint && p.pod.first <= q.pod.first && p.service.first <= q.service.first
  }

  lemma TotalBounds(ranges: seq<Range>, i: nat)
    requires i < |ranges| && forall j :: 0 <= j < |ranges| ==> ranges[j].first <= ranges[j].last
    ensures 0 < ranges[i].last - ranges[i].first + 1 <= Total(ranges)
  {
    if i > 0 { TotalBounds(ranges[1..], i - 1); TotalPositive(ranges[1..]); } else { TotalPositive(ranges[1..]); }
  }

  lemma {:induction false} TotalPositive(ranges: seq<Range>)
    requires forall j :: 0 <= j < |ranges| ==> ranges[j].first <= ranges[j].last
    ensures Total(ranges) >= 0
  {
    if ranges != [] { TotalPositive(ranges[1..]); }
  }

  /** Address by address: the CIDRs share none with each other or with anything known, and the endpoint
      is a configured address that nothing holds. */
  ghost predicate KeepsApart(p: Proposal, ranges: seq<Range>, addresses: set<nat>, networks: seq<Net>) {
    && (forall a: nat :: In(a, p.pod) || In(a, p.service) ==>
          a !in addresses && !InSome(a, ranges) && !InAny(a, networks))
    && (forall a: nat :: !(In(a, p.pod) && In(a, p.service)))
    && InSome(p.endpoint, ranges) && p.endpoint !in addresses && !InAny(p.endpoint, networks)
  }

  /** No configured address is left. */
  ghost predicate NoAddress(ranges: seq<Range>, addresses: set<nat>, networks: seq<Net>) {
    forall a :: InSome(a, ranges) ==> a in addresses || Special(a) || InAny(a, networks)
  }

  lemma BestKeepsApart(p: Proposal, ranges: seq<Range>, addresses: set<nat>, networks: seq<Net>)
    requires Valid(p, ranges, addresses, networks)
    ensures KeepsApart(p, ranges, addresses, networks)
  {
    ClearApart(p.pod, networks, ranges, addresses);
    ClearApart(p.service, networks, ranges, addresses);
    PoolsApart(p.pod, p.service);
    assert p.pod.size > 0 && p.service.size > 0;
    OverlapMeans(p.pod, p.service);
  }

  method SuggestNetwork(ranges: seq<Range>, addresses: set<nat>, networks: seq<Net>) returns (result: Outcome<Proposal>)
    ensures result.Done? ==> Acceptable(ranges) && Best(result.value, ranges, addresses, networks)
    ensures result.Failed? && Acceptable(ranges) ==>
      && (result.why == CidrExhausted || result.why == EndpointsExhausted)
      && forall p :: !Valid(p, ranges, addresses, networks)
    ensures result == Failed(OversizedPool) <==> ranges == [] || Total(ranges) > 65536
    ensures result == Failed(ReversedRange) <==>
      ranges != [] && Total(ranges) <= 65536 && exists i :: 0 <= i < |ranges| && ranges[i].last < ranges[i].first
    ensures result.Done? ==> KeepsApart(result.value, ranges, addresses, networks)
    ensures result == Failed(CidrExhausted) && Proper(networks, ranges) ==>
      || UsedUp(POD_POOL, POD_SIZE, ranges, addresses, networks)
      || UsedUp(SERVICE_POOL, SERVICE_SIZE, ranges, addresses, networks)
    ensures result == Failed(EndpointsExhausted) ==> NoAddress(ranges, addresses, networks)
  {
    hide Clear, UsedUp, KeepsApart, Special;
    if ranges == [] || Total(ranges) > 65536 { return Failed(OversizedPool); }
    for i := 0 to |ranges|
      invariant forall j :: 0 <= j < i ==> ranges[j].first <= ranges[j].last
    {
      if ranges[i].last < ranges[i].first { return Failed(ReversedRange); }
    }
    var blocked := networks;
    var pod := PickSubnet(POD_POOL, POD_SIZE, blocked, ranges, addresses);
    if pod.Failed? {
      if Proper(networks, ranges) { NoneClear(POD_POOL, POD_SIZE, ranges, addresses, networks); }
      return Failed(pod.why);
    }
    blocked := blocked + [pod.value];
    var service := PickSubnet(SERVICE_POOL, SERVICE_SIZE, blocked, ranges, addresses);
    forall n | Subnet(SERVICE_POOL, SERVICE_SIZE, n)
      ensures Clear(n, networks + [pod.value], ranges, addresses) == Clear(n, networks, ranges, addresses)
    {
      PoolsApart(pod.value, n);
      ClearMore(n, networks, pod.value, ranges, addresses);
    }
    if service.Failed? {
      if Proper(networks, ranges) { NoneClear(SERVICE_POOL, SERVICE_SIZE, ranges, addresses, networks); }
      return Failed(service.why);
    }
    blocked := blocked + [service.value];
    var endpoint := PickEndpoint(ranges, blocked, addresses);
    forall i | 0 <= i < |ranges| ensures ranges[i].last - ranges[i].first <= 65535 { TotalBounds(ranges, i); }
    forall a | InSome(a, ranges) ensures Free(a, blocked, addresses) == Free(a, networks, addresses) {
      ClearOfRanges(pod.value, networks, ranges, addresses);
      ClearOfRanges(service.value, networks, ranges, addresses);
      FreeMore(a, networks, pod.value, service.value, ranges, addresses);
    }
    if endpoint.Failed? { return Failed(endpoint.why); }
    var proposal := Proposal(endpoint.value, pod.value, service.value);
    BestKeepsApart(proposal, ranges, addresses, networks);
    return Done(proposal);
  }

  /** Subnets of the two pools never meet. */
  lemma PoolsApart(pod: Net, service: Net)
    requires Subnet(POD_POOL, POD_SIZE, pod) && Subnet(SERVICE_POOL, SERVICE_SIZE, service)
    ensures !Overlap(service, pod) && !Overlap(pod, service)
  {
    var i: nat :| i < POD_POOL.size / POD_SIZE && pod == Candidate(POD_POOL, POD_SIZE, i);
    MulOrder(i, 31, POD_SIZE);
  }

  lemma ClearOfRanges(n: Net, networks: seq<Net>, ranges: seq<Range>, addresses: set<nat>)
    requires Clear(n, networks, ranges, addresses)
    ensures forall i :: 0 <= i < |ranges| ==> !MeetsRange(n, ranges[i])
  {
  }

  lemma ClearMore(n: Net, networks: seq<Net>, other: Net, ranges: seq<Range>, addresses: set<nat>)
    requires !Overlap(n, other)
    ensures Clear(n, networks + [other], ranges, addresses) == Clear(n, networks, ranges, addresses)
  {
    assert forall i :: 0 <= i < |networks| ==> (networks + [other])[i] == networks[i];
  }

  /** Chosen CIDRs cannot take an endpoint: they keep clear of the endpoint ranges. */
  lemma FreeMore(a: nat, networks: seq<Net>, pod: Net, service: Net, ranges: seq<Range>, addresses: set<nat>)
    requires InSome(a, ranges)
    requires forall i :: 0 <= i < |ranges| ==> !MeetsRange(pod, ranges[i]) && !MeetsRange(service, ranges[i])
    ensures Free(a, networks + [pod] + [service], addresses) == Free(a, networks, addresses)
  {
    var all := networks + [pod] + [service];
    assert forall i :: 0 <= i < |networks| ==> all[i] == networks[i];
    assert all[|networks|] == pod && all[|networks|+1] == service;
  }

  // ---- callers' expectations ----

  /** Octet i of an address, from the left. */
  function Octet(a: nat, i: nat): nat {
    match i
    case 0 => a / 0x100_0000
    case 1 => a / 0x1_0000 % 0x100
    case 2 => a / 0x100 % 0x100
    case _ => a % 0x100
  }

  /** Octet by octet: 127/8, 224/4, 0.0.0.0, 169.254/16 and 255.255.255.255. */
  lemma SpecialExactly(a: nat)
    requires a < ADDRESSES
    ensures Special(a) <==>
      || Octet(a, 0) == 127
      || 224 <= Octet(a, 0) < 240
      || (Octet(a, 0) == 169 && Octet(a, 1) == 254)
      || (forall i :: 0 <= i < 4 ==> Octet(a, i) == 0)
      || (forall i :: 0 <= i < 4 ==> Octet(a, i) == 255)
  {
    assert Octet(a, 0) == 0 && Octet(a, 1) == 0 && Octet(a, 2) == 0 && Octet(a, 3) == 0 <==> a == 0;
    assert Octet(a, 0) == 255 && Octet(a, 1) == 255 && Octet(a, 2) == 255 && Octet(a, 3) == 255 <==> a == 0xffff_ffff;
  }

  /** Canonical network in prefix notation: power-of-two size, aligned. */
  ghost predicate Canonical(n: Net) {
    n.size > 0 && ADDRESSES % n.size == 0 && n.first % n.size == 0 && n.first + n.size <= ADDRESSES
  }

  /** `validateClusterIntentNetwork`: IsGlobalUnicast and its further exclusions, canonical disjoint
      networks without the endpoint. */
  ghost predicate ValidatorAccepts(p: Proposal) {
    && p.endpoint < ADDRESSES
    && p.endpoint != 0 && p.endpoint != 0xffff_ffff                  // not global unicast
    && !(0x7f00_0000 <= p.endpoint <= 0x7fff_ffff)                   // loopback
    && !(0xe000_0000 <= p.endpoint <= 0xefff_ffff)                   // multicast
    && !(0xa9fe_0000 <= p.endpoint <= 0xa9fe_ffff)                   // link-local
    && Canonical(p.pod) && Canonical(p.service)
    && !Overlap(p.pod, p.service) && !In(p.endpoint, p.pod) && !In(p.endpoint, p.service)
  }

  /** The renderer's own re-check of an intent. */
  predicate AdapterAccepts(p: Proposal) {
    && !Overlap(p.pod, p.service) && !In(p.endpoint, p.pod) && !In(p.endpoint, p.service) && !Special(p.endpoint)
  }

  lemma PodCanonical(n: Net)
    requires Subnet(POD_POOL, POD_SIZE, n)
    ensures Canonical(n)
  {
    var i: nat :| i < POD_POOL.size / POD_SIZE && n == Candidate(POD_POOL, POD_SIZE, i);
    assert n == Net(0x1_0000 * (0x0a20 + i), 0x1_0000) && i < 32;
  }

  lemma ServiceCanonical(n: Net)
    requires Subnet(SERVICE_POOL, SERVICE_SIZE, n)
    ensures Canonical(n)
  {
    var i: nat :| i < SERVICE_POOL.size / SERVICE_SIZE && n == Candidate(SERVICE_POOL, SERVICE_SIZE, i);
    assert n == Net(0x1000 * (0xa600 + i), 0x1000) && i < 256;
  }

  /** Every proposal passes both checks its callers make later. */
  lemma ProposalAccepted(p: Proposal, ranges: seq<Range>, addresses: set<nat>, networks: seq<Net>)
    requires Valid(p, ranges, addresses, networks)
    requires forall i :: 0 <= i < |ranges| ==> ranges[i].last < ADDRESSES
    ensures ValidatorAccepts(p) && AdapterAccepts(p)
  {
    PodCanonical(p.pod);
    ServiceCanonical(p.service);
    PoolsApart(p.pod, p.service);
    var i :| 0 <= i < |ranges| && InRange(p.endpoint, ranges[i]);
    assert !MeetsRange(p.pod, ranges[i]) && !MeetsRange(p.service, ranges[i]);
  }

  // ---- avoidBuggyIPs ----

  /** Addresses of the ranges that end in .0 or .255. */
  ghost predicate Buggy(a: nat, ranges: seq<Range>) {
    InSome(a, ranges) && (a % 256 == 0 || a % 256 == 255)
  }

  method ExcludeBuggy(ranges: seq<Range>, occupied: set<nat>) returns (addresses: set<nat>)
    ensures forall a :: a in addresses <==> a in occupied || Buggy(a, ranges)
  {
    addresses := occupied;
    for i := 0 to |ranges|
      invariant forall a :: a in addresses <==>
        a in occupied || (Buggy(a, ranges[..i]) && InSome(a, ranges[..i]))
    {
      ghost var before := addresses;
      if ranges[i].first <= ranges[i].last {
        for a := ranges[i].first to ranges[i].last + 1
          invariant forall b: nat :: b in addresses <==>
            b in before || (ranges[i].first <= b < a && (b % 256 == 0 || b % 256 == 255))
        {
          if a % 256 == 0 || a % 256 == 255 { addresses := addresses + {a}; }
        }
      }
      forall a: nat ensures InSome(a, ranges[..i+1]) <==> InSome(a, ranges[..i]) || InRange(a, ranges[i]) {
        PrefixRanges(a, ranges, i);
      }
    }
    assert ranges[..|ranges|] == ranges;
  }

  lemma PrefixRanges(a: nat, ranges: seq<Range>, i: nat)
    requires i < |ranges|
    ensures InSome(a, ranges[..i+1]) <==> InSome(a, ranges[..i]) || InRange(a, ranges[i])
  {
    assert ranges[..i+1][i] == ranges[i];
    assert forall j :: 0 <= j < i ==> ranges[..i+1][j] == ranges[..i][j];
    if InSome(a, ranges[..i]) {
      var j :| 0 <= j < i && InRange(a, ranges[..i][j]);
      assert InRange(a, ranges[..i+1][j]);
    }
    if InSome(a, ranges[..i+1]) {
      var j :| 0 <= j < i + 1 && InRange(a, ranges[..i+1][j]);
      if j < i { assert InRange(a, ranges[..i][j]); }
    }
  }

  /** Candidates already keep clear of the ranges, so excluding addresses of the ranges changes
      neither CIDR; it can only move the endpoint up. */
  lemma BuggyKeepsCidrs(ranges: seq<Range>, addresses: set<nat>, more: set<nat>, networks: seq<Net>, p: Proposal, q: Proposal)
    requires forall a :: a in more <==> a in addresses || Buggy(a, ranges)
    requires Best(p, ranges, addresses, networks) && Best(q, ranges, more, networks)
    ensures q.pod == p.pod && q.service == p.service
    ensures p.endpoint <= q.endpoint && q.endpoint % 256 != 0 && q.endpoint % 256 != 255
  {
    forall n ensures Clear(n, networks, ranges, more) == Clear(n, networks, ranges, addresses) {
      SameClear(n, networks, ranges, addresses, more);
    }
    assert Valid(q, ranges, addresses, networks);
    assert Valid(q.(pod := p.pod, service := p.service), ranges, more, networks);
    SameFirst(p, q);
  }

  lemma SameClear(n: Net, networks: seq<Net>, ranges: seq<Range>, addresses: set<nat>, more: set<nat>)
    requires forall a :: a in more <==> a in addresses || Buggy(a, ranges)
    ensures Clear(n, networks, ranges, more) == Clear(n, networks, ranges, addresses)
  {
    if Clear(n, networks, ranges, addresses) {
      forall a | a in more ensures !In(a, n) {
        if a !in addresses {
          var i :| 0 <= i < |ranges| && InRange(a, ranges[i]);
          assert !MeetsRange(n, ranges[i]);
        }
      }
    }
  }

  lemma SameFirst(p: Proposal, q: Proposal)
    requires Subnet(POD_POOL, POD_SIZE, p.pod) && Subnet(POD_POOL, POD_SIZE, q.pod)
    requires Subnet(SERVICE_POOL, SERVICE_SIZE, p.service) && Subnet(SERVICE_POOL, SERVICE_SIZE, q.service)
    ensures p.pod.first == q.pod.first ==> p.pod == q.pod
    ensures p.service.first == q.service.first ==> p.service == q.service
  {
  }

  // ---- address_ranges ----

  /** One configured endpoint value, parsed. */
  datatype Value = Cidr(net: Net) | Span(first: nat, last: nat) | Malformed

  /** Both ends of a value; a malformed one has no range, shown here as a reversed one. */
  function RangeOf(value: Value): Range {
    match value
    case Cidr(net) => Range(net.first, if net.size == 0 then net.first else net.first + net.size - 1)
    case Span(first, last) => Range(first, last)
    case Malformed => Range(1, 0)
  }

  function RangesOf(values: seq<Value>): seq<Range> {
    seq(|values|, i requires 0 <= i < |values| => RangeOf(values[i]))
  }

  predicate Usable(value: Value) {
    && !value.Malformed?
    && RangeOf(value).first <= RangeOf(value).last && RangeOf(value).last - RangeOf(value).first <= 65535
  }

  /** Either every value is usable and `suggest_network` accepts the ranges, or the configuration is
      refused for exactly the reason given. */
  method AddressRanges(values: seq<Value>) returns (result: Outcome<seq<Range>>)
    ensures result.Done? ==> result.value == RangesOf(values) && Acceptable(result.value)
    ensures result.Done? <==> values != [] && Total(RangesOf(values)) <= 65536 && forall v :: v in values ==> Usable(v)
    ensures result.Failed? ==> result.why == InvalidRange || result.why == OversizedPool
    ensures result == Failed(InvalidRange) <==> exists v :: v in values && !Usable(v)
  {
    var ranges: seq<Range> := [];
    for i := 0 to |values|
      invariant ranges == RangesOf(values)[..i]
      invariant forall j :: 0 <= j < i ==> Usable(values[j])
    {
      if !Usable(values[i]) { return Failed(InvalidRange); }
      ranges := ranges + [RangeOf(values[i])];
    }
    assert RangesOf(values)[..|values|] == RangesOf(values);
    if ranges == [] || Total(ranges) > 65536 { return Failed(OversizedPool); }
    return Done(ranges);
  }
}
